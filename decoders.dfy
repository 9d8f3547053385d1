/**
 * The decoder-variant choice of initialize_model: which decoder the
 * sequence-to-sequence model is built with, and the file-name suffix that
 * the run's vocabulary and translation files carry.
 */
module Decoders {

  datatype DecoderKind = FullAttention | UniformAttention | NoAttention

  datatype DecoderChoice = DecoderChoice(decoder: DecoderKind, suffix: string)

  /**
   * The if/elif/else on the attention name. The suffix names the variant that
   * was asked for by name; the flag for no-attention decoding at inference
   * only changes the decoder.
   */
  function SelectDecoder(attention: string, decodeNoAttInference: bool): (c: DecoderChoice)
    ensures c.suffix == "_uniform" <==> c.decoder == UniformAttention
    ensures c.suffix == "_no-attn" ==> c.decoder == NoAttention
    ensures c.decoder == FullAttention ==> c.suffix == "" && !decodeNoAttInference
  {
    if attention == "uniform" then
      DecoderChoice(UniformAttention, "_uniform")
    else if attention == "no-attention" || decodeNoAttInference then
      DecoderChoice(NoAttention, if attention == "no-attention" then "_no-attn" else "")
    else
      DecoderChoice(FullAttention, "")
  }

  /** 'uniform' wins over the inference flag. */
  lemma UniformTakesPrecedence(decodeNoAttInference: bool)
    ensures SelectDecoder("uniform", decodeNoAttInference) == DecoderChoice(UniformAttention, "_uniform")
  {
  }

  /** The no-attention decoder is chosen exactly when the name asks for it or the flag forces it, short of 'uniform'. */
  lemma NoAttentionDecoderExactly(attention: string, decodeNoAttInference: bool)
    ensures SelectDecoder(attention, decodeNoAttInference).decoder == NoAttention
        <==> attention != "uniform" && (attention == "no-attention" || decodeNoAttInference)
  {
  }

  /** The suffix depends on the attention name alone, never on the inference flag. */
  lemma SuffixIgnoresInferenceFlag(attention: string, f: bool, g: bool)
    ensures SelectDecoder(attention, f).suffix == SelectDecoder(attention, g).suffix
    ensures SelectDecoder(attention, f).suffix == "_no-attn" <==> attention == "no-attention"
  {
  }

  /** Any other name, recognised or not, silently gets the full-attention decoder and no suffix. */
  lemma UnrecognisedNamesFallBack(attention: string)
    requires attention != "uniform" && attention != "no-attention"
    ensures SelectDecoder(attention, false) == DecoderChoice(FullAttention, "")
    ensures SelectDecoder(attention, true) == DecoderChoice(NoAttention, "")
  {
  }
}
