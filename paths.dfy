/**
 * The file-name builders of the training script: decimal rendering of the
 * integer fields, and the checkpoint, vocabulary and translation paths.
 */
module Paths {

  const DataDir := "../data/"
  const DataVocabDir := DataDir + "vocab/"
  const DataTranslationsDir := DataDir + "translations/"
  const DataModelsDir := DataDir + "models/"

  predicate IsDigit(c: char) { '0' <= c <= '9' }

  function DigitChar(d: nat): (c: char)
    requires d < 10
    ensures IsDigit(c)
  {
    ('0' as int + d) as char
  }

  /** The value of a decimal digit; 0 for any other character. */
  function DigitValue(c: char): nat
  {
    if IsDigit(c) then (c as int - '0' as int) as nat else 0
  }

  /** Python's str(n) for a non-negative integer: its decimal digits, no leading zero. */
  function NatToString(n: nat): string
    decreases n
  {
    if n < 10 then [DigitChar(n)] else NatToString(n / 10) + [DigitChar(n % 10)]
  }

  /** Python's str(i) for any integer: a minus sign before the digits of a negative value. */
  function IntToString(i: int): string
  {
    if i < 0 then "-" + NatToString(-i) else NatToString(i)
  }

  /** str(n) is a non-empty run of digits, a single one exactly for n below 10. */
  lemma {:induction false} NatToStringDigits(n: nat)
    ensures var s := NatToString(n);
      |s| >= 1 && (forall k :: 0 <= k < |s| ==> IsDigit(s[k])) && ((n < 10) == (|s| == 1))
    decreases n
  {
    if n >= 10 {
      NatToStringDigits(n / 10);
    }
  }

  /** str(i) starts with a minus sign exactly when i is negative. */
  lemma IntToStringSign(i: int)
    ensures var s := IntToString(i);
      |s| >= 1 && ((i < 0) == (s[0] == '-'))
  {
    if i < 0 {
      NatToStringDigits(-i);
    } else {
      NatToStringDigits(i);
      assert IsDigit(NatToString(i)[0]);
    }
  }

  /** Reads a string of decimal digits back as a number (the inverse of NatToString). */
  function ParseDecimal(s: string): nat
    decreases |s|
  {
    if s == [] then 0 else ParseDecimal(s[..|s| - 1]) * 10 + DigitValue(s[|s| - 1])
  }

  lemma DigitRoundTrip(d: nat)
    requires d < 10
    ensures DigitValue(DigitChar(d)) == d
  {
  }

  lemma {:induction false} ParseNatToString(n: nat)
    ensures ParseDecimal(NatToString(n)) == n
    decreases n
  {
    var s := NatToString(n);
    DigitRoundTrip(n % 10);
    if n >= 10 {
      assert s[..|s| - 1] == NatToString(n / 10);
      ParseNatToString(n / 10);
    } else {
      assert s[..|s| - 1] == [];
    }
  }

  lemma NatToStringInjective(a: nat, b: nat)
    requires NatToString(a) == NatToString(b)
    ensures a == b
  {
    ParseNatToString(a);
    ParseNatToString(b);
  }

  /** Equal strings that share a prefix and a suffix agree in the middle. */
  lemma MiddleCancel(p: string, x: string, y: string, q: string)
    requires p + x + q == p + y + q
    ensures x == y
  {
    var w := p + x + q;
    assert |x| == |y|;
    assert x == w[|p|..|p| + |x|];
    assert y == (p + y + q)[|p|..|p| + |y|];
  }

  /** get_data_path: the stem shared by the vocabulary and translation files. */
  function DataPath(coeff: string, epochsTakenToConverge: nat, seed: int, suffix: string, task: string): string
  {
    task + suffix + "_seed=" + IntToString(seed) + "_coeff=" + coeff
      + "_epoch=" + NatToString(epochsTakenToConverge)
  }

  /** get_vocab_path: the stem under the vocabulary directory. */
  function VocabPath(coeff: string, epochsTakenToConverge: nat, seed: int, suffix: string, task: string): string
  {
    DataVocabDir + DataPath(coeff, epochsTakenToConverge, seed, suffix, task)
  }

  /** get_translations_path: the stem under the translations directory. */
  function TranslationsPath(coeff: string, epochsTakenToConverge: nat, seed: int, suffix: string, task: string): string
  {
    DataTranslationsDir + DataPath(coeff, epochsTakenToConverge, seed, suffix, task)
  }

  /** The part of a checkpoint file name that identifies the run, everything before the epoch number. */
  function ModelRunName(task: string, attention: string, seed: int, coeff: string): string
  {
    "model_" + task + "_attention=" + attention + "_seed=" + IntToString(seed) + "_coeff=" + coeff + "_epoch="
  }

  /** The checkpoint file name of one epoch of one run. */
  function ModelFileName(task: string, attention: string, seed: int, coeff: string, epochsTakenToConverge: nat): string
  {
    ModelRunName(task, attention, seed, coeff) + NatToString(epochsTakenToConverge) + ".pt"
  }

  /** get_model_path: the checkpoint file of one epoch of one run, under the models directory. */
  function ModelPath(task: string, attention: string, seed: int, coeff: string, epochsTakenToConverge: nat): string
  {
    DataModelsDir + ModelFileName(task, attention, seed, coeff, epochsTakenToConverge)
  }

  /** A vocabulary stem is the run's data stem under the vocabulary directory. */
  lemma VocabPathShape(coeff: string, epoch: nat, seed: int, suffix: string, task: string)
    ensures var p := VocabPath(coeff, epoch, seed, suffix, task);
      |p| > |DataVocabDir| && p[..|DataVocabDir|] == DataVocabDir
      && p[|DataVocabDir|..] == DataPath(coeff, epoch, seed, suffix, task)
  {
  }

  /** A translations stem is the run's data stem under the translations directory. */
  lemma TranslationsPathShape(coeff: string, epoch: nat, seed: int, suffix: string, task: string)
    ensures var p := TranslationsPath(coeff, epoch, seed, suffix, task);
      |p| > |DataTranslationsDir| && p[..|DataTranslationsDir|] == DataTranslationsDir
      && p[|DataTranslationsDir|..] == DataPath(coeff, epoch, seed, suffix, task)
  {
  }

  /** A checkpoint path lies under the models directory and ends in ".pt". */
  lemma ModelPathShape(task: string, attention: string, seed: int, coeff: string, epoch: nat)
    ensures var p := ModelPath(task, attention, seed, coeff, epoch);
      |p| > |DataModelsDir| + 3 && p[..|DataModelsDir|] == DataModelsDir && p[|p| - 3..] == ".pt"
  {
    var f := ModelFileName(task, attention, seed, coeff, epoch);
    var p := ModelPath(task, attention, seed, coeff, epoch);
    assert p[|p| - 3..] == f[|f| - 3..];
  }

  /** Every epoch of a run saves to its own checkpoint file: the path determines the epoch. */
  lemma ModelPathInjective(task: string, attention: string, seed: int, coeff: string, e1: nat, e2: nat)
    requires ModelPath(task, attention, seed, coeff, e1) == ModelPath(task, attention, seed, coeff, e2)
    ensures e1 == e2
  {
    var f1 := ModelFileName(task, attention, seed, coeff, e1);
    var f2 := ModelFileName(task, attention, seed, coeff, e2);
    assert f1 == ModelPath(task, attention, seed, coeff, e1)[|DataModelsDir|..];
    assert f2 == ModelPath(task, attention, seed, coeff, e2)[|DataModelsDir|..];
    MiddleCancel(ModelRunName(task, attention, seed, coeff), NatToString(e1), NatToString(e2), ".pt");
    NatToStringInjective(e1, e2);
  }

  /** Vocabulary and translation stems of one run name the epoch they were derived from. */
  lemma DataPathInjective(coeff: string, e1: nat, e2: nat, seed: int, suffix: string, task: string)
    requires DataPath(coeff, e1, seed, suffix, task) == DataPath(coeff, e2, seed, suffix, task)
    ensures e1 == e2
  {
    var p := task + suffix + "_seed=" + IntToString(seed) + "_coeff=" + coeff + "_epoch=";
    MiddleCancel(p, NatToString(e1), NatToString(e2), "");
    NatToStringInjective(e1, e2);
  }

  /**
   * The vocabulary and translation paths of a run carry the same stem and differ only in the
   * directory, and files of the three kinds live in different directories, so none of them
   * can overwrite another.
   */
  lemma OutputDirectoriesDisjoint(coeff: string, epoch: nat, seed: int, suffix: string, task: string,
                                  coeff': string, epoch': nat, seed': int, suffix': string, task': string,
                                  attention: string)
    ensures VocabPath(coeff, epoch, seed, suffix, task)[|DataVocabDir|..]
         == TranslationsPath(coeff, epoch, seed, suffix, task)[|DataTranslationsDir|..]
    ensures VocabPath(coeff, epoch, seed, suffix, task) != TranslationsPath(coeff', epoch', seed', suffix', task')
    ensures VocabPath(coeff, epoch, seed, suffix, task) != ModelPath(task', attention, seed', coeff', epoch')
    ensures TranslationsPath(coeff, epoch, seed, suffix, task) != ModelPath(task', attention, seed', coeff', epoch')
  {
    var v := VocabPath(coeff, epoch, seed, suffix, task);
    var t := TranslationsPath(coeff', epoch', seed', suffix', task');
    var t0 := TranslationsPath(coeff, epoch, seed, suffix, task);
    var m := ModelPath(task', attention, seed', coeff', epoch');
    VocabPathShape(coeff, epoch, seed, suffix, task);
    TranslationsPathShape(coeff', epoch', seed', suffix', task');
    TranslationsPathShape(coeff, epoch, seed, suffix, task);
    ModelPathShape(task', attention, seed', coeff', epoch');
    assert v[8] == DataVocabDir[8] == 'v';
    assert t[8] == DataTranslationsDir[8] == 't';
    assert t0[8] == 't';
    assert m[8] == DataModelsDir[8] == 'm';
  }
}
