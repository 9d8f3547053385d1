/**
 * generate_mask: the gold-alignment mask of a synthetic task, a
 * trgLen × batch × srcLen array of 0s and 1s written in place into a zero
 * array and then cleared on the first target step and the first and last
 * source positions.
 */
module Mask {
  import opened Wrappers

  datatype MaskError =
    | UnknownTask           // the ValueError of the final else
    | MissingSourceLengths  // the assert on list_src_lens for 'rev'
    | IndexOutOfRange       // an index past a dimension of the zero array or of list_src_lens

  function Max(a: int, b: int): int { if a < b then b else a }

  /** min(trg_len, src_len). */
  function MinLen(trgLen: nat, srcLen: nat): nat { if trgLen < srcLen then trgLen else srcLen }

  /** The column 'rev' marks for target step i of an example of source length len. */
  function ReversedColumn(len: int, i: nat): nat { Max(0, len - i - 1) }

  /** The exclusive bound 'last' of binary-flip: m when m is odd, m - 1 otherwise. */
  function FlipBound(m: nat): int { if m % 2 == 1 then m else m - 1 }

  /** The column binary-flip marks for target step i: odd steps look one ahead, even steps one back. */
  function FlipPartner(i: nat): nat
    requires i >= 1
  {
    if i % 2 == 0 then i - 1 else i + 1
  }

  /** binary-flip pairs steps inside [1, last) and swaps each pair: its marks form a symmetric permutation. */
  lemma FlipPartnerInvolution(m: nat, i: nat)
    requires 1 <= i < FlipBound(m)
    ensures 1 <= FlipPartner(i) < FlipBound(m)
    ensures FlipPartner(FlipPartner(i)) == i
  {
    if i % 2 == 1 {
      assert FlipBound(m) % 2 == 1;
      assert i + 1 < FlipBound(m);
    }
  }

  /** Every example's source length is within the array's source dimension. */
  predicate LengthsFit(srcLens: seq<int>, batchSize: nat, srcLen: nat)
  {
    batchSize <= |srcLens| && forall b :: 0 <= b < batchSize ==> srcLens[b] <= srcLen
  }

  /** The known tasks; any other raises. */
  predicate KnownTask(task: string)
  {
    task == "copy" || task == "rev" || task == "binary-flip" || task == "en-hi"
  }

  /** The error generate_mask raises for these arguments, if any. */
  function MaskFailure(trgLen: nat, batchSize: nat, srcLen: nat, task: string, srcLens: Option<seq<int>>): Option<MaskError>
  {
    if !KnownTask(task) then Some(UnknownTask)
    else if task == "rev" && srcLens.None? then Some(MissingSourceLengths)
    else if trgLen == 0 || srcLen == 0 then Some(IndexOutOfRange)
    else if task == "rev" && !LengthsFit(srcLens.value, batchSize, srcLen) then Some(IndexOutOfRange)
    else None
  }

  /** The positions a task marks with 1 before the boundary rows and columns are cleared. */
  predicate Marked(task: string, srcLens: Option<seq<int>>, trgLen: nat, srcLen: nat, i: nat, b: nat, j: nat)
  {
    var m := MinLen(trgLen, srcLen);
    if task == "copy" then i < m && j == i
    else if task == "rev" then
      srcLens.Some? && b < |srcLens.value| && i < m && j == ReversedColumn(srcLens.value[b], i)
    else if task == "binary-flip" then 1 <= i < FlipBound(m) && j == FlipPartner(i)
    else false
  }

  /** The value of the returned mask at (i, b, j). */
  function MaskAt(task: string, srcLens: Option<seq<int>>, trgLen: nat, srcLen: nat, i: nat, b: nat, j: nat): (v: real)
    ensures v == 0.0 || v == 1.0
    ensures i == 0 || j == 0 || j == srcLen - 1 ==> v == 0.0
    ensures v == 1.0 <==> Marked(task, srcLens, trgLen, srcLen, i, b, j) && i != 0 && j != 0 && j != srcLen - 1
  {
    if i == 0 || j == 0 || j == srcLen - 1 then 0.0
    else if Marked(task, srcLens, trgLen, srcLen, i, b, j) then 1.0
    else 0.0
  }

  /** mask[i, :, j] = v */
  method SetAcrossBatch(a: array3<real>, i: nat, j: nat, v: real)
    requires i < a.Length0 && j < a.Length2
    modifies a
    ensures forall x, c, y | 0 <= x < a.Length0 && 0 <= c < a.Length1 && 0 <= y < a.Length2 ::
      a[x, c, y] == if x == i && y == j then v else old(a[x, c, y])
  {
    for b := 0 to a.Length1
      invariant forall x, c, y | 0 <= x < a.Length0 && 0 <= c < a.Length1 && 0 <= y < a.Length2 ::
        a[x, c, y] == if x == i && y == j && c < b then v else old(a[x, c, y])
    {
      a[i, b, j] := v;
    }
  }

  /** mask[i, b, :] = v */
  method SetAcrossSource(a: array3<real>, i: nat, b: nat, v: real)
    requires i < a.Length0 && b < a.Length1
    modifies a
    ensures forall x, c, y | 0 <= x < a.Length0 && 0 <= c < a.Length1 && 0 <= y < a.Length2 ::
      a[x, c, y] == if x == i && c == b then v else old(a[x, c, y])
  {
    for j := 0 to a.Length2
      invariant forall x, c, y | 0 <= x < a.Length0 && 0 <= c < a.Length1 && 0 <= y < a.Length2 ::
        a[x, c, y] == if x == i && c == b && y < j then v else old(a[x, c, y])
    {
      a[i, b, j] := v;
    }
  }

  /** 'copy': mask[diag, :, diag] = 1 for the first m steps. */
  method MarkDiagonal(a: array3<real>, m: nat)
    requires m <= a.Length0 && m <= a.Length2
    modifies a
    ensures forall x, c, y | 0 <= x < a.Length0 && 0 <= c < a.Length1 && 0 <= y < a.Length2 ::
      a[x, c, y] == if x < m && y == x then 1.0 else old(a[x, c, y])
  {
    for i := 0 to m
      invariant forall x, c, y | 0 <= x < a.Length0 && 0 <= c < a.Length1 && 0 <= y < a.Length2 ::
        a[x, c, y] == if x < i && y == x then 1.0 else old(a[x, c, y])
    {
      SetAcrossBatch(a, i, i, 1.0);
    }
  }

  /** 'rev', one example: mask[i, b, max(0, len - i - 1)] = 1 for the first m steps. */
  method MarkReversedExample(a: array3<real>, m: nat, b: nat, len: int)
    requires m <= a.Length0 && m <= a.Length2 && b < a.Length1 && len <= a.Length2
    modifies a
    ensures forall x, c, y | 0 <= x < a.Length0 && 0 <= c < a.Length1 && 0 <= y < a.Length2 ::
      a[x, c, y] == if c == b && x < m && y == ReversedColumn(len, x) then 1.0 else old(a[x, c, y])
  {
    for i := 0 to m
      invariant forall x, c, y | 0 <= x < a.Length0 && 0 <= c < a.Length1 && 0 <= y < a.Length2 ::
        a[x, c, y] == if c == b && x < i && y == ReversedColumn(len, x) then 1.0 else old(a[x, c, y])
    {
      a[i, b, ReversedColumn(len, i)] := 1.0;
    }
  }

  /** 'rev': the per-example loop over the batch. */
  method MarkReversed(a: array3<real>, m: nat, srcLens: seq<int>)
    requires m <= a.Length0 && m <= a.Length2
    requires LengthsFit(srcLens, a.Length1, a.Length2)
    modifies a
    ensures forall x, c, y | 0 <= x < a.Length0 && 0 <= c < a.Length1 && 0 <= y < a.Length2 ::
      a[x, c, y] == if x < m && y == ReversedColumn(srcLens[c], x) then 1.0 else old(a[x, c, y])
  {
    for b := 0 to a.Length1
      invariant forall x, c, y | 0 <= x < a.Length0 && 0 <= c < a.Length1 && 0 <= y < a.Length2 ::
        a[x, c, y] == if c < b && x < m && y == ReversedColumn(srcLens[c], x) then 1.0 else old(a[x, c, y])
    {
      MarkReversedExample(a, m, b, srcLens[b]);
    }
  }

  /** 'binary-flip': mask[i, :, partner(i)] = 1 for 1 <= i < last. */
  method MarkFlipped(a: array3<real>, m: nat)
    requires m <= a.Length0 && m <= a.Length2
    modifies a
    ensures forall x, c, y | 0 <= x < a.Length0 && 0 <= c < a.Length1 && 0 <= y < a.Length2 ::
      a[x, c, y] == if 1 <= x < FlipBound(m) && y == FlipPartner(x) then 1.0 else old(a[x, c, y])
  {
    var last := FlipBound(m);
    var i := 1;
    while i < last
      invariant 1 <= i <= Max(last, 1)
      invariant forall x, c, y | 0 <= x < a.Length0 && 0 <= c < a.Length1 && 0 <= y < a.Length2 ::
        a[x, c, y] == if 1 <= x < i && y == FlipPartner(x) then 1.0 else old(a[x, c, y])
    {
      FlipPartnerInvolution(m, i);
      SetAcrossBatch(a, i, FlipPartner(i), 1.0);
      i := i + 1;
    }
  }

  /** mask[i, :, :] = 0 */
  method ClearStep(a: array3<real>, i: nat)
    requires i < a.Length0
    modifies a
    ensures forall x, c, y | 0 <= x < a.Length0 && 0 <= c < a.Length1 && 0 <= y < a.Length2 ::
      a[x, c, y] == if x == i then 0.0 else old(a[x, c, y])
  {
    for b := 0 to a.Length1
      invariant forall x, c, y | 0 <= x < a.Length0 && 0 <= c < a.Length1 && 0 <= y < a.Length2 ::
        a[x, c, y] == if x == i && c < b then 0.0 else old(a[x, c, y])
    {
      SetAcrossSource(a, i, b, 0.0);
    }
  }

  /** mask[:, :, j] = 0 */
  method ClearSourcePosition(a: array3<real>, j: nat)
    requires j < a.Length2
    modifies a
    ensures forall x, c, y | 0 <= x < a.Length0 && 0 <= c < a.Length1 && 0 <= y < a.Length2 ::
      a[x, c, y] == if y == j then 0.0 else old(a[x, c, y])
  {
    for i := 0 to a.Length0
      invariant forall x, c, y | 0 <= x < a.Length0 && 0 <= c < a.Length1 && 0 <= y < a.Length2 ::
        a[x, c, y] == if y == j && x < i then 0.0 else old(a[x, c, y])
    {
      SetAcrossBatch(a, i, j, 0.0);
    }
  }

  /**
   * generate_mask(attn_shape, task, list_src_lens): either the error generate_mask
   * raises, or a fresh array holding MaskAt at every position.
   */
  method GenerateMask(trgLen: nat, batchSize: nat, srcLen: nat, task: string, srcLens: Option<seq<int>>)
    returns (r: Result<array3<real>, MaskError>)
    ensures r.Failure? <==> MaskFailure(trgLen, batchSize, srcLen, task, srcLens).Some?
    ensures r.Failure? ==> MaskFailure(trgLen, batchSize, srcLen, task, srcLens) == Some(r.error)
    ensures r.Success? ==> fresh(r.value)
    ensures r.Success? ==>
      r.value.Length0 == trgLen && r.value.Length1 == batchSize && r.value.Length2 == srcLen
    ensures r.Success? ==>
      forall i, b, j | 0 <= i < trgLen && 0 <= b < batchSize && 0 <= j < srcLen ::
        r.value[i, b, j] == MaskAt(task, srcLens, trgLen, srcLen, i, b, j)
  {
    if !KnownTask(task) {
      return Failure(UnknownTask);
    }
    if task == "rev" && srcLens.None? {
      return Failure(MissingSourceLengths);
    }
    if trgLen == 0 || srcLen == 0 || (task == "rev" && !LengthsFit(srcLens.value, batchSize, srcLen)) {
      return Failure(IndexOutOfRange);
    }
    var m := MinLen(trgLen, srcLen);
    var mask := new real[trgLen, batchSize, srcLen]((i, b, j) => 0.0);
    if task == "copy" {
      MarkDiagonal(mask, m);
    } else if task == "rev" {
      MarkReversed(mask, m, srcLens.value);
    } else if task == "binary-flip" {
      MarkFlipped(mask, m);
    }
    assert forall i, b, j | 0 <= i < trgLen && 0 <= b < batchSize && 0 <= j < srcLen ::
      mask[i, b, j] == if Marked(task, srcLens, trgLen, srcLen, i, b, j) then 1.0 else 0.0;
    ClearStep(mask, 0);
    ClearSourcePosition(mask, 0);
    ClearSourcePosition(mask, srcLen - 1);
    return Success(mask);
  }

  /** Every task leaves the first target step and the first and last source positions free. */
  lemma BoundaryFree(task: string, srcLens: Option<seq<int>>, trgLen: nat, srcLen: nat, b: nat, i: nat, j: nat)
    ensures MaskAt(task, srcLens, trgLen, srcLen, 0, b, j) == 0.0
    ensures MaskAt(task, srcLens, trgLen, srcLen, i, b, 0) == 0.0
    ensures srcLen > 0 ==> MaskAt(task, srcLens, trgLen, srcLen, i, b, srcLen - 1) == 0.0
  {
  }

  /** 'en-hi' has no gold alignment: its mask is all zero. */
  lemma EnHiAllZero(srcLens: Option<seq<int>>, trgLen: nat, srcLen: nat, i: nat, b: nat, j: nat)
    ensures MaskAt("en-hi", srcLens, trgLen, srcLen, i, b, j) == 0.0
  {
  }

  /** 'copy' marks the diagonal of the first m steps, away from the cleared border, whatever source lengths are passed. */
  lemma CopyDiagonal(srcLens: Option<seq<int>>, trgLen: nat, srcLen: nat, i: nat, b: nat, j: nat)
    ensures MaskAt("copy", srcLens, trgLen, srcLen, i, b, j) == 1.0
        <==> 1 <= i < MinLen(trgLen, srcLen) && j == i && i != srcLen - 1
  {
  }

  /** 'rev' marks position len - 1 - i of step i while i is inside the example, and the first source position after. */
  lemma RevAntiDiagonal(lens: seq<int>, trgLen: nat, srcLen: nat, i: nat, b: nat)
    requires b < |lens| && i < MinLen(trgLen, srcLen)
    ensures i < lens[b] ==> Marked("rev", Some(lens), trgLen, srcLen, i, b, lens[b] - 1 - i)
    ensures i >= lens[b] ==> Marked("rev", Some(lens), trgLen, srcLen, i, b, 0)
  {
  }

  /** Each target step of each example has at most one gold source position, for every task. */
  lemma AtMostOneGoldPosition(task: string, srcLens: Option<seq<int>>, trgLen: nat, srcLen: nat, i: nat, b: nat, j: nat, j': nat)
    requires MaskAt(task, srcLens, trgLen, srcLen, i, b, j) == 1.0
    requires MaskAt(task, srcLens, trgLen, srcLen, i, b, j') == 1.0
    ensures j == j'
  {
  }

  /** The binary-flip mask is symmetric on the marked block: (i, j) is gold exactly when (j, i) is, whatever source lengths are passed. */
  lemma FlipSymmetric(srcLens: Option<seq<int>>, trgLen: nat, srcLen: nat, i: nat, b: nat, j: nat)
    requires Marked("binary-flip", srcLens, trgLen, srcLen, i, b, j)
    ensures Marked("binary-flip", srcLens, trgLen, srcLen, j, b, i)
  {
    FlipPartnerInvolution(MinLen(trgLen, srcLen), i);
  }
}
