/** The attention kernels of one query row: single pass, split keys, cooperating warps and ring blocks. */
module AttentionKernels {
  import opened Wrappers
  import opened Arithmetic
  import opened RealSums
  import opened Softmax

  // ----- one pass -----

  /** The accumulator after a token: rescaled, plus the token's dropped weight times its value. */
  method Blend(acc: array<real>, scale: real, weight: real, multiplier: real, value: seq<real>)
    modifies acc
    ensures forall d: nat :: d < acc.Length ==>
      acc[d] == scale * old(acc[d]) + weight * (multiplier * Coord(value, d))
  {
    for j := 0 to acc.Length
      invariant forall d: nat :: d < j ==> acc[d] == scale * old(acc[d]) + weight * (multiplier * Coord(value, d))
      invariant forall d: nat :: j <= d < acc.Length ==> acc[d] == old(acc[d])
    {
      Regroup(weight, multiplier, Coord(value, j));
      acc[j] := weight * multiplier * Coord(value, j) + acc[j] * scale;
    }
  }

  /** The kernels that skip tokens they may not see (`partial`, the ring's `forward`). */
  method ScanVisible(exp: real -> real, acc: array<real>, start: real, sum: real, ts: seq<Token>, ghost seen: seq<Token>)
    returns (maximum: real, denominator: real)
    requires IsExp(exp) && Summarises(exp, seen, State(start, sum, acc[..]))
    modifies acc
    ensures Summarises(exp, seen + ts, State(maximum, denominator, acc[..]))
  {
    maximum, denominator := start, sum;
    assert seen + ts[..0] == seen;
    for i := 0 to |ts|
      invariant Summarises(exp, seen + ts[..i], State(maximum, denominator, acc[..]))
    {
      var t := ts[i];
      ghost var s := State(maximum, denominator, acc[..]);
      if t.allowed {
        var next, correction := t.score, 0.0;
        if denominator != 0.0 {
          next := if maximum >= t.score then maximum else t.score;
          correction := exp(maximum - next);
        }
        var probability := exp(t.score - next);
        denominator := denominator * correction + probability;
        maximum := next;
        Blend(acc, correction, probability, t.keep, t.value);
        StepSummarises(exp, seen + ts[..i], s, t, State(maximum, denominator, acc[..]));
      } else {
        SkipSummarises(exp, seen + ts[..i], s, t);
      }
      assert seen + ts[..i + 1] == seen + ts[..i] + [t];
    }
    assert ts[..|ts|] == ts;
  }

  /** With every multiplier zero the accumulated shares are zero. */
  lemma AllDropped(exp: real -> real, ts: seq<Token>, m: real, d: nat)
    requires forall t :: t in ts ==> t.keep == 0.0
    ensures Total(Share(exp, m, d), ts) == 0.0
  {
    TotalZero(Share(exp, m, d), ts);
  }

  lemma DroppedStep(exp: real -> real, ts: seq<Token>, s: State, t: Token, r: State)
    requires IsExp(exp) && Summarises(exp, ts, s) && t.allowed && r.acc == s.acc
    requires r.max == NextMax(s, t.score)
    requires r.den == OldScale(exp, s, t.score) * s.den + exp(t.score - r.max)
    requires forall u :: u in ts + [t] ==> u.keep == 0.0
    ensures Summarises(exp, ts + [t], r)
  {
    forall d: nat | d < |s.acc|
      ensures s.acc[d] == 0.0 == Total(Share(exp, r.max, d), ts + [t])
    {
      AllDropped(exp, ts, s.max, d);
      AllDropped(exp, ts + [t], r.max, d);
    }
    StepSummarises(exp, ts, State(s.max, s.den, []), t, State(r.max, r.den, []));
  }

  /**
   The kernels that give masked tokens weight zero (`dense_attention`, `varlen_attention`). With a
   dropout probability of one the accumulator is left alone: no multiplier is ever nonzero.
   */
  method ScanMasked(exp: real -> real, acc: array<real>, ts: seq<Token>, dropAll: bool)
    returns (maximum: real, denominator: real)
    requires IsExp(exp) && (forall d :: 0 <= d < acc.Length ==> acc[d] == 0.0)
    requires dropAll ==> forall t :: t in ts ==> t.keep == 0.0
    modifies acc
    ensures Summarises(exp, ts, State(maximum, denominator, acc[..]))
  {
    maximum, denominator := 0.0, 0.0;
    NothingSeen(exp, 0.0, acc.Length, acc[..]);
    for i := 0 to |ts|
      invariant Summarises(exp, ts[..i], State(maximum, denominator, acc[..]))
    {
      var t := ts[i];
      ghost var s := State(maximum, denominator, acc[..]);
      var weight, scale := 0.0, 1.0;
      if t.allowed {
        var next := t.score;
        if denominator != 0.0 {
          next := if maximum >= t.score then maximum else t.score;
        }
        scale := 0.0;
        if denominator != 0.0 {
          scale := exp(maximum - next);
        }
        weight := exp(t.score - next);
        denominator := denominator * scale + weight;
        maximum := next;
      }
      Blend(acc, if dropAll then 1.0 else scale, if dropAll then 0.0 else weight, t.keep, t.value);
      ghost var r := State(maximum, denominator, acc[..]);
      if !t.allowed {
        assert acc[..] == s.acc;
        SkipSummarises(exp, ts[..i], s, t);
      } else if dropAll {
        assert acc[..] == s.acc;
        assert forall u :: u in ts[..i] + [t] ==> u in ts;
        DroppedStep(exp, ts[..i], s, t, r);
      } else {
        StepSummarises(exp, ts[..i], s, t, r);
      }
      assert ts[..i + 1] == ts[..i] + [t];
    }
    assert ts[..|ts|] == ts;
  }

  /** `dense_attention::forward` for one row: the plain weighted average, and the row's statistics. */
  method DenseForward(exp: real -> real, ts: seq<Token>, width: nat, dropAll: bool)
    returns (out: array<real>, maximum: real, denominator: real)
    requires IsExp(exp) && (dropAll ==> forall t :: t in ts ==> t.keep == 0.0)
    ensures fresh(out) && out.Length == width
    ensures forall d: nat :: d < width ==> out[d] == Attention(exp, ts, d)
    ensures denominator == Total(Weight(exp, maximum), ts) && (Peak(ts).Some? ==> maximum == Peak(ts).value)
  {
    var acc := new real[width](_ => 0.0);
    maximum, denominator := ScanMasked(exp, acc, ts, dropAll);
    ghost var s := State(maximum, denominator, acc[..]);
    out := new real[width](_ => 0.0);
    for d := 0 to width
      invariant acc[..] == s.acc
      invariant forall e: nat :: e < d ==> out[e] == Attention(exp, ts, e)
    {
      Normalised(exp, ts, s, d);
      var result := acc[d];
      if denominator != 0.0 && !dropAll {
        result := result / denominator;
      }
      if dropAll {
        AllDropped(exp, ts, maximum, d);
      }
      out[d] := result;
    }
  }

  // ----- merging -----

  /** The parts summarise the chunks, one each. */
  ghost predicate Summarised(exp: real -> real, chunks: seq<seq<Token>>, parts: seq<State>, width: nat) {
    && |chunks| == |parts|
    && forall i: nat :: i < |parts| ==> |parts[i].acc| == width && Summarises(exp, chunks[i], parts[i])
  }

  /** A part relative to another score. */
  lemma PartAt(exp: real -> real, chunk: seq<Token>, part: State, m: real, d: nat)
    requires IsExp(exp) && Summarises(exp, chunk, part) && d < |part.acc|
    ensures part.den != 0.0 ==> Total(Weight(exp, m), chunk) == part.den * exp(part.max - m)
    ensures part.den != 0.0 ==> Total(Share(exp, m, d), chunk) == part.acc[d] * exp(part.max - m)
    ensures part.den == 0.0 ==> Total(Share(exp, m, d), chunk) == 0.0 == part.acc[d]
  {
    DenominatorTells(exp, chunk, part);
    if part.den != 0.0 {
      WeightShift(exp, part.max, m, chunk);
      ShareShift(exp, part.max, m, d, chunk);
    } else {
      ShareVanishes(exp, m, d, chunk);
      ShareVanishes(exp, part.max, d, chunk);
    }
  }

  lemma PartWeight(exp: real -> real, chunk: seq<Token>, part: State, m: real)
    requires IsExp(exp) && Summarises(exp, chunk, part)
    ensures Total(Weight(exp, m), chunk) == if part.den != 0.0 then part.den * exp(part.max - m) else 0.0
    ensures part.den != 0.0 <==> Peak(chunk).Some?
    ensures part.den != 0.0 ==> Peak(chunk) == Some(part.max)
  {
    DenominatorTells(exp, chunk, part);
    WeightShift(exp, part.max, m, chunk);
    WeightSign(exp, m, chunk);
  }

  lemma ChunkAppend(chunks: seq<seq<Token>>, i: nat)
    requires i < |chunks|
    ensures Concat(chunks[..i + 1]) == Concat(chunks[..i]) + chunks[i]
    ensures Peak(Concat(chunks[..i + 1])) == Larger(Peak(Concat(chunks[..i])), Peak(chunks[i]))
  {
    assert chunks[..i + 1] == chunks[..i] + [chunks[i]];
    ConcatAppend(chunks[..i], chunks[i]);
    PeakConcat(Concat(chunks[..i]), chunks[i]);
  }

  /** Everything before a part, then the part: the peak is defined once a part is not empty. */
  lemma {:induction false} PeakOfParts(chunks: seq<seq<Token>>, i: nat, n: nat)
    requires i < n <= |chunks| && Peak(chunks[i]).Some?
    ensures Peak(Concat(chunks[..n])).Some?
  {
    ChunkAppend(chunks, n - 1);
    if i < n - 1 {
      PeakOfParts(chunks, i, n - 1);
    }
  }

  lemma WholeConcat(chunks: seq<seq<Token>>)
    ensures Concat(chunks[..|chunks|]) == Concat(chunks) && Concat(chunks[..0]) == []
  {
    assert chunks[..|chunks|] == chunks && chunks[..0] == [];
  }

  /** What each part adds to the maximum, to the denominator and to one coordinate. */
  lemma PeakStep(exp: real -> real, chunks: seq<seq<Token>>, parts: seq<State>, width: nat, i: nat)
    requires IsExp(exp) && Summarised(exp, chunks, parts, width) && i < |parts|
    ensures Peak(Concat(chunks[..i + 1])) ==
      if parts[i].den != 0.0 then Larger(Peak(Concat(chunks[..i])), Some(parts[i].max)) else Peak(Concat(chunks[..i]))
    ensures parts[i].den != 0.0 ==> Peak(Concat(chunks)).Some?
  {
    ChunkAppend(chunks, i);
    PartWeight(exp, chunks[i], parts[i], 0.0);
    if parts[i].den != 0.0 {
      PeakOfParts(chunks, i, |chunks|);
      WholeConcat(chunks);
    }
  }

  ghost function PartWeightAt(exp: real -> real, part: State, m: real): real {
    if part.den != 0.0 then part.den * exp(part.max - m) else 0.0
  }

  ghost function PartShareAt(exp: real -> real, part: State, m: real, d: nat): real
    requires d < |part.acc|
  {
    if part.den != 0.0 then part.acc[d] * exp(part.max - m) else 0.0
  }

  lemma WeightStep(exp: real -> real, ts: seq<Token>, chunk: seq<Token>, part: State, m: real)
    requires IsExp(exp) && Summarises(exp, chunk, part)
    ensures Total(Weight(exp, m), ts + chunk) == Total(Weight(exp, m), ts) + PartWeightAt(exp, part, m)
  {
    PartWeight(exp, chunk, part, m);
    TotalConcat(Weight(exp, m), ts, chunk);
  }

  lemma ShareStep(exp: real -> real, ts: seq<Token>, chunk: seq<Token>, part: State, m: real, d: nat)
    requires IsExp(exp) && Summarises(exp, chunk, part) && d < |part.acc|
    ensures Total(Share(exp, m, d), ts + chunk) == Total(Share(exp, m, d), ts) + PartShareAt(exp, part, m, d)
    ensures part.den == 0.0 ==> part.acc[d] == 0.0
  {
    PartAt(exp, chunk, part, m, d);
    TotalConcat(Share(exp, m, d), ts, chunk);
  }

  lemma WeightAdds(exp: real -> real, chunks: seq<seq<Token>>, parts: seq<State>, width: nat, i: nat, m: real, c: real)
    requires IsExp(exp) && Summarised(exp, chunks, parts, width) && i < |parts| && c == PartWeightAt(exp, parts[i], m)
    ensures Total(Weight(exp, m), Concat(chunks[..i + 1])) == Total(Weight(exp, m), Concat(chunks[..i])) + c
  {
    ChunkAppend(chunks, i);
    WeightStep(exp, Concat(chunks[..i]), chunks[i], parts[i], m);
  }

  lemma ShareAdds(exp: real -> real, chunks: seq<seq<Token>>, parts: seq<State>, width: nat, i: nat, m: real, d: nat, c: real)
    requires IsExp(exp) && Summarised(exp, chunks, parts, width) && i < |parts| && d < width
    requires c == PartShareAt(exp, parts[i], m, d)
    ensures Total(Share(exp, m, d), Concat(chunks[..i + 1])) == Total(Share(exp, m, d), Concat(chunks[..i])) + c
  {
    ChunkAppend(chunks, i);
    ShareStep(exp, Concat(chunks[..i]), chunks[i], parts[i], m, d);
  }

  ghost function OrZero(m: Option<real>): real {
    if m.Some? then m.value else 0.0
  }

  /** `merge`: the split keys' partial states become the row's output and statistics. */
  method Merge(exp: real -> real, parts: seq<State>, width: nat, ghost chunks: seq<seq<Token>>)
    returns (out: array<real>, maximum: Option<real>, denominator: real)
    requires IsExp(exp) && Summarised(exp, chunks, parts, width)
    ensures fresh(out) && out.Length == width && maximum == Peak(Concat(chunks))
    ensures forall d: nat :: d < width ==> out[d] == Attention(exp, Concat(chunks), d)
    ensures maximum.Some? ==> denominator == Total(Weight(exp, maximum.value), Concat(chunks))
    ensures maximum.None? ==> denominator == 0.0
  {
    ghost var ts := Concat(chunks);
    WholeConcat(chunks);
    maximum := None;
    for i := 0 to |parts|
      invariant maximum == Peak(Concat(chunks[..i]))
    {
      PeakStep(exp, chunks, parts, width, i);
      if parts[i].den != 0.0 {
        maximum := Larger(maximum, Some(parts[i].max));
      }
    }
    denominator := MergedDenominator(exp, parts, width, maximum, chunks);
    ghost var m := OrZero(maximum);
    WeightSign(exp, m, ts);
    out := new real[width](_ => 0.0);
    for d := 0 to width
      invariant forall e: nat :: e < d ==> out[e] == Attention(exp, ts, e)
    {
      var result := MergedCoordinate(exp, parts, width, d, maximum, chunks);
      AttentionAt(exp, m, ts, d);
      if denominator != 0.0 {
        result := result / denominator;
      } else {
        ShareVanishes(exp, m, d, ts);
      }
      out[d] := result;
    }
  }

  method MergedDenominator(exp: real -> real, parts: seq<State>, width: nat, maximum: Option<real>, ghost chunks: seq<seq<Token>>)
    returns (denominator: real)
    requires IsExp(exp) && Summarised(exp, chunks, parts, width) && maximum == Peak(Concat(chunks))
    ensures denominator == Total(Weight(exp, OrZero(maximum)), Concat(chunks))
  {
    WholeConcat(chunks);
    denominator := 0.0;
    for i := 0 to |parts|
      invariant denominator == Total(Weight(exp, OrZero(maximum)), Concat(chunks[..i]))
    {
      var c := 0.0;
      PeakStep(exp, chunks, parts, width, i);
      if parts[i].den != 0.0 {
        c := parts[i].den * exp(parts[i].max - maximum.value);
      }
      WeightAdds(exp, chunks, parts, width, i, OrZero(maximum), c);
      denominator := denominator + c;
    }
  }

  method MergedCoordinate(exp: real -> real, parts: seq<State>, width: nat, d: nat, maximum: Option<real>, ghost chunks: seq<seq<Token>>)
    returns (result: real)
    requires IsExp(exp) && Summarised(exp, chunks, parts, width) && d < width && maximum == Peak(Concat(chunks))
    ensures result == Total(Share(exp, OrZero(maximum), d), Concat(chunks))
  {
    WholeConcat(chunks);
    result := 0.0;
    for i := 0 to |parts|
      invariant result == Total(Share(exp, OrZero(maximum), d), Concat(chunks[..i]))
    {
      var c := 0.0;
      PeakStep(exp, chunks, parts, width, i);
      if parts[i].den != 0.0 {
        c := parts[i].acc[d] * exp(parts[i].max - maximum.value);
      }
      ShareAdds(exp, chunks, parts, width, i, OrZero(maximum), d, c);
      result := result + c;
    }
  }

  /** `merge_warps`: the cooperating warps' states become one state of all their keys. */
  method MergeWarps(exp: real -> real, parts: seq<State>, width: nat, ghost chunks: seq<seq<Token>>)
    returns (acc: array<real>, maximum: real, denominator: real)
    requires IsExp(exp) && Summarised(exp, chunks, parts, width) && |parts| > 0
    ensures fresh(acc) && acc.Length == width
    ensures Summarises(exp, Concat(chunks), State(maximum, denominator, acc[..]))
  {
    WholeConcat(chunks);
    if |parts| == 1 {
      acc := new real[width](d requires 0 <= d < width => parts[0].acc[d]);
      maximum, denominator := parts[0].max, parts[0].den;
      ChunkAppend(chunks, 0);
      assert Concat(chunks) == chunks[0] && acc[..] == parts[0].acc;
      return;
    }
    maximum := WarpMaximum(exp, parts, width, chunks);
    denominator := 0.0;
    acc := new real[width](_ => 0.0);
    for i := 0 to |parts|
      invariant PartlyMerged(exp, Concat(chunks[..i]), State(maximum, denominator, acc[..]), width)
    {
      ghost var before := State(maximum, denominator, acc[..]);
      denominator := AddPart(exp, acc, maximum, denominator, parts[i]);
      WarpStep(exp, chunks, parts, width, i, before, State(maximum, denominator, acc[..]));
    }
  }

  /** A part without tokens is added as it is, which is zero. */
  function PartFactor(exp: real -> real, part: State, m: real): real {
    if part.den != 0.0 then exp(part.max - m) else 1.0
  }

  /** `r` is `s` with a part added to it. */
  ghost predicate PartAdded(s: State, part: State, factor: real, r: State) {
    && r.max == s.max && |r.acc| == |s.acc| == |part.acc|
    && r.den == s.den + part.den * factor
    && forall d: nat :: d < |s.acc| ==> r.acc[d] == s.acc[d] + part.acc[d] * factor
  }

  /** One round of the second loop. */
  method AddPart(exp: real -> real, acc: array<real>, maximum: real, start: real, part: State) returns (denominator: real)
    requires |part.acc| == acc.Length
    modifies acc
    ensures PartAdded(State(maximum, start, old(acc[..])), part, PartFactor(exp, part, maximum), State(maximum, denominator, acc[..]))
  {
    denominator := start;
    var factor := 1.0;
    if part.den != 0.0 {
      factor := exp(part.max - maximum);
      denominator := part.den * factor + denominator;
    }
    AddScaled(acc, part.acc, factor);
  }

  lemma WarpStep(exp: real -> real, chunks: seq<seq<Token>>, parts: seq<State>, width: nat, i: nat, s: State, r: State)
    requires IsExp(exp) && Summarised(exp, chunks, parts, width) && i < |parts|
    requires PartlyMerged(exp, Concat(chunks[..i]), s, width) && PartAdded(s, parts[i], PartFactor(exp, parts[i], s.max), r)
    ensures PartlyMerged(exp, Concat(chunks[..i + 1]), r, width)
  {
    ChunkAppend(chunks, i);
    MergeStep(exp, Concat(chunks[..i]), chunks[i], parts[i], width, s, r);
  }

  /** The first loop: the largest maximum among the warps that saw a token. */
  method WarpMaximum(exp: real -> real, parts: seq<State>, width: nat, ghost chunks: seq<seq<Token>>) returns (maximum: real)
    requires IsExp(exp) && Summarised(exp, chunks, parts, width)
    ensures Peak(Concat(chunks)).Some? ==> maximum == Peak(Concat(chunks)).value
  {
    WholeConcat(chunks);
    maximum := 0.0;
    var nonempty := false;
    for i := 0 to |parts|
      invariant Peak(Concat(chunks[..i])) == if nonempty then Some(maximum) else None
    {
      PeakStep(exp, chunks, parts, width, i);
      if parts[i].den != 0.0 {
        maximum := if nonempty && maximum >= parts[i].max then maximum else parts[i].max;
        nonempty := true;
      }
    }
  }

  ghost predicate PartlyMerged(exp: real -> real, ts: seq<Token>, s: State, width: nat) {
    && |s.acc| == width && s.den == Total(Weight(exp, s.max), ts)
    && forall d: nat :: d < width ==> s.acc[d] == Total(Share(exp, s.max, d), ts)
  }

  lemma MergeStep(exp: real -> real, ts: seq<Token>, chunk: seq<Token>, part: State, width: nat, s: State, r: State)
    requires IsExp(exp) && Summarises(exp, chunk, part) && PartlyMerged(exp, ts, s, width)
    requires PartAdded(s, part, PartFactor(exp, part, s.max), r)
    ensures PartlyMerged(exp, ts + chunk, r, width)
  {
    MergeWeight(exp, ts, chunk, part, s.max);
    forall d: nat | d < width
      ensures r.acc[d] == Total(Share(exp, s.max, d), ts + chunk)
    {
      MergeCoordinate(exp, ts, chunk, part, s.max, d);
    }
  }

  lemma MergeWeight(exp: real -> real, ts: seq<Token>, chunk: seq<Token>, part: State, m: real)
    requires IsExp(exp) && Summarises(exp, chunk, part)
    ensures Total(Weight(exp, m), ts + chunk) == Total(Weight(exp, m), ts) + part.den * PartFactor(exp, part, m)
  {
    WeightStep(exp, ts, chunk, part, m);
  }

  lemma MergeCoordinate(exp: real -> real, ts: seq<Token>, chunk: seq<Token>, part: State, m: real, d: nat)
    requires IsExp(exp) && Summarises(exp, chunk, part) && d < |part.acc|
    ensures Total(Share(exp, m, d), ts + chunk) == Total(Share(exp, m, d), ts) + part.acc[d] * PartFactor(exp, part, m)
  {
    ShareStep(exp, ts, chunk, part, m, d);
  }

  method AddScaled(acc: array<real>, v: seq<real>, factor: real)
    requires acc.Length == |v|
    modifies acc
    ensures forall d: nat :: d < acc.Length ==> acc[d] == v[d] * factor + old(acc[d])
  {
    for j := 0 to acc.Length
      invariant forall d: nat :: d < j ==> acc[d] == v[d] * factor + old(acc[d])
      invariant forall d: nat :: j <= d < acc.Length ==> acc[d] == old(acc[d])
    {
      acc[j] := v[j] * factor + acc[j];
    }
  }

  // ----- ranges -----

  /** `begin..end`, which is empty when the bounds cross. */
  function Range(ts: seq<Token>, begin: nat, end: nat): seq<Token> {
    if begin <= end <= |ts| then ts[begin..end] else []
  }

  function Min(a: nat, b: nat): nat {
    if a < b then a else b
  }

  /** The keys of one split: spans of the rounded-up quotient, the last ones cut or empty. */
  function SplitRange(ts: seq<Token>, splits: nat, split: nat): seq<Token>
    requires splits > 0
  {
    var span := CeilDiv(|ts|, splits);
    Range(ts, split * span, Min(split * span + span, |ts|))
  }

  function SplitRanges(ts: seq<Token>, splits: nat): seq<seq<Token>>
    requires splits > 0
  {
    seq(splits, (i: nat) requires i < splits => SplitRange(ts, splits, i))
  }

  ghost predicate PieceAt(ts: seq<Token>, begin: nat, end: nat, part: seq<Token>) {
    begin <= end <= |ts| && part == ts[begin..end]
  }

  ghost predicate Pieces(ts: seq<Token>, cuts: seq<nat>, parts: seq<seq<Token>>) {
    && |cuts| == |parts| + 1 && cuts[0] == 0
    && forall i: nat {:trigger parts[i]} :: i < |parts| ==> PieceAt(ts, cuts[i], cuts[i + 1], parts[i])
  }

  /** Pieces between increasing cuts tile the sequence. */
  lemma {:induction false} PiecesTile(ts: seq<Token>, cuts: seq<nat>, parts: seq<seq<Token>>, n: nat)
    requires Pieces(ts, cuts, parts) && n <= |parts|
    ensures cuts[n] <= |ts| && Concat(parts[..n]) == ts[..cuts[n]]
    decreases n
  {
    if n > 0 {
      var p: nat := n - 1;
      PiecesTile(ts, cuts, parts, p);
      assert PieceAt(ts, cuts[p], cuts[p + 1], parts[p]);
      assert parts[..n] == parts[..p] + [parts[p]];
      ConcatAppend(parts[..p], parts[p]);
    }
  }

  lemma AllPieces(ts: seq<Token>, cuts: seq<nat>, parts: seq<seq<Token>>)
    requires Pieces(ts, cuts, parts) && cuts[|parts|] == |ts|
    ensures Concat(parts) == ts
  {
    PiecesTile(ts, cuts, parts, |parts|);
    assert parts[..|parts|] == parts && ts[..|ts|] == ts;
  }

  lemma MulNext(p: nat, span: nat)
    ensures (p + 1) * span == p * span + span
  {
  }

  lemma MulFlip(a: nat, b: nat)
    ensures a * b == b * a
  {
  }

  /** The splits tile the keys. */
  lemma SplitsTile(ts: seq<Token>, splits: nat)
    requires splits > 0
    ensures Concat(SplitRanges(ts, splits)) == ts
  {
    var span := CeilDiv(|ts|, splits);
    var cuts := seq(splits + 1, (i: nat) requires i <= splits => Min(i * span, |ts|));
    var parts := SplitRanges(ts, splits);
    forall i: nat {:trigger parts[i]} | i < splits
      ensures PieceAt(ts, cuts[i], cuts[i + 1], parts[i])
    {
      MulNext(i, span);
    }
    CeilDivBounds(|ts|, splits);
    MulFlip(splits, span);
    AllPieces(ts, cuts, parts);
  }

  function WarpBegin(span: nat, extra: nat, warp: nat): nat {
    warp * span + Min(warp, extra)
  }

  /** The keys of one warp: the remainder goes to the first warps, one key each. */
  function WarpRange(ts: seq<Token>, warps: nat, warp: nat): seq<Token>
    requires warps > 0
  {
    var span, extra := |ts| / warps, |ts| % warps;
    var begin := WarpBegin(span, extra, warp);
    Range(ts, begin, begin + span + if warp < extra then 1 else 0)
  }

  function WarpRanges(ts: seq<Token>, warps: nat): seq<seq<Token>>
    requires warps > 0
  {
    seq(warps, (i: nat) requires i < warps => WarpRange(ts, warps, i))
  }

  lemma WarpNext(span: nat, extra: nat, warps: nat, warp: nat)
    requires warp < warps && extra < warps
    ensures WarpBegin(span, extra, warp + 1) == WarpBegin(span, extra, warp) + span + if warp < extra then 1 else 0
    ensures WarpBegin(span, extra, warp + 1) <= WarpBegin(span, extra, warps) == warps * span + extra
  {
    MulNext(warp, span);
    MulMonotone(warp + 1, warps, span);
  }

  /** The warps tile the keys exactly. */
  lemma WarpsTile(ts: seq<Token>, warps: nat)
    requires warps > 0
    ensures Concat(WarpRanges(ts, warps)) == ts
  {
    var span, extra := |ts| / warps, |ts| % warps;
    DivMod(|ts|, warps);
    MulFlip(span, warps);
    var cuts := seq(warps + 1, (i: nat) requires i <= warps => WarpBegin(span, extra, i));
    var parts := WarpRanges(ts, warps);
    forall i: nat {:trigger parts[i]} | i < warps
      ensures PieceAt(ts, cuts[i], cuts[i + 1], parts[i])
    {
      WarpNext(span, extra, warps, i);
    }
    AllPieces(ts, cuts, parts);
  }

  // ----- whole rows -----

  /** Split keys: every split scanned on its own, then `merge`. The result is the unsplit one. */
  method SplitAttention(exp: real -> real, ts: seq<Token>, width: nat, splits: nat)
    returns (out: array<real>, maximum: Option<real>, denominator: real)
    requires IsExp(exp) && splits > 0
    ensures fresh(out) && out.Length == width && maximum == Peak(ts)
    ensures forall d: nat :: d < width ==> out[d] == Attention(exp, ts, d)
    ensures maximum.Some? ==> denominator == Total(Weight(exp, maximum.value), ts)
  {
    ghost var chunks := SplitRanges(ts, splits);
    var parts: seq<State> := [];
    for split := 0 to splits
      invariant |parts| == split && Summarised(exp, chunks[..split], parts, width)
    {
      var acc := new real[width](_ => 0.0);
      NothingSeen(exp, 0.0, width, acc[..]);
      var chunk := SplitRange(ts, splits, split);
      var m, den := ScanVisible(exp, acc, 0.0, 0.0, chunk, []);
      assert [] + chunk == chunk;
      parts := parts + [State(m, den, acc[..])];
    }
    assert chunks[..splits] == chunks;
    SplitsTile(ts, splits);
    out, maximum, denominator := Merge(exp, parts, width, chunks);
  }

  /** `varlen_attention::forward` for one row: warps take key ranges, then `merge_warps`. */
  method WarpAttention(exp: real -> real, ts: seq<Token>, width: nat, warps: nat)
    returns (out: array<real>, maximum: real, denominator: real)
    requires IsExp(exp) && warps > 0
    ensures fresh(out) && out.Length == width
    ensures forall d: nat :: d < width ==> out[d] == Attention(exp, ts, d)
    ensures denominator == Total(Weight(exp, maximum), ts) && (Peak(ts).Some? ==> maximum == Peak(ts).value)
  {
    ghost var chunks := WarpRanges(ts, warps);
    var parts: seq<State> := [];
    for warp := 0 to warps
      invariant |parts| == warp && Summarised(exp, chunks[..warp], parts, width)
    {
      var acc := new real[width](_ => 0.0);
      var m, den := ScanMasked(exp, acc, WarpRange(ts, warps, warp), false);
      parts := parts + [State(m, den, acc[..])];
    }
    assert chunks[..warps] == chunks;
    WarpsTile(ts, warps);
    var merged;
    merged, maximum, denominator := MergeWarps(exp, parts, width, chunks);
    ghost var s := State(maximum, denominator, merged[..]);
    out := new real[width](_ => 0.0);
    for d := 0 to width
      invariant merged[..] == s.acc
      invariant forall e: nat :: e < d ==> out[e] == Attention(exp, ts, e)
    {
      Normalised(exp, ts, s, d);
      out[d] := if denominator != 0.0 then merged[d] / denominator else merged[d];
    }
  }

  // ----- ring blocks -----

  /** One query row of ring attention: blocks of keys arrive one after another. */
  class RingRow {
    const exp: real -> real
    const accumulator: array<real>
    var maximum: real
    var denominator: real
    ghost var seen: seq<Token>

    ghost predicate Valid()
      reads this, accumulator
    {
      IsExp(exp) && Summarises(exp, seen, State(maximum, denominator, accumulator[..]))
    }

    constructor (exp: real -> real, width: nat)
      requires IsExp(exp)
      ensures Valid() && seen == [] && accumulator.Length == width && this.exp == exp && fresh(accumulator)
    {
      this.exp := exp;
      accumulator := new real[width](_ => 0.0);
      maximum, denominator, seen := 0.0, 0.0, [];
    }

    /** `forward` on one block: the state then summarises the block as well. */
    method Forward(block: seq<Token>)
      requires Valid()
      modifies this, accumulator
      ensures Valid() && seen == old(seen) + block
    {
      maximum, denominator := ScanVisible(exp, accumulator, maximum, denominator, block, seen);
      seen := seen + block;
    }

    /** `normalize`: the output, which also replaces the accumulator. */
    method Normalize() returns (output: array<real>)
      requires Valid()
      modifies accumulator
      ensures fresh(output) && output.Length == accumulator.Length && output[..] == accumulator[..]
      ensures forall d: nat :: d < output.Length ==> output[d] == Attention(exp, seen, d)
    {
      ghost var s := State(maximum, denominator, accumulator[..]);
      output := new real[accumulator.Length](_ => 0.0);
      for d := 0 to output.Length
        invariant forall e: nat :: d <= e < output.Length ==> accumulator[e] == s.acc[e]
        invariant forall e: nat :: e < d ==> output[e] == accumulator[e] == Attention(exp, seen, e)
      {
        Normalised(exp, seen, s, d);
        var result := 0.0;
        if denominator != 0.0 {
          result := accumulator[d] / denominator;
        }
        accumulator[d] := result;
        output[d] := result;
      }
    }
  }

  /** Whatever the partition into blocks and their order, the row's output is the single-block one. */
  method RingAttention(exp: real -> real, blocks: seq<seq<Token>>, width: nat, ghost ts: seq<Token>) returns (output: array<real>)
    requires IsExp(exp) && multiset(Concat(blocks)) == multiset(ts)
    ensures fresh(output) && output.Length == width
    ensures forall d: nat :: d < width ==> output[d] == Attention(exp, ts, d)
  {
    var row := new RingRow(exp, width);
    for i := 0 to |blocks|
      invariant row.Valid() && row.seen == Concat(blocks[..i]) && row.exp == exp
      invariant row.accumulator.Length == width && fresh(row) && fresh(row.accumulator)
    {
      assert blocks[..i + 1] == blocks[..i] + [blocks[i]];
      ConcatAppend(blocks[..i], blocks[i]);
      row.Forward(blocks[i]);
    }
    assert blocks[..|blocks|] == blocks;
    output := row.Normalize();
    forall d: nat | d < width
      ensures output[d] == Attention(exp, ts, d)
    {
      AttentionPermuted(exp, row.seen, ts, d);
    }
  }
}
