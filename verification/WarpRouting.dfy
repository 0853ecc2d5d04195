/** Expert selection by a warp: the best groups, then the best experts of those groups. */
module WarpRouting {
  import opened Wrappers
  import opened Arithmetic

  // ----- the ranking -----

  /** Higher scores first, ties to the lower index. */
  predicate Beats(scores: seq<real>, a: nat, b: nat)
    requires a < |scores| && b < |scores|
  {
    scores[a] > scores[b] || (scores[a] == scores[b] && a < b)
  }

  ghost predicate Within(ids: set<nat>, n: nat) {
    forall id :: id in ids ==> id < n
  }

  ghost predicate Best(scores: seq<real>, ids: set<nat>, id: nat) {
    && Within(ids, |scores|) && id in ids
    && forall o :: o in ids && o != id ==> Beats(scores, id, o)
  }

  function Taken(chosen: seq<nat>): set<nat> {
    set c | c in chosen
  }

  /** Each choice is the best of what the earlier ones left. */
  ghost predicate Picks(scores: seq<real>, ids: set<nat>, chosen: seq<nat>) {
    forall i :: 0 <= i < |chosen| ==> Best(scores, ids - Taken(chosen[..i]), chosen[i])
  }

  lemma PicksNext(scores: seq<real>, ids: set<nat>, chosen: seq<nat>, id: nat)
    requires Picks(scores, ids, chosen) && Best(scores, ids - Taken(chosen), id)
    ensures Picks(scores, ids, chosen + [id])
  {
    var longer := chosen + [id];
    forall i | 0 <= i < |longer|
      ensures Best(scores, ids - Taken(longer[..i]), longer[i])
    {
      if i < |chosen| {
        assert longer[..i] == chosen[..i];
      } else {
        assert longer[..i] == chosen;
      }
    }
  }

  /** Only one index can be best. */
  lemma BestUnique(scores: seq<real>, ids: set<nat>, a: nat, b: nat)
    requires Best(scores, ids, a) && Best(scores, ids, b)
    ensures a == b
  {
  }

  ghost predicate BeatenByAll(scores: seq<real>, chosen: seq<nat>, o: nat) {
    forall i :: 0 <= i < |chosen| ==> chosen[i] < |scores| && o < |scores| && Beats(scores, chosen[i], o)
  }

  lemma PickAt(scores: seq<real>, ids: set<nat>, chosen: seq<nat>, i: nat)
    requires Picks(scores, ids, chosen) && i < |chosen|
    ensures chosen[i] in ids && chosen[i] < |scores| && chosen[i] !in chosen[..i]
    ensures forall o :: o in ids && o !in chosen[..i] && o != chosen[i] ==> o < |scores| && Beats(scores, chosen[i], o)
  {
    var left := ids - Taken(chosen[..i]);
    assert Best(scores, left, chosen[i]);
    forall o | o in ids && o !in chosen[..i] && o != chosen[i]
      ensures o < |scores| && Beats(scores, chosen[i], o)
    {
      assert o in left;
    }
  }

  /** The choices are distinct, sorted by the ranking, and nothing left out beats any of them. */
  lemma PicksAreTop(scores: seq<real>, ids: set<nat>, chosen: seq<nat>)
    requires Picks(scores, ids, chosen)
    ensures forall i :: 0 <= i < |chosen| ==> chosen[i] in ids && chosen[i] < |scores|
    ensures forall i, j :: 0 <= i < j < |chosen| ==> chosen[i] != chosen[j] && Beats(scores, chosen[i], chosen[j])
    ensures forall o :: o in ids && o !in chosen ==> BeatenByAll(scores, chosen, o)
  {
    forall i | 0 <= i < |chosen|
      ensures chosen[i] in ids && chosen[i] < |scores|
    {
      PickAt(scores, ids, chosen, i);
    }
    forall i, j | 0 <= i < j < |chosen|
      ensures chosen[i] != chosen[j] && Beats(scores, chosen[i], chosen[j])
    {
      PickAt(scores, ids, chosen, i);
      PickAt(scores, ids, chosen, j);
      assert chosen[..j][i] == chosen[i];
      Later(chosen, i, j, chosen[j]);
    }
    forall o | o in ids && o !in chosen
      ensures BeatenByAll(scores, chosen, o)
    {
      forall i | 0 <= i < |chosen|
        ensures chosen[i] < |scores| && o < |scores| && Beats(scores, chosen[i], o)
      {
        PickAt(scores, ids, chosen, i);
        assert o !in chosen[..i];
      }
    }
  }

  lemma Later(chosen: seq<nat>, i: nat, j: nat, c: nat)
    requires i < j < |chosen| && c !in chosen[..j]
    ensures c !in chosen[..i]
  {
  }

  /** The ranking fixes the choices: any two lists of choices agree as far as both go. */
  lemma {:induction false} PicksUnique(scores: seq<real>, ids: set<nat>, a: seq<nat>, b: seq<nat>, n: nat)
    requires Picks(scores, ids, a) && Picks(scores, ids, b) && n <= |a| && n <= |b|
    ensures a[..n] == b[..n]
    decreases n
  {
    if n > 0 {
      var p: nat := n - 1;
      PicksUnique(scores, ids, a, b, p);
      assert Best(scores, ids - Taken(a[..p]), a[p]) && Best(scores, ids - Taken(b[..p]), b[p]);
      BestUnique(scores, ids - Taken(a[..p]), a[p], b[p]);
      assert a[..n] == a[..p] + [a[p]] && b[..n] == b[..p] + [b[p]];
    }
  }

  // ----- groups -----

  const Lanes: nat := 32

  /** The group loop: the first of the best groups not kept yet, and the flags after it is kept. */
  method NextGroup(scores: seq<real>, kept: seq<bool>) returns (found: bool, id: nat)
    requires |kept| == |scores|
    ensures found <==> exists g :: 0 <= g < |kept| && !kept[g]
    ensures found ==> id < |kept| && !kept[id]
    ensures found ==> forall g: nat :: g < |kept| && !kept[g] && g != id ==> Beats(scores, id, g)
    ensures !found ==> id == 0
  {
    found, id := false, 0;
    var best := 0.0;
    for g := 0 to |kept|
      invariant found <==> exists h :: 0 <= h < g && !kept[h]
      invariant found ==> id < g && !kept[id] && best == scores[id]
      invariant found ==> forall h: nat :: h < g && !kept[h] && h != id ==> Beats(scores, id, h)
      invariant !found ==> id == 0
    {
      if !kept[g] && (!found || scores[g] > best) {
        found, best, id := true, scores[g], g;
      }
    }
  }

  /** The kept flags mark exactly the chosen groups. */
  ghost predicate Marks(kept: seq<bool>, chosen: seq<nat>) {
    forall g: nat :: g < |kept| ==> (kept[g] <==> g in chosen)
  }

  method KeepGroups(scores: seq<real>, selected: nat) returns (kept: seq<bool>, ghost chosen: seq<nat>)
    requires selected <= |scores|
    ensures |kept| == |scores| && |chosen| == selected
    ensures Picks(scores, Below(|scores|), chosen) && Marks(kept, chosen)
  {
    kept := seq(|scores|, _ => false);
    chosen := [];
    for slot := 0 to selected
      invariant |kept| == |scores| && |chosen| == slot
      invariant Picks(scores, Below(|scores|), chosen) && Marks(kept, chosen)
    {
      var found, id := NextGroup(scores, kept);
      SomethingLeft(kept, chosen);
      assert Best(scores, Below(|scores|) - Taken(chosen), id);
      PicksNext(scores, Below(|scores|), chosen, id);
      kept := kept[id := true];
      chosen := chosen + [id];
    }
  }

  /** Fewer choices than groups leave a group. */
  lemma SomethingLeft(kept: seq<bool>, chosen: seq<nat>)
    requires Marks(kept, chosen) && |chosen| < |kept|
    ensures exists g :: 0 <= g < |kept| && !kept[g]
  {
    if forall g :: 0 <= g < |kept| ==> kept[g] {
      forall i | i in Below(|kept|)
        ensures i in Taken(chosen)
      {
      }
      TakenSize(chosen);
      SubsetSize(Below(|kept|), Taken(chosen));
    }
  }

  lemma {:induction false} TakenSize(chosen: seq<nat>)
    ensures |Taken(chosen)| <= |chosen|
    decreases |chosen|
  {
    if chosen != [] {
      var r, c := chosen[..|chosen| - 1], chosen[|chosen| - 1];
      TakenSize(r);
      assert chosen == r + [c];
      assert Taken(chosen) == Taken(r) + {c};
    }
  }

  // ----- group scores -----

  /** The score of a lane in a group. */
  function At(scores: seq<real>, g: nat, lane: nat): real
    requires g * 32 + lane < |scores|
  {
    scores[g * 32 + lane]
  }

  /** The group's score: its best lane, or its two best lanes together. */
  ghost predicate IsGroupScore(scores: seq<real>, g: nat, topTwo: bool, score: real)
    requires g * 32 + 32 <= |scores|
  {
    if topTwo then
      && (exists l: nat, m: nat :: l < 32 && m < 32 && l != m && score == At(scores, g, l) + At(scores, g, m))
      && forall l: nat, m: nat :: l < 32 && m < 32 && l != m ==> At(scores, g, l) + At(scores, g, m) <= score
    else
      && (exists l: nat :: l < 32 && score == At(scores, g, l))
      && forall l: nat :: l < 32 ==> At(scores, g, l) <= score
  }

  method GroupScore(scores: seq<real>, g: nat, topTwo: bool) returns (score: real)
    requires g * 32 + 32 <= |scores|
    ensures IsGroupScore(scores, g, topTwo, score)
  {
    var first := PlaneMax(scores, g, 32);
    score := At(scores, g, first);
    if topTwo {
      var second := PlaneMax(scores, g, first);
      score := score + At(scores, g, second);
    }
  }

  method GroupScores(scores: seq<real>, groups: nat, topTwo: bool) returns (groupScores: seq<real>)
    requires |scores| == groups * 32
    ensures |groupScores| == groups
    ensures forall g: nat :: g < groups ==> IsGroupScore(scores, g, topTwo, groupScores[g])
  {
    groupScores := [];
    for g := 0 to groups
      invariant |groupScores| == g
      invariant forall h: nat :: h < g ==> IsGroupScore(scores, h, topTwo, groupScores[h])
    {
      var score := GroupScore(scores, g, topTwo);
      groupScores := groupScores + [score];
    }
  }

  /** `plane_max` over the lanes but one; the first lane that attains it. */
  method PlaneMax(scores: seq<real>, g: nat, except: nat) returns (best: nat)
    requires g * 32 + 32 <= |scores|
    ensures best < 32 && best != except
    ensures forall l: nat :: l < 32 && l != except ==> At(scores, g, l) <= At(scores, g, best)
    ensures forall l: nat :: l < best && l != except ==> At(scores, g, l) < At(scores, g, best)
  {
    best := if except == 0 then 1 else 0;
    for l := 0 to 32
      invariant best < 32 && best != except && (best < l || (l <= 1 && best <= 1))
      invariant forall k: nat :: k < l && k != except ==> At(scores, g, k) <= At(scores, g, best)
      invariant forall k: nat :: k < best && k != except ==> At(scores, g, k) < At(scores, g, best)
    {
      if l != except && At(scores, g, l) > At(scores, g, best) {
        best := l;
      }
    }
  }

  // ----- experts -----

  predicate Left(kept: seq<bool>, taken: seq<bool>, id: nat)
    requires |taken| == |kept| * 32
  {
    id < |taken| && kept[id / 32] && !taken[id]
  }

  ghost function Remaining(kept: seq<bool>, taken: seq<bool>): set<nat>
    requires |taken| == |kept| * 32
  {
    set id | 0 <= id < |taken| && Left(kept, taken, id)
  }

  /** The first reduction: the best score a lane sees, then the best of all lanes. */
  method BestLeft(scores: seq<real>, kept: seq<bool>, taken: seq<bool>) returns (best: Option<real>)
    requires |taken| == |kept| * 32 == |scores|
    ensures forall id: nat :: Left(kept, taken, id) ==> best.Some? && scores[id] <= best.value
    ensures best.Some? ==> exists id: nat :: Left(kept, taken, id) && scores[id] == best.value
  {
    best := None;
    for lane := 0 to 32
      invariant forall id: nat :: Left(kept, taken, id) && id % 32 < lane ==> best.Some? && scores[id] <= best.value
      invariant best.Some? ==> exists id: nat :: Left(kept, taken, id) && scores[id] == best.value
    {
      var local := LaneBest(scores, kept, taken, lane);
      if local.Some? && (best.None? || local.value > best.value) {
        best := local;
      }
    }
  }

  method LaneBest(scores: seq<real>, kept: seq<bool>, taken: seq<bool>, lane: nat) returns (local: Option<real>)
    requires |taken| == |kept| * 32 == |scores| && lane < 32
    ensures forall id: nat :: Left(kept, taken, id) && id % 32 == lane ==> local.Some? && scores[id] <= local.value
    ensures local.Some? ==> exists id: nat :: Left(kept, taken, id) && scores[id] == local.value
  {
    local := None;
    for g := 0 to |kept|
      invariant forall id: nat :: Left(kept, taken, id) && id % 32 == lane && id / 32 < g ==> local.Some? && scores[id] <= local.value
      invariant local.Some? ==> exists id: nat :: Left(kept, taken, id) && scores[id] == local.value
    {
      var id := g * 32 + lane;
      if kept[g] && !taken[id] && (local.None? || scores[id] > local.value) {
        assert Left(kept, taken, id);
        local := Some(scores[id]);
      }
    }
  }

  /** The second reduction: the lowest index with the best score. */
  method FirstWith(scores: seq<real>, kept: seq<bool>, taken: seq<bool>, best: real) returns (id: nat)
    requires |taken| == |kept| * 32 == |scores|
    requires exists i: nat :: Left(kept, taken, i) && scores[i] == best
    ensures Left(kept, taken, id) && scores[id] == best
    ensures forall i: nat :: Left(kept, taken, i) && scores[i] == best ==> id <= i
  {
    id := |scores|;
    for lane := 0 to 32
      invariant id < |scores| ==> Left(kept, taken, id) && scores[id] == best
      invariant id <= |scores|
      invariant forall i: nat :: Left(kept, taken, i) && scores[i] == best && i % 32 < lane ==> id <= i
    {
      for g := 0 to |kept|
        invariant id < |scores| ==> Left(kept, taken, id) && scores[id] == best
        invariant id <= |scores|
        invariant forall i: nat :: Left(kept, taken, i) && scores[i] == best && i % 32 < lane ==> id <= i
        invariant forall i: nat :: Left(kept, taken, i) && scores[i] == best && i % 32 == lane && i / 32 < g ==> id <= i
      {
        var i := g * 32 + lane;
        if kept[g] && !taken[i] && scores[i] == best && i < id {
          id := i;
        }
      }
    }
  }

  /** One slot: the best remaining expert. */
  method NextExpert(scores: seq<real>, kept: seq<bool>, taken: seq<bool>) returns (id: nat)
    requires |taken| == |kept| * 32 == |scores| && Remaining(kept, taken) != {}
    ensures Best(scores, Remaining(kept, taken), id)
  {
    var best := BestLeft(scores, kept, taken);
    ghost var some :| some in Remaining(kept, taken);
    assert Left(kept, taken, some);
    id := FirstWith(scores, kept, taken, best.value);
  }

  ghost function Sum(weights: seq<real>): real {
    if weights == [] then 0.0 else Sum(weights[..|weights| - 1]) + weights[|weights| - 1]
  }

  /** The experts of the kept groups. */
  ghost function Candidates(kept: seq<bool>): set<nat> {
    set id | 0 <= id < |kept| * 32 && kept[id / 32]
  }

  ghost predicate TakenAre(taken: seq<bool>, indices: seq<nat>) {
    forall id: nat :: id < |taken| ==> (taken[id] <==> id in indices)
  }

  /**
   The group and expert loops of `select` on scores without a NaN: the first `topK` experts of the kept groups in the ranking, with
   their probabilities, the kept groups being the first `selected` groups in the ranking of group scores.
   */
  method Select(probability: seq<real>, corrected: seq<real>, groupScores: seq<real>, selected: nat, topK: nat)
    returns (indices: seq<nat>, weights: seq<real>, denominator: real, ghost groups: seq<nat>, ghost kept: seq<bool>)
    requires |probability| == |corrected| == |groupScores| * 32 && selected <= |groupScores| && topK <= selected * 32
    ensures |groups| == selected && Picks(groupScores, Below(|groupScores|), groups)
    ensures |kept| == |groupScores| && Marks(kept, groups)
    ensures |indices| == |weights| == topK && Picks(corrected, Candidates(kept), indices)
    ensures forall i :: 0 <= i < topK ==> indices[i] < |probability| && weights[i] == probability[indices[i]]
    ensures denominator == Sum(weights)
  {
    var flags;
    flags, groups := KeepGroups(groupScores, selected);
    kept := flags;
    var taken := seq(|corrected|, _ => false);
    indices, weights, denominator := [], [], 0.0;
    for slot := 0 to topK
      invariant |taken| == |corrected| && |indices| == |weights| == slot && TakenAre(taken, indices)
      invariant Picks(corrected, Candidates(kept), indices) && denominator == Sum(weights)
      invariant forall i :: 0 <= i < slot ==> indices[i] < |probability| && weights[i] == probability[indices[i]]
    {
      EnoughLeft(kept, groups, taken, indices);
      RemainingIs(kept, taken, indices);
      var id := NextExpert(corrected, flags, taken);
      PicksNext(corrected, Candidates(kept), indices, id);
      taken := taken[id := true];
      indices := indices + [id];
      assert (weights + [probability[id]])[..slot] == weights;
      weights := weights + [probability[id]];
      denominator := denominator + probability[id];
    }
  }

  /** `select` as a whole: the group scores, then the groups, then the experts. */
  method Route(probability: seq<real>, corrected: seq<real>, groupCount: nat, selected: nat, topK: nat, topTwo: bool)
    returns (indices: seq<nat>, weights: seq<real>, denominator: real, ghost scores: seq<real>, ghost groups: seq<nat>, ghost kept: seq<bool>)
    requires |probability| == |corrected| == groupCount * 32 && selected <= groupCount && topK <= selected * 32
    ensures |scores| == groupCount && forall g: nat :: g < groupCount ==> IsGroupScore(corrected, g, topTwo, scores[g])
    ensures |groups| == selected && Picks(scores, Below(groupCount), groups)
    ensures |kept| == groupCount && Marks(kept, groups)
    ensures |indices| == |weights| == topK && Picks(corrected, Candidates(kept), indices)
    ensures forall i :: 0 <= i < topK ==> indices[i] < |probability| && weights[i] == probability[indices[i]]
    ensures denominator == Sum(weights)
  {
    var groupScores := GroupScores(corrected, groupCount, topTwo);
    scores := groupScores;
    indices, weights, denominator, groups, kept := Select(probability, corrected, groupScores, selected, topK);
  }

  lemma RemainingIs(kept: seq<bool>, taken: seq<bool>, indices: seq<nat>)
    requires |taken| == |kept| * 32 && TakenAre(taken, indices)
    ensures Remaining(kept, taken) == Candidates(kept) - Taken(indices)
  {
  }

  ghost function Members(g: nat, n: nat): (s: set<nat>)
    ensures |s| == n && forall id: nat :: id in s <==> g * 32 <= id < g * 32 + n
  {
    if n == 0 then {} else Members(g, n - 1) + {g * 32 + n - 1}
  }

  lemma GroupOf(g: nat, id: nat)
    ensures g * 32 <= id < g * 32 + 32 <==> id / 32 == g
  {
  }

  ghost function GroupSet(g: nat): (s: set<nat>)
    ensures |s| == 32 && forall id: nat :: id in s <==> id / 32 == g
  {
    var s := Members(g, 32);
    assert forall id: nat :: id in s <==> id / 32 == g by {
      forall id: nat
        ensures id in s <==> id / 32 == g
      {
        GroupOf(g, id);
      }
    }
    s
  }

  ghost function MembersOf(groups: seq<nat>): (s: set<nat>)
    ensures forall id: nat :: id in s <==> id / 32 in groups
    decreases |groups|
  {
    if groups == [] then {}
    else
      assert groups == groups[..|groups| - 1] + [groups[|groups| - 1]];
      MembersOf(groups[..|groups| - 1]) + GroupSet(groups[|groups| - 1])
  }

  /** Distinct groups hold 32 experts each. */
  lemma {:induction false} MembersCount(groups: seq<nat>)
    requires forall i, j :: 0 <= i < j < |groups| ==> groups[i] != groups[j]
    ensures |MembersOf(groups)| == |groups| * 32
    decreases |groups|
  {
    if groups != [] {
      var r, g := groups[..|groups| - 1], groups[|groups| - 1];
      MembersCount(r);
      assert g !in r;
      assert MembersOf(r) !! GroupSet(g);
    }
  }

  lemma CandidatesSize(kept: seq<bool>, groups: seq<nat>)
    requires Marks(kept, groups) && (forall i :: 0 <= i < |groups| ==> groups[i] < |kept|)
    requires forall i, j :: 0 <= i < j < |groups| ==> groups[i] != groups[j]
    ensures |Candidates(kept)| == |groups| * 32
  {
    MembersCount(groups);
    assert Candidates(kept) == MembersOf(groups);
  }

  lemma EnoughLeft(kept: seq<bool>, groups: seq<nat>, taken: seq<bool>, indices: seq<nat>)
    requires |taken| == |kept| * 32 && TakenAre(taken, indices) && Marks(kept, groups)
    requires forall i :: 0 <= i < |groups| ==> groups[i] < |kept|
    requires forall i, j :: 0 <= i < j < |groups| ==> groups[i] != groups[j]
    requires |indices| < |groups| * 32
    ensures Remaining(kept, taken) != {}
  {
    CandidatesSize(kept, groups);
    TakenSize(indices);
    RemainingIs(kept, taken, indices);
    if Remaining(kept, taken) == {} {
      forall id | id in Candidates(kept)
        ensures id in Taken(indices)
      {
        assert id !in Candidates(kept) - Taken(indices);
      }
      SubsetSize(Candidates(kept), Taken(indices));
    }
  }
}
