/** Merging the members of a group, wherever they are in a list, into one value at the first of them. */
module GroupMerge {
  import opened Market
  import opened Position
  import opened StructuralId

  /** What besides the id tells groups of checkpoints apart. */
  datatype Rest = Anything | Maturity(level: Level, st: Option<SwingStage>)

  datatype Key = Key(rest: Rest, id: string)

  /** One list to consolidate: which items take part, what besides the id tells groups apart, the id
      itself, and how two items of a group become one. */
  datatype Scheme<!T(!new)> = Scheme(
    part: T -> bool, rest: T -> Rest, id: T -> string, rename: (T, string) -> T, merge: (T, T) -> T)
  {
    function KeyOf(x: T): Option<Key> {
      if part(x) then Some(Key(rest(x), Canonical(id(x)))) else None
    }

    function Normal(x: T): T {
      rename(x, Canonical(id(x)))
    }

    /** Renaming changes the id only, and merging stays inside the group. */
    ghost predicate Lawful() {
      && (forall x, s :: part(x) ==> part(rename(x, s)) && rest(rename(x, s)) == rest(x) && id(rename(x, s)) == s)
      && (forall x :: part(x) ==> rename(x, id(x)) == x)
      && (forall x, y :: Alike(x, y) ==> Alike(x, merge(x, y)))
    }

    predicate Alike(x: T, y: T) {
      part(x) && part(y) && rest(x) == rest(y) && id(x) == id(y)
    }
  }

  /** The normalised items of one group, in order. */
  function Group<T(!new)>(s: Scheme<T>, xs: seq<T>, k: Key): seq<T> {
    if xs == [] then []
    else
      var last := |xs| - 1;
      Group(s, xs[..last], k) + if s.KeyOf(xs[last]) == Some(k) then [s.Normal(xs[last])] else []
  }

  /** A group folded from the left. */
  function Fold<T>(merge: (T, T) -> T, g: seq<T>): T
    requires g != []
  {
    if |g| == 1 then g[0] else merge(Fold(merge, g[..|g| - 1]), g[|g| - 1])
  }

  predicate Occurs<T(!new)>(s: Scheme<T>, xs: seq<T>, k: Key) {
    exists i :: 0 <= i < |xs| && s.KeyOf(xs[i]) == Some(k)
  }

  /** The positions that survive: items that take no part, and the first of every group. */
  function Heads<T(!new)>(s: Scheme<T>, xs: seq<T>): (hs: seq<nat>)
    ensures forall j :: 0 <= j < |hs| ==> hs[j] < |xs|
  {
    if xs == [] then []
    else
      var last := |xs| - 1;
      Heads(s, xs[..last]) + if IsHead(s, xs, last) then [last] else []
  }

  predicate IsHead<T(!new)>(s: Scheme<T>, xs: seq<T>, i: nat)
    requires i < |xs|
  {
    s.KeyOf(xs[i]).None? || !Occurs(s, xs[..i], s.KeyOf(xs[i]).value)
  }

  lemma OccursGrows<T(!new)>(s: Scheme<T>, xs: seq<T>, x: T, k: Key)
    ensures Occurs(s, xs + [x], k) <==> Occurs(s, xs, k) || s.KeyOf(x) == Some(k)
  {
    var ys := xs + [x];
    if Occurs(s, xs, k) {
      var i :| 0 <= i < |xs| && s.KeyOf(xs[i]) == Some(k);
      assert s.KeyOf(ys[i]) == Some(k);
    }
    if s.KeyOf(x) == Some(k) {
      assert s.KeyOf(ys[|xs|]) == Some(k);
    }
  }

  lemma {:induction false} GroupOfOccurring<T(!new)>(s: Scheme<T>, xs: seq<T>, k: Key)
    ensures Group(s, xs, k) != [] <==> Occurs(s, xs, k)
    decreases |xs|
  {
    if xs != [] {
      var last := |xs| - 1;
      GroupOfOccurring(s, xs[..last], k);
      assert xs == xs[..last] + [xs[last]];
      OccursGrows(s, xs[..last], xs[last], k);
    }
  }

  /** What a surviving position becomes. */
  function Value<T(!new)>(s: Scheme<T>, xs: seq<T>, i: nat): T
    requires i < |xs|
  {
    match s.KeyOf(xs[i])
    case None => xs[i]
    case Some(k) =>
      GroupOfOccurring(s, xs, k);
      assert Occurs(s, xs, k);
      Fold(s.merge, Group(s, xs, k))
  }

  /** The consolidated list: every group merged where it first appears, the rest left in place. */
  function Consolidated<T(!new)>(s: Scheme<T>, xs: seq<T>): seq<T> {
    var hs := Heads(s, xs);
    seq(|hs|, j requires 0 <= j < |hs| => Value(s, xs, hs[j]))
  }

  // ---------------------------------------------------------------- the loop

  /** Where the value of a group sits in the consolidated list. */
  predicate SitsAt<T(!new)>(s: Scheme<T>, xs: seq<T>, k: Key, p: nat) {
    p < |Heads(s, xs)| && s.KeyOf(xs[Heads(s, xs)[p]]) == Some(k)
  }

  lemma HeadsGrow<T(!new)>(s: Scheme<T>, xs: seq<T>, x: T)
    ensures Heads(s, xs + [x])
            == if s.KeyOf(x).None? || !Occurs(s, xs, s.KeyOf(x).value) then Heads(s, xs) + [|xs|] else Heads(s, xs)
  {
    var ys := xs + [x];
    LastIsHead(s, xs, x);
    assert Heads(s, ys) == Heads(s, ys[..|xs|]) + if IsHead(s, ys, |xs|) then [|xs|] else [];
    assert ys[..|xs|] == xs;
  }

  lemma LastIsHead<T(!new)>(s: Scheme<T>, xs: seq<T>, x: T)
    ensures IsHead(s, xs + [x], |xs|) <==> s.KeyOf(x).None? || !Occurs(s, xs, s.KeyOf(x).value)
  {
    assert (xs + [x])[..|xs|] == xs;
  }

  /** An item that takes no part, or the first of its group, goes to the end. */
  lemma NewcomerGoesLast<T(!new)>(s: Scheme<T>, xs: seq<T>, x: T)
    requires s.KeyOf(x).None? || !Occurs(s, xs, s.KeyOf(x).value)
    ensures Consolidated(s, xs + [x]) == Consolidated(s, xs) + [if s.KeyOf(x).None? then x else s.Normal(x)]
  {
    var ys, hs := xs + [x], Heads(s, xs);
    HeadsGrow(s, xs, x);
    forall p | 0 <= p < |hs| ensures Value(s, ys, hs[p]) == Value(s, xs, hs[p]) {
      ValueGrows(s, xs, x, hs[p]);
      assert s.KeyOf(xs[hs[p]]).Some? ==> Occurs(s, xs, s.KeyOf(xs[hs[p]]).value);
    }
    if s.KeyOf(x).Some? {
      NewGroup(s, xs, x);
    }
    var before, after := Consolidated(s, xs), Consolidated(s, ys);
    assert |after| == |before| + 1 && after[|before|] == Value(s, ys, |xs|);
    assert forall p :: 0 <= p < |before| ==> after[p] == before[p];
  }

  /** A repeated group changes at its own positions only. */
  lemma RepeatIsMerged<T(!new)>(s: Scheme<T>, xs: seq<T>, x: T, k: Key)
    requires s.KeyOf(x) == Some(k) && Occurs(s, xs, k)
    ensures var before, after := Consolidated(s, xs), Consolidated(s, xs + [x]);
            |after| == |before| && forall p :: 0 <= p < |before| ==>
              after[p] == if SitsAt(s, xs, k, p) then s.merge(before[p], s.Normal(x)) else before[p]
  {
    var hs := Heads(s, xs);
    HeadsGrow(s, xs, x);
    forall p | 0 <= p < |hs|
      ensures Value(s, xs + [x], hs[p])
              == if SitsAt(s, xs, k, p) then s.merge(Value(s, xs, hs[p]), s.Normal(x)) else Value(s, xs, hs[p])
    {
      ValueGrows(s, xs, x, hs[p]);
    }
  }

  lemma ValueGrows<T(!new)>(s: Scheme<T>, xs: seq<T>, x: T, i: nat)
    requires i < |xs|
    ensures Value(s, xs + [x], i)
            == match s.KeyOf(xs[i])
               case Some(k) => if s.KeyOf(x) == Some(k) then s.merge(Value(s, xs, i), s.Normal(x)) else Value(s, xs, i)
               case None => xs[i]
  {
    var ys := xs + [x];
    assert ys[..|xs|] == xs && ys[i] == xs[i];
    if s.KeyOf(xs[i]).Some? {
      var k := s.KeyOf(xs[i]).value;
      GroupOfOccurring(s, xs, k);
      var g := Group(s, xs, k);
      if s.KeyOf(x) == Some(k) {
        var h := g + [s.Normal(x)];
        assert Group(s, ys, k) == h && h[..|h| - 1] == g;
      } else {
        assert Group(s, ys, k) == g;
      }
    }
  }

  lemma NewGroup<T(!new)>(s: Scheme<T>, xs: seq<T>, x: T)
    requires s.KeyOf(x).Some? && !Occurs(s, xs, s.KeyOf(x).value)
    ensures Value(s, xs + [x], |xs|) == s.Normal(x)
  {
    var k, ys := s.KeyOf(x).value, xs + [x];
    assert ys[..|xs|] == xs;
    GroupOfOccurring(s, xs, k);
    assert Group(s, ys, k) == [s.Normal(x)];
  }

  /** The dictionary knows exactly the groups met so far. */
  ghost predicate Knows<T(!new)>(s: Scheme<T>, xs: seq<T>, positions: map<Key, nat>) {
    forall k :: k in positions <==> Occurs(s, xs, k)
  }

  /** Each group is where the dictionary says. */
  ghost predicate Locates<T(!new)>(s: Scheme<T>, xs: seq<T>, positions: map<Key, nat>) {
    forall k :: k in positions ==> SitsAt(s, xs, k, positions[k])
  }

  ghost predicate Indexed<T(!new)>(s: Scheme<T>, xs: seq<T>, positions: map<Key, nat>) {
    Knows(s, xs, positions) && Locates(s, xs, positions)
  }

  lemma LocatesLonger<T(!new)>(s: Scheme<T>, xs: seq<T>, x: T, positions: map<Key, nat>)
    requires Locates(s, xs, positions)
    ensures Locates(s, xs + [x], positions)
  {
    forall k: Key | k in positions ensures SitsAt(s, xs + [x], k, positions[k]) {
      SitsLonger(s, xs, x, k, positions[k]);
    }
  }

  lemma KnowsOneMore<T(!new)>(s: Scheme<T>, xs: seq<T>, x: T, positions: map<Key, nat>, grown: map<Key, nat>)
    requires Knows(s, xs, positions)
    requires grown.Keys == positions.Keys + if s.KeyOf(x).Some? then {s.KeyOf(x).value} else {}
    ensures Knows(s, xs + [x], grown)
  {
    forall k: Key ensures k in grown <==> Occurs(s, xs + [x], k) {
      OccursGrows(s, xs, x, k);
    }
  }

  lemma SitsLonger<T(!new)>(s: Scheme<T>, xs: seq<T>, x: T, k: Key, p: nat)
    requires SitsAt(s, xs, k, p)
    ensures SitsAt(s, xs + [x], k, p)
  {
    assert (xs + [x])[..|xs|] == xs;
  }

  lemma IndexedStays<T(!new)>(s: Scheme<T>, xs: seq<T>, x: T, positions: map<Key, nat>)
    requires Indexed(s, xs, positions) && (s.KeyOf(x).None? || s.KeyOf(x).value in positions)
    ensures Indexed(s, xs + [x], positions)
  {
    KnowsOneMore(s, xs, x, positions, positions);
    LocatesLonger(s, xs, x, positions);
  }

  lemma SitsLast<T(!new)>(s: Scheme<T>, xs: seq<T>, x: T, k: Key)
    requires s.KeyOf(x) == Some(k) && !Occurs(s, xs, k)
    ensures SitsAt(s, xs + [x], k, |Heads(s, xs)|)
  {
    assert (xs + [x])[..|xs|] == xs;
  }

  lemma IndexedAdds<T(!new)>(s: Scheme<T>, xs: seq<T>, x: T, k: Key, positions: map<Key, nat>)
    requires Indexed(s, xs, positions) && s.KeyOf(x) == Some(k) && k !in positions
    ensures Indexed(s, xs + [x], positions[k := |Heads(s, xs)|])
  {
    KnowsOneMore(s, xs, x, positions, positions[k := |Heads(s, xs)|]);
    SitsLast(s, xs, x, k);
    LocatesLonger(s, xs, x, positions);
  }

  /** A repeated group is merged at its one position. */
  lemma MergedStep<T(!new)>(s: Scheme<T>, xs: seq<T>, x: T, k: Key, p: nat)
    requires s.KeyOf(x) == Some(k) && Occurs(s, xs, k) && SitsAt(s, xs, k, p)
    ensures var before := Consolidated(s, xs);
            Consolidated(s, xs + [x]) == before[p := s.merge(before[p], s.Normal(x))]
  {
    RepeatIsMerged(s, xs, x, k);
    forall q | 0 <= q < |Heads(s, xs)| && SitsAt(s, xs, k, q) ensures q == p {
      if q < p {
        OneSurvivorPerGroup(s, xs, q, p);
      } else if p < q {
        OneSurvivorPerGroup(s, xs, p, q);
      }
    }
  }

  /** The loop's variables after the first items. */
  ghost predicate SoFar<T(!new)>(s: Scheme<T>, xs: seq<T>, values: seq<T>, positions: map<Key, nat>) {
    values == Consolidated(s, xs) && Indexed(s, xs, positions)
  }

  lemma NewcomerSoFar<T(!new)>(s: Scheme<T>, xs: seq<T>, x: T, values: seq<T>, positions: map<Key, nat>)
    requires SoFar(s, xs, values, positions) && (s.KeyOf(x).Some? ==> s.KeyOf(x).value !in positions)
    ensures match s.KeyOf(x)
            case None => SoFar(s, xs + [x], values + [x], positions)
            case Some(k) => SoFar(s, xs + [x], values + [s.Normal(x)], positions[k := |values|])
  {
    NewcomerGoesLast(s, xs, x);
    match s.KeyOf(x)
    case None => IndexedStays(s, xs, x, positions);
    case Some(k) => IndexedAdds(s, xs, x, k, positions);
  }

  lemma RepeatSoFar<T(!new)>(s: Scheme<T>, xs: seq<T>, x: T, values: seq<T>, positions: map<Key, nat>)
    requires SoFar(s, xs, values, positions) && s.KeyOf(x).Some? && s.KeyOf(x).value in positions
    ensures var p := positions[s.KeyOf(x).value];
            p < |values| && SoFar(s, xs + [x], values[p := s.merge(values[p], s.Normal(x))], positions)
  {
    var k := s.KeyOf(x).value;
    IndexedStays(s, xs, x, positions);
    MergedStep(s, xs, x, k, positions[k]);
  }

  /** One item: append it, or merge it into its group's value. */
  method Place<T(!new)>(s: Scheme<T>, ghost xs: seq<T>, x: T, values: seq<T>, positions: map<Key, nat>)
    returns (values': seq<T>, positions': map<Key, nat>)
    requires SoFar(s, xs, values, positions)
    ensures SoFar(s, xs + [x], values', positions')
  {
    match s.KeyOf(x)
    case None =>
      NewcomerSoFar(s, xs, x, values, positions);
      return values + [x], positions;
    case Some(k) =>
      if k !in positions {
        NewcomerSoFar(s, xs, x, values, positions);
        return values + [s.Normal(x)], positions[k := |values|];
      }
      RepeatSoFar(s, xs, x, values, positions);
      return values[positions[k] := s.merge(values[positions[k]], s.Normal(x))], positions;
  }

  lemma NothingYet<T(!new)>(s: Scheme<T>)
    ensures SoFar(s, [], [], map[])
  {
  }

  lemma OneMore<T>(xs: seq<T>, i: nat)
    requires i < |xs|
    ensures xs[..i + 1] == xs[..i] + [xs[i]]
  {
  }

  lemma WholeList<T>(xs: seq<T>)
    ensures xs[..|xs|] == xs
  {
  }

  /** The consolidation loop: a list of values and a dictionary of the position of every group. */
  method Consolidate<T(!new)>(s: Scheme<T>, xs: seq<T>) returns (values: seq<T>)
    ensures values == Consolidated(s, xs)
  {
    values := [];
    var positions: map<Key, nat> := map[];
    NothingYet(s);
    assert xs[..0] == [];
    for i := 0 to |xs|
      invariant SoFar(s, xs[..i], values, positions)
    {
      values, positions := Place(s, xs[..i], xs[i], values, positions);
      OneMore(xs, i);
    }
    WholeList(xs);
  }

  // ---------------------------------------------------------------- one value per group, in order

  lemma IsHeadOfPrefix<T(!new)>(s: Scheme<T>, xs: seq<T>, x: T, i: nat)
    requires i < |xs|
    ensures IsHead(s, xs + [x], i) <==> IsHead(s, xs, i)
  {
    assert (xs + [x])[..i] == xs[..i];
  }

  /** The survivors keep their order. */
  lemma {:induction false} HeadsIncrease<T(!new)>(s: Scheme<T>, xs: seq<T>)
    ensures forall a, b :: 0 <= a < b < |Heads(s, xs)| ==> Heads(s, xs)[a] < Heads(s, xs)[b]
    decreases |xs|
  {
    if xs != [] {
      HeadsIncrease(s, xs[..|xs| - 1]);
    }
  }

  /** Exactly the first of every group and the items that take no part survive. */
  lemma {:induction false} HeadsAreHeads<T(!new)>(s: Scheme<T>, xs: seq<T>, i: nat)
    requires i < |xs|
    ensures IsHead(s, xs, i) <==> i in Heads(s, xs)
    decreases |xs|
  {
    var last := |xs| - 1;
    var earlier, x := xs[..last], xs[last];
    assert xs == earlier + [x];
    LastIsHead(s, earlier, x);
    HeadsGrow(s, earlier, x);
    if i < last {
      HeadsAreHeads(s, earlier, i);
      IsHeadOfPrefix(s, earlier, x, i);
    } else {
      assert last !in Heads(s, earlier);
    }
  }

  /** Two survivors never belong to one group. */
  lemma OneSurvivorPerGroup<T(!new)>(s: Scheme<T>, xs: seq<T>, a: nat, b: nat)
    requires a < b < |Heads(s, xs)| && s.KeyOf(xs[Heads(s, xs)[a]]).Some?
    ensures s.KeyOf(xs[Heads(s, xs)[a]]) != s.KeyOf(xs[Heads(s, xs)[b]])
  {
    var i, j := Heads(s, xs)[a], Heads(s, xs)[b];
    HeadsIncrease(s, xs);
    HeadsAreHeads(s, xs, j);
    assert j in Heads(s, xs) && IsHead(s, xs, j) && xs[..j][i] == xs[i];
  }

  /** Every group has a survivor. */
  lemma {:induction false} GroupSurvives<T(!new)>(s: Scheme<T>, xs: seq<T>, k: Key) returns (p: nat)
    requires Occurs(s, xs, k)
    ensures SitsAt(s, xs, k, p)
    decreases |xs|
  {
    var last := |xs| - 1;
    var x, earlier := xs[last], xs[..last];
    assert xs == earlier + [x];
    OccursGrows(s, earlier, x, k);
    if Occurs(s, earlier, k) {
      p := GroupSurvives(s, earlier, k);
      SitsLonger(s, earlier, x, k, p);
    } else {
      p := |Heads(s, earlier)|;
    }
  }

  // ---------------------------------------------------------------- what a merged group is

  predicate Belongs<T(!new)>(s: Scheme<T>, k: Key, x: T) {
    s.part(x) && s.rest(x) == k.rest && s.id(x) == k.id
  }

  lemma {:induction false} GroupBelongs<T(!new)>(s: Scheme<T>, xs: seq<T>, k: Key)
    requires s.Lawful()
    ensures forall i :: 0 <= i < |Group(s, xs, k)| ==> Belongs(s, k, Group(s, xs, k)[i])
    decreases |xs|
  {
    if xs != [] {
      GroupBelongs(s, xs[..|xs| - 1], k);
    }
  }

  lemma {:induction false} FoldBelongs<T(!new)>(s: Scheme<T>, k: Key, g: seq<T>)
    requires s.Lawful() && g != [] && forall i :: 0 <= i < |g| ==> Belongs(s, k, g[i])
    ensures Belongs(s, k, Fold(s.merge, g))
    decreases |g|
  {
    if |g| > 1 {
      var last := |g| - 1;
      FoldBelongs(s, k, g[..last]);
      assert s.Alike(Fold(s.merge, g[..last]), g[last]);
    }
  }

  /** A merged value carries the structural id of its group. */
  lemma ValueBelongs<T(!new)>(s: Scheme<T>, xs: seq<T>, i: nat)
    requires s.Lawful() && i < |xs| && s.KeyOf(xs[i]).Some?
    ensures Belongs(s, s.KeyOf(xs[i]).value, Value(s, xs, i))
  {
    var k := s.KeyOf(xs[i]).value;
    GroupOfOccurring(s, xs, k);
    GroupBelongs(s, xs, k);
    FoldBelongs(s, k, Group(s, xs, k));
  }

  lemma {:induction false} HeadsAreFewer<T(!new)>(s: Scheme<T>, xs: seq<T>)
    ensures |Heads(s, xs)| <= |xs| && (xs != [] ==> Heads(s, xs) != [])
    decreases |xs|
  {
    if |xs| > 1 {
      HeadsAreFewer(s, xs[..|xs| - 1]);
    }
  }

  /** An attribute that renaming keeps and merging takes from one of its two arguments. */
  ghost predicate Inherited<T(!new), A>(s: Scheme<T>, f: T -> A) {
    && (forall x, id :: s.part(x) ==> f(s.rename(x, id)) == f(x))
    && (forall x, y :: f(s.merge(x, y)) == f(x) || f(s.merge(x, y)) == f(y))
  }

  lemma {:induction false} FoldInherits<T(!new), A>(s: Scheme<T>, g: seq<T>, f: T -> A) returns (i: nat)
    requires g != [] && Inherited(s, f)
    ensures i < |g| && f(g[i]) == f(Fold(s.merge, g))
    decreases |g|
  {
    var last := |g| - 1;
    if last == 0 || f(Fold(s.merge, g)) == f(g[last]) {
      i := last;
    } else {
      i := FoldInherits(s, g[..last], f);
    }
  }

  lemma {:induction false} GroupInherits<T(!new), A>(s: Scheme<T>, xs: seq<T>, k: Key, f: T -> A, m: nat) returns (j: nat)
    requires m < |Group(s, xs, k)| && Inherited(s, f)
    ensures j < |xs| && s.KeyOf(xs[j]) == Some(k) && f(xs[j]) == f(Group(s, xs, k)[m])
    decreases |xs|
  {
    var last := |xs| - 1;
    if m < |Group(s, xs[..last], k)| {
      j := GroupInherits(s, xs[..last], k, f, m);
    } else {
      j := last;
    }
  }

  /** Every survivor has each inherited attribute from a member of its group, or is that item itself. */
  lemma SurvivorInherits<T(!new), A>(s: Scheme<T>, xs: seq<T>, p: nat, f: T -> A) returns (j: nat)
    requires p < |Consolidated(s, xs)| && Inherited(s, f)
    ensures j < |xs| && f(xs[j]) == f(Consolidated(s, xs)[p]) && s.KeyOf(xs[j]) == s.KeyOf(xs[Heads(s, xs)[p]])
    ensures s.KeyOf(xs[j]).None? ==> j == Heads(s, xs)[p]
  {
    var h := Heads(s, xs)[p];
    match s.KeyOf(xs[h])
    case None => j := h;
    case Some(k) =>
      GroupOfOccurring(s, xs, k);
      assert Occurs(s, xs, k);
      var m := FoldInherits(s, Group(s, xs, k), f);
      j := GroupInherits(s, xs, k, f, m);
  }

  /** Two survivors take an inherited attribute from two different places. */
  lemma SurvivorsDiffer<T(!new), A>(s: Scheme<T>, xs: seq<T>, p: nat, q: nat, f: T -> A)
    requires p < q < |Consolidated(s, xs)| && Inherited(s, f)
    requires forall i, j :: 0 <= i < j < |xs| ==> f(xs[i]) != f(xs[j])
    ensures f(Consolidated(s, xs)[p]) != f(Consolidated(s, xs)[q])
  {
    var i := SurvivorInherits(s, xs, p, f);
    var j := SurvivorInherits(s, xs, q, f);
    HeadsIncrease(s, xs);
    if s.KeyOf(xs[i]).Some? {
      OneSurvivorPerGroup(s, xs, p, q);
    }
    assert i != j;
  }

  // ---------------------------------------------------------------- when a second pass changes nothing

  /** No id that takes part ends in two versions. */
  ghost predicate OneVersionEach<T(!new)>(s: Scheme<T>, xs: seq<T>) {
    forall i :: 0 <= i < |xs| && s.part(xs[i]) ==> !TwoVersions(s.id(xs[i]))
  }

  /** A list with canonical ids and no two members of one group is left alone. */
  lemma {:induction false} DistinctIsFixed<T(!new)>(s: Scheme<T>, ys: seq<T>)
    requires s.Lawful()
    requires forall p :: 0 <= p < |ys| && s.part(ys[p]) ==> Canonical(s.id(ys[p])) == s.id(ys[p])
    requires forall p, q :: 0 <= p < q < |ys| && s.KeyOf(ys[p]).Some? ==> s.KeyOf(ys[p]) != s.KeyOf(ys[q])
    ensures Consolidated(s, ys) == ys
    decreases |ys|
  {
    if ys != [] {
      var last := |ys| - 1;
      DistinctIsFixed(s, ys[..last]);
      assert ys == ys[..last] + [ys[last]];
      assert s.KeyOf(ys[last]).Some? ==> !Occurs(s, ys[..last], s.KeyOf(ys[last]).value);
      NewcomerGoesLast(s, ys[..last], ys[last]);
    }
  }

  lemma OneVersionGivesFixed<T(!new)>(s: Scheme<T>, xs: seq<T>)
    requires s.Lawful() && OneVersionEach(s, xs)
    ensures Consolidated(s, Consolidated(s, xs)) == Consolidated(s, xs)
  {
    var ys, hs := Consolidated(s, xs), Heads(s, xs);
    forall p | 0 <= p < |ys|
      ensures s.KeyOf(ys[p]) == s.KeyOf(xs[hs[p]])
      ensures s.part(ys[p]) ==> Canonical(s.id(ys[p])) == s.id(ys[p])
    {
      if s.KeyOf(xs[hs[p]]).Some? {
        ValueBelongs(s, xs, hs[p]);
        OnePassExactly(s.id(xs[hs[p]]));
      }
    }
    forall p, q | 0 <= p < q < |ys| && s.KeyOf(ys[p]).Some? ensures s.KeyOf(ys[p]) != s.KeyOf(ys[q]) {
      OneSurvivorPerGroup(s, xs, p, q);
    }
    DistinctIsFixed(s, ys);
  }

  function LongestId<T(!new)>(s: Scheme<T>, ys: seq<T>): (n: nat)
    ensures forall p :: 0 <= p < |ys| ==> |s.id(ys[p])| <= n
  {
    if ys == [] then 0
    else
      var n := LongestId(s, ys[..|ys| - 1]);
      if |s.id(ys[|ys| - 1])| > n then |s.id(ys[|ys| - 1])| else n
  }

  /** In a list a pass leaves alone every id is canonical: otherwise it came from a longer one. */
  lemma {:induction false} FixedIsCanonical<T(!new)>(s: Scheme<T>, ys: seq<T>, p: nat)
    requires s.Lawful() && Consolidated(s, ys) == ys && p < |ys| && s.part(ys[p])
    ensures Canonical(s.id(ys[p])) == s.id(ys[p])
    decreases LongestId(s, ys) - |s.id(ys[p])|
  {
    var h := Heads(s, ys)[p];
    assert ys[p] == Value(s, ys, h);
    if s.KeyOf(ys[h]).Some? {
      ValueBelongs(s, ys, h);
      if s.id(ys[h]) != s.id(ys[p]) {
        FixedIsCanonical(s, ys, h);
      }
    }
  }

  lemma FixedGivesOneVersion<T(!new)>(s: Scheme<T>, xs: seq<T>, i: nat)
    requires s.Lawful() && Consolidated(s, Consolidated(s, xs)) == Consolidated(s, xs)
    requires i < |xs| && s.part(xs[i])
    ensures !TwoVersions(s.id(xs[i]))
  {
    OnePassExactly(s.id(xs[i]));
    var k := s.KeyOf(xs[i]).value;
    assert Occurs(s, xs, k);
    var p := GroupSurvives(s, xs, k);
    ValueBelongs(s, xs, Heads(s, xs)[p]);
    FixedIsCanonical(s, Consolidated(s, xs), p);
  }

  /** A second pass changes nothing exactly when no participating id ends in two versions. */
  lemma IdempotentExactly<T(!new)>(s: Scheme<T>, xs: seq<T>)
    requires s.Lawful()
    ensures Consolidated(s, Consolidated(s, xs)) == Consolidated(s, xs)
            <==> OneVersionEach(s, xs)
  {
    if Consolidated(s, Consolidated(s, xs)) == Consolidated(s, xs) {
      forall i | 0 <= i < |xs| && s.part(xs[i]) ensures !TwoVersions(s.id(xs[i])) {
        FixedGivesOneVersion(s, xs, i);
      }
    }
    if OneVersionEach(s, xs) {
      OneVersionGivesFixed(s, xs);
    }
  }
}
