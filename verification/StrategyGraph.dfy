/** Validation of a declared strategy's step graph and of the execution order compiled for it. */
module StrategyGraph {
  import opened Market

  datatype PipelineStep = PipelineStep(id: string, rule: string, version: string, dependsOn: seq<string>)

  type Graph = map<string, seq<string>>

  /** Each step follows the one that depends on it. */
  ghost predicate Walk(g: Graph, path: seq<string>) {
    forall i :: 0 <= i < |path| - 1 ==> path[i] in g && path[i + 1] in g[path[i]]
  }

  ghost predicate HasCycle(g: Graph) {
    exists path: seq<string> :: |path| >= 2 && Walk(g, path) && path[0] == path[|path| - 1]
  }

  predicate Closed(g: Graph) {
    forall s, d :: s in g && d in g[s] ==> d in g
  }

  predicate NoDuplicates(s: seq<string>) {
    forall i, j :: 0 <= i < j < |s| ==> s[i] != s[j]
  }

  /** A duplicate-free sequence in which dependencies come first. */
  ghost predicate DependenciesFirst(g: Graph, order: seq<string>) {
    && NoDuplicates(order)
    && forall i, d :: 0 <= i < |order| && order[i] in g && d in g[order[i]] ==> d in order[..i]
  }

  ghost predicate ExecutionOrder(g: Graph, order: seq<string>) {
    DependenciesFirst(g, order) && forall s :: s in g <==> s in order
  }

  /** A graph with an execution order has no cycle. */
  lemma OrderExcludesCycles(g: Graph, order: seq<string>)
    requires ExecutionOrder(g, order)
    ensures !HasCycle(g)
  {
    if HasCycle(g) {
      var path :| |path| >= 2 && Walk(g, path) && path[0] == path[|path| - 1];
      var i := WalkDescends(g, order, path, |path| - 1);
    }
  }

  /** Along a walk the positions in an execution order strictly fall. */
  lemma {:induction false} WalkDescends(g: Graph, order: seq<string>, path: seq<string>, k: nat) returns (i: nat)
    requires ExecutionOrder(g, order) && Walk(g, path) && 1 <= k < |path|
    ensures i < |order| && order[i] == path[k]
    ensures forall j :: 0 <= j < |order| && order[j] == path[0] ==> i < j
    decreases k
  {
    if k == 1 {
      assert path[0 + 1] in g[path[0]];
      var j :| 0 <= j < |order| && order[j] == path[0];
      assert path[1] in order[..j];
      i :| 0 <= i < j && order[i] == path[1];
    } else {
      var p := WalkDescends(g, order, path, k - 1);
      assert path[(k - 1) + 1] in g[path[k - 1]];
      assert path[k] in order[..p];
      i :| 0 <= i < p && order[i] == path[k];
    }
  }

  // ---------------------------------------------------------------- the depth-first search

  const VISITING := 1
  const VISITED := 2

  /** White steps are unknown to `state`, grey ones are the walk being explored, black ones are
      finished after everything they depend on. */
  ghost predicate Coloured(g: Graph, state: map<string, int>, finished: seq<string>, grey: seq<string>) {
    && Closed(g)
    && state.Keys <= g.Keys
    && (forall s :: s in state ==> state[s] == VISITING || state[s] == VISITED)
    && (forall s :: s in grey <==> s in state && state[s] == VISITING)
    && (forall s :: s in finished <==> s in state && state[s] == VISITED)
    && Walk(g, grey)
    && DependenciesFirst(g, finished)
  }

  lemma Enter(g: Graph, state: map<string, int>, finished: seq<string>, grey: seq<string>, step: string)
    requires Coloured(g, state, finished, grey) && step in g && step !in state
    requires grey != [] ==> step in g[grey[|grey| - 1]]
    ensures Coloured(g, state[step := VISITING], finished, grey + [step]) && step !in grey
  {
    var walk := grey + [step];
    if grey != [] {
      assert grey[|grey| - 1] in grey;
    }
    forall i | 0 <= i < |walk| - 1 ensures walk[i] in g && walk[i + 1] in g[walk[i]] {
      if i < |grey| - 1 {
        assert grey[i + 1] in g[grey[i]];
      }
    }
  }

  lemma Leave(g: Graph, state: map<string, int>, finished: seq<string>, grey: seq<string>, step: string)
    requires Coloured(g, state, finished, grey + [step]) && step !in grey
    requires step in g && AllFinished(g[step], finished)
    ensures Coloured(g, state[step := VISITED], finished + [step], grey)
  {
    var walk := grey + [step];
    assert step in walk && step !in finished;
    assert forall s :: s in walk <==> s in grey || s == step;
    FinishLast(g, finished, step);
    forall i | 0 <= i < |grey| - 1 ensures grey[i] in g && grey[i + 1] in g[grey[i]] {
      assert walk[i + 1] in g[walk[i]];
    }
  }

  /** How many steps are still to be met. */
  ghost function White(g: Graph, state: map<string, int>): nat {
    |g.Keys - state.Keys|
  }

  ghost predicate AllFinished(steps: seq<string>, finished: seq<string>) {
    forall d :: d in steps ==> d in finished
  }

  lemma FinishedGrows(before: seq<string>, finished: seq<string>, step: string)
    requires before <= finished
    ensures before <= finished + [step] && step in finished + [step]
  {
  }

  class CycleSearch {
    const dependencies: Graph
    var state: map<string, int>
    /** The steps in the order they were finished. */
    ghost var finished: seq<string>

    constructor (dependencies: Graph)
      requires Closed(dependencies)
      ensures this.dependencies == dependencies && state == map[] && finished == []
      ensures Valid([])
    {
      this.dependencies := dependencies;
      state := map[];
      finished := [];
    }

    ghost predicate Valid(grey: seq<string>)
      reads this
    {
      Coloured(dependencies, state, finished, grey)
    }

    /** Explore one step below the grey walk. A refusal is always a real cycle. */
    method Visit(step: string, ghost grey: seq<string>) returns (ok: bool)
      requires Valid(grey) && step in dependencies
      requires grey != [] ==> step in dependencies[grey[|grey| - 1]]
      modifies this
      ensures old(state.Keys) <= state.Keys
      ensures ok ==> Valid(grey) && step in finished && old(finished) <= finished
      ensures !ok ==> HasCycle(dependencies)
      decreases White(dependencies, state), 1
    {
      if step in state && state[step] == VISITING {
        GreyClosesCycle(dependencies, state, finished, grey, step);
        return false;
      }
      if step in state && state[step] == VISITED {
        return true;
      }
      ok := Explore(step, grey);
    }

    /** Explore a step met for the first time: grey while its dependencies are explored, then black. */
    method Explore(step: string, ghost grey: seq<string>) returns (ok: bool)
      requires Valid(grey) && step in dependencies && step !in state
      requires grey != [] ==> step in dependencies[grey[|grey| - 1]]
      modifies this
      ensures old(state.Keys) <= state.Keys
      ensures ok ==> Valid(grey) && step in finished && old(finished) <= finished
      ensures !ok ==> HasCycle(dependencies)
      decreases White(dependencies, state), 0
    {
      Enter(dependencies, state, finished, grey, step);
      WhiteShrinks(dependencies, state, step);
      state := state[step := VISITING];
      ok := VisitAll(dependencies[step], step, grey);
      if ok {
        Leave(dependencies, state, finished, grey, step);
        FinishedGrows(old(finished), finished, step);
        state := state[step := VISITED];
        finished := finished + [step];
      }
    }

    /** Explore everything a grey step depends on. */
    method VisitAll(next: seq<string>, step: string, ghost grey: seq<string>) returns (ok: bool)
      requires Valid(grey + [step]) && step in dependencies && next == dependencies[step]
      modifies this
      ensures old(state.Keys) <= state.Keys
      ensures ok ==> Valid(grey + [step]) && old(finished) <= finished
      ensures ok ==> AllFinished(next, finished)
      ensures !ok ==> HasCycle(dependencies)
      decreases White(dependencies, state), 2
    {
      ghost var known := state;
      for k := 0 to |next|
        invariant Valid(grey + [step]) && old(finished) <= finished
        invariant known.Keys <= state.Keys
        invariant AllFinished(next[..k], finished)
      {
        assert next[k] in dependencies[step];
        WhiteNeverGrows(dependencies, state, known);
        ghost var done := finished;
        var explored := Visit(next[k], grey + [step]);
        if !explored {
          return false;
        }
        FinishedSoFar(next, k, done, finished);
      }
      assert next[..|next|] == next;
      ok := true;
    }
  }

  lemma FinishedSoFar(next: seq<string>, k: nat, done: seq<string>, finished: seq<string>)
    requires k < |next| && done <= finished && next[k] in finished
    requires AllFinished(next[..k], done)
    ensures AllFinished(next[..k + 1], finished)
  {
    assert next[..k + 1] == next[..k] + [next[k]];
    assert forall d :: d in done ==> d in finished;
  }

  lemma WhiteNeverGrows(g: Graph, state: map<string, int>, known: map<string, int>)
    requires known.Keys <= state.Keys
    ensures White(g, state) <= White(g, known)
  {
    SmallerOrEqual(g.Keys - state.Keys, g.Keys - known.Keys);
  }

  lemma WhiteShrinks(g: Graph, state: map<string, int>, step: string)
    requires step in g && step !in state
    ensures White(g, state[step := VISITING]) < White(g, state)
  {
    assert step in g.Keys - state.Keys;
    SmallerSet(g.Keys - state[step := VISITING].Keys, g.Keys - state.Keys);
  }

  lemma SmallerSet<T>(a: set<T>, b: set<T>)
    requires a < b
    ensures |a| < |b|
  {
    SmallerOrEqual(a, b);
    var x :| x in b && x !in a;
    SmallerOrEqual(a, b - {x});
  }

  lemma SmallerOrEqual<T>(a: set<T>, b: set<T>)
    requires a <= b
    ensures |a| <= |b|
  {
    assert b == a + (b - a);
  }

  /** Meeting a grey step again closes a cycle. */
  lemma ClosesCycle(g: Graph, grey: seq<string>, step: string)
    requires Walk(g, grey) && step in grey && (grey != [] ==> grey[|grey| - 1] in g && step in g[grey[|grey| - 1]])
    ensures HasCycle(g)
  {
    var i :| 0 <= i < |grey| && grey[i] == step;
    var cycle := grey[i..] + [step];
    forall k | 0 <= k < |cycle| - 1 ensures cycle[k] in g && cycle[k + 1] in g[cycle[k]] {
      assert cycle[k] == grey[i + k];
    }
    assert Walk(g, cycle) && cycle[0] == cycle[|cycle| - 1];
  }

  lemma GreyClosesCycle(g: Graph, state: map<string, int>, finished: seq<string>, grey: seq<string>, step: string)
    requires Coloured(g, state, finished, grey) && step in state && state[step] == VISITING
    requires grey != [] ==> step in g[grey[|grey| - 1]]
    ensures HasCycle(g)
  {
    assert step in grey && grey[|grey| - 1] in grey;
    ClosesCycle(g, grey, step);
  }

  lemma FinishLast(g: Graph, finished: seq<string>, step: string)
    requires DependenciesFirst(g, finished) && step in g && step !in finished
    requires forall d :: d in g[step] ==> d in finished
    ensures DependenciesFirst(g, finished + [step])
  {
    var order := finished + [step];
    forall i, d | 0 <= i < |order| && order[i] in g && d in g[order[i]] ensures d in order[..i] {
      if i < |finished| {
        assert order[..i] == finished[..i];
      } else {
        assert order[..i] == finished;
      }
    }
  }

  // ---------------------------------------------------------------- the declared strategy

  datatype Strategy = Strategy(
    id: string, family: string, engine: string, runId: string, primary: bool, rulePackHash: string,
    pipeline: seq<PipelineStep>, bindings: seq<string>, scoring: seq<string>, minimumPassing: nat)

  datatype Refusal =
    | DuplicateSteps | DuplicateRules | UnknownDependencies | CyclicDependencies
    | DuplicateBindings | BindingsMismatch | UnknownScoring | MinimumTooHigh

  function StepIds(pipeline: seq<PipelineStep>): (ids: seq<string>)
    ensures |ids| == |pipeline|
  {
    seq(|pipeline|, i requires 0 <= i < |pipeline| => pipeline[i].id)
  }

  function RuleIds(pipeline: seq<PipelineStep>): (ids: seq<string>)
    ensures |ids| == |pipeline|
  {
    seq(|pipeline|, i requires 0 <= i < |pipeline| => pipeline[i].rule)
  }

  function Elements(s: seq<string>): set<string> {
    set x | x in s
  }

  function StepGraph(pipeline: seq<PipelineStep>): (g: Graph)
    ensures forall s :: s in g <==> s in StepIds(pipeline)
  {
    if pipeline == [] then map[]
    else
      var rest := StepGraph(pipeline[..|pipeline| - 1]);
      var last := pipeline[|pipeline| - 1];
      assert forall s :: s in StepIds(pipeline) <==> s in StepIds(pipeline[..|pipeline| - 1]) || s == last.id by {
        assert StepIds(pipeline) == StepIds(pipeline[..|pipeline| - 1]) + [last.id];
      }
      rest[last.id := last.dependsOn]
  }

  lemma InitIsDistinct(pipeline: seq<PipelineStep>)
    requires pipeline != [] && NoDuplicates(StepIds(pipeline))
    ensures NoDuplicates(StepIds(pipeline[..|pipeline| - 1]))
    ensures forall i :: 0 <= i < |pipeline| - 1 ==> pipeline[i].id != pipeline[|pipeline| - 1].id
  {
    var ids, init := StepIds(pipeline), StepIds(pipeline[..|pipeline| - 1]);
    forall i | 0 <= i < |init| ensures init[i] == ids[i] && pipeline[i].id != pipeline[|pipeline| - 1].id {
      assert ids[i] != ids[|pipeline| - 1];
    }
  }

  lemma {:induction false} StepGraphEdge(pipeline: seq<PipelineStep>, i: nat)
    requires NoDuplicates(StepIds(pipeline)) && i < |pipeline|
    ensures pipeline[i].id in StepGraph(pipeline) && StepGraph(pipeline)[pipeline[i].id] == pipeline[i].dependsOn
    decreases |pipeline|
  {
    InitIsDistinct(pipeline);
    if i < |pipeline| - 1 {
      StepGraphEdge(pipeline[..|pipeline| - 1], i);
    }
  }

  lemma {:induction false} StepGraphEdges(pipeline: seq<PipelineStep>)
    requires NoDuplicates(StepIds(pipeline))
    ensures forall i :: 0 <= i < |pipeline| ==>
              pipeline[i].id in StepGraph(pipeline) && StepGraph(pipeline)[pipeline[i].id] == pipeline[i].dependsOn
  {
    forall i | 0 <= i < |pipeline|
      ensures pipeline[i].id in StepGraph(pipeline) && StepGraph(pipeline)[pipeline[i].id] == pipeline[i].dependsOn
    {
      StepGraphEdge(pipeline, i);
    }
  }

  predicate DependenciesKnown(pipeline: seq<PipelineStep>) {
    forall i, d :: 0 <= i < |pipeline| && d in pipeline[i].dependsOn ==> d in StepIds(pipeline)
  }

  /** The first rule of the declaration a strategy breaks, cycles being what they are in the graph. */
  ghost predicate RefusedFor(s: Strategy, r: Option<Refusal>) {
    if !NoDuplicates(StepIds(s.pipeline)) then r == Some(DuplicateSteps)
    else if !NoDuplicates(RuleIds(s.pipeline)) then r == Some(DuplicateRules)
    else if !DependenciesKnown(s.pipeline) then r == Some(UnknownDependencies)
    else if HasCycle(StepGraph(s.pipeline)) then r == Some(CyclicDependencies)
    else if !NoDuplicates(s.bindings) then r == Some(DuplicateBindings)
    else if Elements(s.bindings) != Elements(RuleIds(s.pipeline)) then r == Some(BindingsMismatch)
    else if !(Elements(s.scoring) <= Elements(RuleIds(s.pipeline))) then r == Some(UnknownScoring)
    else if s.minimumPassing > |s.pipeline| then r == Some(MinimumTooHigh)
    else r == None
  }

  lemma StepGraphClosed(pipeline: seq<PipelineStep>)
    requires NoDuplicates(StepIds(pipeline)) && DependenciesKnown(pipeline)
    ensures Closed(StepGraph(pipeline))
  {
    var g := StepGraph(pipeline);
    StepGraphEdges(pipeline);
    forall s, d | s in g && d in g[s] ensures d in g {
      var i :| 0 <= i < |pipeline| && StepIds(pipeline)[i] == s;
      assert d in pipeline[i].dependsOn;
    }
  }

  /** Search every step. The search succeeds exactly on acyclic graphs, and then the order in
      which it finished the steps is one in which they can run. */
  method SearchCycles(g: Graph, ids: seq<string>) returns (acyclic: bool, ghost order: seq<string>)
    requires Closed(g) && forall s :: s in g <==> s in ids
    ensures acyclic <==> !HasCycle(g)
    ensures acyclic ==> ExecutionOrder(g, order)
  {
    var search := new CycleSearch(g);
    for i := 0 to |ids|
      invariant search.Valid([]) && search.dependencies == g
      invariant forall k :: 0 <= k < i ==> ids[k] in search.finished
      invariant fresh(search)
    {
      ghost var done := search.finished;
      var ok := search.Visit(ids[i], []);
      if !ok {
        return false, [];
      }
      assert forall s :: s in done ==> s in search.finished;
    }
    order := search.finished;
    OrderExcludesCycles(g, order);
    acyclic := true;
  }

  method ValidateStrategy(s: Strategy) returns (r: Option<Refusal>, ghost order: seq<string>)
    ensures RefusedFor(s, r)
    ensures r.None? ==> ExecutionOrder(StepGraph(s.pipeline), order)
  {
    order := [];
    if !NoDuplicates(StepIds(s.pipeline)) {
      return Some(DuplicateSteps), [];
    }
    if !NoDuplicates(RuleIds(s.pipeline)) {
      return Some(DuplicateRules), [];
    }
    for i := 0 to |s.pipeline|
      invariant forall k, d :: 0 <= k < i && d in s.pipeline[k].dependsOn ==> d in StepIds(s.pipeline)
    {
      var unknown := Elements(s.pipeline[i].dependsOn) - Elements(StepIds(s.pipeline));
      if unknown != {} {
        var d :| d in unknown;
        assert d in s.pipeline[i].dependsOn;
        return Some(UnknownDependencies), [];
      }
      forall d | d in s.pipeline[i].dependsOn ensures d in StepIds(s.pipeline) {
        assert d in Elements(s.pipeline[i].dependsOn) && d !in unknown;
      }
    }
    var acyclic;
    StepGraphClosed(s.pipeline);
    acyclic, order := SearchCycles(StepGraph(s.pipeline), StepIds(s.pipeline));
    if !acyclic {
      return Some(CyclicDependencies), [];
    }
    if !NoDuplicates(s.bindings) {
      return Some(DuplicateBindings), order;
    }
    if Elements(s.bindings) != Elements(RuleIds(s.pipeline)) {
      return Some(BindingsMismatch), order;
    }
    if !(Elements(s.scoring) <= Elements(RuleIds(s.pipeline))) {
      return Some(UnknownScoring), order;
    }
    r := if s.minimumPassing > |s.pipeline| then Some(MinimumTooHigh) else None;
  }

  // ---------------------------------------------------------------- the compiled strategy

  datatype RuleManifest = RuleManifest(family: string, engine: string, hash: string, rules: set<(string, string)>)

  datatype CompilationRefusal = PackMismatch | HashMismatch | IncompleteOrder | OrderViolated | MissingRules

  function RequiredRules(pipeline: seq<PipelineStep>): set<(string, string)> {
    set i | 0 <= i < |pipeline| :: (pipeline[i].rule, pipeline[i].version)
  }

  /** The positions of an order; a repeated step keeps its last one. */
  method Positions(order: seq<string>) returns (positions: map<string, nat>)
    ensures Locates(positions, order)
  {
    positions := map[];
    for i := 0 to |order|
      invariant forall s :: s in positions <==> s in order[..i]
      invariant forall s :: s in positions ==> positions[s] < i && order[positions[s]] == s
    {
      positions := positions[order[i] := i];
      assert order[..i + 1] == order[..i] + [order[i]];
    }
    assert order[..|order|] == order;
  }

  lemma {:induction false} ElementsAtMost(s: seq<string>)
    ensures |Elements(s)| <= |s|
  {
    if s != [] {
      ElementsAtMost(s[1..]);
      assert s == [s[0]] + s[1..];
      assert Elements(s) == Elements(s[1..]) + {s[0]};
    }
  }

  lemma {:induction false} DistinctFillsUp(s: seq<string>)
    requires NoDuplicates(s)
    ensures |Elements(s)| == |s|
  {
    if s != [] {
      DistinctFillsUp(s[1..]);
      assert s == [s[0]] + s[1..];
      assert Elements(s) == Elements(s[1..]) + {s[0]};
      assert s[0] !in Elements(s[1..]);
    }
  }

  lemma RepeatedFallsShort(s: seq<string>, i: nat, j: nat)
    requires i < j < |s| && s[i] == s[j]
    ensures |Elements(s)| < |s|
  {
    var t := s[..j] + s[j + 1..];
    ElementsAtMost(t);
    assert forall x :: x in s ==> x in t by {
      forall x | x in s ensures x in t {
        var k :| 0 <= k < |s| && s[k] == x;
        if k < j {
          assert t[k] == x;
        } else if k > j {
          assert t[k - 1] == x;
        } else {
          assert t[i] == x;
        }
      }
    }
    assert Elements(s) <= Elements(t);
    SmallerOrEqual(Elements(s), Elements(t));
  }

  /** As many elements as places means that nothing is repeated. */
  lemma FullSizeMeansDistinct(s: seq<string>)
    ensures |Elements(s)| == |s| <==> NoDuplicates(s)
  {
    if NoDuplicates(s) {
      DistinctFillsUp(s);
    } else {
      var i, j :| 0 <= i < j < |s| && s[i] == s[j];
      RepeatedFallsShort(s, i, j);
    }
  }

  /** `positions` says where each step of a duplicate-free order stands. */
  ghost predicate Locates(positions: map<string, nat>, order: seq<string>) {
    && (forall s :: s in positions <==> s in order)
    && (forall s :: s in positions ==> positions[s] < |order| && order[positions[s]] == s)
  }

  lemma StandsAt(positions: map<string, nat>, order: seq<string>, d: string, i: nat)
    requires NoDuplicates(order) && Locates(positions, order) && d in order && i <= |order|
    ensures d in order[..i] <==> positions[d] < i
  {
    if positions[d] < i {
      assert order[..i][positions[d]] == d;
    }
  }

  /** Every dependency of the step stands before it. */
  predicate StepInOrder(step: PipelineStep, positions: map<string, nat>) {
    forall d :: d in step.dependsOn ==>
      d in positions && step.id in positions && positions[d] < positions[step.id]
  }

  predicate InOrder(pipeline: seq<PipelineStep>, positions: map<string, nat>) {
    forall k :: 0 <= k < |pipeline| ==> StepInOrder(pipeline[k], positions)
  }

  lemma InOrderMeansDependenciesFirst(pipeline: seq<PipelineStep>, order: seq<string>, positions: map<string, nat>)
    requires NoDuplicates(StepIds(pipeline)) && DependenciesKnown(pipeline)
    requires NoDuplicates(order) && Locates(positions, order)
    requires forall s :: s in order <==> s in StepIds(pipeline)
    ensures InOrder(pipeline, positions) <==> DependenciesFirst(StepGraph(pipeline), order)
  {
    var g := StepGraph(pipeline);
    StepGraphEdges(pipeline);
    if InOrder(pipeline, positions) {
      forall i, d | 0 <= i < |order| && order[i] in g && d in g[order[i]] ensures d in order[..i] {
        var k :| 0 <= k < |pipeline| && StepIds(pipeline)[k] == order[i];
        assert StepInOrder(pipeline[k], positions) && d in pipeline[k].dependsOn;
        assert positions[order[i]] == i;
        StandsAt(positions, order, d, i);
      }
    }
    if DependenciesFirst(g, order) {
      forall k, d | 0 <= k < |pipeline| && d in pipeline[k].dependsOn
        ensures d in positions && pipeline[k].id in positions && positions[d] < positions[pipeline[k].id]
      {
        assert StepIds(pipeline)[k] == pipeline[k].id;
        var i := positions[pipeline[k].id];
        assert order[i] in g && d in g[order[i]];
        StandsAt(positions, order, d, i);
      }
    }
  }

  /** The order names every step exactly once. */
  predicate Complete(pipeline: seq<PipelineStep>, order: seq<string>) {
    NoDuplicates(order) && Elements(order) == Elements(StepIds(pipeline))
  }

  lemma CompleteByCounting(pipeline: seq<PipelineStep>, order: seq<string>)
    requires NoDuplicates(StepIds(pipeline))
    ensures Complete(pipeline, order) <==> |order| == |pipeline| && Elements(order) == Elements(StepIds(pipeline))
  {
    FullSizeMeansDistinct(order);
    FullSizeMeansDistinct(StepIds(pipeline));
  }

  lemma ExecutionOrdersAreComplete(pipeline: seq<PipelineStep>, order: seq<string>)
    ensures ExecutionOrder(StepGraph(pipeline), order) <==>
            Complete(pipeline, order) && DependenciesFirst(StepGraph(pipeline), order)
  {
    if Complete(pipeline, order) {
      SameElements(order, StepIds(pipeline));
    }
    if ExecutionOrder(StepGraph(pipeline), order) {
      assert Elements(order) == Elements(StepIds(pipeline));
    }
  }

  /** The check of a compiled order accepts exactly the execution orders of the step graph. */
  method ValidateOrder(pipeline: seq<PipelineStep>, order: seq<string>) returns (r: Option<CompilationRefusal>)
    requires NoDuplicates(StepIds(pipeline)) && DependenciesKnown(pipeline)
    ensures r == None || r == Some(IncompleteOrder) || r == Some(OrderViolated)
    ensures r.None? <==> ExecutionOrder(StepGraph(pipeline), order)
    ensures r == Some(IncompleteOrder) <==> !Complete(pipeline, order)
  {
    CompleteByCounting(pipeline, order);
    ExecutionOrdersAreComplete(pipeline, order);
    if |order| != |pipeline| || Elements(order) != Elements(StepIds(pipeline)) {
      return Some(IncompleteOrder);
    }
    var positions := Positions(order);
    InOrderDecides(pipeline, order, positions);
    var inOrder := CheckOrder(pipeline, positions);
    r := if inOrder then None else Some(OrderViolated);
  }

  /** The loop over the steps and their positions. */
  method CheckOrder(pipeline: seq<PipelineStep>, positions: map<string, nat>) returns (inOrder: bool)
    ensures inOrder <==> InOrder(pipeline, positions)
  {
    for i := 0 to |pipeline|
      invariant forall k :: 0 <= k < i ==> StepInOrder(pipeline[k], positions)
    {
      if !StepInOrder(pipeline[i], positions) {
        return false;
      }
    }
    inOrder := true;
  }

  /** For a complete order the positions decide. */
  lemma InOrderDecides(pipeline: seq<PipelineStep>, order: seq<string>, positions: map<string, nat>)
    requires NoDuplicates(StepIds(pipeline)) && DependenciesKnown(pipeline)
    requires Complete(pipeline, order) && Locates(positions, order)
    ensures InOrder(pipeline, positions) <==> ExecutionOrder(StepGraph(pipeline), order)
  {
    ExecutionOrdersAreComplete(pipeline, order);
    SameElements(order, StepIds(pipeline));
    InOrderMeansDependenciesFirst(pipeline, order, positions);
  }

  lemma SameElements(a: seq<string>, b: seq<string>)
    requires Elements(a) == Elements(b)
    ensures forall s :: s in a <==> s in b
  {
    forall s ensures s in a <==> s in b {
      assert s in Elements(a) <==> s in Elements(b);
    }
  }

  /** Compilation accepts a pack that fits, an order that can run and rules that all exist. */
  method ValidateCompilation(s: Strategy, pack: RuleManifest, order: seq<string>) returns (r: Option<CompilationRefusal>)
    requires NoDuplicates(StepIds(s.pipeline)) && DependenciesKnown(s.pipeline)
    ensures r.None? <==>
              && s.family == pack.family && s.engine == pack.engine && s.rulePackHash == pack.hash
              && ExecutionOrder(StepGraph(s.pipeline), order)
              && RequiredRules(s.pipeline) <= pack.rules
    ensures r.None? ==> !HasCycle(StepGraph(s.pipeline))
  {
    if s.family != pack.family || s.engine != pack.engine {
      return Some(PackMismatch);
    }
    if s.rulePackHash != pack.hash {
      return Some(HashMismatch);
    }
    r := ValidateOrder(s.pipeline, order);
    if r.Some? {
      return;
    }
    OrderExcludesCycles(StepGraph(s.pipeline), order);
    if !(RequiredRules(s.pipeline) <= pack.rules) {
      return Some(MissingRules);
    }
  }

  // ---------------------------------------------------------------- one primary per scope

  predicate Clashes(a: Strategy, b: Strategy) {
    a.primary && b.primary && a.family == b.family && a.engine == b.engine && a.runId == b.runId
  }

  predicate PrimariesApart(strategies: seq<Strategy>) {
    forall i, j :: 0 <= i < j < |strategies| ==> !Clashes(strategies[i], strategies[j])
  }

  type Scope = (string, string, string)

  function ScopeOf(s: Strategy): Scope {
    (s.family, s.engine, s.runId)
  }

  /** The dictionary after the first `j` strategies, and where each of its entries comes from. */
  ghost predicate Registers(strategies: seq<Strategy>, j: nat, byScope: map<Scope, string>, owner: map<Scope, nat>)
    requires j <= |strategies|
  {
    && byScope.Keys == owner.Keys
    && (forall scope :: scope in owner ==> owner[scope] < j && Owns(strategies[owner[scope]], scope, byScope))
    && (forall i :: 0 <= i < j && strategies[i].primary ==> ScopeOf(strategies[i]) in owner)
  }

  predicate Owns(s: Strategy, scope: Scope, byScope: map<Scope, string>) {
    s.primary && ScopeOf(s) == scope && scope in byScope && byScope[scope] == s.id
  }

  lemma NewScope(strategies: seq<Strategy>, j: nat, byScope: map<Scope, string>, owner: map<Scope, nat>)
    requires j < |strategies| && Registers(strategies, j, byScope, owner)
    requires strategies[j].primary && ScopeOf(strategies[j]) !in byScope
    ensures var scope := ScopeOf(strategies[j]);
            Registers(strategies, j + 1, byScope[scope := strategies[j].id], owner[scope := j])
  {
  }

  /** One more strategy clashes with an earlier one exactly when it is primary in a known scope. */
  lemma ApartStep(strategies: seq<Strategy>, j: nat, byScope: map<Scope, string>, owner: map<Scope, nat>)
    requires j < |strategies| && Registers(strategies, j, byScope, owner) && PrimariesApart(strategies[..j])
    requires !(strategies[j].primary && ScopeOf(strategies[j]) in byScope)
    ensures PrimariesApart(strategies[..j + 1])
  {
    forall i | 0 <= i < j ensures !Clashes(strategies[i], strategies[j]) {
      assert strategies[i].primary ==> ScopeOf(strategies[i]) in owner;
    }
    assert strategies[..j + 1] == strategies[..j] + [strategies[j]];
  }

  /** The refusal names two primaries of one scope. */
  method ValidatePrimaryUniqueness(strategies: seq<Strategy>) returns (clash: Option<(string, string)>)
    ensures clash.None? <==> PrimariesApart(strategies)
    ensures clash.Some? ==>
              (exists i, j :: 0 <= i < j < |strategies| && Clashes(strategies[i], strategies[j])
                              && clash.value == (strategies[i].id, strategies[j].id))
  {
    var byScope: map<Scope, string> := map[];
    ghost var owner: map<Scope, nat> := map[];
    for j := 0 to |strategies|
      invariant PrimariesApart(strategies[..j]) && Registers(strategies, j, byScope, owner)
    {
      var s := strategies[j];
      if s.primary && ScopeOf(s) in byScope {
        ghost var i := owner[ScopeOf(s)];
        assert Owns(strategies[i], ScopeOf(s), byScope) && Clashes(strategies[i], strategies[j]);
        return Some((byScope[ScopeOf(s)], s.id));
      }
      ApartStep(strategies, j, byScope, owner);
      if s.primary {
        NewScope(strategies, j, byScope, owner);
        byScope := byScope[ScopeOf(s) := s.id];
        owner := owner[ScopeOf(s) := j];
      }
    }
    assert strategies[..|strategies|] == strategies;
    clash := None;
  }
}
