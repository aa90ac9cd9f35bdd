// Ancestors of credential types: a recursion inside a loop over an array that
// grows while it is iterated.
module CredentialTypes {

  import opened Common

  /** What the loader knows: the `extends` array of each known credential type. */
  type Known = map<string, seq<string>>

  /** An unknown type, and one without `extends`, has no parents. */
  function Extends(known: Known, typeName: string): seq<string> {
    if typeName in known then known[typeName] else []
  }

  // ---------- what an ancestor is ----------

  /** `chain` follows `extends` edges from each element to the next. */
  ghost predicate IsChain(known: Known, chain: seq<string>) {
    forall i, j :: 0 <= i < j < |chain| && j == i + 1 ==> chain[j] in Extends(known, chain[i])
  }

  ghost predicate IsChainFrom(known: Known, chain: seq<string>, child: string) {
    |chain| > 1 && chain[0] == child && IsChain(known, chain)
  }

  /** `ancestor` is reached from `child` by one or more `extends` edges. */
  ghost predicate IsAncestor(known: Known, child: string, ancestor: string) {
    exists chain :: IsChainFrom(known, chain, child) && chain[|chain| - 1] == ancestor
  }

  /** Some type that is `typeName` or one of its ancestors is its own ancestor. */
  ghost predicate ReachesCycle(known: Known, typeName: string) {
    IsAncestor(known, typeName, typeName)
    || exists u :: IsAncestor(known, typeName, u) && IsAncestor(known, u, u)
  }

  // ---------- the result, layer by layer ----------

  /** The ancestor list of a type, and how many loop iterations one occurrence of it costs. */
  datatype Resolved = Resolved(parents: seq<string>, weight: nat)

  type Table = map<string, Resolved>

  function Parents(table: Table, u: string): seq<string> {
    if u in table then table[u].parents else []
  }

  function Weight(table: Table, u: string): nat {
    if u in table then table[u].weight else 1
  }

  function TotalWeight(table: Table, queue: seq<string>): nat {
    if queue == [] then 0 else Weight(table, queue[0]) + TotalWeight(table, queue[1..])
  }

  /** Every occurrence costs its own iteration and those of the list it appends. */
  ghost predicate Weighted(table: Table) {
    forall u {:trigger WeightedAt(table, u)} :: u in table ==> WeightedAt(table, u)
  }

  ghost predicate WeightedAt(table: Table, u: string) {
    Weight(table, u) == 1 + TotalWeight(table, Parents(table, u))
  }

  /** What the array holds when the loop over it ends: each element appends its own list at the end. */
  function Unfold(table: Table, queue: seq<string>): (list: seq<string>)
    requires Weighted(table)
    ensures |list| == TotalWeight(table, queue)
    decreases TotalWeight(table, queue)
  {
    if queue == [] then [] else
      TotalWeightAppend(table, queue[1..], Parents(table, queue[0]));
      assert queue[0] in table ==> WeightedAt(table, queue[0]);
      [queue[0]] + Unfold(table, queue[1..] + Parents(table, queue[0]))
  }

  /** The head is passed, and what it appends costs what the head cost, less its own iteration. */
  lemma UnfoldStep(table: Table, queue: seq<string>)
    requires Weighted(table) && queue != []
    ensures var rest := queue[1..] + Parents(table, queue[0]);
      TotalWeight(table, rest) < TotalWeight(table, queue) && Unfold(table, queue) == [queue[0]] + Unfold(table, rest)
    ensures TotalWeight(table, Parents(table, queue[0])) < TotalWeight(table, queue)
  {
    TotalWeightAppend(table, queue[1..], Parents(table, queue[0]));
    assert queue[0] in table ==> WeightedAt(table, queue[0]);
  }

  lemma {:induction false} TotalWeightAppend(table: Table, a: seq<string>, b: seq<string>)
    ensures TotalWeight(table, a + b) == TotalWeight(table, a) + TotalWeight(table, b)
  {
    if a == [] {
      assert a + b == b;
    } else {
      assert (a + b)[1..] == a[1..] + b;
      TotalWeightAppend(table, a[1..], b);
    }
  }

  /** All that is needed of `u` is known: it has no parents, or it is in the table. */
  predicate Settled(known: Known, table: Table, u: string) {
    u in table || Extends(known, u) == []
  }

  predicate AllSettled(known: Known, table: Table, queue: seq<string>) {
    forall u :: u in queue ==> Settled(known, table, u)
  }

  /** The types that the next layer adds: unsettled, with settled parents only. */
  predicate IsReady(known: Known, table: Table, u: string) {
    u in known && known[u] != [] && u !in table && AllSettled(known, table, known[u])
  }

  /** A table is sound when it holds, for types with parents only, the lists over settled types. */
  ghost predicate Sound(known: Known, table: Table) {
    Weighted(table) && forall u {:trigger SoundAt(known, table, u)} :: u in table ==> SoundAt(known, table, u)
  }

  ghost predicate SoundAt(known: Known, table: Table, u: string)
    requires Weighted(table)
  {
    && u in known && known[u] != []
    && AllSettled(known, table, known[u])
    && AllSettled(known, table, Parents(table, u))
    && Parents(table, u) == Unfold(table, known[u])
  }

  function NextLayer(known: Known, table: Table): (next: Table)
    requires Sound(known, table)
  {
    table + map u | u in known && IsReady(known, table, u) ::
      var list := Unfold(table, known[u]); Resolved(list, 1 + TotalWeight(table, list))
  }

  /** The lists of all types whose `extends` chains have at most `depth` edges. */
  function Layers(known: Known, depth: nat): (table: Table)
    ensures Sound(known, table)
  {
    if depth == 0 then map[] else
      var table := Layers(known, depth - 1);
      NextLayerSound(known, table);
      NextLayer(known, table)
  }

  // ---------- adding a layer changes nothing below it ----------

  ghost predicate Extended(known: Known, table: Table, next: Table) {
    && table.Keys <= next.Keys
    && (forall u :: u in table ==> next[u] == table[u])
    && (forall u :: u in next && u !in table ==> !Settled(known, table, u))
  }

  lemma {:induction false} TotalWeightStable(known: Known, table: Table, next: Table, queue: seq<string>)
    requires Extended(known, table, next) && AllSettled(known, table, queue)
    ensures TotalWeight(next, queue) == TotalWeight(table, queue)
  {
    if queue != [] {
      assert queue[0] in queue && forall u :: u in queue[1..] ==> u in queue;
      TotalWeightStable(known, table, next, queue[1..]);
    }
  }

  lemma {:induction false} UnfoldSettled(known: Known, table: Table, queue: seq<string>)
    requires Sound(known, table) && AllSettled(known, table, queue)
    ensures AllSettled(known, table, Unfold(table, queue))
    decreases TotalWeight(table, queue)
  {
    if queue != [] {
      assert queue[0] in queue && forall u :: u in queue[1..] ==> u in queue;
      UnfoldStep(table, queue);
      assert queue[0] in table ==> SoundAt(known, table, queue[0]);
      UnfoldSettled(known, table, queue[1..] + Parents(table, queue[0]));
    }
  }

  lemma {:induction false} UnfoldStable(known: Known, table: Table, next: Table, queue: seq<string>)
    requires Sound(known, table) && Weighted(next)
    requires Extended(known, table, next) && AllSettled(known, table, queue)
    ensures Unfold(next, queue) == Unfold(table, queue)
    decreases TotalWeight(table, queue)
  {
    if queue != [] {
      assert queue[0] in queue && forall u :: u in queue[1..] ==> u in queue;
      UnfoldStep(table, queue);
      assert queue[0] in table ==> SoundAt(known, table, queue[0]);
      UnfoldStep(next, queue);
      UnfoldStable(known, table, next, queue[1..] + Parents(table, queue[0]));
    }
  }

  lemma NextLayerSound(known: Known, table: Table)
    requires Sound(known, table)
    ensures Sound(known, NextLayer(known, table)) && Extended(known, table, NextLayer(known, table))
  {
    var next := NextLayer(known, table);
    assert Extended(known, table, next) by {
      assert forall u :: u in table ==> !IsReady(known, table, u);
    }
    forall u | u in next
      ensures u in known && known[u] != [] && AllSettled(known, table, known[u])
      ensures Parents(next, u) == Unfold(table, known[u]) && AllSettled(known, table, Parents(next, u))
      ensures WeightedAt(next, u)
    {
      if u in table {
        assert SoundAt(known, table, u) && WeightedAt(table, u);
      }
      UnfoldSettled(known, table, known[u]);
      TotalWeightStable(known, table, next, Parents(next, u));
    }
    assert Weighted(next);
    forall u | u in next ensures SoundAt(known, next, u) {
      UnfoldStable(known, table, next, known[u]);
    }
  }

  // ---------- depth: a type is settled exactly when its chains are short ----------

  lemma LayerStep(known: Known, depth: nat, u: string)
    requires depth > 0
    ensures u in Layers(known, depth) <==>
      u in known && known[u] != [] && AllSettled(known, Layers(known, depth - 1), known[u])
    ensures u in Layers(known, depth) ==>
      Parents(Layers(known, depth), u) == Unfold(Layers(known, depth - 1), known[u])
  {
    var table := Layers(known, depth - 1);
    if u in table {
      assert SoundAt(known, table, u);
    }
    assert u in NextLayer(known, table) <==> u in table || IsReady(known, table, u);
  }

  /** All `extends` chains from `u` have at most `depth` edges. */
  predicate Shallow(known: Known, depth: nat, u: string) {
    Extends(known, u) == [] || (depth > 0 && forall p :: p in Extends(known, u) ==> Shallow(known, depth - 1, p))
  }

  lemma {:induction false} ShallowIsSettled(known: Known, depth: nat, u: string)
    ensures Shallow(known, depth, u) <==> Settled(known, Layers(known, depth), u)
  {
    if depth > 0 && Extends(known, u) != [] {
      LayerStep(known, depth, u);
      forall p | p in Extends(known, u)
        ensures Shallow(known, depth - 1, p) <==> Settled(known, Layers(known, depth - 1), p)
      {
        ShallowIsSettled(known, depth - 1, p);
      }
    }
  }

  lemma {:induction false} ChainsAreShort(known: Known, depth: nat, u: string, chain: seq<string>)
    requires Shallow(known, depth, u) && IsChainFrom(known, chain, u)
    ensures |chain| <= depth + 1
  {
    assert chain[1] in Extends(known, chain[0]);
    if |chain| > 2 {
      var rest := chain[1..];
      assert IsChainFrom(known, rest, chain[1]);
      ChainsAreShort(known, depth - 1, chain[1], rest);
    }
  }

  lemma {:induction false} DeepHasLongChain(known: Known, depth: nat, u: string) returns (chain: seq<string>)
    requires !Shallow(known, depth, u)
    ensures IsChainFrom(known, chain, u) && |chain| == depth + 2
  {
    if depth == 0 {
      chain := [u, Extends(known, u)[0]];
    } else {
      var p :| p in Extends(known, u) && !Shallow(known, depth - 1, p);
      var rest := DeepHasLongChain(known, depth - 1, p);
      chain := [u] + rest;
    }
  }

  // ---------- the list holds exactly the ancestors ----------

  lemma PrefixOfCons(queue: seq<string>, more: seq<string>, list: seq<string>)
    requires queue != [] && queue[1..] + more <= list
    ensures queue <= [queue[0]] + list
  {
    assert list[..|queue| - 1] == (queue[1..] + more)[..|queue| - 1] == queue[1..];
  }

  lemma {:induction false} UnfoldStartsWithQueue(table: Table, queue: seq<string>)
    requires Weighted(table)
    ensures queue <= Unfold(table, queue)
    decreases TotalWeight(table, queue)
  {
    if queue != [] {
      var rest := queue[1..] + Parents(table, queue[0]);
      UnfoldStep(table, queue);
      UnfoldStartsWithQueue(table, rest);
      PrefixOfCons(queue, Parents(table, queue[0]), Unfold(table, rest));
    }
  }

  lemma {:induction false} UnfoldClosed(table: Table, queue: seq<string>, y: string, x: string)
    requires Weighted(table) && y in Unfold(table, queue) && x in Parents(table, y)
    ensures x in Unfold(table, queue)
    decreases TotalWeight(table, queue)
  {
    var rest := queue[1..] + Parents(table, queue[0]);
    UnfoldStep(table, queue);
    if y == queue[0] {
      UnfoldStartsWithQueue(table, rest);
      assert x in rest;
    } else {
      UnfoldClosed(table, rest, y, x);
    }
  }

  lemma {:induction false} WeightCoversLength(table: Table, queue: seq<string>)
    requires Weighted(table)
    ensures |queue| <= TotalWeight(table, queue)
  {
    if queue != [] {
      assert queue[0] in table ==> WeightedAt(table, queue[0]);
      WeightCoversLength(table, queue[1..]);
    }
  }

  lemma ChainOfTwo(known: Known, child: string, parent: string)
    requires parent in Extends(known, child)
    ensures IsAncestor(known, child, parent)
  {
    assert IsChainFrom(known, [child, parent], child);
  }

  lemma AncestorTransitive(known: Known, u: string, v: string, w: string)
    requires IsAncestor(known, u, v) && IsAncestor(known, v, w)
    ensures IsAncestor(known, u, w)
  {
    var a :| IsChainFrom(known, a, u) && a[|a| - 1] == v;
    var b :| IsChainFrom(known, b, v) && b[|b| - 1] == w;
    var c := JoinChains(known, u, v, a, b);
    assert c[|c| - 1] == w;
  }

  lemma JoinChains(known: Known, u: string, v: string, a: seq<string>, b: seq<string>) returns (c: seq<string>)
    requires IsChainFrom(known, a, u) && a[|a| - 1] == v && IsChainFrom(known, b, v)
    ensures IsChainFrom(known, c, u) && c[|c| - 1] == b[|b| - 1] && |c| == |a| + |b| - 1
  {
    c := a + b[1..];
    forall i, j | 0 <= i < j < |c| && j == i + 1 ensures c[j] in Extends(known, c[i]) {
      if i >= |a| - 1 {
        assert c[i] == b[i + 1 - |a|] && c[j] == b[j + 1 - |a|];
      } else {
        assert c[i] == a[i] && c[j] == a[j];
      }
    }
  }

  lemma {:induction false} UnfoldAncestors(known: Known, table: Table, child: string, queue: seq<string>)
    requires Sound(known, table) && forall q :: q in queue ==> IsAncestor(known, child, q)
    ensures forall x :: x in Unfold(table, queue) ==> IsAncestor(known, child, x)
    decreases TotalWeight(table, queue)
  {
    if queue != [] {
      var q, parents := queue[0], Parents(table, queue[0]);
      UnfoldStep(table, queue);
      if q in table {
        assert SoundAt(known, table, q);
        WeightCoversLength(table, parents);
        forall p | p in known[q] ensures IsAncestor(known, q, p) {
          ChainOfTwo(known, q, p);
        }
        UnfoldAncestors(known, table, q, known[q]);
        forall x | x in parents ensures IsAncestor(known, child, x) {
          AncestorTransitive(known, child, q, x);
        }
      }
      UnfoldAncestors(known, table, child, queue[1..] + parents);
    }
  }

  lemma {:induction false} ChainEndIsListed(known: Known, table: Table, u: string, chain: seq<string>)
    requires Sound(known, table) && Settled(known, table, u) && IsChainFrom(known, chain, u)
    ensures chain[|chain| - 1] in Parents(table, u)
    decreases |chain|
  {
    assert chain[1] in Extends(known, chain[0]) && SoundAt(known, table, u);
    UnfoldStartsWithQueue(table, known[u]);
    assert chain[1] in Unfold(table, known[u]);
    if |chain| > 2 {
      var rest := chain[1..];
      ChainEndIsListed(known, table, chain[1], rest);
      UnfoldClosed(table, known[u], chain[1], chain[|chain| - 1]);
    }
  }

  /** Over a settled type, the list has every ancestor, nothing else, and the direct parents first. */
  lemma ListedExactlyAncestors(known: Known, table: Table, u: string)
    requires Sound(known, table) && Settled(known, table, u)
    ensures forall x :: x in Parents(table, u) <==> IsAncestor(known, u, x)
    ensures Extends(known, u) <= Parents(table, u)
    ensures |Parents(table, u)| == TotalWeight(table, Extends(known, u))
  {
    assert u in table ==> SoundAt(known, table, u);
    forall x ensures x in Parents(table, u) <==> IsAncestor(known, u, x) {
      if x in Parents(table, u) {
        forall p | p in known[u] ensures IsAncestor(known, u, p) {
          ChainOfTwo(known, u, p);
        }
        UnfoldAncestors(known, table, u, known[u]);
      }
      if IsAncestor(known, u, x) {
        var chain :| IsChainFrom(known, chain, u) && chain[|chain| - 1] == x;
        ChainEndIsListed(known, table, u, chain);
      }
    }
    if u in table {
      UnfoldStartsWithQueue(table, known[u]);
    }
  }

  // ---------- termination ----------

  lemma {:induction false} CycleHasLongChains(known: Known, u: string, n: nat) returns (chain: seq<string>)
    requires IsAncestor(known, u, u)
    ensures IsChainFrom(known, chain, u) && chain[|chain| - 1] == u && |chain| > n
  {
    var cycle :| IsChainFrom(known, cycle, u) && cycle[|cycle| - 1] == u;
    if n < |cycle| {
      chain := cycle;
    } else {
      var shorter := CycleHasLongChains(known, u, n - 1);
      chain := JoinChains(known, u, u, cycle, shorter);
    }
  }

  lemma ShallowReachesNoCycle(known: Known, depth: nat, u: string)
    requires Shallow(known, depth, u)
    ensures !ReachesCycle(known, u)
  {
    if ReachesCycle(known, u) {
      var v :| (v == u || IsAncestor(known, u, v)) && IsAncestor(known, v, v);
      var chain := CycleHasLongChains(known, v, depth + 1);
      if v != u {
        assert IsAncestor(known, u, v);
        var path :| IsChainFrom(known, path, u) && path[|path| - 1] == v;
        chain := JoinChains(known, u, v, path, chain);
      }
      ChainsAreShort(known, depth, u, chain);
      assert false;
    }
  }

  lemma {:induction false} Pigeonhole(s: seq<string>, keys: set<string>) returns (i: nat, j: nat)
    requires |s| > |keys| && forall x :: x in s ==> x in keys
    ensures i < j < |s| && s[i] == s[j]
    decreases |s|
  {
    var last := |s| - 1;
    if k: nat :| k < last && s[k] == s[last] {
      return k, last;
    }
    assert s[last] in s && s[last] in keys;
    var front := s[..last];
    forall x | x in front ensures x in keys - {s[last]} {
      var k :| 0 <= k < last && front[k] == x;
      assert s[k] == x && x in s;
    }
    i, j := Pigeonhole(front, keys - {s[last]});
  }

  lemma SubChain(known: Known, chain: seq<string>, i: nat, j: nat)
    requires IsChain(known, chain) && i < j < |chain|
    ensures IsAncestor(known, chain[i], chain[j])
  {
    var part := chain[i..j + 1];
    assert IsChainFrom(known, part, chain[i]) && part[|part| - 1] == chain[j];
  }

  lemma DeepReachesCycle(known: Known, u: string)
    requires !Shallow(known, |known|, u)
    ensures ReachesCycle(known, u)
  {
    var chain := DeepHasLongChain(known, |known|, u);
    var inner := chain[..|chain| - 1];
    forall x | x in inner ensures x in known.Keys {
      var k :| 0 <= k < |inner| && inner[k] == x;
      assert chain[k + 1] in Extends(known, chain[k]);
    }
    assert |known.Keys| == |known|;
    var i, j := Pigeonhole(inner, known.Keys);
    SubChain(known, chain, i, j);
    if i > 0 {
      SubChain(known, chain, 0, i);
    }
  }

  lemma NextLayerKeeps(known: Known, table: Table, u: string)
    requires Sound(known, table) && Settled(known, table, u)
    ensures Settled(known, NextLayer(known, table), u)
    ensures Parents(NextLayer(known, table), u) == Parents(table, u)
  {
    NextLayerSound(known, table);
  }

  /** Deeper layers only add types. */
  lemma {:induction false} LayersGrow(known: Known, depth: nat, more: nat, u: string)
    requires depth <= more && Settled(known, Layers(known, depth), u)
    ensures Settled(known, Layers(known, more), u)
    ensures Parents(Layers(known, more), u) == Parents(Layers(known, depth), u)
  {
    if depth < more {
      LayersGrow(known, depth, more - 1, u);
      NextLayerKeeps(known, Layers(known, more - 1), u);
    }
  }

  /** All ancestors of `typeName`, as the loop lists them. */
  function ParentTypes(known: Known, typeName: string): seq<string> {
    Parents(Layers(known, |known|), typeName)
  }

  lemma ParentTypesAtDepth(known: Known, depth: nat, u: string)
    requires Shallow(known, depth, u)
    ensures Parents(Layers(known, depth), u) == ParentTypes(known, u)
  {
    ShallowReachesNoCycle(known, depth, u);
    if !Shallow(known, |known|, u) {
      DeepReachesCycle(known, u);
    }
    ShallowIsSettled(known, depth, u);
    ShallowIsSettled(known, |known|, u);
    if depth <= |known| {
      LayersGrow(known, depth, |known|, u);
    } else {
      LayersGrow(known, |known|, depth, u);
    }
  }

  /** A type that reaches no cycle needs no more call frames than there are known types, and one more. */
  lemma ShallowIffAcyclic(known: Known, u: string)
    ensures (exists depth: nat :: Shallow(known, depth, u)) <==> !ReachesCycle(known, u)
    ensures Shallow(known, |known|, u) <==> !ReachesCycle(known, u)
  {
    if depth: nat :| Shallow(known, depth, u) {
      ShallowReachesNoCycle(known, depth, u);
    }
    if !Shallow(known, |known|, u) {
      DeepReachesCycle(known, u);
    } else {
      var depth: nat := |known|;
      assert Shallow(known, depth, u);
      ShallowReachesNoCycle(known, depth, u);
    }
  }

  lemma {:induction false} ShallowMonotone(known: Known, depth: nat, more: nat, u: string)
    requires Shallow(known, depth, u) && depth <= more
    ensures Shallow(known, more, u)
  {
    if Extends(known, u) != [] {
      forall p | p in Extends(known, u) ensures Shallow(known, more - 1, p) {
        ShallowMonotone(known, depth - 1, more - 1, p);
      }
    }
  }

  /** What a bounded call stack can and cannot finish. */
  lemma StackSuffices(known: Known, u: string, stack: nat)
    ensures stack > 0 && Shallow(known, stack - 1, u) ==> !ReachesCycle(known, u)
    ensures stack > |known| && !ReachesCycle(known, u) ==> Shallow(known, stack - 1, u)
  {
    if stack > 0 && Shallow(known, stack - 1, u) {
      ShallowReachesNoCycle(known, stack - 1, u);
    }
    if stack > |known| && !ReachesCycle(known, u) {
      ShallowIffAcyclic(known, u);
      ShallowMonotone(known, |known|, stack - 1, u);
    }
  }

  /** On a type that reaches no cycle the list is its strict ancestors, direct parents first and in order. */
  lemma ParentTypesAreAncestors(known: Known, u: string)
    requires !ReachesCycle(known, u)
    ensures forall x :: x in ParentTypes(known, u) <==> IsAncestor(known, u, x)
    ensures u !in ParentTypes(known, u)
    ensures if u in known then known[u] <= ParentTypes(known, u) else ParentTypes(known, u) == []
  {
    NoParents(known, u);
    ShallowIffAcyclic(known, u);
    ShallowIsSettled(known, |known|, u);
    ListedExactlyAncestors(known, Layers(known, |known|), u);
  }

  /** How often the loop runs for one occurrence of `u`: once, and for everything `u` appends. */
  function Cost(known: Known, u: string): nat {
    Weight(Layers(known, |known|), u)
  }

  function TotalCost(known: Known, queue: seq<string>): nat {
    if queue == [] then 0 else Cost(known, queue[0]) + TotalCost(known, queue[1..])
  }

  lemma {:induction false} TotalCostIsWeight(known: Known, queue: seq<string>)
    ensures TotalCost(known, queue) == TotalWeight(Layers(known, |known|), queue)
  {
    if queue != [] {
      TotalCostIsWeight(known, queue[1..]);
    }
  }

  /** The list is as long as its direct parents cost, and an occurrence costs one more than its list. */
  lemma ParentTypesLength(known: Known, u: string)
    requires !ReachesCycle(known, u)
    ensures |ParentTypes(known, u)| == TotalCost(known, Extends(known, u))
    ensures Cost(known, u) == 1 + TotalCost(known, ParentTypes(known, u))
  {
    ShallowIffAcyclic(known, u);
    ShallowIsSettled(known, |known|, u);
    var table := Layers(known, |known|);
    ListedExactlyAncestors(known, table, u);
    TotalCostIsWeight(known, Extends(known, u));
    TotalCostIsWeight(known, ParentTypes(known, u));
    assert u in table ==> WeightedAt(table, u);
  }

  // ---------- the method ----------

  /** What a frame may use about the frames it calls. */
  ghost predicate Serves(known: Known, depth: nat, table: Table) {
    && Sound(known, table)
    && forall u {:trigger ServesAt(known, depth, table, u)} :: ServesAt(known, depth, table, u)
  }

  ghost predicate ServesAt(known: Known, depth: nat, table: Table, u: string)
    requires Weighted(table)
  {
    && (Settled(known, table, u) <==> Shallow(known, depth, u))
    && (Shallow(known, depth, u) ==> Parents(table, u) == ParentTypes(known, u))
    && (Extends(known, u) != [] && AllSettled(known, table, Extends(known, u)) ==>
      Shallow(known, depth + 1, u) && Unfold(table, Extends(known, u)) == ParentTypes(known, u))
  }

  lemma TableAtDepth(known: Known, depth: nat) returns (table: Table)
    ensures Serves(known, depth, table)
  {
    table := Layers(known, depth);
    forall u ensures ServesAt(known, depth, table, u) {
      ShallowIsSettled(known, depth, u);
      if Shallow(known, depth, u) {
        ParentTypesAtDepth(known, depth, u);
      }
      if Extends(known, u) != [] && AllSettled(known, table, Extends(known, u)) {
        LayerStep(known, depth + 1, u);
        ShallowIsSettled(known, depth + 1, u);
        ParentTypesAtDepth(known, depth + 1, u);
      }
    }
  }

  /** After `i` iterations the array is `list`, and it ends as the unfolding of the array it started as. */
  ghost predicate Iterated(table: Table, start: seq<string>, list: seq<string>, i: nat)
    requires Weighted(table)
  {
    i <= |list| && start <= list && list[..i] + Unfold(table, list[i..]) == Unfold(table, start)
  }

  lemma IterationStarts(table: Table, start: seq<string>)
    requires Weighted(table)
    ensures Iterated(table, start, start, 0)
  {
    assert start[0..] == start;
  }

  lemma SplitAt(table: Table, list: seq<string>, i: nat)
    requires Weighted(table) && i < |list|
    ensures var after := list + Parents(table, list[i]);
      && Unfold(table, list[i..]) == [list[i]] + Unfold(table, after[i + 1..])
      && TotalWeight(table, after[i + 1..]) < TotalWeight(table, list[i..])
  {
    var after, queue := list + Parents(table, list[i]), list[i..];
    assert queue[0] == list[i] && queue[1..] == list[i + 1..];
    assert after[i + 1..] == queue[1..] + Parents(table, queue[0]);
    UnfoldStep(table, queue);
  }

  lemma MoveHead(start: seq<string>, list: seq<string>, more: seq<string>, i: nat, rest: seq<string>)
    requires start <= list && i < |list|
    ensures list[..i] + ([list[i]] + rest) == (list + more)[..i + 1] + rest
    ensures list[i] in list[..i] + ([list[i]] + rest) && start <= list + more
  {
    assert (list + more)[..i + 1] == list[..i] + [list[i]];
    assert (list[..i] + ([list[i]] + rest))[i] == list[i];
  }

  /** One loop iteration: the element at `i` is passed and its list is appended. */
  lemma Iterate(table: Table, start: seq<string>, list: seq<string>, i: nat)
    requires Weighted(table) && Iterated(table, start, list, i) && i < |list|
    ensures list[i] in Unfold(table, start)
    ensures Iterated(table, start, list + Parents(table, list[i]), i + 1)
    ensures TotalWeight(table, (list + Parents(table, list[i]))[i + 1..]) < TotalWeight(table, list[i..])
  {
    var more := Parents(table, list[i]);
    SplitAt(table, list, i);
    MoveHead(start, list, more, i, Unfold(table, (list + more)[i + 1..]));
  }

  ghost predicate ShallowBefore(known: Known, depth: nat, list: seq<string>, i: nat) {
    i <= |list| && forall k :: 0 <= k < i ==> Shallow(known, depth, list[k])
  }

  /** The loop ran to the end of the array: it holds the list, and the type is one deeper than its parents. */
  lemma IterationEnds(known: Known, depth: nat, table: Table, typeName: string, list: seq<string>)
    requires Serves(known, depth, table) && Extends(known, typeName) != []
    requires Iterated(table, Extends(known, typeName), list, |list|)
    requires ShallowBefore(known, depth, list, |list|)
    ensures Shallow(known, depth + 1, typeName) && list == ParentTypes(known, typeName)
  {
    var start := Extends(known, typeName);
    assert list[..|list|] == list && list[|list|..] == [];
    forall p | p in start ensures Settled(known, table, p) {
      var k :| 0 <= k < |start| && start[k] == p;
      assert list[k] == p && ServesAt(known, depth, table, p);
    }
    assert ServesAt(known, depth, table, typeName);
  }

  /** A call that fails inside the loop fails because the type itself is too deep. */
  lemma AbortedIsDeep(known: Known, depth: nat, table: Table, typeName: string, current: string)
    requires Serves(known, depth, table) && Extends(known, typeName) != []
    requires current in Unfold(table, Extends(known, typeName)) && !Shallow(known, depth, current)
    ensures !Shallow(known, depth + 1, typeName)
  {
    assert ServesAt(known, depth, table, current);
    if AllSettled(known, table, Extends(known, typeName)) {
      UnfoldSettled(known, table, Extends(known, typeName));
      assert false;
    }
    var p :| p in Extends(known, typeName) && !Settled(known, table, p);
    assert ServesAt(known, depth, table, p);
  }

  lemma NoParents(known: Known, u: string)
    ensures Extends(known, u) == [] ==> ParentTypes(known, u) == []
  {
    var table := Layers(known, |known|);
    assert Sound(known, table);
    assert u in table ==> SoundAt(known, table, u);
  }

  /**
   * `getParentTypes` with `stack` call frames left. `None` is the stack overflow that a call
   * without a frame raises and that ends every caller's loop.
   */
  method GetParentTypes(known: Known, typeName: string, stack: nat) returns (result: Option<seq<string>>)
    ensures result.Some? <==> stack > 0 && Shallow(known, stack - 1, typeName)
    ensures result.Some? ==> result.value == ParentTypes(known, typeName)
    decreases stack
  {
    if stack == 0 {
      return None;
    }
    var extendsArr := Extends(known, typeName);
    if |extendsArr| == 0 {
      NoParents(known, typeName);
      return Some([]);
    }
    ghost var depth := if stack > 1 then stack - 2 else 0;
    ghost var table := TableAtDepth(known, depth);
    var extendsArrCopy := extendsArr;
    var i := 0;
    IterationStarts(table, extendsArr);
    while i < |extendsArrCopy|
      invariant stack == 1 ==> i == 0
      invariant Iterated(table, extendsArr, extendsArrCopy, i)
      invariant ShallowBefore(known, depth, extendsArrCopy, i)
      decreases TotalWeight(table, extendsArrCopy[i..])
    {
      var parents := GetParentTypes(known, extendsArrCopy[i], stack - 1);
      if parents.None? {
        assert !Shallow(known, stack - 1, typeName) by {
          Iterate(table, extendsArr, extendsArrCopy, i);
          if stack > 1 {
            AbortedIsDeep(known, depth, table, typeName, extendsArrCopy[i]);
          }
        }
        return None;
      }
      assert parents.value == Parents(table, extendsArrCopy[i]) by {
        assert ServesAt(known, depth, table, extendsArrCopy[i]);
      }
      Iterate(table, extendsArr, extendsArrCopy, i);
      extendsArrCopy := extendsArrCopy + parents.value;
      i := i + 1;
    }
    IterationEnds(known, depth, table, typeName, extendsArrCopy);
    result := Some(extendsArrCopy);
  }
}
