/**
Committing a container: the walk along the parent links of its layers, the digests and manifest layers of the new
image, its history, and the check of one against the other.
*/
module Commit {
  import opened Basics

  /** Layer IDs with their parents; a root layer's parent is the empty string. */
  type Store = map<string, string>

  // ---------- the chain of layers ----------

  /** Layer k is in the store and the layer in front of it, if there is one, is its parent. */
  predicate LinkAt(store: Store, chain: seq<string>, k: nat)
    requires k < |chain|
  {
    chain[k] in store && (k > 0 ==> store[chain[k]] == chain[k - 1] && chain[k - 1] != "")
  }

  /** The layers lead along parent links to the layer id, the last of them. */
  predicate Linked(store: Store, chain: seq<string>, id: string) {
    && chain != [] && chain[|chain| - 1] == id
    && forall k :: 0 <= k < |chain| ==> LinkAt(store, chain, k)
  }

  /** The layers from the root to the layer id. */
  predicate Rooted(store: Store, chain: seq<string>, id: string) {
    Linked(store, chain, id) && LinkAt(store, chain, 0) && store[chain[0]] == ""
  }

  /** The parent links from id end at a layer that is not in the store. */
  predicate Broken(store: Store, chain: seq<string>, id: string) {
    if chain == [] then id !in store
    else Linked(store, chain, id) && LinkAt(store, chain, 0) && store[chain[0]] != "" && store[chain[0]] !in store
  }

  /** There is one way from a root to a layer. */
  lemma {:induction false} OneChain(store: Store, a: seq<string>, b: seq<string>, id: string)
    requires Rooted(store, a, id) && Rooted(store, b, id)
    ensures a == b
  {
    assert LinkAt(store, a, |a| - 1) && LinkAt(store, b, |b| - 1);
    if |a| > 1 && |b| > 1 {
      var parent := store[id];
      RootedParent(store, a, id);
      RootedParent(store, b, id);
      OneChain(store, a[..|a| - 1], b[..|b| - 1], parent);
      assert a == a[..|a| - 1] + [id] && b == b[..|b| - 1] + [id];
    }
  }

  lemma {:induction false} RootedParent(store: Store, chain: seq<string>, id: string)
    requires Rooted(store, chain, id) && |chain| > 1
    ensures id in store && Rooted(store, chain[..|chain| - 1], store[id])
  {
    var init := chain[..|chain| - 1];
    assert LinkAt(store, chain, |chain| - 1);
    forall k | 0 <= k < |init| ensures LinkAt(store, init, k) { assert LinkAt(store, chain, k); }
  }

  /** A layer on top of a chain, in a store that knows at least the layers of the chain. */
  lemma {:induction false} RootedChild(store: Store, more: Store, chain: seq<string>, top: string, id: string)
    requires Rooted(store, chain, top) && top != "" && id in more && more[id] == top
    requires forall k :: 0 <= k < |chain| ==> chain[k] in more && chain[k] in store && more[chain[k]] == store[chain[k]]
    ensures Rooted(more, chain + [id], id)
  {
    var all := chain + [id];
    forall k | 0 <= k < |all| ensures LinkAt(more, all, k) {
      if k < |chain| { assert LinkAt(store, chain, k); }
    }
  }

  lemma {:induction false} InStore(store: Store, chain: seq<string>, id: string)
    requires Rooted(store, chain, id) || Broken(store, chain, id)
    ensures forall k :: 0 <= k < |chain| ==> LinkAt(store, chain, k) && chain[k] in store
  {
    if chain != [] {
      assert Linked(store, chain, id);
      forall k | 0 <= k < |chain| ensures LinkAt(store, chain, k) && chain[k] in store {
        assert LinkAt(store, chain, k);
      }
    }
  }

  /**
  `getContainerLayers`: walk from the container's layer to the root, then turn the list around in place. The walk ends
  since the parent links do: `chain`, which the code does not see, is where they lead.
  */
  method GetContainerLayers(store: Store, id: string, ghost chain: seq<string>) returns (r: Result<seq<string>>)
    requires Rooted(store, chain, id) || Broken(store, chain, id)
    ensures r.Err? <==> Broken(store, chain, id)
    ensures r.Ok? ==> r.value == chain
  {
    InStore(store, chain, id);
    if id !in store { return Err; }
    var layers: seq<string> := [];
    var layerID := id;
    while true
      invariant |layers| < |chain| && layerID == chain[|chain| - 1 - |layers|]
      invariant forall k :: 0 <= k < |layers| ==> layers[k] == chain[|chain| - 1 - k]
      decreases |chain| - |layers|
    {
      assert LinkAt(store, chain, |chain| - 1 - |layers|);
      var parent := store[layerID];
      layers := layers + [layerID];
      layerID := parent;
      if layerID == "" {
        break;
      }
      if layerID !in store {
        return Err;
      }
    }
    var a := new string[|layers|](k requires 0 <= k < |layers| => layers[k]);
    ReverseInPlace(a);
    r := Ok(a[..]);
  }

  method ReverseInPlace(a: array<string>)
    modifies a
    ensures forall k :: 0 <= k < a.Length ==> a[k] == old(a[a.Length - 1 - k])
  {
    var i, j := 0, a.Length - 1;
    while i < j
      invariant 0 <= i && i + j == a.Length - 1 && i <= j + 1
      invariant forall k :: 0 <= k < i || j < k < a.Length ==> a[k] == old(a[a.Length - 1 - k])
      invariant forall k :: i <= k <= j ==> a[k] == old(a[k])
    {
      a[i], a[j] := a[j], a[i];
      i, j := i + 1, j - 1;
    }
  }

  // ---------- the new image ----------

  datatype History = History(createdBy: string, emptyLayer: bool)

  datatype Image = Image(diffIDs: seq<string>, layers: seq<string>, history: seq<History>)

  /** What a layer contributes: its diff ID and its manifest descriptor. */
  type Analysis = string -> Result<(string, string)>

  /** What is committed: the container's layer, the configuration's history, and how to write the new entry. */
  datatype Reference = Reference(layerID: string, history: seq<History>, createdBy: string, emptyLayer: bool,
                                 preEmptyLayers: seq<History>, postEmptyLayers: seq<History>)

  /** `countDockerImageEmptyLayers`, which counts the entries that are not empty. */
  function NonEmpty(h: seq<History>): nat {
    if h == [] then 0 else NonEmpty(h[..|h| - 1]) + if h[|h| - 1].emptyLayer then 0 else 1
  }

  method CountLayers(h: seq<History>) returns (cnt: nat)
    ensures cnt == NonEmpty(h)
  {
    cnt := 0;
    for n := 0 to |h|
      invariant cnt == NonEmpty(h[..n])
    {
      assert h[..n + 1][..n] == h[..n];
      if !h[n].emptyLayer { cnt := cnt + 1; }
    }
    assert h[..|h|] == h;
  }

  lemma {:induction false} NonEmptyAppend(a: seq<History>, b: seq<History>)
    ensures NonEmpty(a + b) == NonEmpty(a) + NonEmpty(b)
  {
    if b == [] {
      assert a + b == a;
    } else {
      NonEmptyAppend(a, b[..|b| - 1]);
      assert (a + b)[..|a + b| - 1] == a + b[..|b| - 1];
    }
  }

  /** The layers that go into the image: all, except the container's own if it is declared empty. */
  function Exported(ref: Reference, chain: seq<string>): seq<string> {
    if chain == [] then []
    else
      var id := chain[|chain| - 1];
      Exported(ref, chain[..|chain| - 1]) + if ref.emptyLayer && id == ref.layerID then [] else [id]
  }

  predicate AllAnalyzed(analyze: Analysis, ids: seq<string>) {
    forall k :: 0 <= k < |ids| ==> analyze(ids[k]).Ok?
  }

  /** One diff ID and one manifest layer for each exported layer, in order. */
  predicate Digests(analyze: Analysis, ids: seq<string>, diffIDs: seq<string>, layers: seq<string>) {
    && |diffIDs| == |ids| == |layers|
    && forall k :: 0 <= k < |ids| ==> analyze(ids[k]) == Ok((diffIDs[k], layers[k]))
  }

  function NewHistory(ref: Reference): seq<History> {
    ref.history + ref.preEmptyLayers + [History(ref.createdBy, ref.emptyLayer)] + ref.postEmptyLayers
  }

  /** The history goes on: what was there, the extra entries in front, the new entry, the extra entries behind. */
  predicate Continued(ref: Reference, h: seq<History>) {
    var (a, b) := (|ref.history|, |ref.history| + |ref.preEmptyLayers|);
    && |h| == b + 1 + |ref.postEmptyLayers|
    && h[..a] == ref.history && h[a..b] == ref.preEmptyLayers && h[b + 1..] == ref.postEmptyLayers
    && h[b].createdBy == ref.createdBy && h[b].emptyLayer == ref.emptyLayer
  }

  lemma {:induction false} HistoryContinued(ref: Reference)
    ensures Continued(ref, NewHistory(ref))
  {
  }

  /** `NewImageSource`, given the layers from root to top. */
  method NewImageSource(ref: Reference, chain: seq<string>, analyze: Analysis) returns (r: Result<Image>)
    ensures r.Ok? <==>
      AllAnalyzed(analyze, Exported(ref, chain)) && NonEmpty(NewHistory(ref)) == |Exported(ref, chain)|
    ensures r.Ok? ==>
      && Digests(analyze, Exported(ref, chain), r.value.diffIDs, r.value.layers)
      && r.value.history == NewHistory(ref) && Continued(ref, r.value.history)
  {
    HistoryContinued(ref);
    hide Continued;
    var diffIDs: seq<string>, layers: seq<string> := [], [];
    for n := 0 to |chain|
      invariant Digests(analyze, Exported(ref, chain[..n]), diffIDs, layers)
    {
      assert chain[..n + 1][..n] == chain[..n];
      if ref.emptyLayer && chain[n] == ref.layerID {
        continue;
      }
      var d := analyze(chain[n]);
      if d.Err? {
        ExportedAt(ref, chain, n);
        return Err;
      }
      diffIDs, layers := diffIDs + [d.value.0], layers + [d.value.1];
    }
    assert chain[..|chain|] == chain;
    var history := ref.history + ref.preEmptyLayers;
    history := history + [History(ref.createdBy, ref.emptyLayer)];
    history := history + ref.postEmptyLayers;
    var cnt := CountLayers(history);
    if |diffIDs| != cnt { return Err; }
    r := Ok(Image(diffIDs, layers, history));
  }

  lemma {:induction false} ExportedAt(ref: Reference, chain: seq<string>, n: nat)
    requires n < |chain| && !(ref.emptyLayer && chain[n] == ref.layerID)
    ensures chain[n] in Exported(ref, chain)
  {
    if n < |chain| - 1 { ExportedAt(ref, chain[..|chain| - 1], n); }
  }

  lemma {:induction false} ExportedAll(ref: Reference, chain: seq<string>)
    requires !ref.emptyLayer || ref.layerID !in chain
    ensures Exported(ref, chain) == chain
  {
    if chain != [] { ExportedAll(ref, chain[..|chain| - 1]); }
  }

  // ---------- consistency over chains of commits ----------

  /** The check of step 5: as many history entries that are not empty as exported layers. */
  predicate CheckPasses(ref: Reference, chain: seq<string>) {
    NonEmpty(NewHistory(ref)) == |Exported(ref, chain)|
  }

  /** The container's layer occurs once on its chain. */
  lemma {:induction false} TopOnce(store: Store, chain: seq<string>, id: string)
    requires Rooted(store, chain, id)
    ensures id !in chain[..|chain| - 1]
  {
    forall k | 0 <= k < |chain| - 1 ensures chain[k] != id {
      if chain[k] == id {
        var part := chain[..k + 1];
        forall i | 0 <= i < |part| ensures LinkAt(store, part, i) { assert LinkAt(store, chain, i); }
        OneChain(store, part, chain, id);
      }
    }
  }

  /** What is exported of a container: its layers from the root, without its own if that is declared empty. */
  lemma {:induction false} ExportedLayers(store: Store, ref: Reference, chain: seq<string>)
    requires Rooted(store, chain, ref.layerID)
    ensures Exported(ref, chain) == if ref.emptyLayer then chain[..|chain| - 1] else chain
  {
    TopOnce(store, chain, ref.layerID);
    ExportedAll(ref, chain[..|chain| - 1]);
    assert chain == chain[..|chain| - 1] + [ref.layerID];
  }

  /** The new entry and the new layer cancel out: the check compares what was there before and the extra entries. */
  lemma {:induction false} CheckPassesIff(store: Store, ref: Reference, chain: seq<string>)
    requires Rooted(store, chain, ref.layerID)
    ensures CheckPasses(ref, chain) <==>
      NonEmpty(ref.history) + NonEmpty(ref.preEmptyLayers) + NonEmpty(ref.postEmptyLayers) == |chain| - 1
  {
    TopOnce(store, chain, ref.layerID);
    ExportedAll(ref, chain[..|chain| - 1]);
    assert |Exported(ref, chain)| == |chain| - if ref.emptyLayer then 1 else 0;
    var own := [History(ref.createdBy, ref.emptyLayer)];
    assert own[..0] == [];
    assert NonEmpty(own) == if ref.emptyLayer then 0 else 1;
    hide NonEmpty, Exported, Rooted;
    NonEmptyAppend(ref.history + ref.preEmptyLayers + own, ref.postEmptyLayers);
    NonEmptyAppend(ref.history + ref.preEmptyLayers, own);
    NonEmptyAppend(ref.history, ref.preEmptyLayers);
  }

  /** An image to build on; from scratch there is no top layer. `chain` are its layers from the root. */
  datatype Base = Base(store: Store, top: string, chain: seq<string>, history: seq<History>)

  /** As many layers as the history says. */
  predicate Consistent(b: Base) {
    && NonEmpty(b.history) == |b.chain|
    && if b.top == "" then b.chain == [] else Rooted(b.store, b.chain, b.top)
  }

  /** A commit: the layers made for the container and then for the image, and the note in the history. */
  datatype Step = Step(container: string, image: string, createdBy: string)

  predicate FreshStep(b: Base, s: Step) {
    s.container != "" && s.image != "" && s.container !in b.store && s.image !in b.store
  }

  /** A stage commits a non-empty layer and no further history entries. */
  function Ref(b: Base, s: Step): Reference {
    Reference(s.container, b.history, s.createdBy, false, [], [])
  }

  /** The stored image: its top layer lies on the layers of the base, as the container's did. */
  function Stored(b: Base, s: Step): Base {
    Base(b.store[s.image := b.top], s.image, b.chain + [s.image], NewHistory(Ref(b, s)))
  }

  lemma {:induction false} OnTop(b: Base, id: string)
    requires Consistent(b) && id != "" && id !in b.store
    ensures Rooted(b.store[id := b.top], b.chain + [id], id)
  {
    var more := b.store[id := b.top];
    if b.top == "" {
      assert b.chain + [id] == [id] && LinkAt(more, [id], 0);
    } else {
      forall k | 0 <= k < |b.chain|
        ensures b.chain[k] in b.store && b.chain[k] in more && more[b.chain[k]] == b.store[b.chain[k]]
      {
        assert LinkAt(b.store, b.chain, k);
      }
      RootedChild(b.store, more, b.chain, b.top, id);
    }
  }

  /** A commit on a consistent base passes the check and leaves a consistent image with one more layer. */
  lemma {:induction false} CommitStep(b: Base, s: Step)
    requires Consistent(b) && FreshStep(b, s)
    ensures Rooted(b.store[s.container := b.top], b.chain + [s.container], s.container)
    ensures CheckPasses(Ref(b, s), b.chain + [s.container])
    ensures Consistent(Stored(b, s))
  {
    OnTop(b, s.container);
    OnTop(b, s.image);
    hide Rooted, CheckPasses;
    CheckPassesIff(b.store[s.container := b.top], Ref(b, s), b.chain + [s.container]);
    NonEmptyAppend(b.history, [History(s.createdBy, false)]);
    assert NewHistory(Ref(b, s)) == b.history + [History(s.createdBy, false)];
    assert [History(s.createdBy, false)][..0] == [];
  }

  function AfterSteps(b: Base, steps: seq<Step>): Base {
    if steps == [] then b else Stored(AfterSteps(b, steps[..|steps| - 1]), steps[|steps| - 1])
  }

  predicate AllFresh(b: Base, steps: seq<Step>) {
    forall n :: 0 <= n < |steps| ==> FreshStep(AfterSteps(b, steps[..n]), steps[n])
  }

  /** At commit n the check passes. */
  predicate PassesAt(b: Base, steps: seq<Step>, n: nat)
    requires n < |steps|
  {
    var before := AfterSteps(b, steps[..n]);
    CheckPasses(Ref(before, steps[n]), before.chain + [steps[n].container])
  }

  lemma {:induction false} InitFresh(b: Base, steps: seq<Step>)
    requires steps != [] && AllFresh(b, steps)
    ensures AllFresh(b, steps[..|steps| - 1])
    ensures FreshStep(AfterSteps(b, steps[..|steps| - 1]), steps[|steps| - 1])
  {
    hide FreshStep, AfterSteps;
    var init := steps[..|steps| - 1];
    assert steps[..|init|] == init;
    forall n | 0 <= n < |init| ensures FreshStep(AfterSteps(b, init[..n]), init[n]) {
      assert init[..n] == steps[..n];
      assert FreshStep(AfterSteps(b, steps[..n]), steps[n]);
    }
  }

  /**
  From scratch or from a consistent base, through any number of commits: every commit passes the check, and the image
  at the end is consistent again.
  */
  lemma {:induction false} CommitsConsistent(b: Base, steps: seq<Step>)
    requires Consistent(b) && AllFresh(b, steps)
    ensures Consistent(AfterSteps(b, steps))
    ensures forall n :: 0 <= n < |steps| ==> PassesAt(b, steps, n)
  {
    hide Consistent, FreshStep, CheckPasses, AllFresh;
    if steps != [] {
      var init := steps[..|steps| - 1];
      InitFresh(b, steps);
      CommitsConsistent(b, init);
      CommitStep(AfterSteps(b, init), steps[|init|]);
      forall n | 0 <= n < |steps| ensures PassesAt(b, steps, n) {
        if n < |init| {
          assert init[..n] == steps[..n] && PassesAt(b, init, n);
        }
      }
    }
  }

  /** The layers of the last image are those of the base followed by one for each commit. */
  lemma {:induction false} LayersOfSteps(b: Base, steps: seq<Step>)
    ensures var chain := AfterSteps(b, steps).chain;
      && |chain| == |b.chain| + |steps| && chain[..|b.chain|] == b.chain
      && forall n :: 0 <= n < |steps| ==> chain[|b.chain| + n] == steps[n].image
  {
    if steps != [] {
      LayersOfSteps(b, steps[..|steps| - 1]);
    }
  }

  /** The history of the last image is that of the base followed by one entry for each commit, with its note. */
  lemma {:induction false} HistoryOfSteps(b: Base, steps: seq<Step>)
    ensures var h := AfterSteps(b, steps).history;
      && |h| == |b.history| + |steps| && h[..|b.history|] == b.history
      && forall n :: 0 <= n < |steps| ==> h[|b.history| + n] == History(steps[n].createdBy, false)
  {
    if steps != [] {
      HistoryOfSteps(b, steps[..|steps| - 1]);
    }
  }

  // ---------- which entry stands for which layer ----------

  /** The layer that a non-empty entry stands for, counted from the root. */
  function LayerOf(h: seq<History>, p: nat): nat
    requires p < |h|
  {
    NonEmpty(h[..p])
  }

  lemma {:induction false} LayerBelow(h: seq<History>, p: nat)
    requires p < |h| && !h[p].emptyLayer
    ensures LayerOf(h, p) < NonEmpty(h)
    decreases |h|
  {
    var init := h[..|h| - 1];
    if p < |init| {
      LayerBelow(init, p);
      assert init[..p] == h[..p];
    }
  }

  /** The entry of commit n stands for the layer that the commit made. */
  predicate Made(b: Base, steps: seq<Step>, end: Base, n: nat)
    requires n < |steps| && |end.history| == |b.history| + |steps| && |end.chain| == |b.chain| + |steps|
  {
    LayerOf(end.history, |b.history| + n) == |b.chain| + n && end.chain[|b.chain| + n] == steps[n].image
  }

  /**
  Entries and layers go together: a non-empty entry of the base still stands for the same layer of the base after any number
  of commits, and the entry of each commit for the layer that the commit made.
  */
  lemma {:induction false} EntriesMatchLayers(b: Base, steps: seq<Step>)
    requires NonEmpty(b.history) == |b.chain|
    ensures var end := AfterSteps(b, steps);
      && |end.history| == |b.history| + |steps| && |end.chain| == |b.chain| + |steps|
      && (forall p :: 0 <= p < |b.history| && !b.history[p].emptyLayer ==>
            LayerOf(end.history, p) == LayerOf(b.history, p) < |b.chain|
            && end.chain[LayerOf(b.history, p)] == b.chain[LayerOf(b.history, p)])
      && (forall n :: 0 <= n < |steps| ==> Made(b, steps, end, n))
  {
    var end := AfterSteps(b, steps);
    HistoryOfSteps(b, steps);
    LayersOfSteps(b, steps);
    hide AfterSteps, NonEmpty;
    forall p | 0 <= p < |b.history| && !b.history[p].emptyLayer
      ensures LayerOf(end.history, p) == LayerOf(b.history, p) < |b.chain|
    {
      assert end.history[..p] == b.history[..p] by { assert end.history[..|b.history|][..p] == end.history[..p]; }
      LayerBelow(b.history, p);
    }
    forall n | 0 <= n < |steps| ensures Made(b, steps, end, n) {
      CountSteps(b, steps, end.history, n);
    }
  }

  lemma {:induction false} CountSteps(b: Base, steps: seq<Step>, h: seq<History>, n: nat)
    requires NonEmpty(b.history) == |b.chain| && |h| == |b.history| + |steps| && h[..|b.history|] == b.history && n <= |steps|
    requires forall k :: 0 <= k < |steps| ==> h[|b.history| + k] == History(steps[k].createdBy, false)
    ensures NonEmpty(h[..|b.history| + n]) == |b.chain| + n
  {
    if n > 0 {
      CountSteps(b, steps, h, n - 1);
      assert h[|b.history| + (n - 1)] == History(steps[n - 1].createdBy, false);
      CountOne(h, |b.history| + (n - 1));
    } else {
      assert h[..|b.history| + n] == b.history;
    }
  }

  lemma {:induction false} CountOne(h: seq<History>, m: nat)
    requires m < |h| && !h[m].emptyLayer
    ensures NonEmpty(h[..m + 1]) == NonEmpty(h[..m]) + 1
  {
    var init := h[..m + 1];
    assert init[..|init| - 1] == h[..m] && init[|init| - 1] == h[m];
  }

  /**
  In one image: the new entry, if it is not empty, stands for the container's layer exactly if all extra entries behind it
  are empty.
  */
  lemma {:induction false} OwnEntryIff(store: Store, ref: Reference, chain: seq<string>)
    requires Rooted(store, chain, ref.layerID) && CheckPasses(ref, chain) && !ref.emptyLayer
    ensures var (h, p) := (NewHistory(ref), |ref.history| + |ref.preEmptyLayers|);
      p < |h| && (LayerOf(h, p) == |chain| - 1 <==> NonEmpty(ref.postEmptyLayers) == 0)
  {
    var (h, p) := (NewHistory(ref), |ref.history| + |ref.preEmptyLayers|);
    CheckPassesIff(store, ref, chain);
    hide Rooted, CheckPasses, NonEmpty;
    assert h[..p] == ref.history + ref.preEmptyLayers;
    NonEmptyAppend(ref.history, ref.preEmptyLayers);
  }
}
