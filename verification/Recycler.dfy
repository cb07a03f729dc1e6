/**
The periodic recycler. Every tick starts one goroutine per registered node, carrying the time of the tick; the
goroutines of a node take its lock in any order, whatever their times, and hold it while the recycling function runs.
*/
module Recycler {
  import opened Basics

  /** A node. `registered` and `starts` record when it was registered and, for its runs so far, the times they carried. */
  datatype Node = Node(name: string, interval: int, once: bool, registered: int,
                       lastTrigger: int, running: bool, success: bool, starts: seq<int>)

  function NewNode(name: string, interval: int, once: bool, now: int): Node {
    Node(name, interval, once, now, now, false, false, [])
  }

  predicate Discarded(n: Node) { n.once && n.success }

  predicate Ready(n: Node, now: int) { !n.running && now - n.lastTrigger >= n.interval }

  /** A node is triggered: the recycling function is about to run. */
  function Start(n: Node, now: int): Node { n.(lastTrigger := now, running := true, starts := n.starts + [now]) }

  /** The recycling function has returned. */
  function Finish(n: Node, ok: bool): Node { n.(running := false, success := n.success || ok) }

  // ---------- the code ----------

  class Gc {
    var nodes: map<string, Cell>

    constructor ()
      ensures nodes == map[]
    {
      nodes := map[];
    }

    /** `RegisterGC`: a name can be registered once. */
    method RegisterGC(name: string, interval: int, once: bool, now: int) returns (ok: bool)
      modifies this
      ensures ok <==> name !in old(nodes)
      ensures ok ==> name in nodes && nodes == old(nodes)[name := nodes[name]] && fresh(nodes[name])
      ensures ok ==> nodes[name].node == NewNode(name, interval, once, now)
      ensures !ok ==> nodes == old(nodes)
    {
      if name in nodes { return false; }
      var cell := new Cell(NewNode(name, interval, once, now));
      nodes := nodes[name := cell];
      ok := true;
    }

    /** `RemoveGCNode` */
    method RemoveGCNode(name: string)
      modifies this
      ensures nodes == old(nodes) - {name}
    {
      nodes := nodes - {name};
    }
  }

  /** A node in memory. */
  class Cell {
    var node: Node

    constructor (n: Node)
      ensures node == n
    {
      node := n;
    }

    /**
    `checkAndExec`, all of it under the node's lock; `ok` is the outcome of the recycling function, should it run.
    `discard` says that the node is to be removed.
    */
    method CheckAndExec(now: int, ok: bool) returns (discard: bool)
      modifies this
      ensures discard == Discarded(old(node))
      ensures node == if !discard && Ready(old(node), now) then Finish(Start(old(node), now), ok) else old(node)
    {
      if node.once && node.success { return true; }
      if node.running || now - node.lastTrigger < node.interval { return false; }
      node := node.(lastTrigger := now, running := true, starts := node.starts + [now]);
      if ok { node := node.(success := true); }
      node := node.(running := false);
      return false;
    }
  }

  // ---------- runs ----------

  datatype Phase = Waiting | Running | Done

  /** A goroutine started by a tick. */
  datatype Call = Call(id: nat, now: int, phase: Phase)

  /** All nodes ever made, the table of registered ones, the goroutines, and the removals under way. */
  datatype State = State(nodes: seq<Node>, table: map<string, nat>, calls: seq<Call>, removals: multiset<string>)

  datatype Step =
    | Register(name: string, interval: int, once: bool, time: int)
    | Spawn(name: string, now: int)
    | Enter(call: nat)
    | Return(call: nat, ok: bool)
    | Remove(name: string)

  const INIT := State([], map[], [], multiset{})

  predicate ValidState(s: State) {
    && (forall n :: n in s.table ==> s.table[n] < |s.nodes| && s.nodes[s.table[n]].name == n)
    && (forall i :: 0 <= i < |s.calls| ==> s.calls[i].id < |s.nodes|)
  }

  /** No goroutine holds the lock of the node. */
  predicate Free(calls: seq<Call>, id: nat) {
    forall i :: 0 <= i < |calls| && calls[i].phase == Running ==> calls[i].id != id
  }

  predicate Enabled(s: State, step: Step)
    requires ValidState(s)
  {
    match step
    case Register(name, _, _, _) => true
    case Spawn(name, _) => name in s.table
    case Enter(c) => c < |s.calls| && s.calls[c].phase == Waiting && Free(s.calls, s.calls[c].id)
    case Return(c, _) => c < |s.calls| && s.calls[c].phase == Running
    case Remove(name) => name in s.removals
  }

  function SetPhase(calls: seq<Call>, c: nat, phase: Phase): seq<Call>
    requires c < |calls|
  {
    calls[c := calls[c].(phase := phase)]
  }

  /** A goroutine gets the lock of its node. */
  function EnterCall(s: State, c: nat): (t: State)
    requires ValidState(s) && c < |s.calls|
    ensures ValidState(t)
  {
    var id, now := s.calls[c].id, s.calls[c].now;
    var node := s.nodes[id];
    if Discarded(node) then
      s.(calls := SetPhase(s.calls, c, Done), removals := s.removals + multiset{node.name})
    else if !Ready(node, now) then s.(calls := SetPhase(s.calls, c, Done))
    else s.(calls := SetPhase(s.calls, c, Running), nodes := s.nodes[id := Start(node, now)])
  }

  function Next(s: State, step: Step): (t: State)
    requires ValidState(s) && Enabled(s, step)
    ensures ValidState(t)
  {
    match step
    case Register(name, interval, once, time) =>
      if name in s.table then s
      else s.(nodes := s.nodes + [NewNode(name, interval, once, time)], table := s.table[name := |s.nodes|])
    case Spawn(name, now) => s.(calls := s.calls + [Call(s.table[name], now, Waiting)])
    case Enter(c) => EnterCall(s, c)
    case Return(c, ok) =>
      var id := s.calls[c].id;
      s.(calls := SetPhase(s.calls, c, Done), nodes := s.nodes[id := Finish(s.nodes[id], ok)])
    case Remove(name) => s.(table := s.table - {name}, removals := s.removals - multiset{name})
  }

  // ---------- what every step keeps ----------

  /** Runs carry times at least an interval apart, the first at least an interval after registration. */
  predicate Spaced(n: Node) {
    && n.lastTrigger == (if n.starts == [] then n.registered else n.starts[|n.starts| - 1])
    && forall k :: 0 <= k < |n.starts| ==> n.starts[k] - Before(n, k) >= n.interval
  }

  /** The start before start k, or the registration. */
  function Before(n: Node, k: nat): int
    requires k < |n.starts|
  {
    if k == 0 then n.registered else n.starts[k - 1]
  }

  /** The `running` flag is set exactly while one goroutine is in the recycling function; a discarded node is not run. */
  predicate RunningOk(s: State, id: nat)
    requires id < |s.nodes|
  {
    (s.nodes[id].running <==> !Free(s.calls, id)) && (s.nodes[id].running ==> !Discarded(s.nodes[id]))
  }

  /** No two runs of a node overlap. */
  predicate Alone(calls: seq<Call>) {
    forall i, j :: 0 <= i < j < |calls| && calls[i].phase == Running && calls[j].phase == Running ==>
      calls[i].id != calls[j].id
  }

  predicate Inv(s: State) {
    && ValidState(s) && Alone(s.calls)
    && forall id :: 0 <= id < |s.nodes| ==> Spaced(s.nodes[id]) && RunningOk(s, id)
  }

  lemma {:induction false} StartSpaced(n: Node, now: int)
    requires Spaced(n) && Ready(n, now)
    ensures Spaced(Start(n, now))
  {
    var m := Start(n, now);
    forall k | 0 <= k < |m.starts| ensures m.starts[k] - Before(m, k) >= m.interval {
      if k < |n.starts| {
        assert n.starts[k] - Before(n, k) >= n.interval;
      }
    }
  }

  lemma {:induction false} LockTaken(calls: seq<Call>, c: nat, k: nat)
    requires c < |calls| && calls[c].phase != Running
    ensures Free(SetPhase(calls, c, Running), k) <==> Free(calls, k) && k != calls[c].id
  {
    var more := SetPhase(calls, c, Running);
    assert more[c].phase == Running && more[c].id == calls[c].id;
    assert forall i :: 0 <= i < |calls| && i != c ==> more[i] == calls[i];
  }

  lemma {:induction false} LockFree(calls: seq<Call>, c: nat, k: nat)
    requires c < |calls| && Alone(calls)
    ensures Free(SetPhase(calls, c, Done), k) <==>
            Free(calls, k) || (calls[c].phase == Running && k == calls[c].id)
  {
    var less := SetPhase(calls, c, Done);
    assert forall i :: 0 <= i < |calls| && i != c ==> less[i] == calls[i];
  }

  lemma {:induction false} AlonePhase(calls: seq<Call>, c: nat, phase: Phase)
    requires c < |calls| && Alone(calls) && (phase == Running ==> Free(calls, calls[c].id))
    ensures Alone(SetPhase(calls, c, phase))
  {
  }

  lemma {:induction false} EnterKeeps(s: State, c: nat)
    requires Inv(s) && Enabled(s, Enter(c))
    ensures Inv(EnterCall(s, c))
  {
    var id, now := s.calls[c].id, s.calls[c].now;
    var runs := !Discarded(s.nodes[id]) && Ready(s.nodes[id], now);
    var t := EnterCall(s, c);
    if runs { StartSpaced(s.nodes[id], now); }
    AlonePhase(s.calls, c, if runs then Running else Done);
    assert ValidState(t);
    hide Spaced, Alone, Free, SetPhase, ValidState;
    forall k | 0 <= k < |t.nodes| ensures RunningOk(t, k) {
      assert RunningOk(s, k);
      if runs { LockTaken(s.calls, c, k); } else { LockFree(s.calls, c, k); }
    }
  }

  lemma {:induction false} ReturnKeeps(s: State, c: nat, ok: bool)
    requires Inv(s) && Enabled(s, Return(c, ok))
    ensures Inv(Next(s, Return(c, ok)))
  {
    var t := Next(s, Return(c, ok));
    AlonePhase(s.calls, c, Done);
    assert Spaced(s.nodes[s.calls[c].id]) && Spaced(t.nodes[s.calls[c].id]);
    assert ValidState(t);
    hide Spaced, Alone, Free, SetPhase, ValidState;
    forall k | 0 <= k < |t.nodes| ensures RunningOk(t, k) {
      assert RunningOk(s, k);
      LockFree(s.calls, c, k);
    }
  }

  lemma {:induction false} SpawnKeeps(s: State, name: string, now: int)
    requires Inv(s) && name in s.table
    ensures Inv(Next(s, Spawn(name, now)))
  {
    var t := Next(s, Spawn(name, now));
    hide Spaced;
    forall k | 0 <= k < |t.nodes| ensures RunningOk(t, k) {
      assert RunningOk(s, k);
      assert forall i :: 0 <= i < |s.calls| ==> t.calls[i] == s.calls[i];
    }
  }

  lemma {:induction false} RegisterKeeps(s: State, name: string, interval: int, once: bool, time: int)
    requires Inv(s)
    ensures Inv(Next(s, Register(name, interval, once, time)))
  {
    var t := Next(s, Register(name, interval, once, time));
    forall k | 0 <= k < |t.nodes| ensures Spaced(t.nodes[k]) && RunningOk(t, k) {
      if k < |s.nodes| { assert Spaced(s.nodes[k]) && RunningOk(s, k); }
    }
  }

  lemma {:induction false} StepKeeps(s: State, step: Step)
    requires Inv(s) && Enabled(s, step)
    ensures Inv(Next(s, step))
  {
    match step
    case Register(name, interval, once, time) => RegisterKeeps(s, name, interval, once, time);
    case Spawn(name, now) => SpawnKeeps(s, name, now);
    case Enter(c) => EnterKeeps(s, c);
    case Return(c, ok) => ReturnKeeps(s, c, ok);
    case Remove(name) =>
      hide Spaced, Alone, Free;
      assert forall k :: 0 <= k < |s.nodes| ==> RunningOk(s, k) ==> RunningOk(Next(s, step), k);
  }

  // ---------- whole runs ----------

  /** The states of a run; the run stops at a step that is not enabled. */
  function Exec(s: State, steps: seq<Step>): Option<State>
    requires ValidState(s)
    ensures Exec(s, steps).Some? ==> ValidState(Exec(s, steps).value)
  {
    if steps == [] then Some(s)
    else
      match Exec(s, steps[..|steps| - 1])
      case None => None
      case Some(t) =>
        if Enabled(t, steps[|steps| - 1]) then Some(Next(t, steps[|steps| - 1])) else None
  }

  /** In every state of every run: runs of a node never overlap, and they are spaced. */
  lemma {:induction false} RunsAreSpaced(steps: seq<Step>)
    requires Exec(INIT, steps).Some?
    ensures Inv(Exec(INIT, steps).value)
  {
    hide Inv, Next, Enabled;
    if steps == [] {
      InitInv();
    } else {
      RunsAreSpaced(steps[..|steps| - 1]);
      StepKeeps(Exec(INIT, steps[..|steps| - 1]).value, steps[|steps| - 1]);
    }
  }

  lemma {:induction false} InitInv()
    ensures ValidState(INIT) && Inv(INIT)
  {
  }

  /** Starts i and j of a node are at least j - i intervals apart. */
  lemma {:induction false} SpacedPairs(n: Node, i: nat, j: nat)
    requires Spaced(n) && i <= j < |n.starts|
    ensures n.starts[j] - n.starts[i] >= (j - i) * n.interval
    ensures n.starts[i] - n.registered >= (i + 1) * n.interval
    decreases j
  {
    assert n.starts[j] - Before(n, j) >= n.interval;
    if i < j {
      SpacedPairs(n, i, j - 1);
      assert (j - i) * n.interval == (j - 1 - i) * n.interval + n.interval;
    } else if j > 0 {
      SpacedPairs(n, j - 1, j - 1);
      assert (j + 1) * n.interval == j * n.interval + n.interval;
    }
  }

  /** What a step leaves alone: a node keeps its name, interval and start, and a discarded node does not run. */
  lemma {:induction false} DiscardedStays(s: State, step: Step, id: nat)
    requires Inv(s) && Enabled(s, step) && id < |s.nodes| && Discarded(s.nodes[id])
    ensures id < |Next(s, step).nodes| && Discarded(Next(s, step).nodes[id])
    ensures Next(s, step).nodes[id].starts == s.nodes[id].starts
  {
    hide Spaced, Alone, Free;
  }

  /** A once-node never runs again after its first success, however the run goes on. */
  lemma {:induction false} OnceStops(s: State, steps: seq<Step>, id: nat)
    requires Inv(s) && Exec(s, steps).Some? && id < |s.nodes| && Discarded(s.nodes[id])
    ensures var t := Exec(s, steps).value;
      Inv(t) && id < |t.nodes| && Discarded(t.nodes[id]) && t.nodes[id].starts == s.nodes[id].starts
  {
    hide Spaced, Alone, Free, Next, Enabled, RunningOk;
    if steps != [] {
      var t := Exec(s, steps[..|steps| - 1]).value;
      OnceStops(s, steps[..|steps| - 1], id);
      StepKeeps(t, steps[|steps| - 1]);
      DiscardedStays(t, steps[|steps| - 1], id);
    }
  }

  // ---------- nodes do run ----------

  /** The last start of a node, or its registration. */
  function LastStart(n: Node): int { if n.starts == [] then n.registered else n.starts[|n.starts| - 1] }

  /** Step k of a run ends a run of the node with success. */
  predicate SucceedsAt(steps: seq<Step>, k: nat, id: nat)
    requires k < |steps|
  {
    && steps[k].Return? && steps[k].ok && ValidState(INIT)
    && match Exec(INIT, steps[..k])
       case None => false
       case Some(t) => steps[k].call < |t.calls| && t.calls[steps[k].call].id == id
  }

  ghost predicate Succeeded(steps: seq<Step>, id: nat) {
    exists k :: 0 <= k < |steps| && SucceedsAt(steps, k, id)
  }

  lemma {:induction false} SuccessStep(s: State, step: Step, id: nat)
    requires ValidState(s) && Enabled(s, step) && id < |s.nodes|
    ensures id < |Next(s, step).nodes|
    ensures Next(s, step).nodes[id].success <==>
      s.nodes[id].success || (step.Return? && step.ok && s.calls[step.call].id == id)
  {
    hide Free;
  }

  lemma {:induction false} NewUnsuccessful(s: State, step: Step, id: nat)
    requires ValidState(s) && Enabled(s, step) && |s.nodes| <= id < |Next(s, step).nodes|
    ensures !Next(s, step).nodes[id].success && !step.Return?
  {
    hide Free;
  }

  lemma {:induction false} SucceededMore(steps: seq<Step>, id: nat)
    requires steps != []
    ensures Succeeded(steps, id) <==> Succeeded(steps[..|steps| - 1], id) || SucceedsAt(steps, |steps| - 1, id)
  {
    hide Exec;
    var init := steps[..|steps| - 1];
    forall k | 0 <= k < |init| ensures SucceedsAt(init, k, id) <==> SucceedsAt(steps, k, id) {
      assert init[..k] == steps[..k];
    }
  }

  lemma {:induction false} LastSucceeds(steps: seq<Step>, id: nat, t: State)
    requires steps != [] && ValidState(INIT) && Exec(INIT, steps[..|steps| - 1]) == Some(t) && Enabled(t, steps[|steps| - 1])
    ensures SucceedsAt(steps, |steps| - 1, id) <==>
      var step := steps[|steps| - 1]; step.Return? && step.ok && t.calls[step.call].id == id
  {
    hide Exec;
  }

  lemma {:induction false} LastStep(steps: seq<Step>) returns (t: State)
    requires steps != [] && ValidState(INIT) && Exec(INIT, steps).Some?
    ensures Exec(INIT, steps[..|steps| - 1]) == Some(t) && ValidState(t) && Enabled(t, steps[|steps| - 1])
    ensures Exec(INIT, steps) == Some(Next(t, steps[|steps| - 1]))
  {
    hide Next, Enabled;
    t := Exec(INIT, steps[..|steps| - 1]).value;
  }

  /** A node counts as successful if and only if one of its runs so far was. */
  lemma {:induction false} SuccessIff(steps: seq<Step>, id: nat)
    requires ValidState(INIT) && Exec(INIT, steps).Some? && id < |Exec(INIT, steps).value.nodes|
    ensures Exec(INIT, steps).value.nodes[id].success <==> Succeeded(steps, id)
  {
    if steps != [] {
      hide Exec, Next, Succeeded, SucceedsAt, ValidState;
      var init, step := steps[..|steps| - 1], steps[|steps| - 1];
      var t := LastStep(steps);
      SucceededMore(steps, id);
      LastSucceeds(steps, id, t);
      if id < |t.nodes| {
        SuccessIff(init, id);
        SuccessStep(t, step, id);
      } else {
        NewUnsuccessful(t, step, id);
        NoSuccess(init, id);
      }
    }
  }

  /** A node that is not there yet has not succeeded. */
  lemma {:induction false} NoSuccess(steps: seq<Step>, id: nat)
    requires ValidState(INIT) && Exec(INIT, steps).Some? && id >= |Exec(INIT, steps).value.nodes|
    ensures !Succeeded(steps, id)
  {
    if steps != [] {
      var init, step := steps[..|steps| - 1], steps[|steps| - 1];
      var t := Exec(INIT, init).value;
      assert |t.nodes| <= |Next(t, step).nodes| by { hide Free; }
      hide Next, Enabled, Succeeded;
      NoSuccess(init, id);
      SucceededMore(steps, id);
    }
  }

  /**
  In every state of every run: a goroutine that gets the lock runs its node if and only if an interval has passed since the
  last start, or the registration, up to the time it carries, and the node is not a once-node that has succeeded.
  */
  lemma {:induction false} EnterRunsIff(steps: seq<Step>, c: nat)
    requires ValidState(INIT) && Exec(INIT, steps).Some? && Enabled(Exec(INIT, steps).value, Enter(c))
    ensures
      var s := Exec(INIT, steps).value;
      var (t, id, now) := (Next(s, Enter(c)), s.calls[c].id, s.calls[c].now);
      var runs := now - LastStart(s.nodes[id]) >= s.nodes[id].interval && !(s.nodes[id].once && Succeeded(steps, id));
      && |t.nodes| == |s.nodes| && |t.calls| == |s.calls|
      && t.nodes[id].starts == s.nodes[id].starts + (if runs then [now] else [])
      && t.calls[c].phase == (if runs then Running else Done)
      && (forall k :: 0 <= k < |s.nodes| && k != id ==> t.nodes[k] == s.nodes[k])
  {
    var s := Exec(INIT, steps).value;
    RunsAreSpaced(steps);
    SuccessIff(steps, s.calls[c].id);
    hide Exec, Succeeded, Alone;
    assert RunningOk(s, s.calls[c].id) && Spaced(s.nodes[s.calls[c].id]);
    hide Spaced, Free;
    assert s.nodes[s.calls[c].id].starts + [] == s.nodes[s.calls[c].id].starts;
  }

  /** A periodic node can always run again: at any time an interval after its last start, once the current run is over. */
  lemma {:induction false} RunsAgain(s: State, id: nat, now: int)
    requires Inv(s) && id < |s.nodes| && Registered(s, id) && !Discarded(s.nodes[id]) && Free(s.calls, id)
    requires now - LastStart(s.nodes[id]) >= s.nodes[id].interval
    ensures
      var a := Spawn(s.nodes[id].name, now);
      && Enabled(s, a) && Enabled(Next(s, a), Enter(|s.calls|))
      && Next(Next(s, a), Enter(|s.calls|)).nodes[id].starts == s.nodes[id].starts + [now]
  {
    var t := Next(s, Spawn(s.nodes[id].name, now));
    assert RunningOk(s, id) && Spaced(s.nodes[id]);
    assert forall i :: 0 <= i < |s.calls| ==> t.calls[i] == s.calls[i];
  }

  // ---------- registration ----------

  predicate WaitingAt(s: State, c: nat, m: nat) {
    c < |s.calls| && s.calls[c].phase == Waiting && s.calls[c].id == m
  }

  predicate HasWaiting(s: State, m: nat) { exists c :: 0 <= c < |s.calls| && WaitingAt(s, c, m) }

  /** Two goroutines wait for the node, and the first of them would run it. */
  predicate TwoWaiting(s: State, m: nat)
    requires m < |s.nodes|
  {
    exists c, d :: && 0 <= c < |s.calls| && 0 <= d < |s.calls| && c != d && WaitingAt(s, c, m) && WaitingAt(s, d, m)
                   && Ready(s.nodes[m], s.calls[c].now)
  }

  /** A node that may yet ask for its removal: it is discarded, or can be, with a goroutine left to find out. */
  predicate Threat(s: State, m: nat)
    requires m < |s.nodes|
  {
    || (Discarded(s.nodes[m]) && HasWaiting(s, m))
    || (s.nodes[m].once && !Free(s.calls, m) && HasWaiting(s, m))
    || (s.nodes[m].once && TwoWaiting(s, m))
  }

  /** The name of node id may be removed for the sake of another node: a removal is under way, or threatens to be. */
  predicate Threatened(s: State, id: nat)
    requires id < |s.nodes|
  {
    || s.nodes[id].name in s.removals
    || exists m :: 0 <= m < |s.nodes| && m != id && s.nodes[m].name == s.nodes[id].name && Threat(s, m)
  }

  predicate Registered(s: State, id: nat)
    requires id < |s.nodes|
  {
    s.nodes[id].name in s.table && s.table[s.nodes[id].name] == id
  }

  /** The node is out of the table although it is not discarded. */
  predicate Lost(s: State, id: nat) { id < |s.nodes| && !Discarded(s.nodes[id]) && !Registered(s, id) }

  /** Registered and not threatened, unless discarded. */
  predicate Secure(s: State, id: nat) {
    id < |s.nodes| && (Discarded(s.nodes[id]) || (Registered(s, id) && !Threatened(s, id)))
  }

  /** An entering goroutine does not make its node, or any other node of that name, a threat. */
  lemma {:induction false} EnterNoThreat(s: State, c: nat, m: nat)
    requires Inv(s) && Enabled(s, Enter(c)) && m < |s.nodes| && !Threat(s, m)
    ensures !Threat(EnterCall(s, c), m)
    ensures s.calls[c].id == m ==> EnterCall(s, c).removals == s.removals
  {
    var t := EnterCall(s, c);
    assert WaitingAt(s, c, s.calls[c].id);
    assert RunningOk(s, m);
    hide Spaced, Alone, RunningOk;
    LockTaken(s.calls, c, m);
    LockFree(s.calls, c, m);
    hide Free;
    assert forall d :: 0 <= d < |s.calls| && WaitingAt(t, d, m) ==> WaitingAt(s, d, m) && d != c;
  }

  lemma {:induction false} ReturnNoThreat(s: State, c: nat, ok: bool, m: nat)
    requires Inv(s) && Enabled(s, Return(c, ok)) && m < |s.nodes| && !Threat(s, m)
    ensures !Threat(Next(s, Return(c, ok)), m)
  {
    var t := Next(s, Return(c, ok));
    assert !Free(s.calls, s.calls[c].id);
    LockFree(s.calls, c, m);
    hide Spaced, Alone, RunningOk, Free;
    assert forall d :: 0 <= d < |s.calls| && WaitingAt(t, d, m) ==> WaitingAt(s, d, m) && d != c;
  }

  lemma {:induction false} SpawnNoThreat(s: State, name: string, now: int, m: nat)
    requires Inv(s) && name in s.table && m < |s.nodes| && !Threat(s, m) && s.table[name] != m
    ensures !Threat(Next(s, Spawn(name, now)), m)
  {
    var t := Next(s, Spawn(name, now));
    hide Spaced, Alone, RunningOk;
    assert forall d :: 0 <= d < |s.calls| ==> t.calls[d] == s.calls[d];
    assert forall d :: 0 <= d < |t.calls| && WaitingAt(t, d, m) ==> d < |s.calls| && WaitingAt(s, d, m);
    assert Free(t.calls, m) <==> Free(s.calls, m);
    hide Free;
  }

  lemma {:induction false} RegisterNoThreat(s: State, name: string, interval: int, once: bool, time: int, m: nat)
    requires Inv(s) && m < |s.nodes| + 1 && (m < |s.nodes| ==> !Threat(s, m))
    ensures
      var t := Next(s, Register(name, interval, once, time));
      m < |t.nodes| ==> !Threat(t, m)
  {
    hide Spaced, Alone, RunningOk, Free;
    var t := Next(s, Register(name, interval, once, time));
    assert forall d :: 0 <= d < |s.calls| ==> s.calls[d].id < |s.nodes|;
    assert forall d :: 0 <= d < |t.calls| && WaitingAt(t, d, m) ==> m < |s.nodes| && WaitingAt(s, d, m);
  }

  lemma {:induction false} OtherNoThreat(s: State, step: Step, id: nat, m: nat)
    requires Inv(s) && Enabled(s, step) && Secure(s, id) && !Discarded(s.nodes[id])
    requires m < |Next(s, step).nodes| && m != id && Next(s, step).nodes[m].name == s.nodes[id].name
    ensures !Threat(Next(s, step), m)
  {
    hide Spaced, Alone, RunningOk, Free, Threat, EnterCall;
    if step.Enter? {
      assert |EnterCall(s, step.call).nodes| == |s.nodes| by { EnterNames(s, step.call, 0); }
      EnterNames(s, step.call, m);
      EnterNoThreat(s, step.call, m);
    } else if step.Return? {
      ReturnNoThreat(s, step.call, step.ok, m);
    } else if step.Spawn? {
      SpawnNoThreat(s, step.name, step.now, m);
    } else if step.Register? {
      RegisterNoThreat(s, step.name, step.interval, step.once, step.time, m);
    } else {
      RemoveNoThreat(s, step.name, m);
    }
  }

  lemma {:induction false} RemoveNoThreat(s: State, name: string, m: nat)
    requires ValidState(s) && name in s.removals && m < |s.nodes| && !Threat(s, m)
    ensures !Threat(Next(s, Remove(name)), m)
  {
    hide Free;
    var t := Next(s, Remove(name));
    assert forall d :: 0 <= d < |t.calls| && WaitingAt(t, d, m) ==> WaitingAt(s, d, m);
  }

  lemma {:induction false} EnterNames(s: State, c: nat, m: nat)
    requires ValidState(s) && c < |s.calls|
    ensures |EnterCall(s, c).nodes| == |s.nodes| && EnterCall(s, c).table == s.table
    ensures m < |s.nodes| ==> EnterCall(s, c).nodes[m].name == s.nodes[m].name
    ensures EnterCall(s, c).removals == s.removals
         || (Discarded(s.nodes[s.calls[c].id]) && EnterCall(s, c).removals == s.removals + multiset{s.nodes[s.calls[c].id].name})
  {
  }

  /** A step keeps its node's name to itself: removals of a secure node's name do not come up. */
  lemma {:induction false} SecureRemovals(s: State, step: Step, id: nat)
    requires Inv(s) && Enabled(s, step) && Secure(s, id) && !Discarded(s.nodes[id])
    ensures s.nodes[id].name !in Next(s, step).removals
  {
    hide Spaced, Alone, RunningOk, Free, Threat, EnterCall;
    if step.Enter? {
      var m := s.calls[step.call].id;
      EnterNames(s, step.call, m);
      if m != id && s.nodes[m].name == s.nodes[id].name { EnterNoThreat(s, step.call, m); }
    }
  }

  lemma {:induction false} StillRegistered(s: State, step: Step, id: nat)
    requires Inv(s) && Enabled(s, step) && Secure(s, id) && !Discarded(s.nodes[id])
    ensures id < |Next(s, step).nodes| && Next(s, step).nodes[id].name == s.nodes[id].name && Registered(Next(s, step), id)
  {
    hide Spaced, Alone, RunningOk, Free, Threat, EnterCall;
    if step.Enter? { EnterNames(s, step.call, id); }
  }

  lemma {:induction false} SecureStays(s: State, step: Step, id: nat)
    requires Inv(s) && Enabled(s, step) && Secure(s, id)
    ensures Secure(Next(s, step), id)
  {
    hide Alone, Spaced, RunningOk, Threat, Next, Registered, Enabled;
    if Discarded(s.nodes[id]) {
      DiscardedStays(s, step, id);
    } else {
      StillRegistered(s, step, id);
      SecureRemovals(s, step, id);
      var t := Next(s, step);
      forall m | 0 <= m < |t.nodes| && m != id && t.nodes[m].name == t.nodes[id].name ensures !Threat(t, m) {
        OtherNoThreat(s, step, id, m);
      }
    }
  }

  lemma {:induction false} SecureRuns(s: State, steps: seq<Step>, id: nat)
    requires Inv(s) && Secure(s, id) && Exec(s, steps).Some?
    ensures Inv(Exec(s, steps).value) && Secure(Exec(s, steps).value, id)
  {
    hide Alone, Spaced, RunningOk, Next, Enabled, Secure;
    if steps != [] {
      var t := Exec(s, steps[..|steps| - 1]).value;
      SecureRuns(s, steps[..|steps| - 1], id);
      StepKeeps(t, steps[|steps| - 1]);
      SecureStays(t, steps[|steps| - 1], id);
    }
  }

  // ---------- and how it gets lost ----------

  /** Some run loses the node. */
  ghost predicate CanLose(s: State, id: nat)
    requires ValidState(s)
  {
    exists steps :: Exec(s, steps).Some? && Lost(Exec(s, steps).value, id)
  }

  lemma {:induction false} ExecCons(s: State, step: Step, rest: seq<Step>)
    requires ValidState(s) && Enabled(s, step)
    ensures Exec(s, [step] + rest) == Exec(Next(s, step), rest)
  {
    hide Next, Enabled;
    if rest == [] {
      assert [step] + rest == [step] && [step][..0] == [];
      assert Exec(s, []) == Some(s);
    } else {
      ExecCons(s, step, rest[..|rest| - 1]);
      assert ([step] + rest)[..|rest|] == [step] + rest[..|rest| - 1];
    }
  }

  lemma {:induction false} LoseLater(s: State, step: Step, id: nat)
    requires ValidState(s) && Enabled(s, step) && CanLose(Next(s, step), id)
    ensures CanLose(s, id)
  {
    hide Next, Enabled, Lost;
    var rest :| Exec(Next(s, step), rest).Some? && Lost(Exec(Next(s, step), rest).value, id);
    ExecCons(s, step, rest);
  }

  /** The node is registered and not discarded. */
  predicate Alive(s: State, id: nat) { id < |s.nodes| && !Discarded(s.nodes[id]) && Registered(s, id) }

  lemma {:induction false} LoseByRemoval(s: State, id: nat)
    requires ValidState(s) && Alive(s, id) && s.nodes[id].name in s.removals
    ensures CanLose(s, id)
  {
    var name := s.nodes[id].name;
    var t := Next(s, Remove(name));
    assert Exec(t, []) == Some(t) && Lost(t, id);
    LoseLater(s, Remove(name), id);
  }

  lemma {:induction false} LoseByDiscarded(s: State, id: nat, m: nat, c: nat)
    requires Inv(s) && Alive(s, id) && m < |s.nodes| && s.nodes[m].name == s.nodes[id].name
    requires Discarded(s.nodes[m]) && WaitingAt(s, c, m)
    ensures CanLose(s, id)
  {
    assert RunningOk(s, m);
    var t := Next(s, Enter(c));
    assert t.nodes == s.nodes && t.table == s.table;
    LoseByRemoval(t, id);
    LoseLater(s, Enter(c), id);
  }

  lemma {:induction false} LoseByRunning(s: State, id: nat, m: nat, r: nat, c: nat)
    requires Inv(s) && Alive(s, id) && m < |s.nodes| && m != id && s.nodes[m].name == s.nodes[id].name && s.nodes[m].once
    requires r < |s.calls| && s.calls[r].phase == Running && s.calls[r].id == m && WaitingAt(s, c, m)
    ensures CanLose(s, id)
  {
    var t := Next(s, Return(r, true));
    StepKeeps(s, Return(r, true));
    hide Inv;
    assert WaitingAt(t, c, m) && Discarded(t.nodes[m]) && Alive(t, id);
    LoseByDiscarded(t, id, m, c);
    LoseLater(s, Return(r, true), id);
  }

  lemma {:induction false} LoseByTwo(s: State, id: nat, m: nat, c: nat, d: nat)
    requires Inv(s) && Alive(s, id) && m < |s.nodes| && m != id && s.nodes[m].name == s.nodes[id].name && s.nodes[m].once
    requires WaitingAt(s, c, m) && WaitingAt(s, d, m) && c != d && Ready(s.nodes[m], s.calls[c].now)
    ensures CanLose(s, id)
  {
    assert RunningOk(s, m);
    if Discarded(s.nodes[m]) {
      LoseByDiscarded(s, id, m, c);
    } else {
      var t := Next(s, Enter(c));
      StepKeeps(s, Enter(c));
      hide Inv;
      assert t.calls[c].phase == Running && WaitingAt(t, d, m) && Alive(t, id);
      LoseByRunning(t, id, m, c, d);
      LoseLater(s, Enter(c), id);
    }
  }

  lemma {:induction false} ThreatLoses(s: State, id: nat, m: nat)
    requires Inv(s) && Alive(s, id) && m < |s.nodes| && m != id && s.nodes[m].name == s.nodes[id].name && Threat(s, m)
    ensures CanLose(s, id)
  {
    hide Inv, Alive, WaitingAt, Ready, CanLose;
    if HasWaiting(s, m) && (Discarded(s.nodes[m]) || (s.nodes[m].once && !Free(s.calls, m))) {
      var c :| 0 <= c < |s.calls| && WaitingAt(s, c, m);
      if Discarded(s.nodes[m]) {
        LoseByDiscarded(s, id, m, c);
      } else {
        var r :| 0 <= r < |s.calls| && s.calls[r].phase == Running && s.calls[r].id == m;
        LoseByRunning(s, id, m, r, c);
      }
    } else {
      var c, d :| && 0 <= c < |s.calls| && 0 <= d < |s.calls| && c != d && WaitingAt(s, c, m) && WaitingAt(s, d, m)
                  && Ready(s.nodes[m], s.calls[c].now);
      LoseByTwo(s, id, m, c, d);
    }
  }

  /**
  When a node can get lost: some run takes a registered node out of the table without its being discarded, if and only if
  its name is threatened by a removal that is under way or by a goroutine of another node of the same name.
  */
  lemma {:induction false} CanLoseIff(s: State, id: nat)
    requires Inv(s) && Alive(s, id)
    ensures CanLose(s, id) <==> Threatened(s, id)
  {
    hide Spaced, Alone, RunningOk, Threat;
    if Threatened(s, id) {
      if s.nodes[id].name in s.removals {
        LoseByRemoval(s, id);
      } else {
        var m :| 0 <= m < |s.nodes| && m != id && s.nodes[m].name == s.nodes[id].name && Threat(s, m);
        ThreatLoses(s, id, m);
      }
    } else {
      forall steps | Exec(s, steps).Some? ensures !Lost(Exec(s, steps).value, id) {
        SecureRuns(s, steps, id);
      }
    }
  }

  /** A removal that is still under way when its name is registered again removes the new node. */
  lemma {:induction false} StaleRemoval(s: State, name: string, interval: int, once: bool, time: int)
    requires ValidState(s) && name !in s.table && name in s.removals
    ensures
      var t := Exec(s, [Register(name, interval, once, time), Remove(name)]);
      && t.Some? && name !in t.value.table
      && t.value.nodes == s.nodes + [NewNode(name, interval, once, time)]
  {
    var steps := [Register(name, interval, once, time), Remove(name)];
    assert steps[..1] == [Register(name, interval, once, time)] && steps[..1][..0] == [];
    assert Exec(s, steps[..1]) == Some(Next(s, Register(name, interval, once, time)));
  }

  lemma {:induction false} ExecMore(steps: seq<Step>, step: Step, t: State)
    requires ValidState(INIT) && Exec(INIT, steps) == Some(t) && Enabled(t, step)
    ensures Exec(INIT, steps + [step]) == Some(Next(t, step))
  {
    hide Next, Enabled;
    assert (steps + [step])[..|steps|] == steps;
  }

  /** Three ticks find a new once-node. */
  lemma {:induction false} ThreeWaiting(name: string) returns (a: seq<Step>)
    ensures
      var w := Call(0, 0, Waiting);
      && ValidState(INIT)
      && Exec(INIT, a) == Some(State([NewNode(name, 0, true, 0)], map[name := 0], [w, w, w], multiset{}))
  {
    hide Exec;
    var n0, w := NewNode(name, 0, true, 0), Call(0, 0, Waiting);
    var m: map<string, nat> := map[name := 0];
    NoSteps();
    Extend([], Register(name, 0, true, 0), INIT, State([n0], m, [], multiset{}));
    a := [] + [Register(name, 0, true, 0)];
    Extend(a, Spawn(name, 0), State([n0], m, [], multiset{}), State([n0], m, [w], multiset{}));
    a := a + [Spawn(name, 0)];
    Extend(a, Spawn(name, 0), State([n0], m, [w], multiset{}), State([n0], m, [w, w], multiset{}));
    a := a + [Spawn(name, 0)];
    Extend(a, Spawn(name, 0), State([n0], m, [w, w], multiset{}), State([n0], m, [w, w, w], multiset{}));
    a := a + [Spawn(name, 0)];
  }

  /** The first of them runs it, with success. */
  lemma {:induction false} OneSuccess(name: string) returns (a: seq<Step>)
    ensures
      var w, d := Call(0, 0, Waiting), Call(0, 0, Done);
      && ValidState(INIT)
      && Exec(INIT, a) == Some(State([Finish(Start(NewNode(name, 0, true, 0), 0), true)],
                                     map[name := 0], [d, w, w], multiset{}))
  {
    hide Exec;
    a := ThreeWaiting(name);
    var n0 := NewNode(name, 0, true, 0);
    var w, r, d := Call(0, 0, Waiting), Call(0, 0, Running), Call(0, 0, Done);
    var m: map<string, nat> := map[name := 0];
    Extend(a, Enter(0), State([n0], m, [w, w, w], multiset{}), State([Start(n0, 0)], m, [r, w, w], multiset{}));
    a := a + [Enter(0)];
    Extend(a, Return(0, true), State([Start(n0, 0)], m, [r, w, w], multiset{}),
           State([Finish(Start(n0, 0), true)], m, [d, w, w], multiset{}));
    a := a + [Return(0, true)];
  }

  /** Such a removal can be under way: the other two find the node discarded and each asks for its removal. */
  lemma {:induction false} TwoRemovals(name: string) returns (a: seq<Step>)
    ensures ValidState(INIT) && Exec(INIT, a).Some?
    ensures name !in Exec(INIT, a).value.table && name in Exec(INIT, a).value.removals
  {
    hide Exec;
    a := OneSuccess(name);
    var n := Finish(Start(NewNode(name, 0, true, 0), 0), true);
    var w, d := Call(0, 0, Waiting), Call(0, 0, Done);
    var m: map<string, nat> := map[name := 0];
    Extend(a, Enter(1), State([n], m, [d, w, w], multiset{}), State([n], m, [d, d, w], multiset{name}));
    a := a + [Enter(1)];
    Extend(a, Enter(2), State([n], m, [d, d, w], multiset{name}), State([n], m, [d, d, d], multiset{name, name}));
    a := a + [Enter(2)];
    Extend(a, Remove(name), State([n], m, [d, d, d], multiset{name, name}),
           State([n], map[], [d, d, d], multiset{name}));
    a := a + [Remove(name)];
  }

  lemma {:induction false} NoSteps()
    ensures ValidState(INIT) && Exec(INIT, []) == Some(INIT)
  {
  }

  lemma {:induction false} Extend(steps: seq<Step>, step: Step, t: State, u: State)
    requires ValidState(INIT) && Exec(INIT, steps) == Some(t) && ValidState(t) && Enabled(t, step)
    requires
      var v := Next(t, step);
      u.nodes == v.nodes && u.table == v.table && u.calls == v.calls && u.removals == v.removals
    ensures Exec(INIT, steps + [step]) == Some(u)
  {
    hide Next, Enabled, Exec;
    ExecMore(steps, step, t);
  }
}
