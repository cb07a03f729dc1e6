/**
The daemon's Build and Status handlers, run concurrently.

Each lock-protected section, each channel operation and each return is one atomic step. A run is a list
of steps chosen by an arbitrary scheduler: any number of handlers, any interleaving, cancellation at any
time. A Go panic (send on a closed channel, close of a closed channel, nil builder) ends the run.
*/
module Rendezvous {
  import opened Basics

  type BuildId = string
  type EntityId = string
  type ChanId = nat
  type CallId = nat

  /** `Daemon.builders` and `Daemon.entities`. Of a builder only its entity ID matters here. */
  datatype Tables = Tables(builders: map<BuildId, EntityId>, entities: map<EntityId, BuildId>)

  /**
  `Backend.status` and the start channels it points to. Channels are numbered in the order they are made;
  `owner[c]` is the build ID that channel c was made for, and `closed` holds the closed ones.
  */
  datatype Starts = Starts(status: map<BuildId, ChanId>, closed: set<ChanId>, owner: seq<BuildId>)

  // ---------- the lock-protected sections ----------

  /** The locked part of `NewBuilder`: None when the entity is already being built. */
  function Enroll(t: Tables, id: BuildId, entity: EntityId): Option<Tables> {
    if entity in t.entities then None
    else Some(Tables(t.builders[id := entity], t.entities[entity := id]))
  }

  /** `deleteBuilder`: None when the map holds no builder, so that `EntityID` is called on nil. */
  function Dismiss(t: Tables, id: BuildId): Option<Tables> {
    if id !in t.builders then None
    else Some(Tables(t.builders - {id}, t.entities - {t.builders[id]}))
  }

  /** `syncBuildStatus`: the channel of a build ID, made on first use. */
  function Sync(c: Starts, id: BuildId): (Starts, ChanId) {
    if id in c.status then (c, c.status[id])
    else (c.(status := c.status[id := |c.owner|], owner := c.owner + [id]), |c.owner|)
  }

  /** `closeStatusChan`: None when the channel is closed twice. */
  function CloseStart(c: Starts, id: BuildId): Option<Starts> {
    if id !in c.status then Some(c)
    else if c.status[id] in c.closed then None
    else Some(c.(closed := c.closed + {c.status[id]}))
  }

  /** `deleteStatus` */
  function DeleteStatus(c: Starts, id: BuildId): Starts {
    c.(status := c.status - {id})
  }

  /** The reaper skips its work while any builder is registered. */
  predicate ReaperActs(t: Tables) {
    t.builders == map[]
  }

  /** The shared state as the handlers mutate it; every method body is one critical section. */
  class Shared {
    var builders: map<BuildId, EntityId>
    var entities: map<EntityId, BuildId>
    var status: map<BuildId, ChanId>
    var closed: set<ChanId>
    var owner: seq<BuildId>

    ghost function T(): Tables reads this { Tables(builders, entities) }
    ghost function C(): Starts reads this { Starts(status, closed, owner) }

    constructor ()
      ensures T() == Tables(map[], map[]) && C() == Starts(map[], {}, [])
    {
      builders, entities, status, closed, owner := map[], map[], map[], {}, [];
    }

    method NewBuilder(id: BuildId, entity: EntityId) returns (ok: bool)
      modifies this
      ensures C() == old(C())
      ensures ok <==> Enroll(old(T()), id, entity).Some?
      ensures T() == if ok then Enroll(old(T()), id, entity).value else old(T())
    {
      if entity in entities {
        return false;
      }
      entities := entities[entity := id];
      builders := builders[id := entity];
      ok := true;
    }

    method DeleteBuilder(id: BuildId)
      requires id in builders
      modifies this
      ensures C() == old(C()) && Some(T()) == Dismiss(old(T()), id)
    {
      var builder := builders[id];
      builders := builders - {id};
      entities := entities - {builder};
    }

    method SyncBuildStatus(id: BuildId) returns (ch: ChanId)
      modifies this
      ensures T() == old(T()) && (C(), ch) == Sync(old(C()), id)
    {
      if id !in status {
        status := status[id := |owner|];
        owner := owner + [id];
      }
      ch := status[id];
    }

    method CloseStatusChan(id: BuildId)
      requires id in status ==> status[id] !in closed
      modifies this
      ensures T() == old(T()) && Some(C()) == CloseStart(old(C()), id)
    {
      if id in status {
        closed := closed + {status[id]};
      }
    }

    /** The guard of the child-process reaper, evaluated under the daemon's lock. */
    method ReaperGuard() returns (acts: bool)
      ensures acts <==> ReaperActs(T())
    {
      acts := |builders| == 0;
    }

    method RemoveStatus(id: BuildId)
      modifies this
      ensures T() == old(T()) && C() == DeleteStatus(old(C()), id)
    {
      status := status - {id};
    }
  }

  // ---------- handlers and steps ----------

  /** Where a Build call stands. A builder is registered from Registered up to and including Finished. */
  datatype BuildPhase = Arrived | Registered | Sending(ch: ChanId) | Sent | Running | Finished | Unregistered

  datatype StatusPhase = Asked | Waiting(ch: ChanId) | Cancelled(ch: ChanId) | Passed | Streaming

  datatype Call = BuildCall(id: BuildId, entity: EntityId, build: BuildPhase)
                | StatusCall(id: BuildId, look: StatusPhase)

  /** `registered` is a history variable: the IDs whose builder has ever been put in the map. */
  datatype State = State(tables: Tables, starts: Starts, calls: map<CallId, Call>, registered: set<BuildId>)

  const Init: State := State(Tables(map[], map[]), Starts(map[], {}, []), map[], {})

  datatype Step =
    | BuildArrives(h: CallId, id: BuildId, entity: EntityId)
    | BuilderFails(h: CallId)                  // NewBuilder fails before its locked part
    | Register(h: CallId)                      // NewBuilder's locked part
    | BuildSync(h: CallId)
    | Meet(h: CallId, g: CallId)               // Build h sends, Status g receives
    | SendOnClosed(h: CallId)
    | CloseStep(h: CallId)
    | BuildReturns(h: CallId)                  // builder.Build() succeeded or failed
    | DismissStep(h: CallId)
    | BuildDone(h: CallId)                     // deferred deleteStatus, then return
    | StatusArrives(g: CallId, id: BuildId)
    | StatusSync(g: CallId)
    | ReceiveClosed(g: CallId)
    | ContextDone(g: CallId)
    | StatusGivesUp(g: CallId)                 // deleteStatus, then return
    | Lookup(g: CallId)
    | StatusDone(g: CallId)

  /** Disabled: the scheduler may not take this step here. */
  datatype Outcome = Go(s: State) | Disabled | Panic

  predicate BuildAt(s: State, h: CallId) { h in s.calls && s.calls[h].BuildCall? }
  predicate StatusAt(s: State, g: CallId) { g in s.calls && s.calls[g].StatusCall? }

  function BuildTo(s: State, h: CallId, p: BuildPhase): State
    requires BuildAt(s, h)
  {
    s.(calls := s.calls[h := s.calls[h].(build := p)])
  }

  function StatusTo(s: State, g: CallId, p: StatusPhase): State
    requires StatusAt(s, g)
  {
    s.(calls := s.calls[g := s.calls[g].(look := p)])
  }

  function Next(s: State, step: Step): Outcome {
    match step
    case BuildArrives(h, id, entity) =>
      if h in s.calls then Disabled else Go(s.(calls := s.calls[h := BuildCall(id, entity, Arrived)]))
    case StatusArrives(g, id) =>
      if g in s.calls then Disabled else Go(s.(calls := s.calls[g := StatusCall(id, Asked)]))
    case Meet(h, g) =>
      if BuildAt(s, h) && s.calls[h].build.Sending? && s.calls[h].build.ch !in s.starts.closed
         && StatusAt(s, g) && s.calls[g].look == Waiting(s.calls[h].build.ch)
      then Go(StatusTo(BuildTo(s, h, Sent), g, Passed))
      else Disabled
    case BuilderFails(_) | Register(_) | BuildSync(_) | SendOnClosed(_) | CloseStep(_) | BuildReturns(_)
      | DismissStep(_) | BuildDone(_) =>
      if BuildAt(s, step.h) then NextBuild(s, step) else Disabled
    case StatusSync(_) | ReceiveClosed(_) | ContextDone(_) | StatusGivesUp(_) | Lookup(_) | StatusDone(_) =>
      if StatusAt(s, step.g) then NextStatus(s, step) else Disabled
  }

  function NextBuild(s: State, step: Step): Outcome
    requires step.BuilderFails? || step.Register? || step.BuildSync? || step.SendOnClosed? || step.CloseStep?
          || step.BuildReturns? || step.DismissStep? || step.BuildDone?
    requires BuildAt(s, step.h)
  {
    var call := s.calls[step.h];
    match step
    case BuilderFails(h) =>
      if call.build.Arrived? then Go(s.(calls := s.calls - {h})) else Disabled
    case Register(h) =>
      if !call.build.Arrived? then Disabled
      else if Enroll(s.tables, call.id, call.entity).None? then Go(s.(calls := s.calls - {h}))
      else Go(BuildTo(s, h, Registered).(tables := Enroll(s.tables, call.id, call.entity).value,
                                         registered := s.registered + {call.id}))
    case BuildSync(h) =>
      if !call.build.Registered? then Disabled
      else var (c, ch) := Sync(s.starts, call.id); Go(BuildTo(s, h, Sending(ch)).(starts := c))
    case SendOnClosed(h) =>
      if call.build.Sending? && call.build.ch in s.starts.closed then Panic else Disabled
    case CloseStep(h) =>
      if !call.build.Sent? then Disabled
      else if CloseStart(s.starts, call.id).None? then Panic
      else Go(BuildTo(s, h, Running).(starts := CloseStart(s.starts, call.id).value))
    case BuildReturns(h) =>
      if call.build.Running? then Go(BuildTo(s, h, Finished)) else Disabled
    case DismissStep(h) =>
      if !call.build.Finished? then Disabled
      else if Dismiss(s.tables, call.id).None? then Panic
      else Go(BuildTo(s, h, Unregistered).(tables := Dismiss(s.tables, call.id).value))
    case BuildDone(h) =>
      if !call.build.Unregistered? then Disabled
      else Go(s.(starts := DeleteStatus(s.starts, call.id), calls := s.calls - {h}))
  }

  function NextStatus(s: State, step: Step): Outcome
    requires step.StatusSync? || step.ReceiveClosed? || step.ContextDone? || step.StatusGivesUp?
          || step.Lookup? || step.StatusDone?
    requires StatusAt(s, step.g)
  {
    var call := s.calls[step.g];
    match step
    case StatusSync(g) =>
      if !call.look.Asked? then Disabled
      else var (c, ch) := Sync(s.starts, call.id); Go(StatusTo(s, g, Waiting(ch)).(starts := c))
    case ReceiveClosed(g) =>
      if call.look.Waiting? && call.look.ch in s.starts.closed then Go(StatusTo(s, g, Passed)) else Disabled
    case ContextDone(g) =>
      if call.look.Waiting? then Go(StatusTo(s, g, Cancelled(call.look.ch))) else Disabled
    case StatusGivesUp(g) =>
      if !call.look.Cancelled? then Disabled
      else Go(s.(starts := DeleteStatus(s.starts, call.id), calls := s.calls - {g}))
    case Lookup(g) =>
      if !call.look.Passed? then Disabled
      else if call.id in s.tables.builders then Go(StatusTo(s, g, Streaming))
      else Go(s.(calls := s.calls - {g}))
    case StatusDone(g) =>
      if call.look.Streaming? then Go(s.(calls := s.calls - {g})) else Disabled
  }

  /** The run that takes the given steps in order. */
  function Exec(s: State, steps: seq<Step>): Outcome
    decreases |steps|
  {
    if steps == [] then Go(s)
    else match Next(s, steps[0])
         case Go(t) => Exec(t, steps[1..])
         case Disabled => Disabled
         case Panic => Panic
  }

  /** No two live Build calls carry the same build ID. Any number of Status calls may. */
  ghost predicate Exclusive(s: State) {
    forall h, k :: BuildAt(s, h) && BuildAt(s, k) && s.calls[h].id == s.calls[k].id ==> h == k
  }

  /** The callers' side of the contract: build IDs of simultaneously live Build calls differ, all along the run. */
  ghost predicate ExclusiveRun(s: State, steps: seq<Step>)
    decreases |steps|
  {
    Exclusive(s) &&
    (steps != [] && Next(s, steps[0]).Go? ==> ExclusiveRun(Next(s, steps[0]).s, steps[1..]))
  }

  // ---------- the invariant ----------

  /** The phases in which a Build call's builder is in the map. */
  predicate Holds(c: Call) {
    c.BuildCall? && !c.build.Arrived? && !c.build.Unregistered?
  }

  ghost predicate Inverse(t: Tables) {
    && (forall id :: id in t.builders ==> t.builders[id] in t.entities && t.entities[t.builders[id]] == id)
    && (forall e :: e in t.entities ==> t.entities[e] in t.builders && t.builders[t.entities[e]] == e)
  }

  /** Calls that hold a builder and builders in the map correspond. */
  ghost predicate HeldInv(s: State) {
    forall h :: h in s.calls && Holds(s.calls[h]) ==>
      s.calls[h].id in s.tables.builders && s.tables.builders[s.calls[h].id] == s.calls[h].entity
      && s.calls[h].id in s.registered
  }

  ghost predicate HolderInv(s: State) {
    forall id :: id in s.tables.builders ==> exists h :: h in s.calls && Holds(s.calls[h]) && s.calls[h].id == id
  }

  ghost predicate TablesInv(s: State) {
    Inverse(s.tables) && HeldInv(s) && HolderInv(s)
  }

  /** Channel c exists and was made for `id`. */
  predicate Owned(c: Starts, ch: ChanId, id: BuildId) {
    ch < |c.owner| && c.owner[ch] == id
  }

  ghost predicate EntriesOwned(s: State) {
    && (forall id :: id in s.starts.status ==> Owned(s.starts, s.starts.status[id], id))
    && (forall c :: c in s.starts.closed ==> c < |s.starts.owner|)
  }

  ghost predicate SendersOwned(s: State) {
    forall h :: BuildAt(s, h) && s.calls[h].build.Sending? ==> Owned(s.starts, s.calls[h].build.ch, s.calls[h].id)
  }

  ghost predicate WaitersOwned(s: State) {
    forall g :: StatusAt(s, g) && s.calls[g].look.Waiting? ==> Owned(s.starts, s.calls[g].look.ch, s.calls[g].id)
  }

  /** Every channel a handler holds, or the map points to, was made for that build ID. */
  ghost predicate OwnersInv(s: State) {
    EntriesOwned(s) && SendersOwned(s) && WaitersOwned(s)
  }

  /** A Build call that has closed its start channel and has not yet deleted the status entry. */
  predicate PastClose(c: Call) {
    c.BuildCall? && (c.build.Running? || c.build.Finished? || c.build.Unregistered?)
  }

  ghost predicate SendingOpen(s: State) {
    forall h :: BuildAt(s, h) && s.calls[h].build.Sending? ==> s.calls[h].build.ch !in s.starts.closed
  }

  ghost predicate CloserInv(s: State) {
    forall id :: id in s.starts.status && s.starts.status[id] in s.starts.closed ==>
      exists h :: h in s.calls && PastClose(s.calls[h]) && s.calls[h].id == id
  }

  /** Closed channels, and Status calls past their wait, belong to IDs whose builder has been registered. */
  ghost predicate PassedInv(s: State) {
    && (forall c :: c in s.starts.closed && c < |s.starts.owner| ==> s.starts.owner[c] in s.registered)
    && (forall g :: StatusAt(s, g) && (s.calls[g].look.Passed? || s.calls[g].look.Streaming?) ==>
          s.calls[g].id in s.registered)
  }

  ghost predicate ClosedInv(s: State) {
    SendingOpen(s) && CloserInv(s) && PassedInv(s)
  }

  /** Someone live will still delete the status entry of `id`. */
  predicate WillDelete(c: Call, id: BuildId, ch: ChanId) {
    c.id == id &&
    match c
    case BuildCall(_, _, p) => !p.Arrived?
    case StatusCall(_, p) => p == Waiting(ch) || p == Cancelled(ch)
  }

  ghost predicate StatusInv(s: State) {
    forall id :: id in s.starts.status ==>
      exists h :: h in s.calls && WillDelete(s.calls[h], id, s.starts.status[id])
  }

  ghost predicate Inv(s: State) {
    TablesInv(s) && OwnersInv(s) && ClosedInv(s) && StatusInv(s)
  }

  /** The three ways to panic: a send on a closed channel, a second close, a builder that is not in the map. */
  predicate PanicCause(s: State, step: Step) {
    || (step.SendOnClosed? && BuildAt(s, step.h) && s.calls[step.h].build.Sending?
        && s.calls[step.h].build.ch in s.starts.closed)
    || (step.CloseStep? && BuildAt(s, step.h) && s.calls[step.h].build.Sent?
        && s.calls[step.h].id in s.starts.status && s.starts.status[s.calls[step.h].id] in s.starts.closed)
    || (step.DismissStep? && BuildAt(s, step.h) && s.calls[step.h].build.Finished?
        && s.calls[step.h].id !in s.tables.builders)
  }

  lemma {:induction false} PanicIff(s: State, step: Step)
    ensures Next(s, step) == Panic <==> PanicCause(s, step)
  {
  }

  lemma {:induction false} NoPanic(s: State, step: Step)
    requires Inv(s) && Exclusive(s)
    ensures Next(s, step) != Panic
  {
    PanicIff(s, step);
    hide Next;
    if step.CloseStep? && BuildAt(s, step.h) && s.calls[step.h].build.Sent? {
      assert forall k :: BuildAt(s, k) && s.calls[k].id == s.calls[step.h].id ==> k == step.h;
      assert !PanicCause(s, step);
    }
  }

  /** Changing one call's phase moves it forward and keeps its ID; all other calls stay as they are. */
  lemma {:induction false} CallsMove(s: State, step: Step, h: CallId)
    requires Next(s, step).Go? && h in s.calls
    ensures var t := Next(s, step).s;
      h in t.calls ==> t.calls[h].id == s.calls[h].id && t.calls[h].BuildCall? == s.calls[h].BuildCall?
                       && (Holds(s.calls[h]) && !Holds(t.calls[h]) ==> step == DismissStep(h))
                       && (PastClose(s.calls[h]) ==> PastClose(t.calls[h]))
    ensures h !in Next(s, step).s.calls && Holds(s.calls[h]) ==> false
    ensures h !in Next(s, step).s.calls && PastClose(s.calls[h]) ==> step == BuildDone(h)
  {
  }

  /** A builder in the map after a step still has a live Build call behind it. */
  lemma {:induction false} HolderKept(s: State, step: Step, id: BuildId)
    requires TablesInv(s) && Exclusive(s) && Next(s, step).Go? && id in Next(s, step).s.tables.builders
    ensures var t := Next(s, step).s; exists h :: h in t.calls && Holds(t.calls[h]) && t.calls[h].id == id
  {
    var t := Next(s, step).s;
    if id in s.tables.builders {
      var h :| h in s.calls && Holds(s.calls[h]) && s.calls[h].id == id;
      HolderStays(s, step, h);
      hide Next;
    } else {
      hide HeldInv, HolderInv, Inverse, Exclusive;
      NewHolder(s, step, id);
    }
  }

  lemma {:induction false} HolderStays(s: State, step: Step, h: CallId)
    requires Next(s, step).Go? && h in s.calls && Holds(s.calls[h]) && s.calls[h].id in Next(s, step).s.tables.builders
    ensures var t := Next(s, step).s; h in t.calls && Holds(t.calls[h]) && t.calls[h].id == s.calls[h].id
  {
    if StatusKind(step) {
      StatusFrame(s, step);
      hide Next;
    } else {
      hide NextStatus, Enroll;
    }
  }

  /** A new entry is that of the Build that just registered. */
  lemma {:induction false} NewHolder(s: State, step: Step, id: BuildId)
    requires Next(s, step).Go? && id in Next(s, step).s.tables.builders && id !in s.tables.builders
    ensures var t := Next(s, step).s; exists h :: h in t.calls && Holds(t.calls[h]) && t.calls[h].id == id
  {
    if StatusKind(step) {
      StatusFrame(s, step);
      hide Next;
    } else {
      hide NextStatus;
      assert step.Register?;
      assert step.h in Next(s, step).s.calls;
    }
  }

  lemma {:induction false} InverseKept(s: State, step: Step)
    requires TablesInv(s) && Exclusive(s) && Next(s, step).Go?
    ensures Inverse(Next(s, step).s.tables)
  {
    hide Inverse, Enroll, Dismiss;
    if StatusKind(step) {
      StatusFrame(s, step);
      hide Next;
    } else {
      hide NextStatus;
      if step.Register? {
        IdUnused(s, step.h);
        EnrollInverse(s.tables, s.calls[step.h].id, s.calls[step.h].entity);
      } else if step.DismissStep? {
        DismissInverse(s.tables, s.calls[step.h].id);
      }
    }
  }

  /** The ID of a Build call that has just arrived is not in the builders map. */
  lemma {:induction false} IdUnused(s: State, h: CallId)
    requires HolderInv(s) && Exclusive(s) && BuildAt(s, h) && s.calls[h].build.Arrived?
    ensures s.calls[h].id !in s.tables.builders
  {
  }

  lemma {:induction false} EnrollInverse(t: Tables, id: BuildId, e: EntityId)
    requires Inverse(t) && id !in t.builders
    ensures Enroll(t, id, e).Some? ==> Inverse(Enroll(t, id, e).value)
  {
  }

  lemma {:induction false} DismissInverse(t: Tables, id: BuildId)
    requires Inverse(t) && Dismiss(t, id).Some?
    ensures Inverse(Dismiss(t, id).value)
  {
  }

  predicate StatusKind(step: Step) {
    step.StatusArrives? || step.StatusSync? || step.ReceiveClosed? || step.ContextDone? || step.StatusGivesUp?
    || step.Lookup? || step.StatusDone?
  }

  /** The steps of a Status call leave the builders and the Build calls alone. */
  lemma {:induction false} StatusFrame(s: State, step: Step)
    requires StatusKind(step) && Next(s, step).Go?
    ensures var t := Next(s, step).s;
      && t.tables == s.tables && t.registered == s.registered
      && (forall h :: BuildAt(s, h) <==> BuildAt(t, h))
      && (forall h :: BuildAt(t, h) ==> t.calls[h] == s.calls[h])
  {
    hide NextBuild;
  }

  lemma {:induction false} HeldKept(s: State, step: Step)
    requires HeldInv(s) && Exclusive(s) && Next(s, step).Go?
    ensures HeldInv(Next(s, step).s)
  {
    if StatusKind(step) {
      StatusFrame(s, step);
      hide Next;
      assert forall h :: h in Next(s, step).s.calls && Holds(Next(s, step).s.calls[h]) ==> BuildAt(s, h);
    } else {
      hide NextStatus;
    }
  }

  lemma {:induction false} TablesKept(s: State, step: Step)
    requires TablesInv(s) && Exclusive(s) && Next(s, step).Go?
    ensures TablesInv(Next(s, step).s)
  {
    InverseKept(s, step);
    HeldKept(s, step);
    forall id | id in Next(s, step).s.tables.builders {
      HolderKept(s, step, id);
    }
  }

  lemma {:induction false} EntriesKept(s: State, step: Step)
    requires EntriesOwned(s) && Next(s, step).Go?
    ensures EntriesOwned(Next(s, step).s)
    ensures s.starts.owner <= Next(s, step).s.starts.owner
  {
  }

  lemma {:induction false} SendersKept(s: State, step: Step)
    requires EntriesOwned(s) && SendersOwned(s) && Next(s, step).Go?
    ensures SendersOwned(Next(s, step).s)
  {
    EntriesKept(s, step);
  }

  lemma {:induction false} WaitersKept(s: State, step: Step)
    requires EntriesOwned(s) && WaitersOwned(s) && Next(s, step).Go?
    ensures WaitersOwned(Next(s, step).s)
  {
    EntriesKept(s, step);
    if StatusKind(step) {
      hide NextBuild;
    } else {
      hide NextStatus;
    }
  }

  lemma {:induction false} OwnersKept(s: State, step: Step)
    requires OwnersInv(s) && Next(s, step).Go?
    ensures OwnersInv(Next(s, step).s)
  {
    EntriesKept(s, step);
    SendersKept(s, step);
    WaitersKept(s, step);
  }

  /** A closed channel in the status map after a step still belongs to a Build call that is past its close. */
  lemma {:induction false} CloserKept(s: State, step: Step, id: BuildId)
    requires OwnersInv(s) && ClosedInv(s) && Exclusive(s) && Next(s, step).Go?
    requires var c := Next(s, step).s.starts; id in c.status && c.status[id] in c.closed
    ensures var t := Next(s, step).s; exists h :: h in t.calls && PastClose(t.calls[h]) && t.calls[h].id == id
  {
    var t := Next(s, step).s;
    if id in s.starts.status && s.starts.status[id] in s.starts.closed {
      var h :| h in s.calls && PastClose(s.calls[h]) && s.calls[h].id == id;
      CallsMove(s, step, h);
      assert h in t.calls && t.calls[h].id == id;
      assert PastClose(t.calls[h]);
    } else {
      assert PastClose(t.calls[step.h]);
    }
  }

  lemma {:induction false} SendingKept(s: State, step: Step)
    requires OwnersInv(s) && SendingOpen(s) && CloserInv(s) && Exclusive(s) && Next(s, step).Go?
    ensures SendingOpen(Next(s, step).s)
  {
  }

  lemma {:induction false} PassedKept(s: State, step: Step)
    requires HeldInv(s) && OwnersInv(s) && PassedInv(s) && Next(s, step).Go?
    ensures PassedInv(Next(s, step).s)
  {
    hide Dismiss;
    if StatusKind(step) {
      hide NextBuild;
    } else {
      hide NextStatus;
    }
  }

  lemma {:induction false} ClosedKept(s: State, step: Step)
    requires TablesInv(s) && OwnersInv(s) && ClosedInv(s) && Exclusive(s) && Next(s, step).Go?
    ensures ClosedInv(Next(s, step).s)
  {
    SendingKept(s, step);
    PassedKept(s, step);
    var c := Next(s, step).s.starts;
    forall id | id in c.status && c.status[id] in c.closed {
      CloserKept(s, step, id);
    }
  }

  /** The handler that was going to delete a status entry still is, unless it is a Status that got past its wait. */
  lemma {:induction false} DeleterMoves(s: State, step: Step, id: BuildId, h: CallId)
    requires Next(s, step).Go? && id in s.starts.status && id in Next(s, step).s.starts.status
    requires h in s.calls && WillDelete(s.calls[h], id, s.starts.status[id])
    ensures var t := Next(s, step).s; t.starts.status[id] == s.starts.status[id]
    ensures var t := Next(s, step).s;
      || (h in t.calls && WillDelete(t.calls[h], id, t.starts.status[id]))
      || (step == ReceiveClosed(h) && s.starts.status[id] in s.starts.closed)
      || (step.Meet? && step.g == h)
  {
  }

  lemma {:induction false} NewEntryKept(s: State, step: Step, id: BuildId)
    requires Next(s, step).Go? && id !in s.starts.status && id in Next(s, step).s.starts.status
    ensures var t := Next(s, step).s;
      exists h :: h in t.calls && WillDelete(t.calls[h], id, t.starts.status[id])
  {
    var t := Next(s, step).s;
    if step.BuildSync? {
      assert WillDelete(t.calls[step.h], id, t.starts.status[id]);
    } else {
      assert WillDelete(t.calls[step.g], id, t.starts.status[id]);
    }
  }

  /** A status entry after a step still has a live handler that will delete it. */
  lemma {:induction false} DeleterKept(s: State, step: Step, id: BuildId)
    requires OwnersInv(s) && CloserInv(s) && StatusInv(s) && Next(s, step).Go? && id in Next(s, step).s.starts.status
    ensures var t := Next(s, step).s;
      exists h :: h in t.calls && WillDelete(t.calls[h], id, t.starts.status[id])
  {
    var t := Next(s, step).s;
    if id in s.starts.status {
      var h :| h in s.calls && WillDelete(s.calls[h], id, s.starts.status[id]);
      DeleterMoves(s, step, id, h);
      if step.Meet? && step.g == h {
        assert WillDelete(t.calls[step.h], id, t.starts.status[id]);
      } else if step == ReceiveClosed(h) {
        var k :| k in s.calls && PastClose(s.calls[k]) && s.calls[k].id == id;
        assert WillDelete(t.calls[k], id, t.starts.status[id]);
      }
    } else {
      NewEntryKept(s, step, id);
    }
  }

  lemma {:induction false} StatusKept(s: State, step: Step)
    requires OwnersInv(s) && ClosedInv(s) && StatusInv(s) && Next(s, step).Go?
    ensures StatusInv(Next(s, step).s)
  {
    var t := Next(s, step).s;
    forall id | id in t.starts.status
      ensures exists h :: h in t.calls && WillDelete(t.calls[h], id, t.starts.status[id])
    {
      DeleterKept(s, step, id);
    }
  }

  // ---------- every run ----------

  lemma {:induction false} RunsAreSafe(s: State, steps: seq<Step>)
    requires Inv(s) && ExclusiveRun(s, steps)
    ensures Exec(s, steps) != Panic
    ensures Exec(s, steps).Go? ==> Inv(Exec(s, steps).s) && Exclusive(Exec(s, steps).s)
    decreases |steps|
  {
    if steps != [] {
      NoPanic(s, steps[0]);
      if Next(s, steps[0]).Go? {
        TablesKept(s, steps[0]);
        OwnersKept(s, steps[0]);
        ClosedKept(s, steps[0]);
        StatusKept(s, steps[0]);
        RunsAreSafe(Next(s, steps[0]).s, steps[1..]);
      }
    }
  }

  /** No start channel is closed twice or sent on after its close, and no nil builder is dismissed. */
  lemma {:induction false} NoRunPanics(steps: seq<Step>)
    requires ExclusiveRun(Init, steps)
    ensures Exec(Init, steps) != Panic
  {
    RunsAreSafe(Init, steps);
  }

  /** Once no handler is live, all three maps are empty. */
  lemma {:induction false} NoLeftovers(steps: seq<Step>)
    requires ExclusiveRun(Init, steps) && Exec(Init, steps).Go?
    ensures var t := Exec(Init, steps).s;
      t.calls == map[] ==> t.tables == Tables(map[], map[]) && t.starts.status == map[]
  {
    RunsAreSafe(Init, steps);
    var t := Exec(Init, steps).s;
    if t.calls == map[] {
      assert forall id :: id !in t.tables.builders;
      assert forall e :: e !in t.tables.entities;
      assert forall id :: id !in t.starts.status;
    }
  }

  /** A status entry outlives every Build of its ID only while some Status of that ID is still waiting on it. */
  lemma {:induction false} StatusEntriesHaveWaiters(steps: seq<Step>, id: BuildId)
    requires ExclusiveRun(Init, steps) && Exec(Init, steps).Go?
    requires var t := Exec(Init, steps).s;
      id in t.starts.status && forall h :: BuildAt(t, h) ==> t.calls[h].id != id
    ensures var t := Exec(Init, steps).s;
      exists g :: StatusAt(t, g) && t.calls[g].id == id
                  && (t.calls[g].look == Waiting(t.starts.status[id]) || t.calls[g].look == Cancelled(t.starts.status[id]))
  {
    RunsAreSafe(Init, steps);
    var t := Exec(Init, steps).s;
    var h :| h in t.calls && WillDelete(t.calls[h], id, t.starts.status[id]);
    assert StatusAt(t, h);
  }

  /** At most one live build per entity, and the two maps index each other. */
  lemma {:induction false} EntityExclusion(steps: seq<Step>)
    requires ExclusiveRun(Init, steps) && Exec(Init, steps).Go?
    ensures var t := Exec(Init, steps).s;
      && Inverse(t.tables)
      && forall h, k :: h in t.calls && k in t.calls && Holds(t.calls[h]) && Holds(t.calls[k]) ==>
           t.calls[h].entity == t.calls[k].entity ==> h == k
  {
    RunsAreSafe(Init, steps);
    var t := Exec(Init, steps).s;
    forall h, k | h in t.calls && k in t.calls && Holds(t.calls[h]) && Holds(t.calls[k])
                  && t.calls[h].entity == t.calls[k].entity
      ensures h == k
    {
      assert t.tables.entities[t.calls[h].entity] == t.calls[h].id == t.calls[k].id;
    }
  }

  /** The reaper acts exactly when no Build call is between its registration and its deletion. */
  lemma {:induction false} ReaperWaits(steps: seq<Step>)
    requires ExclusiveRun(Init, steps) && Exec(Init, steps).Go?
    ensures var t := Exec(Init, steps).s;
      ReaperActs(t.tables) <==> forall h :: h in t.calls ==> !Holds(t.calls[h])
  {
    RunsAreSafe(Init, steps);
    var t := Exec(Init, steps).s;
    if forall h :: h in t.calls ==> !Holds(t.calls[h]) {
      assert forall id :: id !in t.tables.builders;
    }
  }

  /** The history variable tells the truth: a registered ID was in the builders map at some earlier point. */
  lemma {:induction false} RegisteredEarlier(s: State, steps: seq<Step>, id: BuildId) returns (k: nat)
    requires Exec(s, steps).Go? && id in Exec(s, steps).s.registered && id !in s.registered
    ensures k <= |steps| && Exec(s, steps[..k]).Go? && id in Exec(s, steps[..k]).s.tables.builders
    decreases |steps|
  {
    var t := Next(s, steps[0]).s;
    if id in t.registered {
      k := 1;
      assert steps[..1][1..] == [];
    } else {
      k := RegisteredEarlier(t, steps[1..], id);
      k := k + 1;
      assert steps[..k][1..] == steps[1..][..k - 1];
    }
  }

  /** A Status call gets past its wait only after a Build of that ID put its builder in the map. */
  lemma {:induction false} StatusWaitsForBuild(steps: seq<Step>, g: CallId) returns (k: nat)
    requires ExclusiveRun(Init, steps) && Exec(Init, steps).Go?
    requires var t := Exec(Init, steps).s;
      StatusAt(t, g) && (t.calls[g].look.Passed? || t.calls[g].look.Streaming?)
    ensures k <= |steps| && Exec(Init, steps[..k]).Go?
    ensures Exec(Init, steps).s.calls[g].id in Exec(Init, steps[..k]).s.tables.builders
  {
    RunsAreSafe(Init, steps);
    k := RegisteredEarlier(Init, steps, Exec(Init, steps).s.calls[g].id);
  }

  // ---------- why build IDs must not overlap ----------

  /** Some schedule from here on panics. */
  ghost predicate CanPanic(s: State) { exists steps :: Exec(s, steps) == Panic }

  lemma {:induction false} PanicNow(s: State, step: Step)
    requires Next(s, step).Panic?
    ensures CanPanic(s)
  {
    hide Next;
    assert Exec(s, [step]) == Panic;
  }

  lemma {:induction false} PanicLater(s: State, step: Step)
    requires Next(s, step).Go? && CanPanic(Next(s, step).s)
    ensures CanPanic(s)
  {
    hide Next;
    var rest :| Exec(Next(s, step).s, rest) == Panic;
    assert ([step] + rest)[1..] == rest;
    assert Exec(s, [step] + rest) == Panic;
  }

  /** Two live Build calls carry one ID. */
  predicate Overlap(s: State, h: CallId, k: CallId) {
    BuildAt(s, h) && BuildAt(s, k) && h != k && s.calls[h].id == s.calls[k].id
  }

  /** A build whose builder is no longer in the map panics when it ends. */
  lemma {:induction false} OrphanEnds(s: State, h: CallId)
    requires BuildAt(s, h) && s.calls[h].build.Running? && s.calls[h].id !in s.tables.builders
    ensures CanPanic(s)
  {
    hide NextStatus;
    var t := Next(s, BuildReturns(h)).s;
    PanicNow(t, DismissStep(h));
    PanicLater(s, BuildReturns(h));
  }

  /** Two running builds under one ID: whichever ends last dismisses a builder that is no longer there. */
  lemma {:induction false} TwoRunningPanic(s: State, h: CallId, k: CallId)
    requires Overlap(s, h, k) && s.calls[h].build.Running? && s.calls[k].build.Running?
    requires s.calls[k].id in s.tables.builders
    ensures CanPanic(s)
  {
    hide NextStatus, CanPanic;
    var t := Next(s, BuildReturns(k)).s;
    var u := Next(t, DismissStep(k)).s;
    OrphanEnds(u, h);
    PanicLater(t, DismissStep(k));
    PanicLater(s, BuildReturns(k));
  }

  /** What a running build h, or none, does with a build k that has been received: k closes its channel and runs. */
  lemma {:induction false} SentPanics(s: State, h: CallId, k: CallId)
    requires BuildAt(s, k) && s.calls[k].build.Sent?
    requires s.calls[k].id !in s.tables.builders || (Overlap(s, h, k) && s.calls[h].build.Running?)
    ensures CanPanic(s)
  {
    hide NextStatus, CanPanic;
    if Next(s, CloseStep(k)).Panic? {
      PanicNow(s, CloseStep(k));
    } else {
      var t := Next(s, CloseStep(k)).s;
      if s.calls[k].id in s.tables.builders { TwoRunningPanic(t, h, k); } else { OrphanEnds(t, k); }
      PanicLater(s, CloseStep(k));
    }
  }

  /** A new Status call g takes what build k sends. */
  lemma {:induction false} Received(s: State, k: CallId, g: CallId)
    requires BuildAt(s, k) && g !in s.calls && s.calls[k].build.Sending? && s.calls[k].build.ch !in s.starts.closed
    requires s.calls[k].id in s.starts.status && s.starts.status[s.calls[k].id] == s.calls[k].build.ch
    requires CanPanic(BuildTo(s, k, Sent).(calls := BuildTo(s, k, Sent).calls[g := StatusCall(s.calls[k].id, Passed)]))
    ensures CanPanic(s)
  {
    hide CanPanic;
    var id := s.calls[k].id;
    var t := Next(s, StatusArrives(g, id)).s;
    var u := Next(t, StatusSync(g)).s;
    var v := Next(u, Meet(k, g)).s;
    assert v == BuildTo(s, k, Sent).(calls := BuildTo(s, k, Sent).calls[g := StatusCall(id, Passed)]);
    PanicLater(u, Meet(k, g));
    PanicLater(t, StatusSync(g));
    PanicLater(s, StatusArrives(g, id));
  }

  lemma {:induction false} SendingPanics(s: State, h: CallId, k: CallId, g: CallId)
    requires BuildAt(s, k) && g !in s.calls && s.calls[k].build.Sending?
    requires s.calls[k].id in s.starts.status && s.starts.status[s.calls[k].id] == s.calls[k].build.ch
    requires s.calls[k].id !in s.tables.builders || (Overlap(s, h, k) && s.calls[h].build.Running?)
    ensures CanPanic(s)
  {
    hide CanPanic, NextStatus;
    if s.calls[k].build.ch in s.starts.closed {
      PanicNow(s, SendOnClosed(k));
    } else {
      hide Next;
      var id := s.calls[k].id;
      SentPanics(BuildTo(s, k, Sent).(calls := BuildTo(s, k, Sent).calls[g := StatusCall(id, Passed)]), h, k);
      Received(s, k, g);
    }
  }

  lemma {:induction false} RegisteredPanics(s: State, h: CallId, k: CallId, g: CallId)
    requires BuildAt(s, k) && g !in s.calls && s.calls[k].build.Registered?
    requires s.calls[k].id !in s.tables.builders || (Overlap(s, h, k) && s.calls[h].build.Running?)
    ensures CanPanic(s)
  {
    hide CanPanic, NextStatus;
    SendingPanics(Next(s, BuildSync(k)).s, h, k, g);
    PanicLater(s, BuildSync(k));
  }

  /** The second build arrives while the first is running: it registers, overwriting the entry, and goes on. */
  lemma {:induction false} OverlapRunning(s: State, h: CallId, k: CallId, g: CallId)
    requires Overlap(s, h, k) && g !in s.calls && s.calls[k].build.Arrived? && s.calls[k].entity !in s.tables.entities
    requires s.calls[h].build.Running?
    ensures CanPanic(s)
  {
    hide CanPanic, NextStatus;
    RegisteredPanics(Next(s, Register(k)).s, h, k, g);
    PanicLater(s, Register(k));
  }

  /** Or when the first has finished: its dismissal takes the entry of the second. */
  lemma {:induction false} OverlapFinished(s: State, h: CallId, k: CallId, g: CallId)
    requires Overlap(s, h, k) && g !in s.calls && s.calls[k].build.Arrived? && s.calls[k].entity !in s.tables.entities
    requires s.calls[h].build.Finished?
    ensures CanPanic(s)
  {
    hide CanPanic, NextStatus;
    var t := Next(s, Register(k)).s;
    var u := Next(t, DismissStep(h)).s;
    assert s.calls[k].id !in u.tables.builders;
    hide NextBuild, Next;
    RegisteredPanics(u, h, k, g);
    PanicLater(t, DismissStep(h));
    PanicLater(s, Register(k));
  }

  /** Or while the first is on its way: it goes on until it runs. */
  lemma {:induction false} OverlapSent(s: State, h: CallId, k: CallId, g: CallId)
    requires Overlap(s, h, k) && g !in s.calls && s.calls[k].build.Arrived? && s.calls[k].entity !in s.tables.entities
    requires s.calls[h].build.Sent?
    ensures CanPanic(s)
  {
    hide CanPanic, NextStatus;
    if Next(s, CloseStep(h)).Panic? {
      PanicNow(s, CloseStep(h));
    } else {
      OverlapRunning(Next(s, CloseStep(h)).s, h, k, g);
      PanicLater(s, CloseStep(h));
    }
  }

  lemma {:induction false} OverlapSending(s: State, h: CallId, k: CallId, f: CallId, g: CallId)
    requires Overlap(s, h, k) && f !in s.calls && g !in s.calls && f != g
    requires s.calls[k].build.Arrived? && s.calls[k].entity !in s.tables.entities
    requires s.calls[h].build.Sending? && s.calls[h].id in s.starts.status
    requires s.starts.status[s.calls[h].id] == s.calls[h].build.ch
    ensures CanPanic(s)
  {
    hide CanPanic, NextStatus;
    if s.calls[h].build.ch in s.starts.closed {
      PanicNow(s, SendOnClosed(h));
    } else {
      hide Next;
      var id := s.calls[h].id;
      OverlapSent(BuildTo(s, h, Sent).(calls := BuildTo(s, h, Sent).calls[f := StatusCall(id, Passed)]), h, k, g);
      Received(s, h, f);
    }
  }

  lemma {:induction false} OverlapRegistered(s: State, h: CallId, k: CallId, f: CallId, g: CallId)
    requires Overlap(s, h, k) && f !in s.calls && g !in s.calls && f != g
    requires s.calls[k].build.Arrived? && s.calls[k].entity !in s.tables.entities && s.calls[h].build.Registered?
    ensures CanPanic(s)
  {
    hide CanPanic, NextStatus;
    OverlapSending(Next(s, BuildSync(h)).s, h, k, f, g);
    PanicLater(s, BuildSync(h));
  }

  lemma {:induction false} OverlapArrived(s: State, h: CallId, k: CallId, f: CallId, g: CallId)
    requires Overlap(s, h, k) && f !in s.calls && g !in s.calls && f != g && s.calls[h].build.Arrived?
    requires s.calls[k].build.Arrived? && s.calls[k].entity !in s.tables.entities
    requires s.calls[h].entity !in s.tables.entities && s.calls[h].entity != s.calls[k].entity
    ensures CanPanic(s)
  {
    hide CanPanic, NextStatus;
    OverlapRegistered(Next(s, Register(h)).s, h, k, f, g);
    PanicLater(s, Register(h));
  }

  /** The first build can still get on: it can register, or what it sends can be received. */
  predicate GetsOn(s: State, h: CallId, k: CallId)
    requires Overlap(s, h, k)
  {
    match s.calls[h].build
    case Arrived => s.calls[h].entity !in s.tables.entities && s.calls[h].entity != s.calls[k].entity
    case Sending(ch) => s.calls[h].id in s.starts.status && s.starts.status[s.calls[h].id] == ch
    case Unregistered => s.calls[h].id in s.starts.status && s.starts.status[s.calls[h].id] in s.starts.closed
    case _ => true
  }

  /**
  A second Build k that arrives under the ID of a live one, for an entity of its own, can be scheduled into a panic,
  whatever the first one is at, as long as that one can get on. Two more Status calls may be needed for it.
  */
  lemma {:induction false} OverlapCanPanic(s: State, h: CallId, k: CallId, f: CallId, g: CallId)
    requires Overlap(s, h, k) && f !in s.calls && g !in s.calls && f != g
    requires s.calls[k].build.Arrived? && s.calls[k].entity !in s.tables.entities && GetsOn(s, h, k)
    ensures CanPanic(s)
  {
    hide CanPanic, Next;
    match s.calls[h].build
    case Arrived => OverlapArrived(s, h, k, f, g);
    case Registered => OverlapRegistered(s, h, k, f, g);
    case Sending(_) => OverlapSending(s, h, k, f, g);
    case Sent => OverlapSent(s, h, k, g);
    case Running => OverlapRunning(s, h, k, g);
    case Finished => OverlapFinished(s, h, k, g);
    case Unregistered => OverlapSends(s, k);
  }

  /** While the closed channel of an ID is in the status map, a Build under that ID panics as soon as it sends. */
  lemma {:induction false} OverlapSends(s: State, k: CallId)
    requires BuildAt(s, k) && s.calls[k].build.Arrived? && s.calls[k].entity !in s.tables.entities
    requires s.calls[k].id in s.starts.status && s.starts.status[s.calls[k].id] in s.starts.closed
    ensures CanPanic(s)
  {
    hide CanPanic, NextStatus;
    var t := Next(s, Register(k)).s;
    var u := Next(t, BuildSync(k)).s;
    PanicNow(u, SendOnClosed(k));
    PanicLater(t, BuildSync(k));
    PanicLater(s, Register(k));
  }
}
