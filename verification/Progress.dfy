/**
What the Build and Status handlers can still reach: where a Status call goes once it is past its wait, and which calls can
end at all.
*/
module Progress {
  import opened Basics
  import opened Rendezvous

  lemma {:induction false} InvKept(s: State, step: Step)
    requires Inv(s) && Exclusive(s) && Next(s, step).Go?
    ensures Inv(Next(s, step).s)
  {
    hide Next;
    TablesKept(s, step);
    OwnersKept(s, step);
    ClosedKept(s, step);
    StatusKept(s, step);
  }

  /** Build IDs can only clash when a Build arrives. */
  lemma {:induction false} ExclusiveKept(s: State, step: Step)
    requires Exclusive(s) && Next(s, step).Go? && !step.BuildArrives?
    ensures Exclusive(Next(s, step).s)
  {
    var t := Next(s, step).s;
    forall h | BuildAt(t, h) ensures BuildAt(s, h) && t.calls[h].id == s.calls[h].id { }
  }

  // ---------- who is who ----------

  /** The two calls are of one kind and carry the same names. */
  predicate SameCall(a: Call, b: Call) {
    a.BuildCall? == b.BuildCall? && a.id == b.id && (a.BuildCall? ==> a.entity == b.entity)
  }

  /** The step is the arrival of the call. */
  predicate Arrival(step: Step, h: CallId, c: Call) {
    if c.BuildCall? then step == BuildArrives(h, c.id, c.entity) else step == StatusArrives(h, c.id)
  }

  lemma {:induction false} CallStep(s: State, step: Step, h: CallId)
    requires Next(s, step).Go? && h in Next(s, step).s.calls
    ensures (h in s.calls && SameCall(s.calls[h], Next(s, step).s.calls[h])) || Arrival(step, h, Next(s, step).s.calls[h])
  {
  }

  /** A live call was there from the start or has arrived in the run, under the names it carries. */
  lemma {:induction false} ArrivedAs(s: State, steps: seq<Step>, h: CallId)
    requires Exec(s, steps).Go? && h in Exec(s, steps).s.calls
    ensures var c := Exec(s, steps).s.calls[h];
      (h in s.calls && SameCall(s.calls[h], c)) || exists k :: 0 <= k < |steps| && Arrival(steps[k], h, c)
    decreases |steps|
  {
    hide Next, SameCall, Arrival;
    var c := Exec(s, steps).s.calls[h];
    if steps == [] {
      SameItself(c);
    } else {
      var t := Next(s, steps[0]).s;
      ArrivedAs(t, steps[1..], h);
      if k :| 0 <= k < |steps[1..]| && Arrival(steps[1..][k], h, c) {
        assert Arrival(steps[k + 1], h, c);
      } else {
        CallStep(s, steps[0], h);
        SameAgain(s, steps[0], t.calls[h], c, h);
      }
    }
  }

  lemma {:induction false} SameItself(c: Call)
    ensures SameCall(c, c)
  {
  }

  lemma {:induction false} SameAgain(s: State, step: Step, b: Call, c: Call, h: CallId)
    requires SameCall(b, c)
    ensures h in s.calls && SameCall(s.calls[h], b) ==> SameCall(s.calls[h], c)
    ensures Arrival(step, h, b) ==> Arrival(step, h, c)
  {
  }

  // ---------- after the wait ----------

  /** A live Build call of the ID is between its registration and its deletion. */
  ghost predicate Live(s: State, id: BuildId) {
    exists h :: h in s.calls && Holds(s.calls[h]) && s.calls[h].id == id
  }

  /** Registration: a Build gets on if and only if no live Build holds its entity, and ends otherwise. */
  lemma {:induction false} RegisterIff(steps: seq<Step>, h: CallId)
    requires ExclusiveRun(Init, steps) && Exec(Init, steps).Go?
    requires BuildAt(Exec(Init, steps).s, h) && Exec(Init, steps).s.calls[h].build.Arrived?
    ensures
      var s := Exec(Init, steps).s;
      && Next(s, Register(h)).Go?
      && Next(s, Register(h)).s.calls
         == if Taken(s, s.calls[h].entity) then s.calls - {h} else s.calls[h := BuildCall(s.calls[h].id, s.calls[h].entity, Registered)]
  {
    RunsAreSafe(Init, steps);
    RegisterAt(Exec(Init, steps).s, h);
  }

  ghost predicate Taken(s: State, entity: EntityId) {
    exists k :: k in s.calls && Holds(s.calls[k]) && s.calls[k].entity == entity
  }

  lemma {:induction false} RegisterAt(s: State, h: CallId)
    requires TablesInv(s) && BuildAt(s, h) && s.calls[h].build.Arrived?
    ensures Next(s, Register(h)).Go?
    ensures Next(s, Register(h)).s.calls
         == if Taken(s, s.calls[h].entity) then s.calls - {h}
            else s.calls[h := BuildCall(s.calls[h].id, s.calls[h].entity, Registered)]
  {
    hide NextStatus;
    if s.calls[h].entity in s.tables.entities {
      var id := s.tables.entities[s.calls[h].entity];
      var k :| k in s.calls && Holds(s.calls[k]) && s.calls[k].id == id;
      assert s.calls[k].entity == s.calls[h].entity;
    }
  }

  /** What a Status call finds past its wait: it streams if and only if a Build of its ID is live, and ends otherwise. */
  lemma {:induction false} LookupIff(steps: seq<Step>, g: CallId)
    requires ExclusiveRun(Init, steps) && Exec(Init, steps).Go?
    requires StatusAt(Exec(Init, steps).s, g) && Exec(Init, steps).s.calls[g].look.Passed?
    ensures var s := Exec(Init, steps).s;
      Next(s, Lookup(g)) == Go(if Live(s, s.calls[g].id) then s.(calls := s.calls[g := StatusCall(s.calls[g].id, Streaming)])
                               else s.(calls := s.calls - {g}))
  {
    RunsAreSafe(Init, steps);
    var s := Exec(Init, steps).s;
    hide Exec, ExclusiveRun;
    assert s.calls[g].id in s.tables.builders <==> Live(s, s.calls[g].id);
  }

  /** Build h has sent and still holds its builder; Status g has received and not yet looked it up. */
  predicate Met(s: State, h: CallId, g: CallId) {
    && BuildAt(s, h) && Holds(s.calls[h]) && StatusAt(s, g) && s.calls[g].look.Passed?
    && s.calls[h].id == s.calls[g].id
  }

  lemma {:induction false} MetKept(s: State, step: Step, h: CallId, g: CallId)
    requires Met(s, h, g) && Next(s, step).Go? && step != DismissStep(h) && step != Lookup(g)
    ensures Met(Next(s, step).s, h, g)
  {
  }

  lemma {:induction false} MetThrough(s: State, steps: seq<Step>, h: CallId, g: CallId)
    requires Met(s, h, g) && Exec(s, steps).Go? && DismissStep(h) !in steps && Lookup(g) !in steps
    ensures Met(Exec(s, steps).s, h, g)
    decreases |steps|
  {
    hide Next, Met;
    if steps != [] {
      MetKept(s, steps[0], h, g);
      MetThrough(Next(s, steps[0]).s, steps[1..], h, g);
    }
  }

  /** Whatever happens in between, a Status that a Build met can stream as long as that Build has not been dismissed. */
  lemma {:induction false} MetStatusStreams(s: State, h: CallId, g: CallId, steps: seq<Step>)
    requires Inv(s) && Next(s, Meet(h, g)).Go? && Exec(Next(s, Meet(h, g)).s, steps).Go?
    requires ExclusiveRun(s, [Meet(h, g)] + steps) && DismissStep(h) !in steps && Lookup(g) !in steps
    ensures var t := Exec(Next(s, Meet(h, g)).s, steps).s;
      && StatusAt(t, g) && Next(t, Lookup(g)).Go? && g in Next(t, Lookup(g)).s.calls
      && Next(t, Lookup(g)).s.calls[g] == StatusCall(s.calls[g].id, Streaming)
  {
    var u := Next(s, Meet(h, g)).s;
    assert ([Meet(h, g)] + steps)[1..] == steps;
    MetNow(s, h, g);
    InvKept(s, Meet(h, g));
    hide Next, Inv;
    RunsAreSafe(u, steps);
    MetThrough(u, steps, h, g);
    IdKept(u, steps, g, h);
    MetFound(Exec(u, steps).s, h, g);
  }

  /** A Status that comes while the closed channel of a live Build is in the map does not wait: it gets through to stream. */
  lemma {:induction false} LateStatusStreams(s: State, h: CallId, g: CallId)
    requires Inv(s) && BuildAt(s, h) && Holds(s.calls[h]) && g !in s.calls
    requires s.calls[h].id in s.starts.status && s.starts.status[s.calls[h].id] in s.starts.closed
    ensures
      var steps := [StatusArrives(g, s.calls[h].id)] + ([StatusSync(g)] + ([ReceiveClosed(g)] + ([Lookup(g)] + [])));
      && Exec(s, steps).Go? && g in Exec(s, steps).s.calls
      && Exec(s, steps).s.calls == s.calls[g := StatusCall(s.calls[h].id, Streaming)]
  {
    var id := s.calls[h].id;
    var ch := s.starts.status[id];
    var t := s.(calls := s.calls[g := StatusCall(id, Asked)]);
    var u := s.(calls := s.calls[g := StatusCall(id, Waiting(ch))]);
    var v := s.(calls := s.calls[g := StatusCall(id, Passed)]);
    var w := s.(calls := s.calls[g := StatusCall(id, Streaming)]);
    assert id in s.tables.builders;
    LateWaits(s, id, g);
    LatePasses(s, id, g);
    hide Next, Inv;
    ExecOne(v, Lookup(g), []);
    ExecOne(u, ReceiveClosed(g), [Lookup(g)] + []);
    ExecOne(t, StatusSync(g), [ReceiveClosed(g)] + ([Lookup(g)] + []));
    ExecOne(s, StatusArrives(g, id), [StatusSync(g)] + ([ReceiveClosed(g)] + ([Lookup(g)] + [])));
  }

  lemma {:induction false} LateWaits(s: State, id: BuildId, g: CallId)
    requires g !in s.calls && id in s.starts.status
    ensures Next(s, StatusArrives(g, id)) == Go(s.(calls := s.calls[g := StatusCall(id, Asked)]))
    ensures Next(s.(calls := s.calls[g := StatusCall(id, Asked)]), StatusSync(g))
         == Go(s.(calls := s.calls[g := StatusCall(id, Waiting(s.starts.status[id]))]))
  {
  }

  lemma {:induction false} LatePasses(s: State, id: BuildId, g: CallId)
    requires id in s.starts.status && s.starts.status[id] in s.starts.closed && id in s.tables.builders
    ensures Next(s.(calls := s.calls[g := StatusCall(id, Waiting(s.starts.status[id]))]), ReceiveClosed(g))
         == Go(s.(calls := s.calls[g := StatusCall(id, Passed)]))
    ensures Next(s.(calls := s.calls[g := StatusCall(id, Passed)]), Lookup(g))
         == Go(s.(calls := s.calls[g := StatusCall(id, Streaming)]))
  {
  }

  lemma {:induction false} ExecOne(s: State, step: Step, rest: seq<Step>)
    requires Next(s, step).Go?
    ensures Exec(s, [step] + rest) == Exec(Next(s, step).s, rest)
  {
    hide Next;
    var steps := [step] + rest;
    assert steps[0] == step && steps[1..] == rest;
  }

  lemma {:induction false} MetNow(s: State, h: CallId, g: CallId)
    requires OwnersInv(s) && Next(s, Meet(h, g)).Go?
    ensures StatusAt(s, g) && Met(Next(s, Meet(h, g)).s, h, g) && Next(s, Meet(h, g)).s.calls[g].id == s.calls[g].id
  {
  }

  lemma {:induction false} IdKept(s: State, steps: seq<Step>, g: CallId, h: CallId)
    requires Met(s, h, g) && Exec(s, steps).Go? && DismissStep(h) !in steps && Lookup(g) !in steps
    ensures g in Exec(s, steps).s.calls && Exec(s, steps).s.calls[g].id == s.calls[g].id
    decreases |steps|
  {
    hide Next, Met;
    assert g in s.calls by { MetCalls(s, h, g); }
    if steps != [] {
      MetKept(s, steps[0], h, g);
      assert g in Next(s, steps[0]).s.calls by { MetCalls(Next(s, steps[0]).s, h, g); }
      CallsMove(s, steps[0], g);
      IdKept(Next(s, steps[0]).s, steps[1..], g, h);
    }
  }

  lemma {:induction false} MetCalls(s: State, h: CallId, g: CallId)
    requires Met(s, h, g)
    ensures g in s.calls
  {
  }

  lemma {:induction false} MetFound(s: State, h: CallId, g: CallId)
    requires Inv(s) && Met(s, h, g)
    ensures Next(s, Lookup(g)).Go? && g in Next(s, Lookup(g)).s.calls
    ensures Next(s, Lookup(g)).s.calls[g] == StatusCall(s.calls[g].id, Streaming)
  {
  }

  // ---------- which calls can end ----------

  /** Some schedule ends the call, and no two live Builds share an ID on the way. */
  ghost predicate CanEnd(s: State, h: CallId) {
    exists steps :: ExclusiveRun(s, steps) && Exec(s, steps).Go? && h !in Exec(s, steps).s.calls
  }

  /**
  The Build waits for a receiver on a channel that the status map no longer holds, and nobody else waits there: a Status
  that syncs from now on gets another channel.
  */
  ghost predicate Stuck(s: State, h: CallId) {
    && BuildAt(s, h) && s.calls[h].build.Sending?
    && (s.calls[h].id in s.starts.status ==> s.starts.status[s.calls[h].id] != s.calls[h].build.ch)
    && forall g :: StatusAt(s, g) ==> s.calls[g].look != Waiting(s.calls[h].build.ch)
  }

  lemma {:induction false} EndsNow(s: State, step: Step, h: CallId)
    requires Inv(s) && Exclusive(s) && !step.BuildArrives? && Next(s, step).Go? && h !in Next(s, step).s.calls
    ensures CanEnd(s, h)
  {
    ExclusiveKept(s, step);
    hide Next;
    OneStep(s, step, []);
  }

  lemma {:induction false} OneStep(s: State, step: Step, rest: seq<Step>)
    requires Exclusive(s) && Next(s, step).Go?
    ensures Exec(s, [step] + rest) == Exec(Next(s, step).s, rest)
    ensures ExclusiveRun(s, [step] + rest) <==> ExclusiveRun(Next(s, step).s, rest)
  {
    hide Next, Exclusive;
    var steps := [step] + rest;
    assert steps[0] == step && steps[1..] == rest;
  }

  lemma {:induction false} EndsLater(s: State, step: Step, h: CallId)
    requires Exclusive(s) && Next(s, step).Go? && CanEnd(Next(s, step).s, h)
    ensures CanEnd(s, h)
  {
    hide Next;
    var t := Next(s, step).s;
    var rest :| ExclusiveRun(t, rest) && Exec(t, rest).Go? && h !in Exec(t, rest).s.calls;
    OneStep(s, step, rest);
  }

  /** One step of a call that leaves it alive, in a state that is as good as before. */
  lemma {:induction false} GoesOn(s: State, step: Step)
    requires Inv(s) && Exclusive(s) && !step.BuildArrives? && Next(s, step).Go?
    ensures Inv(Next(s, step).s) && Exclusive(Next(s, step).s)
  {
    hide Next, Inv;
    InvKept(s, step);
    ExclusiveKept(s, step);
  }

  /** A Build that is past its send. */
  lemma {:induction false} SentEnds(s: State, h: CallId)
    requires Inv(s) && Exclusive(s) && BuildAt(s, h)
    requires s.calls[h].build.Sent? || PastClose(s.calls[h])
    ensures CanEnd(s, h)
    decreases match s.calls[h].build case Sent => 3 case Running => 2 case Finished => 1 case _ => 0
  {
    var step := match s.calls[h].build
                case Sent => CloseStep(h) case Running => BuildReturns(h) case Finished => DismissStep(h) case _ => BuildDone(h);
    NoPanic(s, step);
    PastStep(s, h, step);
    hide Inv, CanEnd, Next;
    if s.calls[h].build.Unregistered? {
      EndsNow(s, step, h);
    } else {
      GoesOn(s, step);
      SentEnds(Next(s, step).s, h);
      EndsLater(s, step, h);
    }
  }

  /** The next step of such a Build is possible, unless it panics. */
  lemma {:induction false} PastStep(s: State, h: CallId, step: Step)
    requires BuildAt(s, h) && Next(s, step) != Panic
    requires
      match s.calls[h].build
      case Sent => step == CloseStep(h)
      case Running => step == BuildReturns(h)
      case Finished => step == DismissStep(h)
      case Unregistered => step == BuildDone(h)
      case _ => false
    ensures Next(s, step).Go?
    ensures s.calls[h].build.Unregistered? ==> h !in Next(s, step).s.calls
    ensures !s.calls[h].build.Unregistered? ==> BuildAt(Next(s, step).s, h)
    ensures s.calls[h].build.Sent? ==> Next(s, step).s.calls[h].build.Running?
    ensures s.calls[h].build.Running? ==> Next(s, step).s.calls[h].build.Finished?
    ensures s.calls[h].build.Finished? ==> Next(s, step).s.calls[h].build.Unregistered?
  {
  }

  /** A Build with a Status waiting on its channel. */
  lemma {:induction false} WaitedEnds(s: State, h: CallId, g: CallId)
    requires Inv(s) && Exclusive(s) && BuildAt(s, h) && s.calls[h].build.Sending?
    requires StatusAt(s, g) && s.calls[g].look == Waiting(s.calls[h].build.ch)
    ensures CanEnd(s, h)
  {
    assert Next(s, Meet(h, g)).Go? && BuildAt(Next(s, Meet(h, g)).s, h) && Next(s, Meet(h, g)).s.calls[h].build.Sent?;
    hide Inv, CanEnd, Next;
    GoesOn(s, Meet(h, g));
    SentEnds(Next(s, Meet(h, g)).s, h);
    EndsLater(s, Meet(h, g), h);
  }

  /** There is always a call number that is not in use. */
  lemma {:induction false} FreshCall(used: set<CallId>) returns (g: CallId)
    ensures g !in used && forall x :: x in used ==> x < g
    decreases |used|
  {
    if used == {} {
      g := 0;
    } else {
      var x :| x in used;
      var f := FreshCall(used - {x});
      g := if f > x then f else x + 1;
      assert used == used - {x} + {x};
    }
  }

  /** A Build whose channel is in the map: a Status can still come for it. */
  lemma {:induction false} OpenEnds(s: State, h: CallId)
    requires Inv(s) && Exclusive(s) && BuildAt(s, h) && s.calls[h].build.Sending?
    requires s.calls[h].id in s.starts.status && s.starts.status[s.calls[h].id] == s.calls[h].build.ch
    ensures CanEnd(s, h)
  {
    var g := FreshCall(s.calls.Keys);
    var a, b := StatusArrives(g, s.calls[h].id), StatusSync(g);
    var t := Next(s, a).s;
    ComesFor(s, h, g);
    hide Inv, CanEnd, Next;
    GoesOn(s, a);
    GoesOn(t, b);
    WaitedEnds(Next(t, b).s, h, g);
    EndsLater(t, b, h);
    EndsLater(s, a, h);
  }

  lemma {:induction false} ComesFor(s: State, h: CallId, g: CallId)
    requires BuildAt(s, h) && s.calls[h].build.Sending? && g !in s.calls
    requires s.calls[h].id in s.starts.status && s.starts.status[s.calls[h].id] == s.calls[h].build.ch
    ensures Next(s, StatusArrives(g, s.calls[h].id)).Go?
    ensures var t := Next(s, StatusArrives(g, s.calls[h].id)).s;
      && Next(t, StatusSync(g)).Go?
      && var u := Next(t, StatusSync(g)).s;
         && BuildAt(u, h) && u.calls[h].build == s.calls[h].build
         && StatusAt(u, g) && u.calls[g].look == Waiting(s.calls[h].build.ch)
  {
  }

  lemma {:induction false} BuildEnds(s: State, h: CallId)
    requires Inv(s) && Exclusive(s) && BuildAt(s, h) && !Stuck(s, h)
    ensures CanEnd(s, h)
  {
    match s.calls[h].build {
      case Arrived => EndsNow(s, BuilderFails(h), h);
      case Registered =>
        Synced(s, h);
        hide Inv, CanEnd, Next;
        GoesOn(s, BuildSync(h));
        OpenEnds(Next(s, BuildSync(h)).s, h);
        EndsLater(s, BuildSync(h), h);
      case Sending(ch) =>
        hide Inv, CanEnd, Next;
        if g :| StatusAt(s, g) && s.calls[g].look == Waiting(ch) {
          WaitedEnds(s, h, g);
        } else {
          OpenEnds(s, h);
        }
      case _ =>
        hide CanEnd;
        SentEnds(s, h);
    }
  }

  lemma {:induction false} Synced(s: State, h: CallId)
    requires BuildAt(s, h) && s.calls[h].build.Registered?
    ensures Next(s, BuildSync(h)).Go?
    ensures var t := Next(s, BuildSync(h)).s;
      && BuildAt(t, h) && t.calls[h].build.Sending?
      && t.calls[h].id in t.starts.status && t.starts.status[t.calls[h].id] == t.calls[h].build.ch
  {
  }

  /** A Status call can always end: past its wait it looks up and streams, before that its client can go away. */
  lemma {:induction false} StatusEnds(s: State, g: CallId)
    requires Inv(s) && Exclusive(s) && StatusAt(s, g)
    ensures CanEnd(s, g)
    decreases match s.calls[g].look case Asked => 3 case Waiting(_) => 2 case Passed => 2 case _ => 1
  {
    var step := match s.calls[g].look
                case Asked => StatusSync(g) case Waiting(_) => ContextDone(g) case Cancelled(_) => StatusGivesUp(g)
                case Passed => Lookup(g) case Streaming => StatusDone(g);
    StatusStep(s, g, step);
    hide Inv, CanEnd, Next;
    if g !in Next(s, step).s.calls {
      EndsNow(s, step, g);
    } else {
      GoesOn(s, step);
      StatusEnds(Next(s, step).s, g);
      EndsLater(s, step, g);
    }
  }

  lemma {:induction false} StatusStep(s: State, g: CallId, step: Step)
    requires StatusAt(s, g)
    requires
      match s.calls[g].look
      case Asked => step == StatusSync(g)
      case Waiting(_) => step == ContextDone(g)
      case Cancelled(_) => step == StatusGivesUp(g)
      case Passed => step == Lookup(g)
      case Streaming => step == StatusDone(g)
    ensures Next(s, step).Go?
    ensures var t := Next(s, step).s;
      g in t.calls ==>
        && StatusAt(t, g) && !s.calls[g].look.Cancelled? && !s.calls[g].look.Streaming?
        && (s.calls[g].look.Asked? ==> t.calls[g].look.Waiting?)
        && (s.calls[g].look.Waiting? ==> t.calls[g].look.Cancelled?)
        && (s.calls[g].look.Passed? ==> t.calls[g].look.Streaming?)
  {
  }

  lemma {:induction false} StuckKept(s: State, step: Step, h: CallId)
    requires Inv(s) && Stuck(s, h) && Next(s, step).Go?
    ensures Stuck(Next(s, step).s, h)
  {
    assert EntriesOwned(s) && Owned(s.starts, s.calls[h].build.ch, s.calls[h].id);
    hide Next, Stuck, Inv;
    if StatusKind(step) {
      StatusFrame(s, step);
      StuckStatus(s, step, h);
    } else {
      StuckBuild(s, step, h);
    }
  }

  lemma {:induction false} StuckStatus(s: State, step: Step, h: CallId)
    requires Stuck(s, h) && Owned(s.starts, s.calls[h].build.ch, s.calls[h].id) && StatusKind(step) && Next(s, step).Go?
    requires EntriesOwned(s) && BuildAt(Next(s, step).s, h) && Next(s, step).s.calls[h] == s.calls[h]
    ensures Stuck(Next(s, step).s, h)
  {
    hide NextBuild;
  }

  lemma {:induction false} StuckBuild(s: State, step: Step, h: CallId)
    requires Stuck(s, h) && Owned(s.starts, s.calls[h].build.ch, s.calls[h].id) && !StatusKind(step) && Next(s, step).Go?
    ensures Stuck(Next(s, step).s, h)
  {
    hide NextStatus;
  }

  lemma {:induction false} StuckForever(s: State, steps: seq<Step>, h: CallId)
    requires Inv(s) && Stuck(s, h) && ExclusiveRun(s, steps) && Exec(s, steps).Go?
    ensures Stuck(Exec(s, steps).s, h)
    decreases |steps|
  {
    hide Next, Inv, Stuck;
    if steps != [] {
      StuckKept(s, steps[0], h);
      InvKept(s, steps[0]);
      StuckForever(Next(s, steps[0]).s, steps[1..], h);
    }
  }

  /** In every state of every run: a live call can end if and only if it is not a stuck Build. */
  lemma {:induction false} CanEndIff(steps: seq<Step>, h: CallId)
    requires ExclusiveRun(Init, steps) && Exec(Init, steps).Go? && h in Exec(Init, steps).s.calls
    ensures CanEnd(Exec(Init, steps).s, h) <==> !Stuck(Exec(Init, steps).s, h)
  {
    var s := Exec(Init, steps).s;
    RunsAreSafe(Init, steps);
    hide Inv, Next, Exclusive;
    if Stuck(s, h) {
      forall more | ExclusiveRun(s, more) && Exec(s, more).Go? ensures h in Exec(s, more).s.calls {
        StuckForever(s, more, h);
      }
    } else if BuildAt(s, h) {
      BuildEnds(s, h);
    } else {
      StatusEnds(s, h);
    }
  }

  /** What gets a Build stuck: nothing but a Status of its ID whose client went away. */
  lemma {:induction false} OnlyCancelStrands(s: State, step: Step, h: CallId)
    requires Inv(s) && Exclusive(s) && Next(s, step).Go? && BuildAt(s, h) && !Stuck(s, h) && Stuck(Next(s, step).s, h)
    ensures (step.ContextDone? || step.StatusGivesUp?) && StatusAt(s, step.g) && s.calls[step.g].id == s.calls[h].id
  {
    var t := Next(s, step).s;
    if StatusKind(step) {
      StatusFrame(s, step);
      StatusStrands(s, step, h);
    } else {
      BuildStrandsNot(s, step, h);
    }
  }

  lemma {:induction false} StatusStrands(s: State, step: Step, h: CallId)
    requires OwnersInv(s) && SendingOpen(s) && StatusKind(step) && Next(s, step).Go?
    requires BuildAt(s, h) && !Stuck(s, h) && Stuck(Next(s, step).s, h) && s.calls[h] == Next(s, step).s.calls[h]
    ensures (step.ContextDone? || step.StatusGivesUp?) && StatusAt(s, step.g) && s.calls[step.g].id == s.calls[h].id
  {
    hide NextBuild;
    var ch, t := s.calls[h].build.ch, Next(s, step).s;
    assert ch !in s.starts.closed;
    if g :| StatusAt(s, g) && s.calls[g].look == Waiting(ch) {
      assert Owned(s.starts, ch, s.calls[g].id) && Owned(s.starts, ch, s.calls[h].id);
      WaiterLeaves(s, step, g, ch);
    }
  }

  lemma {:induction false} WaiterLeaves(s: State, step: Step, g: CallId, ch: ChanId)
    requires StatusKind(step) && Next(s, step).Go? && StatusAt(s, g) && s.calls[g].look == Waiting(ch) && ch !in s.starts.closed
    requires !(StatusAt(Next(s, step).s, g) && Next(s, step).s.calls[g].look == Waiting(ch))
    ensures step == ContextDone(g)
  {
    hide NextBuild;
  }

  lemma {:induction false} BuildStrandsNot(s: State, step: Step, h: CallId)
    requires OwnersInv(s) && Exclusive(s) && !StatusKind(step) && Next(s, step).Go? && BuildAt(s, h) && !Stuck(s, h)
    ensures !Stuck(Next(s, step).s, h)
  {
    var t := Next(s, step).s;
    if s.calls[h].build.Sending? && BuildAt(t, h) && t.calls[h].build.Sending? {
      SendingStays(s, step, h);
      hide Next;
      if g :| StatusAt(s, g) && s.calls[g].look == Waiting(s.calls[h].build.ch) {
        WaiterStays(s, step, h, g);
      } else {
        EntryStays(s, step, h);
      }
    } else {
      NewSender(s, step, h);
    }
  }

  lemma {:induction false} SendingStays(s: State, step: Step, h: CallId)
    requires !StatusKind(step) && Next(s, step).Go? && BuildAt(s, h) && s.calls[h].build.Sending?
    requires BuildAt(Next(s, step).s, h) && Next(s, step).s.calls[h].build.Sending?
    ensures Next(s, step).s.calls[h] == s.calls[h]
  {
    hide NextStatus;
  }

  /** A Build that starts to send does so on the channel in the map. */
  lemma {:induction false} NewSender(s: State, step: Step, h: CallId)
    requires !StatusKind(step) && Next(s, step).Go? && BuildAt(s, h)
    requires !(s.calls[h].build.Sending? && BuildAt(Next(s, step).s, h) && Next(s, step).s.calls[h].build.Sending?)
    ensures !Stuck(Next(s, step).s, h)
  {
    hide NextStatus;
  }

  lemma {:induction false} WaiterStays(s: State, step: Step, h: CallId, g: CallId)
    requires OwnersInv(s) && Exclusive(s) && !StatusKind(step) && Next(s, step).Go? && BuildAt(s, h) && s.calls[h].build.Sending?
    requires BuildAt(Next(s, step).s, h) && Next(s, step).s.calls[h] == s.calls[h]
    requires StatusAt(s, g) && s.calls[g].look == Waiting(s.calls[h].build.ch)
    ensures StatusAt(Next(s, step).s, g) && Next(s, step).s.calls[g] == s.calls[g]
  {
    hide NextStatus;
    assert Owned(s.starts, s.calls[h].build.ch, s.calls[h].id);
  }

  lemma {:induction false} EntryStays(s: State, step: Step, h: CallId)
    requires Exclusive(s) && !StatusKind(step) && Next(s, step).Go? && BuildAt(s, h) && s.calls[h].build.Sending?
    requires s.calls[h].id in s.starts.status
    ensures s.calls[h].id in Next(s, step).s.starts.status
    ensures Next(s, step).s.starts.status[s.calls[h].id] == s.starts.status[s.calls[h].id]
  {
    hide NextStatus;
  }

  /** Any Build that waits for its first Status can be stranded so: one comes, and goes away before it has received. */
  lemma {:induction false} StrandedBuild(s: State, h: CallId, g: CallId)
    requires Exclusive(s) && BuildAt(s, h) && s.calls[h].build.Sending? && g !in s.calls
    requires s.calls[h].id in s.starts.status && s.starts.status[s.calls[h].id] == s.calls[h].build.ch
    requires forall k :: StatusAt(s, k) ==> s.calls[k].look != Waiting(s.calls[h].build.ch)
    ensures var steps := [StatusArrives(g, s.calls[h].id)] + ([StatusSync(g)] + ([ContextDone(g)] + ([StatusGivesUp(g)] + [])));
      ExclusiveRun(s, steps) && Exec(s, steps).Go? && Stuck(Exec(s, steps).s, h)
  {
    var id := s.calls[h].id;
    ComesFor(s, h, g);
    var t := Next(s, StatusArrives(g, id)).s;
    var u := Next(t, StatusSync(g)).s;
    ExclusiveKept(s, StatusArrives(g, id));
    ExclusiveKept(t, StatusSync(g));
    OthersStay(s, h, g);
    GoesAway(u, h, g);
    var v := Next(u, ContextDone(g)).s;
    var w := Next(v, StatusGivesUp(g)).s;
    ExclusiveKept(u, ContextDone(g));
    ExclusiveKept(v, StatusGivesUp(g));
    assert ExclusiveRun(w, []) && Exec(w, []) == Go(w);
    hide Next, Exclusive, Exec, ExclusiveRun, Stuck;
    OneStep(v, StatusGivesUp(g), []);
    OneStep(u, ContextDone(g), [StatusGivesUp(g)] + []);
    OneStep(t, StatusSync(g), [ContextDone(g)] + ([StatusGivesUp(g)] + []));
    OneStep(s, StatusArrives(g, id), [StatusSync(g)] + ([ContextDone(g)] + ([StatusGivesUp(g)] + [])));
  }

  lemma {:induction false} OthersStay(s: State, h: CallId, g: CallId)
    requires BuildAt(s, h) && s.calls[h].build.Sending? && g !in s.calls
    requires s.calls[h].id in s.starts.status && s.starts.status[s.calls[h].id] == s.calls[h].build.ch
    ensures var t := Next(s, StatusArrives(g, s.calls[h].id)).s;
      Next(t, StatusSync(g)) == Go(s.(calls := s.calls[g := StatusCall(s.calls[h].id, Waiting(s.calls[h].build.ch))]))
  {
  }

  lemma {:induction false} GoesAway(s: State, h: CallId, g: CallId)
    requires BuildAt(s, h) && s.calls[h].build.Sending? && StatusAt(s, g) && s.calls[g].id == s.calls[h].id
    requires s.calls[g].look == Waiting(s.calls[h].build.ch)
    requires forall k :: StatusAt(s, k) && k != g ==> s.calls[k].look != Waiting(s.calls[h].build.ch)
    ensures Next(s, ContextDone(g)).Go?
    ensures var t := Next(s, ContextDone(g)).s; Next(t, StatusGivesUp(g)).Go? && Stuck(Next(t, StatusGivesUp(g)).s, h)
  {
  }
}
