/** The two tests that decide whether RequestQueueInsert takes a request: the connection,
    and the remove lock. */
module EventQueueGates {
  import opened EventQueue
  import opened EventQueueInvariants
  import opened EventQueueFifo
  import opened EventQueueRundown

  /** RequestQueueInsert freed the record or passed it to the callbacks. */
  predicate NotQueued(q: State, r: Request) {
    Of(q.requests, r).place.Refused? || Of(q.requests, r).place.HandedOver?
  }

  /** The step is one of the two tests for r, and r fails it. */
  predicate TurnedAway(q: State, step: Step, r: Request) {
    || (step.Refuse? && step.r == r && !(Connected(q) || q.collect))
    || (step.Acquire? && step.r == r && q.removed)
  }

  // ----- one step

  lemma EntryTurnsAway(q: State, step: Step, r: Request)
    requires Enabled(q, step) && EntryStep(step) && StatusOk(Of(q.requests, r), q.lastId)
    ensures NotQueued(After(q, step), r) <==> NotQueued(q, r) || TurnedAway(q, step, r)
  {}

  lemma InsertTurnsAway(q: State, step: Step, r: Request)
    requires Enabled(q, step) && InsertStep(step) && StatusOk(Of(q.requests, r), q.lastId)
    ensures NotQueued(After(q, step), r) <==> NotQueued(q, r) || TurnedAway(q, step, r)
  {
    if EntryStep(step) {
      EntryTurnsAway(q, step, r);
      hide After, Enabled;
    }
  }

  /** The consumer only moves requests that are queued. */
  lemma GetTurnsNobodyAway(q: State, step: Step, r: Request)
    requires Enabled(q, step) && GetStep(step)
    requires q.nonpaged != [] ==> !NotQueued(q, q.nonpaged[0])
    requires Chosen(q.consumer) ==> !NotQueued(q, q.consumer.r)
    ensures NotQueued(After(q, step), r) <==> NotQueued(q, r)
  {
    if TakingStep(step) {
      TakingTurnsNobodyAway(q, step, r);
      hide After, Enabled;
    }
  }

  lemma TakingTurnsNobodyAway(q: State, step: Step, r: Request)
    requires Enabled(q, step) && TakingStep(step) && !NotQueued(q, q.consumer.r)
    ensures NotQueued(After(q, step), r) <==> NotQueued(q, r)
  {}

  lemma OthersTurnNobodyAway(q: State, step: Step, r: Request)
    requires Enabled(q, step) && !InsertStep(step) && !GetStep(step)
    requires r in q.paged || r in q.nonpaged ==> !NotQueued(q, r)
    ensures NotQueued(After(q, step), r) <==> NotQueued(q, r)
  {}

  lemma QueuedAreQueued(q: State)
    requires Sound(q)
    ensures q.nonpaged != [] ==> !NotQueued(q, q.nonpaged[0])
    ensures Chosen(q.consumer) ==> !NotQueued(q, q.consumer.r)
    ensures forall r :: r in q.paged || r in q.nonpaged ==> !NotQueued(q, r)
  {
    if q.nonpaged != [] { assert q.nonpaged[0] in q.nonpaged; }
    if q.consumer.Taking? { assert q.paged[0] in q.paged; }
    if Chosen(q.consumer) && !q.consumer.Taking? { assert InHand(q.consumer, q.consumer.r); }
  }

  /** A step makes r not queued exactly if it is a test that r fails. */
  lemma StepTurnsAway(q: State, step: Step, r: Request)
    requires Sound(q) && Enabled(q, step)
    ensures NotQueued(After(q, step), r) <==> NotQueued(q, r) || TurnedAway(q, step, r)
  {
    hide NotQueued, After;
    assert StatusOk(Of(q.requests, r), q.lastId);
    QueuedAreQueued(q);
    if InsertStep(step) { InsertTurnsAway(q, step, r); }
    else if GetStep(step) { GetTurnsNobodyAway(q, step, r); }
    else { OthersTurnNobodyAway(q, step, r); }
  }

  // ----- runs

  /** Somewhere in the run r fails one of the tests. */
  predicate TurnedAwayIn(s: State, run: seq<Step>, r: Request)
    requires Legal(s, run)
    decreases |run|
  {
    run != [] && (TurnedAway(s, run[0], r) || TurnedAwayIn(After(s, run[0]), run[1..], r))
  }

  /** At the end of a run r is not queued exactly if it failed a test. */
  lemma {:induction false} NotQueuedBecause(s: State, run: seq<Step>, r: Request)
    requires Sound(s) && Legal(s, run)
    ensures NotQueued(Exec(s, run), r) <==> NotQueued(s, r) || TurnedAwayIn(s, run, r)
    decreases |run|
  {
    hide NotQueued, TurnedAway, Sound, Enabled, After;
    if run != [] {
      StepTurnsAway(s, run[0], r);
      StepKeepsSound(s, run[0]);
      NotQueuedBecause(After(s, run[0]), run[1..], r);
    }
  }

  /** The insert has passed both tests. */
  predicate Through(pc: Pc) { !pc.Fresh? && !pc.Entered? && !pc.Admitted? }

  lemma StaysThrough(q: State, step: Step, r: Request)
    requires Enabled(q, step) && Through(Of(q.requests, r).pc)
    ensures Through(Of(After(q, step).requests, r).pc) && !TurnedAway(q, step, r)
  {
    hide After, Enabled;
    if InsertStep(step) {
      InsertStaysThrough(q, step, r);
    } else if GetStep(step) {
      GetKeepsPcs(q, step);
    } else {
      OtherStaysThrough(q, step, r);
    }
  }

  lemma EntryStaysThrough(q: State, step: Step, r: Request)
    requires Enabled(q, step) && EntryStep(step) && Through(Of(q.requests, r).pc)
    ensures Through(Of(After(q, step).requests, r).pc) && !TurnedAway(q, step, r)
  {}

  lemma InsertStaysThrough(q: State, step: Step, r: Request)
    requires Enabled(q, step) && InsertStep(step) && Through(Of(q.requests, r).pc)
    ensures Through(Of(After(q, step).requests, r).pc) && !TurnedAway(q, step, r)
  {
    if EntryStep(step) {
      EntryStaysThrough(q, step, r);
      hide After, Enabled;
    }
  }

  lemma OtherStaysThrough(q: State, step: Step, r: Request)
    requires Enabled(q, step) && !InsertStep(step) && !GetStep(step) && Through(Of(q.requests, r).pc)
    ensures Through(Of(After(q, step).requests, r).pc)
  {}

  /** Whoever has passed both tests is never turned away. */
  lemma {:induction false} NeverTurnedAway(s: State, run: seq<Step>, r: Request)
    requires Legal(s, run) && Through(Of(s.requests, r).pc)
    ensures !TurnedAwayIn(s, run, r) && Through(Of(Exec(s, run).requests, r).pc)
    decreases |run|
  {
    hide TurnedAway, Through, Enabled, After;
    if run != [] {
      StaysThrough(s, run[0], r);
      NeverTurnedAway(After(s, run[0]), run[1..], r);
    }
  }

  // ----- collecting while nobody is connected

  /** A disconnect has started and no connect since. */
  ghost predicate DisconnectedSince(run: seq<Step>) {
    exists i :: 0 <= i < |run| && run[i].DisconnectStart? && NoConnect(run[i + 1..])
  }

  lemma LockAfterStep(s: State, step: Step)
    requires Enabled(s, step)
    ensures After(s, step).removed == (step.DisconnectStart? || (s.removed && !step.ConnectStart?))
  {
    if GetStep(step) {
      GetKeepsPcs(s, step);
      hide After;
    }
  }

  lemma DisconnectedFirst(step: Step, rest: seq<Step>)
    ensures DisconnectedSince([step] + rest) <==> DisconnectedSince(rest) || (step.DisconnectStart? && NoConnect(rest))
  {
    var run := [step] + rest;
    forall i | 0 <= i < |rest| ensures run[i + 1] == rest[i] && run[i + 2..] == rest[i + 1..] {}
    assert run[1..] == rest;
    if DisconnectedSince(run) {
      var i :| 0 <= i < |run| && run[i].DisconnectStart? && NoConnect(run[i + 1..]);
      if i > 0 { assert rest[i - 1].DisconnectStart? && NoConnect(rest[i - 1 + 1..]); }
    }
    if DisconnectedSince(rest) {
      var i :| 0 <= i < |rest| && rest[i].DisconnectStart? && NoConnect(rest[i + 1..]);
      assert run[i + 1].DisconnectStart? && NoConnect(run[i + 1 + 1..]);
    }
    if step.DisconnectStart? && NoConnect(rest) { assert run[0].DisconnectStart? && NoConnect(run[0 + 1..]); }
  }

  /** The lock refuses everyone exactly between the start of a disconnect and the next connect. */
  lemma {:induction false} RemovedExactly(s: State, run: seq<Step>)
    requires Legal(s, run)
    ensures Exec(s, run).removed <==> DisconnectedSince(run) || (s.removed && NoConnect(run))
    decreases |run|
  {
    if run != [] {
      var rest := run[1..];
      LockAfterStep(s, run[0]);
      RemovedExactly(After(s, run[0]), rest);
      assert run == [run[0]] + rest;
      DisconnectedFirst(run[0], rest);
      assert NoConnect(run) <==> !run[0].ConnectStart? && NoConnect(rest) by {
        forall i | 0 <= i < |rest| ensures rest[i] == run[i + 1] {}
      }
      hide Enabled, After, NoConnect, DisconnectedSince;
    }
  }

  /** A connect has succeeded, and no disconnect has finished waiting since. */
  ghost predicate ConnectedSince(run: seq<Step>) {
    exists i :: 0 <= i < |run| && run[i].ConnectFinish? && NoneDrained(run[i + 1..])
  }

  predicate NoneDrained(run: seq<Step>) { forall i :: 0 <= i < |run| ==> !run[i].DisconnectDrained? }

  lemma ConnectionAfterStep(s: State, step: Step)
    requires Enabled(s, step)
    ensures Connected(After(s, step)) <==> step.ConnectFinish? || (Connected(s) && !step.DisconnectDrained?)
  {
    if GetStep(step) {
      GetKeepsPcs(s, step);
      hide After;
    }
  }

  lemma ConnectedFirst(step: Step, rest: seq<Step>)
    ensures ConnectedSince([step] + rest) <==> ConnectedSince(rest) || (step.ConnectFinish? && NoneDrained(rest))
  {
    var run := [step] + rest;
    forall i | 0 <= i < |rest| ensures run[i + 1] == rest[i] && run[i + 2..] == rest[i + 1..] {}
    assert run[1..] == rest;
    if ConnectedSince(run) {
      var i :| 0 <= i < |run| && run[i].ConnectFinish? && NoneDrained(run[i + 1..]);
      if i > 0 { assert rest[i - 1].ConnectFinish? && NoneDrained(rest[i - 1 + 1..]); }
    }
    if ConnectedSince(rest) {
      var i :| 0 <= i < |rest| && rest[i].ConnectFinish? && NoneDrained(rest[i + 1..]);
      assert run[i + 1].ConnectFinish? && NoneDrained(run[i + 1 + 1..]);
    }
    if step.ConnectFinish? && NoneDrained(rest) { assert run[0].ConnectFinish? && NoneDrained(run[0 + 1..]); }
  }

  /** The queue is connected exactly from the end of a successful connect until a disconnect
      has waited for everybody who holds the lock. */
  lemma {:induction false} ConnectedExactly(s: State, run: seq<Step>)
    requires Legal(s, run)
    ensures Connected(Exec(s, run)) <==> ConnectedSince(run) || (Connected(s) && NoneDrained(run))
    decreases |run|
  {
    if run != [] {
      var rest := run[1..];
      ConnectionAfterStep(s, run[0]);
      ConnectedExactly(After(s, run[0]), rest);
      assert run == [run[0]] + rest;
      ConnectedFirst(run[0], rest);
      assert NoneDrained(run) <==> !run[0].DisconnectDrained? && NoneDrained(rest) by {
        forall i | 0 <= i < |rest| ensures rest[i] == run[i + 1] {}
      }
      hide Enabled, After, NoneDrained, ConnectedSince;
    }
  }

  /** A request that is let past the connection test while nobody is connected, because
      collecting is on, is lost exactly if somebody has disconnected since the last connect;
      otherwise it is queued once its insert has returned. */
  lemma CollectedUnlessDisconnected(before: seq<Step>, run: seq<Step>, collect: bool, clear: bool, r: Request)
    requires Legal(Initial(collect, clear), before)
    requires Exec(Initial(collect, clear), before).session.Down?
    requires Enabled(Exec(Initial(collect, clear), before), Acquire(r))
    requires Legal(After(Exec(Initial(collect, clear), before), Acquire(r)), run)
    ensures var t := Exec(After(Exec(Initial(collect, clear), before), Acquire(r)), run);
      && (NotQueued(t, r) <==> DisconnectedSince(before))
      && (!DisconnectedSince(before) && At(t, r, Returned) ==> Accepted(Of(t.requests, r).place))
  {
    var s := Exec(Initial(collect, clear), before);
    var u := After(s, Acquire(r));
    RunKeepsSound(Initial(collect, clear), before);
    assert StatusOk(Of(s.requests, r), s.lastId);
    RemovedExactly(Initial(collect, clear), before);
    StepTurnsAway(s, Acquire(r), r);
    StepKeepsSound(s, Acquire(r));
    RunKeepsSound(u, run);
    NotQueuedBecause(u, run, r);
    NeverTurnedAway(u, run, r);
    var t := Exec(u, run);
    assert StatusOk(Of(t.requests, r), t.lastId);
  }

  ghost predicate Leads(s: State, t: State) {
    exists run {:trigger Legal(s, run)} :: Legal(s, run) && Exec(s, run) == t
  }

  lemma LeadsFirst(s: State, step: Step, t: State)
    requires Enabled(s, step) && Leads(After(s, step), t)
    ensures Leads(s, t)
  {
    var run :| Legal(After(s, step), run) && Exec(After(s, step), run) == t;
    assert ([step] + run)[1..] == run && Legal(s, [step] + run);
  }

  /** An insert past the connection test, at a lock that refuses it. */
  lemma LostAtTheLock(s: State, r: Request)
    requires At(s, r, Fresh) && s.removed && s.collect && !Connected(s)
    ensures exists t :: Leads(s, t) && t.collect && !Connected(t) && NotQueued(t, r)
  {
    var s1 := After(s, Call(r));
    var s2 := After(s1, PassGate(r));
    var t := After(s2, Acquire(r));
    assert Legal(t, []);
    assert Leads(t, t);
    LeadsFirst(s2, Acquire(r), t);
    LeadsFirst(s1, PassGate(r), t);
    LeadsFirst(s, Call(r), t);
    hide Leads;
  }

  /** Somebody has connected and disconnected. */
  function OneSession(clear: bool): State {
    Initial(true, clear).(session := if clear then Clearing else Down, removed := true)
  }

  function InSession(clear: bool): State {
    Initial(true, clear).(session := Up, holders := {SessionHolder})
  }

  lemma SessionBegins(clear: bool, t: State)
    requires Leads(InSession(clear), t)
    ensures Leads(Initial(true, clear), t)
  {
    hide Leads;
    LeadsFirst(Initial(true, clear).(session := Connecting, holders := {SessionHolder}), ConnectFinish, t);
    LeadsFirst(Initial(true, clear), ConnectStart, t);
  }

  lemma SessionEnds(clear: bool, t: State)
    requires Leads(OneSession(clear), t)
    ensures Leads(InSession(clear), t)
  {
    hide Leads;
    LeadsFirst(Initial(true, clear).(session := Draining, removed := true), DisconnectDrained, t);
    assert {SessionHolder} - {SessionHolder} == {};
    LeadsFirst(InSession(clear), DisconnectStart, t);
  }

  /** The loss happens: somebody connects and disconnects, and the next request is freed by
      its insert, although it was to be collected. */
  lemma CollectedRequestIsLost(clear: bool, r: Request)
    ensures exists t :: Leads(Initial(true, clear), t) && t.collect && !Connected(t) && NotQueued(t, r)
  {
    LostAtTheLock(OneSession(clear), r);
    var t :| Leads(OneSession(clear), t) && t.collect && !Connected(t) && NotQueued(t, r);
    SessionEnds(clear, t);
    SessionBegins(clear, t);
    hide Leads;
  }
}
