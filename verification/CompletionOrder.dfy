/** When the completion of an IRP follows the IRP's own record, in terms of the tests that
    RequestQueueInsert makes on that record. */
module CompletionOrder {
  import opened EventQueue
  import opened EventQueueInvariants
  import opened EventQueueFifo
  import opened EventQueueRundown
  import opened EventQueueGates
  import opened CompletionProtocol

  // ----- which records are not queued

  /** What an action does to the queue: one step of it, the call of an insert, or nothing. */
  lemma ActionOnQueue(s: System, a: Action)
    requires SystemOk(s) && Can(s, a)
    ensures if a.Queue? then Enabled(s.q, a.step) && AfterAction(s, a).q == After(s.q, a.step)
            else AfterAction(s, a).q == s.q || exists r :: Enabled(s.q, Call(r)) && AfterAction(s, a).q == After(s.q, Call(r))
  {
    hide SystemOk, After, Enabled;
    if a.PublishRecord? {
      var r := s.irps[a.n].record;
      assert Insert(s.q, r) == s.q || (Enabled(s.q, Call(r)) && Insert(s.q, r) == After(s.q, Call(r)));
    } else if a.DispatchPublish? || a.CompletionPublish? {
      var r := s.irps[a.n].completion;
      assert Insert(s.q, r) == s.q || (Enabled(s.q, Call(r)) && Insert(s.q, r) == After(s.q, Call(r)));
    }
  }

  /** The action is one of the two tests for r, and r fails it. */
  predicate FailsTest(s: System, a: Action, r: Request) { a.Queue? && TurnedAway(s.q, a.step, r) }

  lemma ActionTurnsAway(s: System, a: Action, r: Request)
    requires SystemOk(s) && Can(s, a)
    ensures NotQueued(AfterAction(s, a).q, r) <==> NotQueued(s.q, r) || FailsTest(s, a, r)
  {
    assert Sound(s.q);
    hide SystemOk, After, Enabled, Can, AfterAction, NotQueued, Sound;
    ActionOnQueue(s, a);
    if a.Queue? {
      StepTurnsAway(s.q, a.step, r);
    } else if AfterAction(s, a).q != s.q {
      var x :| Enabled(s.q, Call(x)) && AfterAction(s, a).q == After(s.q, Call(x));
      StepTurnsAway(s.q, Call(x), r);
    }
  }

  /** Somewhere in the run r fails one of the tests. */
  ghost predicate FailsIn(s: System, run: seq<Action>, r: Request)
    requires LegalRun(s, run)
    decreases |run|
  {
    run != [] && (FailsTest(s, run[0], r) || FailsIn(AfterAction(s, run[0]), run[1..], r))
  }

  lemma {:induction false} NotQueuedInRun(s: System, run: seq<Action>, r: Request)
    requires SystemOk(s) && LegalRun(s, run)
    ensures NotQueued(Perform(s, run).q, r) <==> NotQueued(s.q, r) || FailsIn(s, run, r)
    decreases |run|
  {
    hide SystemOk, Can, AfterAction, NotQueued, FailsTest;
    if run != [] {
      ActionTurnsAway(s, run[0], r);
      StepKeepsSystem(s, run[0]);
      NotQueuedInRun(AfterAction(s, run[0]), run[1..], r);
    }
  }

  /** A consumer that received the completion of an IRP has received its IRP record before
      exactly if that record passed the connection test and the lock, and nobody cleared it. */
  lemma CompletionFollowsIfTaken(run: seq<Action>, collect: bool, clear: bool, n: nat)
    requires LegalRun(Start(collect, clear), run)
    requires n in Perform(Start(collect, clear), run).irps
    requires var s := Perform(Start(collect, clear), run); s.irps[n].completion in s.q.delivered
    ensures var s := Perform(Start(collect, clear), run); var x := s.irps[n];
      DeliveredBefore(s.q, x.record, x.completion) <==>
        !FailsIn(Start(collect, clear), run, x.record) && !WasCleared(Of(s.q.requests, x.record).place)
  {
    var s := Perform(Start(collect, clear), run);
    NotQueuedInRun(Start(collect, clear), run, s.irps[n].record);
    CompletionFollowsItsIrp(run, collect, clear, n);
    hide NotQueued, FailsIn, DeliveredBefore, SystemOk, LegalRun, Perform;
  }

  // ----- what a caller can know in advance

  /** The queue is connected, its lock open, and r neither turned away nor cleared. */
  predicate Calm(q: State, r: Request) {
    q.session.Up? && !q.removed && !NotQueued(q, r) && !WasCleared(Of(q.requests, r).place)
  }

  /** The action starts a disconnect or clears a list. */
  predicate Disturbs(a: Action) { a.Queue? && (a.step.DisconnectStart? || a.step.ClearList?) }

  lemma SessionStaysUp(q: State, step: Step)
    requires Enabled(q, step) && q.session.Up? && !q.removed && !step.DisconnectStart?
    ensures After(q, step).session.Up? && !After(q, step).removed
  {
    if GetStep(step) {
      GetKeepsPcs(q, step);
      hide After;
    }
  }

  lemma NotClearedEntry(q: State, step: Step, r: Request)
    requires Enabled(q, step) && EntryStep(step) && !WasCleared(Of(q.requests, r).place)
    ensures !WasCleared(Of(After(q, step).requests, r).place)
  {}

  lemma NotClearedInsert(q: State, step: Step, r: Request)
    requires Enabled(q, step) && InsertStep(step) && !WasCleared(Of(q.requests, r).place)
    ensures !WasCleared(Of(After(q, step).requests, r).place)
  {
    if EntryStep(step) {
      NotClearedEntry(q, step, r);
      hide After, Enabled;
    }
  }

  lemma NotClearedTaking(q: State, step: Step, r: Request)
    requires Enabled(q, step) && TakingStep(step) && !WasCleared(Of(q.requests, r).place)
    ensures !WasCleared(Of(After(q, step).requests, r).place)
  {}

  lemma NotClearedGet(q: State, step: Step, r: Request)
    requires Enabled(q, step) && GetStep(step) && !WasCleared(Of(q.requests, r).place)
    ensures !WasCleared(Of(After(q, step).requests, r).place)
  {
    if TakingStep(step) {
      NotClearedTaking(q, step, r);
      hide After;
    }
  }

  lemma NotClearedOther(q: State, step: Step, r: Request)
    requires Enabled(q, step) && q.session.Up? && !step.ClearList? && !InsertStep(step) && !GetStep(step)
    requires !WasCleared(Of(q.requests, r).place)
    ensures !WasCleared(Of(After(q, step).requests, r).place)
  {}

  lemma CalmStep(q: State, step: Step, r: Request)
    requires Sound(q) && Enabled(q, step) && Calm(q, r) && !step.DisconnectStart? && !step.ClearList?
    ensures Calm(After(q, step), r)
  {
    hide Sound, After, Enabled, NotQueued, WasCleared;
    SessionStaysUp(q, step);
    StepTurnsAway(q, step, r);
    assert !TurnedAway(q, step, r);
    if InsertStep(step) { NotClearedInsert(q, step, r); }
    else if GetStep(step) { NotClearedGet(q, step, r); }
    else { NotClearedOther(q, step, r); }
  }

  lemma CalmAction(s: System, a: Action, r: Request)
    requires SystemOk(s) && Can(s, a) && Calm(s.q, r) && !Disturbs(a)
    ensures Calm(AfterAction(s, a).q, r)
  {
    assert Sound(s.q);
    hide SystemOk, After, Enabled, Can, AfterAction, Calm, Sound;
    ActionOnQueue(s, a);
    if a.Queue? {
      CalmStep(s.q, a.step, r);
    } else if AfterAction(s, a).q != s.q {
      var x :| Enabled(s.q, Call(x)) && AfterAction(s, a).q == After(s.q, Call(x));
      CalmStep(s.q, Call(x), r);
    }
  }

  lemma SameIrp(s: System, a: Action, n: nat)
    requires Can(s, a) && n in s.irps
    ensures n in AfterAction(s, a).irps
    ensures AfterAction(s, a).irps[n].record == s.irps[n].record
    ensures AfterAction(s, a).irps[n].completion == s.irps[n].completion
  {
    if !a.Queue? && !a.HookIrp? {
      ThreadChangesOne(s, a);
      hide AfterAction, Advance;
    }
  }

  lemma {:induction false} CalmRun(s: System, run: seq<Action>, n: nat)
    requires SystemOk(s) && LegalRun(s, run) && n in s.irps && Calm(s.q, s.irps[n].record)
    requires forall i :: 0 <= i < |run| ==> !Disturbs(run[i])
    ensures var t := Perform(s, run);
      SystemOk(t) && n in t.irps && t.irps[n].record == s.irps[n].record && Calm(t.q, t.irps[n].record)
    decreases |run|
  {
    hide SystemOk, Can, AfterAction, Calm, Disturbs;
    if run != [] {
      CalmAction(s, run[0], s.irps[n].record);
      SameIrp(s, run[0], n);
      StepKeepsSystem(s, run[0]);
      CalmRun(AfterAction(s, run[0]), run[1..], n);
    }
  }

  lemma LocksAction(s: System, a: Action)
    requires SystemOk(s) && Can(s, a) && LocksOk(s.q)
    ensures LocksOk(AfterAction(s, a).q)
  {
    hide SystemOk, After, Enabled, Can, AfterAction, LocksOk;
    ActionOnQueue(s, a);
    if a.Queue? {
      StepKeepsLocks(s.q, a.step);
    } else if AfterAction(s, a).q != s.q {
      var x :| Enabled(s.q, Call(x)) && AfterAction(s, a).q == After(s.q, Call(x));
      StepKeepsLocks(s.q, Call(x));
    }
  }

  lemma {:induction false} LocksRun(s: System, run: seq<Action>)
    requires SystemOk(s) && LegalRun(s, run) && LocksOk(s.q)
    ensures SystemOk(Perform(s, run)) && LocksOk(Perform(s, run).q)
    decreases |run|
  {
    hide SystemOk, Can, AfterAction, LocksOk;
    if run != [] {
      LocksAction(s, run[0]);
      StepKeepsSystem(s, run[0]);
      LocksRun(AfterAction(s, run[0]), run[1..]);
    }
  }

  /** A record not inserted yet is neither turned away nor cleared. */
  lemma FreshIsCalm(s: System, n: nat)
    requires SystemOk(s) && LocksOk(s.q) && s.q.session.Up? && n in s.irps && At(s.q, s.irps[n].record, Fresh)
    ensures Calm(s.q, s.irps[n].record)
  {
    assert StatusOk(Of(s.q.requests, s.irps[n].record), s.q.lastId);
  }

  /** If a client is connected when the IRP record is handed to RequestQueueInsert, and from
      then on nobody disconnects or clears, then the record is queued, and a client that gets
      the completion has got the IRP record before, with a smaller ID. */
  lemma CompletionFollowsWhileConnected(before: seq<Action>, run: seq<Action>, collect: bool, clear: bool, n: nat)
    requires LegalRun(Start(collect, clear), before)
    requires Can(Perform(Start(collect, clear), before), PublishRecord(n))
    requires Perform(Start(collect, clear), before).q.session.Up?
    requires LegalRun(AfterAction(Perform(Start(collect, clear), before), PublishRecord(n)), run)
    requires forall i :: 0 <= i < |run| ==> !Disturbs(run[i])
    ensures var t := Perform(AfterAction(Perform(Start(collect, clear), before), PublishRecord(n)), run);
      && n in t.irps
      && var x := t.irps[n];
        && (At(t.q, x.record, Returned) ==> Accepted(Of(t.q.requests, x.record).place))
        && (x.completion in t.q.delivered ==>
              && DeliveredBefore(t.q, x.record, x.completion)
              && Of(t.q.requests, x.record).id < Of(t.q.requests, x.completion).id)
  {
    hide SystemOk, LocksOk, Calm, LegalRun, Perform, DeliveredBefore, Accepted, At, Start, AfterAction, Can;
    var s := Perform(Start(collect, clear), before);
    StartIsFine(collect, clear);
    LocksRun(Start(collect, clear), before);
    PublishesFresh(s, n);
    FreshIsCalm(s, n);
    CalmAction(s, PublishRecord(n), s.irps[n].record);
    SameIrp(s, PublishRecord(n), n);
    StepKeepsSystem(s, PublishRecord(n));
    var u := AfterAction(s, PublishRecord(n));
    CalmRun(u, run, n);
    CalmIsOrdered(Perform(u, run), n);
  }

  lemma PublishesFresh(s: System, n: nat)
    requires SystemOk(s) && Can(s, PublishRecord(n))
    ensures n in s.irps && At(s.q, s.irps[n].record, Fresh)
  {
    PublishesOnce(s, PublishRecord(n));
    hide SystemOk;
  }

  lemma StartIsFine(collect: bool, clear: bool)
    ensures SystemOk(Start(collect, clear)) && LocksOk(Start(collect, clear).q)
  {}

  lemma CalmIsOrdered(t: System, n: nat)
    requires SystemOk(t) && n in t.irps && Calm(t.q, t.irps[n].record)
    ensures var x := t.irps[n];
      && (At(t.q, x.record, Returned) ==> Accepted(Of(t.q.requests, x.record).place))
      && (x.completion in t.q.delivered ==>
            && DeliveredBefore(t.q, x.record, x.completion)
            && Of(t.q.requests, x.record).id < Of(t.q.requests, x.completion).id)
  {
    var x := t.irps[n];
    assert StatusOk(Of(t.q.requests, x.record), t.q.lastId) && RecordsOk(t.q, x);
    if x.completion in t.q.delivered { DeliveredInOrder(t.q, x); }
  }
}
