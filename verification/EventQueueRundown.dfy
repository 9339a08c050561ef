/** Rundown: between the end of a disconnect and the next connect nothing is linked,
    whatever the settings say, so a queue cleared by the disconnect stays empty. */
module EventQueueRundown {
  import opened EventQueue
  import opened EventQueueInvariants

  /** Inside the region that needs the remove lock. */
  predicate Inside(pc: Pc) { pc.Locked? || pc.Numbered? || pc.Linked? || pc.ListCounted? || pc.Counted? }

  /** The last session is over and the remove lock refuses everyone. */
  predicate Severed(s: State) {
    s.session.Clearing? || s.session.ClearingPaged? || (s.session.Down? && s.removed)
  }

  ghost predicate LocksOk(s: State) {
    && (forall r {:trigger Of(s.requests, r)} :: Inside(Of(s.requests, r).pc) ==>
          Inserter(r) in s.holders || r in s.snapshot)
    && (s.snapshot != {} ==> s.session.Connecting?)
    && (!s.consumer.Idle? && !s.consumer.Knocking? ==> Getter in s.holders)
    && (Severed(s) ==> s.holders == {} && s.removed)
    && (s.session.Draining? ==> s.removed)
    && (s.session.Up? || s.session.Connecting? ==> !s.removed)
  }

  lemma EntryKeepsLocks(s: State, step: Step)
    requires LocksOk(s) && Enabled(s, step) && EntryStep(step)
    ensures LocksOk(After(s, step))
  {
    assert Inside(Of(s.requests, step.r).pc) ==> Inserter(step.r) in s.holders || step.r in s.snapshot;
  }

  lemma InsertKeepsLocks(s: State, step: Step)
    requires LocksOk(s) && Enabled(s, step) && InsertStep(step)
    ensures LocksOk(After(s, step))
  {
    if EntryStep(step) {
      EntryKeepsLocks(s, step);
      hide LocksOk, After;
    } else {
      assert Inside(Of(s.requests, step.r).pc) ==> Inserter(step.r) in s.holders || step.r in s.snapshot;
    }
  }

  lemma TakingKeepsPcs(s: State, step: Step)
    requires Enabled(s, step) && TakingStep(step)
    ensures var t := After(s, step);
      && (forall r {:trigger Of(t.requests, r)} :: Of(t.requests, r).pc == Of(s.requests, r).pc)
      && t.snapshot == s.snapshot && t.session == s.session && t.removed == s.removed && t.holders == s.holders
  {}

  lemma ChooseKeepsPcs(s: State)
    requires Enabled(s, Choose)
    ensures var t := After(s, Choose);
      && (forall r {:trigger Of(t.requests, r)} :: Of(t.requests, r).pc == Of(s.requests, r).pc)
      && t.snapshot == s.snapshot && t.session == s.session && t.removed == s.removed && t.holders == s.holders
  {}

  lemma GetKeepsPcs(s: State, step: Step)
    requires Enabled(s, step) && GetStep(step)
    ensures var t := After(s, step);
      && (forall r {:trigger Of(t.requests, r)} :: Of(t.requests, r).pc == Of(s.requests, r).pc)
      && t.snapshot == s.snapshot && t.session == s.session && t.removed == s.removed
      && (t.holders == s.holders || (step.GetAcquire? && !s.removed && t.holders == s.holders + {Getter})
          || (step.GetRelease? && t.holders == s.holders - {Getter}))
  {
    if TakingStep(step) {
      TakingKeepsPcs(s, step);
      hide After;
    } else if step.Choose? {
      ChooseKeepsPcs(s);
      hide After;
    } else {
      assert After(s, step).requests == s.requests;
    }
  }

  lemma GetKeepsLocks(s: State, step: Step)
    requires LocksOk(s) && Enabled(s, step) && GetStep(step)
    ensures LocksOk(After(s, step))
  {
    GetKeepsPcs(s, step);
    if !step.GetAcquire? && !step.GetRelease? && !step.GetEnter? { assert Getter in s.holders; }
  }

  lemma OthersKeepLocks(s: State, step: Step)
    requires LocksOk(s) && Enabled(s, step) && !InsertStep(step) && !GetStep(step)
    ensures LocksOk(After(s, step))
  {}

  lemma StepKeepsLocks(s: State, step: Step)
    requires LocksOk(s) && Enabled(s, step)
    ensures LocksOk(After(s, step))
  {
    if InsertStep(step) { InsertKeepsLocks(s, step); }
    else if GetStep(step) { GetKeepsLocks(s, step); }
    else { OthersKeepLocks(s, step); }
  }

  lemma {:induction false} RunKeepsLocks(s: State, run: seq<Step>)
    requires LocksOk(s) && Legal(s, run)
    ensures LocksOk(Exec(s, run))
    decreases |run|
  {
    if run != [] {
      StepKeepsLocks(s, run[0]);
      RunKeepsLocks(After(s, run[0]), run[1..]);
    }
  }

  /** The lists of t are those of s, except that some may have been emptied. */
  predicate OnlyEmptied(s: State, t: State) {
    && (t.paged == s.paged || t.paged == [])
    && (t.nonpaged == s.nonpaged || t.nonpaged == [])
  }

  /** What the clearing part of a disconnect has emptied so far. */
  predicate ClearedSoFar(s: State) {
    && (s.session.ClearingPaged? ==> s.nonpaged == [])
    && (s.session.Down? ==> s.nonpaged == [] && s.paged == [])
  }

  /** No list has grown and nothing has been delivered. */
  ghost predicate StaysSevered(s: State, t: State) {
    Severed(t) && OnlyEmptied(s, t) && t.delivered == s.delivered && (ClearedSoFar(s) ==> ClearedSoFar(t))
  }

  lemma SeveredStep(s: State, step: Step)
    requires LocksOk(s) && Severed(s) && Enabled(s, step) && !step.ConnectStart?
    ensures StaysSevered(s, After(s, step))
  {
    if InsertStep(step) {
      SeveredInsert(s, step);
      hide After, LocksOk, Severed, StaysSevered;
    } else if GetStep(step) {
      assert s.consumer.Idle? || s.consumer.Knocking?;
    }
  }

  lemma SeveredInsert(s: State, step: Step)
    requires LocksOk(s) && Severed(s) && Enabled(s, step) && InsertStep(step)
    ensures StaysSevered(s, After(s, step))
  {
    assert !Inside(Of(s.requests, step.r).pc);
  }

  predicate NoConnect(run: seq<Step>) { forall i :: 0 <= i < |run| ==> !run[i].ConnectStart? }

  lemma {:induction false} SeveredRun(s: State, run: seq<Step>)
    requires LocksOk(s) && Severed(s) && Legal(s, run) && NoConnect(run)
    ensures var t := Exec(s, run);
      && Severed(t) && OnlyEmptied(s, t) && t.delivered == s.delivered
      && (ClearedSoFar(s) ==> ClearedSoFar(t))
    decreases |run|
  {
    if run != [] {
      SeveredStep(s, run[0]);
      StepKeepsLocks(s, run[0]);
      SeveredRun(After(s, run[0]), run[1..]);
    }
  }

  predicate NoClear(run: seq<Step>) { forall i :: 0 <= i < |run| ==> !run[i].ClearList? }

  lemma UnclearedStep(s: State, step: Step)
    requires LocksOk(s) && s.session.Down? && s.removed && Enabled(s, step) && !step.ConnectStart? && !step.ClearList?
    ensures var t := After(s, step); t.session.Down? && t.removed && t.paged == s.paged && t.nonpaged == s.nonpaged
  {
    if InsertStep(step) {
      assert !Inside(Of(s.requests, step.r).pc);
      hide LocksOk;
    } else if GetStep(step) {
      assert s.consumer.Idle? || s.consumer.Knocking?;
      hide LocksOk;
    } else {
      hide LocksOk, Set, Of;
    }
  }

  lemma {:induction false} UnclearedRun(s: State, run: seq<Step>)
    requires LocksOk(s) && s.session.Down? && s.removed && Legal(s, run) && NoConnect(run) && NoClear(run)
    ensures Exec(s, run).paged == s.paged && Exec(s, run).nonpaged == s.nonpaged
    decreases |run|
  {
    if run != [] {
      UnclearedStep(s, run[0]);
      StepKeepsLocks(s, run[0]);
      UnclearedRun(After(s, run[0]), run[1..]);
      hide LocksOk, Enabled, After;
    }
  }

  /** From the moment a disconnect has waited for the remove lock until the next connect, no
      request is linked and none is returned.  Whether the queue is cleared depends on the
      setting at that moment. */
  lemma NothingLinkedAfterDisconnect(before: seq<Step>, run: seq<Step>, collect: bool, clear: bool)
    requires Legal(Initial(collect, clear), before)
    requires Enabled(Exec(Initial(collect, clear), before), DisconnectDrained)
    requires Legal(After(Exec(Initial(collect, clear), before), DisconnectDrained), run) && NoConnect(run)
    ensures var s0 := Exec(Initial(collect, clear), before); var s := After(s0, DisconnectDrained); var t := Exec(s, run);
      && OnlyEmptied(s0, t) && t.delivered == s0.delivered
      // with clearing on, the queue is empty when the disconnect is over, and it stays so
      && (s0.clearOnDisconnect ==> !s.session.Down? && (t.session.Down? ==> t.paged == [] && t.nonpaged == []))
      // with clearing off, the disconnect is over, and only RequestQueueClear can empty a list
      && (!s0.clearOnDisconnect ==> s.session.Down? && (NoClear(run) ==> t.paged == s0.paged && t.nonpaged == s0.nonpaged))
  {
    var s0 := Exec(Initial(collect, clear), before);
    RunKeepsLocks(Initial(collect, clear), before);
    StepKeepsLocks(s0, DisconnectDrained);
    var s := After(s0, DisconnectDrained);
    SeveredRun(s, run);
    if !s0.clearOnDisconnect && NoClear(run) { UnclearedRun(s, run); }
    hide LocksOk;
  }

  /** What emptying a list does to the requests on it. */
  lemma EmptiedIs(s: State, pool: Pool, r: Request)
    requires Sound(s) && Enabled(s, ClearList(pool))
    ensures var t := After(s, ClearList(pool));
      && ListOf(t, pool) == [] && (forall other :: other != pool ==> ListOf(t, other) == ListOf(s, other))
      && (if r in ListOf(s, pool) then Of(t.requests, r) == Of(s.requests, r).(place := Detached)
          else Of(t.requests, r) == Of(s.requests, r))
      && t.consumer == s.consumer && t.delivered == s.delivered && t.session == s.session
  {}
}
