/** Sessions: who holds the remove lock in every reached state, and that neither a connect nor a
    disconnect ever gets stuck. */
module EventQueueSessions {
  import opened Basics
  import opened EventQueue
  import opened EventQueueInvariants
  import opened EventQueueRundown
  import opened EventQueueGates
  import opened EventQueueDelivery

  /** Of RequestQueueConnect and RequestQueueDisconnect, the steps that end a phase. */
  function Phase(s: Session, step: Step, clearOnDisconnect: bool): Session {
    match step
    case ConnectStart => Connecting
    case ConnectFail => Down
    case ConnectFinish => Up
    case DisconnectStart => Draining
    case DisconnectDrained => if clearOnDisconnect then Clearing else Down
    case DisconnectClearNonPaged => ClearingPaged
    case DisconnectClearPaged => Down
    case _ => s
  }

  // ----- who holds the lock

  /** The holders are exactly the connected session, the get that has acquired the lock, and
      inserts between acquiring and releasing it. */
  ghost predicate HoldersExact(s: State) {
    && (SessionHolder in s.holders <==> s.session.Connecting? || s.session.Up?)
    && (Getter in s.holders <==> !s.consumer.Idle? && !s.consumer.Knocking?)
    && (forall r {:trigger Inserter(r) in s.holders} :: Inserter(r) in s.holders ==> Inside(Of(s.requests, r).pc) && r !in s.snapshot)
    && (forall r {:trigger r in s.snapshot} :: r in s.snapshot ==> Inside(Of(s.requests, r).pc) || At(s, r, Returned))
  }

  lemma EntryKeepsHolders(s: State, step: Step)
    requires LocksOk(s) && HoldersExact(s) && Enabled(s, step) && EntryStep(step)
    ensures HoldersExact(After(s, step))
  {
    assert Inserter(step.r) in s.holders || step.r in s.snapshot ==> Inside(Of(s.requests, step.r).pc) || At(s, step.r, Returned);
  }

  predicate CountStep(step: Step) { step.Link? || step.CountList? || step.CountTotal? }

  lemma CountKeepsHolders(s: State, step: Step)
    requires LocksOk(s) && HoldersExact(s) && Enabled(s, step) && CountStep(step)
    ensures HoldersExact(After(s, step))
  {}

  lemma ReturnKeepsHolders(s: State, step: Step)
    requires LocksOk(s) && HoldersExact(s) && Enabled(s, step) && (step.Return? || step.SnapshotInsert?)
    ensures HoldersExact(After(s, step))
  {
    assert Inserter(step.r) in s.holders || step.r in s.snapshot ==> Inside(Of(s.requests, step.r).pc) || At(s, step.r, Returned);
  }

  lemma InsertKeepsHolders(s: State, step: Step)
    requires LocksOk(s) && HoldersExact(s) && Enabled(s, step) && InsertStep(step)
    ensures HoldersExact(After(s, step))
  {
    hide HoldersExact, LocksOk, After, Enabled;
    if EntryStep(step) { EntryKeepsHolders(s, step); }
    else if CountStep(step) { CountKeepsHolders(s, step); }
    else { ReturnKeepsHolders(s, step); }
  }

  /** The get holds the lock from its acquisition to its release. */
  ghost predicate HoldsMeanwhile(s: State, step: Step, t: State) {
    && (t.consumer.Idle? || t.consumer.Knocking? <==> step.GetEnter? || step.GetRelease? || (step.GetAcquire? && s.removed))
    && t.holders == (if step.GetAcquire? && !s.removed then s.holders + {Getter}
                     else if step.GetRelease? then s.holders - {Getter} else s.holders)
  }

  lemma TakingHolds(s: State, step: Step)
    requires Enabled(s, step) && TakingStep(step)
    ensures HoldsMeanwhile(s, step, After(s, step))
  {}

  lemma GetHolds(s: State, step: Step)
    requires Enabled(s, step) && GetStep(step)
    ensures HoldsMeanwhile(s, step, After(s, step))
  {
    if TakingStep(step) {
      TakingHolds(s, step);
      hide HoldsMeanwhile, After, Enabled;
    } else if step.Choose? {
      ChosenIs(s);
      ChooseKeepsPcs(s);
      hide After, Enabled;
    } else {
      assert After(s, step).requests == s.requests;
    }
  }

  lemma GetKeepsHolders(s: State, step: Step)
    requires LocksOk(s) && HoldersExact(s) && Enabled(s, step) && GetStep(step)
    ensures HoldersExact(After(s, step))
  {
    hide LocksOk, After;
    GetKeepsPcs(s, step);
    GetHolds(s, step);
    assert step.GetEnter? || step.GetAcquire? <==> s.consumer.Idle? || s.consumer.Knocking?;
  }

  predicate ClearStep(step: Step) { FreeStep(step) || EmptyStep(step) }

  lemma FreeKeepsPcs(s: State, step: Step)
    requires Enabled(s, step) && FreeStep(step)
    ensures var t := After(s, step);
      && (forall r {:trigger Of(t.requests, r)} :: Of(t.requests, r).pc == Of(s.requests, r).pc)
      && t.snapshot == s.snapshot && t.session == s.session && t.holders == s.holders && t.consumer == s.consumer
  {}

  lemma EmptyKeepsPcs(s: State, step: Step)
    requires Enabled(s, step) && EmptyStep(step)
    ensures var t := After(s, step);
      && (forall r {:trigger Of(t.requests, r)} :: Of(t.requests, r).pc == Of(s.requests, r).pc)
      && t.snapshot == s.snapshot && t.holders == s.holders && t.consumer == s.consumer
      && (t.session.Connecting? || t.session.Up? <==> s.session.Connecting? || s.session.Up?)
  {}

  lemma ClearKeepsHolders(s: State, step: Step)
    requires HoldersExact(s) && Enabled(s, step) && ClearStep(step)
    ensures HoldersExact(After(s, step))
  {
    hide After, Enabled;
    if FreeStep(step) { FreeKeepsPcs(s, step); } else { EmptyKeepsPcs(s, step); }
  }

  lemma OthersKeepHolders(s: State, step: Step)
    requires LocksOk(s) && HoldersExact(s) && Enabled(s, step) && !InsertStep(step) && !GetStep(step)
    ensures HoldersExact(After(s, step))
  {
    if ClearStep(step) {
      ClearKeepsHolders(s, step);
      hide HoldersExact, LocksOk, After;
    } else {
      hide Set;
    }
  }

  lemma StepKeepsHolders(s: State, step: Step)
    requires LocksOk(s) && HoldersExact(s) && Enabled(s, step)
    ensures HoldersExact(After(s, step))
  {
    hide HoldersExact, LocksOk, After;
    if InsertStep(step) { InsertKeepsHolders(s, step); }
    else if GetStep(step) { GetKeepsHolders(s, step); }
    else { OthersKeepHolders(s, step); }
  }

  /** Everything that is known of a reached state. */
  ghost predicate Known(s: State) { Sound(s) && LocksOk(s) && HoldersExact(s) }

  lemma StepKeepsKnown(s: State, step: Step)
    requires Known(s) && Enabled(s, step)
    ensures Known(After(s, step))
  {
    hide Sound, LocksOk, HoldersExact, After, Enabled;
    StepKeepsSound(s, step);
    StepKeepsLocks(s, step);
    StepKeepsHolders(s, step);
  }

  /** In every state of every run. */
  lemma {:induction false} RunKeepsKnown(s: State, run: seq<Step>)
    requires Known(s) && Legal(s, run)
    ensures Known(Exec(s, run))
    decreases |run|
  {
    hide Known, After, Enabled;
    if run != [] {
      StepKeepsKnown(s, run[0]);
      RunKeepsKnown(After(s, run[0]), run[1..]);
    }
  }

  // ----- an insert, and a get, that was begun returns

  function Rest(pc: Pc): nat {
    match pc
    case Fresh => 8
    case Entered => 7
    case Admitted => 6
    case Locked => 5
    case Numbered => 4
    case Linked => 3
    case ListCounted => 2
    case Counted => 1
    case Returned => 0
  }

  /** The next step towards the end of the insert of r.  Where the consumer holds the list
      lock, it moves first. */
  function NextInsert(q: State, r: Request): Step
    requires !At(q, r, Fresh) && !At(q, r, Returned)
  {
    match Of(q.requests, r).pc
    case Entered => if Connected(q) || q.collect then PassGate(r) else Step.Refuse(r, false)
    case Admitted => Acquire(r)
    case Locked => Number(r)
    case Numbered => if r.pool.Paged? && PagedLocked(q) then UnlinkPaged else Link(r)
    case Linked => CountList(r)
    case ListCounted => CountTotal(r)
    case Counted => Return(r)
  }

  function InsertLeft(q: State, r: Request): nat { 2 * Rest(Of(q.requests, r).pc) + One(PagedLocked(q)) }

  ghost predicate InsertContinues(q: State, r: Request, step: Step) {
    && Enabled(q, step) && (step.UnlinkPaged? || (InsertStep(step) && !step.Call? && !step.SnapshotInsert? && step.r == r))
    && InsertLeft(After(q, step), r) < InsertLeft(q, r) && !At(After(q, step), r, Fresh)
  }

  lemma EntryProceeds(q: State, r: Request)
    requires At(q, r, Entered) || At(q, r, Admitted) || At(q, r, Locked)
    ensures InsertContinues(q, r, NextInsert(q, r))
  {}

  lemma InsertGoesOn(q: State, r: Request)
    requires !At(q, r, Fresh) && !At(q, r, Returned) && (q.consumer.Taking? ==> q.paged != [])
    ensures InsertContinues(q, r, NextInsert(q, r))
  {
    var step := NextInsert(q, r);
    if EntryStep(step) {
      EntryProceeds(q, r);
      hide InsertContinues;
    } else if step.UnlinkPaged? {
      GetKeepsPcs(q, step);
    }
  }

  /** Nothing about the session has changed, and who has returned has returned. */
  ghost predicate SameSession(s: State, t: State) {
    && t.session == s.session && t.removed == s.removed && t.snapshot == s.snapshot && t.clearOnDisconnect == s.clearOnDisconnect
    && forall x {:trigger Of(t.requests, x)} :: Of(s.requests, x).pc.Returned? ==> Of(t.requests, x).pc.Returned?
  }

  lemma EntryKeepsSession(s: State, step: Step)
    requires Enabled(s, step) && EntryStep(step)
    ensures SameSession(s, After(s, step)) && After(s, step).holders - {Inserter(step.r)} == s.holders - {Inserter(step.r)}
  {}

  lemma InsertKeepsSession(s: State, step: Step)
    requires Enabled(s, step) && InsertStep(step) && !step.SnapshotInsert?
    ensures SameSession(s, After(s, step)) && After(s, step).holders - {Inserter(step.r)} == s.holders - {Inserter(step.r)}
  {
    if EntryStep(step) {
      EntryKeepsSession(s, step);
      hide After, Enabled, SameSession;
    }
  }

  lemma GetKeepsSetting(s: State, step: Step)
    requires Enabled(s, step) && GetStep(step)
    ensures After(s, step).clearOnDisconnect == s.clearOnDisconnect
  {
    hide Set, Of;
  }

  lemma GetKeepsSession(s: State, step: Step)
    requires Enabled(s, step) && GetStep(step)
    ensures SameSession(s, After(s, step))
  {
    GetKeepsPcs(s, step);
    GetKeepsSetting(s, step);
    hide After;
  }

  /** Steps of the get until the lock is released, at most. */
  function GetLeft(c: Consumer): nat {
    match c
    case Idle => 0
    case Knocking => 0
    case Ready => 7
    case Taking(_) => 6
    case Unlinked(_) => 5
    case ListDiscounted(_) => 4
    case Holding(_) => 3
    case PutBack(_) => 3
    case ListRecounted(_) => 2
    case Leaving => 1
  }

  lemma GetContinues(s: State)
    requires GetLeft(s.consumer) > 0 && (s.consumer.Taking? ==> s.paged != [])
    ensures Enabled(s, NextGet(s.consumer)) && GetStep(NextGet(s.consumer))
    ensures GetLeft(After(s, NextGet(s.consumer)).consumer) < GetLeft(s.consumer)
  {
    if s.consumer.Ready? {
      ChosenIs(s);
      hide After;
    } else {
      hide Set, Of;
    }
  }

  lemma SameSessionOn(s: State, u: State, t: State)
    requires SameSession(s, u) && SameSession(u, t)
    ensures SameSession(s, t)
  {}

  /** t can be reached from s in the same session. */
  ghost predicate Settles(s: State, t: State) { Leads(s, t) && Known(t) && SameSession(s, t) }

  lemma SettlesFirst(s: State, step: Step, t: State)
    requires Enabled(s, step) && SameSession(s, After(s, step)) && Settles(After(s, step), t)
    ensures Settles(s, t)
  {
    LeadsFirst(s, step, t);
    SameSessionOn(s, After(s, step), t);
    hide Leads, Known, After, Enabled, SameSession;
  }

  lemma SettlesOn(s: State, u: State, t: State)
    requires Settles(s, u) && Settles(u, t)
    ensures Settles(s, t)
  {
    hide Leads, Known, SameSession;
    LeadsOn(s, u, t);
    SameSessionOn(s, u, t);
  }

  lemma SettlesSelf(s: State)
    requires Known(s)
    ensures Settles(s, s)
  {
    LeadsSelf(s);
    hide Leads, Known;
  }

  /** The get under way can end, and then it does not hold the lock. */
  lemma {:induction false} GetEnds(s: State)
    requires Known(s)
    ensures exists t :: Settles(s, t) && t.holders == s.holders - {Getter}
    decreases GetLeft(s.consumer)
  {
    if GetLeft(s.consumer) == 0 {
      SettlesSelf(s);
      hide Settles;
    } else {
      var step := NextGet(s.consumer);
      GetContinues(s);
      hide Known, After, Enabled, NextGet, GetLeft, Settles, SameSession;
      GetHolds(s, step);
      GetKeepsSession(s, step);
      StepKeepsKnown(s, step);
      GetEnds(After(s, step));
      var t :| Settles(After(s, step), t) && t.holders == After(s, step).holders - {Getter};
      SettlesFirst(s, step, t);
      assert !step.GetAcquire? || t.holders == s.holders - {Getter};
    }
  }

  /** The insert of r, once begun, can return, and then it does not hold the lock. */
  lemma {:induction false} InsertEnds(s: State, r: Request)
    requires Known(s) && !At(s, r, Fresh)
    ensures exists t :: Settles(s, t) && At(t, r, Returned) && t.holders == s.holders - {Inserter(r)}
    decreases InsertLeft(s, r)
  {
    if At(s, r, Returned) {
      SettlesSelf(s);
      assert Inserter(r) !in s.holders;
      hide Settles;
    } else {
      var step := NextInsert(s, r);
      InsertGoesOn(s, r);
      hide Known, After, Enabled, NextInsert, InsertLeft, Settles, SameSession, At;
      if step.UnlinkPaged? {
        GetHolds(s, step);
        GetKeepsSession(s, step);
      } else {
        InsertKeepsSession(s, step);
      }
      StepKeepsKnown(s, step);
      InsertEnds(After(s, step), r);
      var t :| Settles(After(s, step), t) && At(t, r, Returned) && t.holders == After(s, step).holders - {Inserter(r)};
      SettlesFirst(s, step, t);
    }
  }

  lemma SettledIsKnown(s: State, t: State)
    requires Settles(s, t)
    ensures Known(t) && SameSession(s, t)
  {}

  lemma OneReleases(s: State, h: Holder)
    requires Known(s) && h in s.holders && h != SessionHolder
    ensures exists t :: Settles(s, t) && t.holders == s.holders - {h}
  {
    if h.Getter? {
      GetEnds(s);
    } else {
      assert Inserter(h.r) in s.holders;
      InsertEnds(s, h.r);
    }
    hide Settles, Known;
  }

  /** Everybody but the session can give up the lock. */
  lemma {:induction false} AllRelease(s: State)
    requires Known(s)
    ensures exists t :: Settles(s, t) && t.holders == s.holders * {SessionHolder}
    decreases |s.holders|
  {
    hide Settles, Known, SameSession;
    if exists h :: h in s.holders && h != SessionHolder {
      var h :| h in s.holders && h != SessionHolder;
      OneReleases(s, h);
      var u :| Settles(s, u) && u.holders == s.holders - {h};
      SettledIsKnown(s, u);
      AllRelease(u);
      var t :| Settles(u, t) && t.holders == u.holders * {SessionHolder};
      SettlesOn(s, u, t);
      assert t.holders == s.holders * {SessionHolder};
    } else {
      SettlesSelf(s);
      assert s.holders == s.holders * {SessionHolder};
    }
  }

  ghost function Unreturned(s: State): set<Request> { set r | r in s.snapshot && !At(s, r, Returned) }

  /** The inserts of a snapshot can all return. */
  lemma {:induction false} SnapshotReturns(s: State)
    requires Known(s)
    ensures exists t :: Settles(s, t) && Unreturned(t) == {}
    decreases |Unreturned(s)|
  {
    assert HoldersExact(s);
    hide Settles, Sound, LocksOk, Known;
    if r :| r in Unreturned(s) {
      InsertEnds(s, r);
      var u :| Settles(s, u) && At(u, r, Returned);
      SettledIsKnown(s, u);
      FewerUnreturned(s, u, r);
      SnapshotReturns(u);
      var t :| Settles(u, t) && Unreturned(t) == {};
      SettlesOn(s, u, t);
    } else {
      SettlesSelf(s);
    }
  }

  lemma FewerUnreturned(s: State, u: State, r: Request)
    requires SameSession(s, u) && r in Unreturned(s) && At(u, r, Returned)
    ensures |Unreturned(u)| < |Unreturned(s)|
  {
    assert Unreturned(u) <= Unreturned(s) - {r};
    Smaller(Unreturned(u), Unreturned(s) - {r});
  }

  lemma {:induction false} Smaller<T>(a: set<T>, b: set<T>)
    requires a <= b
    ensures |a| <= |b|
  {
    assert b == a + (b - a);
  }

  // ----- sessions begin and end

  /** A phase can be left for the next one. */
  ghost predicate GoesOn(s: State, session: Session) { exists t :: Leads(s, t) && Known(t) && t.session == session }

  lemma GoesFirst(s: State, step: Step, session: Session)
    requires Known(s) && Enabled(s, step) && GoesOn(After(s, step), session)
    ensures GoesOn(s, session)
  {
    hide Leads, Known, After, Enabled;
    var t :| Leads(After(s, step), t) && Known(t) && t.session == session;
    LeadsFirst(s, step, t);
  }

  lemma GoesThere(s: State)
    requires Known(s)
    ensures GoesOn(s, s.session)
  {
    LeadsSelf(s);
    hide Leads, Known;
  }

  lemma GoesAfter(s: State, u: State, session: Session)
    requires Settles(s, u) && GoesOn(u, session)
    ensures GoesOn(s, session)
  {
    hide Leads, Known;
    var t :| Leads(u, t) && Known(t) && t.session == session;
    LeadsOn(s, u, t);
  }

  /** What a step does to the session, and to the settings. */
  ghost predicate PhaseRight(s: State, step: Step, t: State) {
    && t.session == Phase(s.session, step, s.clearOnDisconnect)
    && (if step.Configure? then t.collect == step.collect && t.clearOnDisconnect == step.clearOnDisconnect
        else t.collect == s.collect && t.clearOnDisconnect == s.clearOnDisconnect)
  }

  lemma InsertKeepsPhase(s: State, step: Step)
    requires Enabled(s, step) && InsertStep(step)
    ensures PhaseRight(s, step, After(s, step))
  {
    hide Set, Of;
  }

  lemma GetKeepsPhase(s: State, step: Step)
    requires Enabled(s, step) && GetStep(step)
    ensures PhaseRight(s, step, After(s, step))
  {
    hide Set, Of;
  }

  lemma PhaseIs(s: State, step: Step)
    requires Enabled(s, step)
    ensures PhaseRight(s, step, After(s, step))
  {
    if InsertStep(step) {
      InsertKeepsPhase(s, step);
      hide PhaseRight, After;
    } else if GetStep(step) {
      GetKeepsPhase(s, step);
      hide PhaseRight, After;
    } else {
      hide Set, Of, DetachAll;
    }
  }

  lemma ConnectEnds(s: State)
    requires Known(s) && s.session.Connecting?
    ensures GoesOn(s, Up)
  {
    hide Leads, LocksOk, HoldersExact, Sound, GoesOn, After;
    SnapshotReturns(s);
    var u :| Settles(s, u) && Unreturned(u) == {};
    forall r | r in u.snapshot ensures At(u, r, Returned) { assert r !in Unreturned(u); }
    StepKeepsKnown(u, ConnectFinish);
    GoesThere(After(u, ConnectFinish));
    PhaseIs(u, ConnectFinish);
    GoesFirst(u, ConnectFinish, Up);
    GoesAfter(s, u, Up);
  }

  lemma ClearingEnds(s: State)
    requires Known(s) && (s.session.Clearing? || s.session.ClearingPaged?)
    ensures GoesOn(s, Down)
    decreases s.session.Clearing?
  {
    hide Leads, LocksOk, HoldersExact, Sound, GoesOn, After;
    LastIsUnlocked(s);
    if s.session.Clearing? {
      var u := After(s, DisconnectClearNonPaged);
      StepKeepsKnown(s, DisconnectClearNonPaged);
      PhaseIs(s, DisconnectClearNonPaged);
      ClearingEnds(u);
      GoesFirst(s, DisconnectClearNonPaged, Down);
    } else {
      StepKeepsKnown(s, DisconnectClearPaged);
      PhaseIs(s, DisconnectClearPaged);
      GoesThere(After(s, DisconnectClearPaged));
      GoesFirst(s, DisconnectClearPaged, Down);
    }
  }

  /** Nobody gets once a disconnect has waited for the lock. */
  lemma LastIsUnlocked(s: State)
    requires Known(s) && Severed(s)
    ensures !PagedLocked(s)
  {
    assert s.holders == {};
    hide Sound;
  }

  lemma DrainingEnds(s: State)
    requires Known(s) && s.session.Draining?
    ensures GoesOn(s, Down)
  {
    hide Leads, LocksOk, Sound, GoesOn, After;
    AllRelease(s);
    var u :| Settles(s, u) && u.holders == s.holders * {SessionHolder};
    assert SessionHolder !in s.holders && u.holders == {};
    hide HoldersExact;
    var v := After(u, DisconnectDrained);
    StepKeepsKnown(u, DisconnectDrained);
    PhaseIs(u, DisconnectDrained);
    if v.session.Clearing? { ClearingEnds(v); } else { GoesThere(v); }
    GoesFirst(u, DisconnectDrained, Down);
    GoesAfter(s, u, Down);
  }

  lemma UpEnds(s: State)
    requires Known(s) && s.session.Up?
    ensures GoesOn(s, Down)
  {
    hide Leads, LocksOk, HoldersExact, Sound, GoesOn, After;
    StepKeepsKnown(s, DisconnectStart);
    PhaseIs(s, DisconnectStart);
    DrainingEnds(After(s, DisconnectStart));
    GoesFirst(s, DisconnectStart, Down);
  }

  lemma DownEnds(s: State)
    requires Known(s) && s.session.Down?
    ensures GoesOn(s, Up)
  {
    hide Leads, LocksOk, Sound, GoesOn, After;
    AllRelease(s);
    var u :| Settles(s, u) && u.holders == s.holders * {SessionHolder};
    assert SessionHolder !in s.holders && u.holders == {};
    hide HoldersExact;
    StepKeepsKnown(u, ConnectStart);
    PhaseIs(u, ConnectStart);
    ConnectEnds(After(u, ConnectStart));
    GoesFirst(u, ConnectStart, Up);
    GoesAfter(s, u, Up);
  }

  lemma GoesBeyond(s: State, first: Session, second: Session)
    requires GoesOn(s, first) && (forall t :: Known(t) && t.session == first ==> GoesOn(t, second))
    ensures GoesOn(s, second)
  {
    hide Leads, Known;
    var u :| Leads(s, u) && Known(u) && u.session == first;
    var t :| Leads(u, t) && Known(t) && t.session == second;
    LeadsOn(s, u, t);
  }

  lemma KnownNeverSticks(s: State)
    requires Known(s)
    ensures GoesOn(s, Up) && GoesOn(s, Down)
  {
    hide Known, GoesOn;
    forall t | Known(t) && t.session == Up ensures GoesOn(t, Down) { UpEnds(t); }
    forall t | Known(t) && t.session == Down ensures GoesOn(t, Up) { DownEnds(t); }
    match s.session {
      case Up => GoesThere(s);
      case Connecting => ConnectEnds(s);
      case Down => GoesThere(s);
      case Draining => DrainingEnds(s);
      case _ => ClearingEnds(s);
    }
    if GoesOn(s, Up) { GoesBeyond(s, Up, Down); } else { GoesBeyond(s, Down, Up); }
  }

  /** After every run the queue can still be connected, and disconnected: whoever holds the remove
      lock can be waited for. */
  lemma SessionNeverSticks(run: seq<Step>, collect: bool, clear: bool)
    requires Legal(Initial(collect, clear), run)
    ensures var s := Exec(Initial(collect, clear), run);
      (exists t :: Leads(s, t) && t.session.Up?) && (exists t :: Leads(s, t) && t.session.Down?)
  {
    assert Known(Initial(collect, clear));
    hide Known, Leads;
    RunKeepsKnown(Initial(collect, clear), run);
    KnownNeverSticks(Exec(Initial(collect, clear), run));
  }

  /** Who holds the remove lock, in every state of every run. */
  lemma WhoHoldsTheLock(run: seq<Step>, collect: bool, clear: bool, h: Holder)
    requires Legal(Initial(collect, clear), run)
    ensures var s := Exec(Initial(collect, clear), run);
      h in s.holders <==>
        match h
        case SessionHolder => s.session.Connecting? || s.session.Up?
        case Getter => !s.consumer.Idle? && !s.consumer.Knocking?
        case Inserter(r) => Inside(Of(s.requests, r).pc) && r !in s.snapshot
  {
    assert Known(Initial(collect, clear));
    RunKeepsKnown(Initial(collect, clear), run);
    hide Sound;
  }

  // ----- gets before the first connect

  predicate NeverConnects(run: seq<Step>) { forall i :: 0 <= i < |run| ==> !run[i].ConnectFinish? }

  lemma UnconnectedStep(s: State, step: Step)
    requires Enabled(s, step) && s.consumer.Idle? && !Connected(s) && !step.ConnectFinish?
    ensures var t := After(s, step); t.consumer.Idle? && !Connected(t) && t.delivered == s.delivered
  {
    hide Set, Of;
    if InsertStep(step) { InsertKeepsPhase(s, step); } else { PhaseIs(s, step); }
  }

  /** Without a connect nothing is returned. */
  lemma {:induction false} NothingReturnedUnconnected(s: State, run: seq<Step>)
    requires Legal(s, run) && s.consumer.Idle? && !Connected(s) && NeverConnects(run)
    ensures Exec(s, run).consumer.Idle? && Exec(s, run).delivered == s.delivered
    decreases |run|
  {
    hide After, Enabled;
    if run != [] {
      UnconnectedStep(s, run[0]);
      NothingReturnedUnconnected(After(s, run[0]), run[1..]);
    }
  }

}
