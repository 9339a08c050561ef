/** The handshake never gets stuck: from every reached state the threads of every hooked IRP
    can run to their ends, and either of them can be the last to use the context. */
module CompletionLiveness {
  import opened Basics
  import opened EventQueue
  import opened EventQueueInvariants
  import opened EventQueueRundown
  import opened EventQueueSessions
  import opened CompletionProtocol

  ghost predicate Reaches(s: System, t: System) {
    exists run {:trigger LegalRun(s, run)} :: LegalRun(s, run) && Perform(s, run) == t
  }

  lemma ReachesSelf(s: System)
    ensures Reaches(s, s)
  {
    assert LegalRun(s, []) && Perform(s, []) == s;
  }

  lemma ReachesFirst(s: System, a: Action, t: System)
    requires Can(s, a) && Reaches(AfterAction(s, a), t)
    ensures Reaches(s, t)
  {
    hide Can, AfterAction;
    var run :| LegalRun(AfterAction(s, a), run) && Perform(AfterAction(s, a), run) == t;
    assert ([a] + run)[1..] == run && LegalRun(s, [a] + run);
  }

  lemma {:induction false} RunReaches(s: System, run: seq<Action>, t: System)
    requires LegalRun(s, run) && Reaches(Perform(s, run), t)
    ensures Reaches(s, t)
    decreases |run|
  {
    hide Reaches, Can, AfterAction;
    if run != [] {
      RunReaches(AfterAction(s, run[0]), run[1..], t);
      ReachesFirst(s, run[0], t);
    }
  }

  lemma ReachesOn(s: System, u: System, t: System)
    requires Reaches(s, u) && Reaches(u, t)
    ensures Reaches(s, t)
  {
    var run :| LegalRun(s, run) && Perform(s, run) == u;
    RunReaches(s, run, t);
  }

  // ----- an insert that was begun returns

  lemma QueueActs(s: System, step: Step)
    requires SystemOk(s) && Enabled(s.q, step) && !Introduces(step)
    ensures Can(s, Queue(step)) && SystemOk(AfterAction(s, Queue(step)))
    ensures AfterAction(s, Queue(step)).irps == s.irps && AfterAction(s, Queue(step)).q == After(s.q, step)
  {
    hide SystemOk, Enabled, After;
    StepKeepsSystem(s, Queue(step));
  }

  lemma {:induction false} InsertCanReturn(s: System, r: Request)
    requires SystemOk(s) && !At(s.q, r, Fresh)
    ensures exists t :: Reaches(s, t) && SystemOk(t) && t.irps == s.irps && At(t.q, r, Returned)
    decreases InsertLeft(s.q, r)
  {
    if At(s.q, r, Returned) {
      ReachesSelf(s);
    } else {
      var step := NextInsert(s.q, r);
      InsertGoesOn(s.q, r);
      hide SystemOk, Enabled, After, Reaches, Can, AfterAction, NextInsert, InsertLeft;
      QueueActs(s, step);
      var u := AfterAction(s, Queue(step));
      InsertCanReturn(u, r);
      var t :| Reaches(u, t) && SystemOk(t) && t.irps == u.irps && At(t.q, r, Returned);
      ReachesFirst(s, Queue(step), t);
    }
  }

  // ----- the threads of one IRP

  /** The step of the dispatch path, and of the completion path, that is due. */
  function NextDispatch(d: Dispatch, n: nat): Action
    requires !d.DispatchDone?
  {
    match d
    case Hooked => AddReference(n)
    case Referenced => Forward(n)
    case Forwarded => PublishRecord(n)
    case Publishing => DispatchDrop(n)
    case LastOut => DispatchPublish(n)
    case PublishingCompletion => DispatchFree(n)
  }

  function NextCompletion(c: Completion, n: nat): Action
    requires !c.CompletionDone?
  {
    match c
    case Waiting => CompletionStart(n)
    case Running => CompletionStore(n)
    case Stored => CompletionDrop(n)
    case DroppedLast => CompletionFree(n)
    case ContextFreed => CompletionPublish(n)
  }

  function DispatchLeft(d: Dispatch): nat {
    match d
    case Hooked => 6
    case Referenced => 5
    case Forwarded => 4
    case Publishing => 3
    case LastOut => 2
    case PublishingCompletion => 1
    case DispatchDone => 0
  }

  function CompletionLeft(c: Completion): nat {
    match c
    case Waiting => 5
    case Running => 4
    case Stored => 3
    case DroppedLast => 2
    case ContextFreed => 1
    case CompletionDone => 0
  }

  function Left(x: Irp): nat { DispatchLeft(x.d) + CompletionLeft(x.c) }

  /** A step of an IRP's own threads moves that IRP on, and nothing else. */
  lemma ThreadActs(s: System, a: Action)
    requires SystemOk(s) && Can(s, a) && !a.Queue? && !a.HookIrp?
    ensures a.n in s.irps && SystemOk(AfterAction(s, a))
    ensures AfterAction(s, a).irps == s.irps[a.n := Advance(s.irps[a.n], a)]
  {
    hide SystemOk, AfterAction, Can, Advance;
    ThreadKeepsSystem(s, a);
    ThreadChangesOne(s, a);
  }

  /** The dispatch path can move on, if need be after an insert it waits for. */
  lemma DispatchCanMove(s: System, n: nat)
    requires SystemOk(s) && n in s.irps && !s.irps[n].d.DispatchDone?
    ensures exists u :: Reaches(s, u) && SystemOk(u) && u.irps == s.irps && Can(u, NextDispatch(s.irps[n].d, n))
  {
    var x := s.irps[n];
    assert ContextOk(x) && RecordsOk(s.q, x);
    if x.d.Publishing? {
      InsertCanReturn(s, x.record);
    } else if x.d.PublishingCompletion? {
      InsertCanReturn(s, x.completion);
    } else {
      ReachesSelf(s);
    }
    hide SystemOk, Reaches;
  }

  lemma CompletionCanMove(s: System, n: nat)
    requires n in s.irps && !s.irps[n].d.Hooked? && !s.irps[n].d.Referenced? && !s.irps[n].c.CompletionDone?
    ensures Can(s, NextCompletion(s.irps[n].c, n))
  {}

  /** The state can be reached, and the IRP is x there. */
  ghost predicate Becomes(s: System, t: System, n: nat, x: Irp) { Reaches(s, t) && SystemOk(t) && n in t.irps && t.irps[n] == x }

  lemma DispatchMoves(s: System, n: nat)
    requires SystemOk(s) && n in s.irps && !s.irps[n].d.DispatchDone?
    ensures exists t :: Becomes(s, t, n, Advance(s.irps[n], NextDispatch(s.irps[n].d, n)))
  {
    hide SystemOk, Reaches, Can, AfterAction, NextDispatch, Advance, Left;
    var a := NextDispatch(s.irps[n].d, n);
    DispatchCanMove(s, n);
    var u :| Reaches(s, u) && SystemOk(u) && u.irps == s.irps && Can(u, a);
    DispatchIs(s.irps[n].d, n);
    ThreadActs(u, a);
    var t := AfterAction(u, a);
    ReachesSelf(t);
    ReachesFirst(u, a, t);
    ReachesOn(s, u, t);
    assert Becomes(s, t, n, Advance(s.irps[n], a));
  }

  lemma DispatchIs(d: Dispatch, n: nat)
    requires !d.DispatchDone?
    ensures var a := NextDispatch(d, n); !a.Queue? && !a.HookIrp? && a.n == n
  {}

  lemma CompletionIs(c: Completion, n: nat)
    requires !c.CompletionDone?
    ensures var a := NextCompletion(c, n); !a.Queue? && !a.HookIrp? && a.n == n
  {}

  lemma CompletionMoves(s: System, n: nat)
    requires SystemOk(s) && n in s.irps && !s.irps[n].d.Hooked? && !s.irps[n].d.Referenced? && !s.irps[n].c.CompletionDone?
    ensures exists t :: Becomes(s, t, n, Advance(s.irps[n], NextCompletion(s.irps[n].c, n)))
  {
    hide SystemOk, Reaches, Can, AfterAction, NextCompletion, Advance, Left;
    var a := NextCompletion(s.irps[n].c, n);
    CompletionCanMove(s, n);
    CompletionIs(s.irps[n].c, n);
    ThreadActs(s, a);
    var t := AfterAction(s, a);
    ReachesSelf(t);
    ReachesFirst(s, a, t);
    assert Becomes(s, t, n, Advance(s.irps[n], a));
  }

  /** What the thread whose turn it is does to the IRP. */
  function Turn(x: Irp, dispatch: bool): Irp
    requires if dispatch then !x.d.DispatchDone? else !x.c.CompletionDone?
  {
    if dispatch then
      DispatchIs(x.d, 0);
      Advance(x, NextDispatch(x.d, 0))
    else
      CompletionIs(x.c, 0);
      Advance(x, NextCompletion(x.c, 0))
  }

  lemma TurnIsAdvance(x: Irp, n: nat)
    ensures !x.d.DispatchDone? ==> Turn(x, true) == Advance(x, NextDispatch(x.d, n))
    ensures !x.c.CompletionDone? ==> Turn(x, false) == Advance(x, NextCompletion(x.c, n))
  {}

  /** The thread can take its turn: the completion path only after the IRP was forwarded. */
  predicate HasTurn(x: Irp, dispatch: bool) {
    if dispatch then !x.d.DispatchDone? else !x.c.CompletionDone? && !x.d.Hooked? && !x.d.Referenced?
  }

  lemma TurnMoves(s: System, n: nat, dispatch: bool)
    requires SystemOk(s) && n in s.irps && HasTurn(s.irps[n], dispatch)
    ensures exists t :: Becomes(s, t, n, Turn(s.irps[n], dispatch))
  {
    TurnIsAdvance(s.irps[n], n);
    hide SystemOk, Becomes, NextDispatch, NextCompletion, Advance, Turn;
    if dispatch { DispatchMoves(s, n); } else { CompletionMoves(s, n); }
  }

  /** The dispatch path moves until the IRP is forwarded, and when the completion path is done. */
  predicate DispatchIsDue(x: Irp) { x.d.Hooked? || x.d.Referenced? || x.c.CompletionDone? }

  lemma TurnsEnd(x: Irp)
    requires ContextOk(x) && !BothDone(x)
    ensures HasTurn(x, DispatchIsDue(x))
    ensures var y := Turn(x, DispatchIsDue(x)); Left(y) < Left(x) && y.completion == x.completion
  {}

  ghost predicate Finished(t: System, n: nat, completion: Request) {
    SystemOk(t) && n in t.irps && BothDone(t.irps[n]) && t.irps[n].completion == completion && At(t.q, completion, Returned)
  }

  lemma DoneCanReturn(s: System, n: nat)
    requires SystemOk(s) && n in s.irps && BothDone(s.irps[n])
    ensures exists t :: Reaches(s, t) && Finished(t, n, s.irps[n].completion)
  {
    assert RecordsOk(s.q, s.irps[n]);
    InsertCanReturn(s, s.irps[n].completion);
    hide SystemOk, Reaches;
  }

  /** From every reached state both threads of every hooked IRP can run to their ends, and the
      insert of the completion record then returns. */
  lemma {:induction false} CanFinish(s: System, n: nat)
    requires SystemOk(s) && n in s.irps
    ensures exists t :: Reaches(s, t) && Finished(t, n, s.irps[n].completion)
    decreases Left(s.irps[n])
  {
    var x := s.irps[n];
    assert ContextOk(x);
    hide SystemOk, Reaches, Turn, Left, HasTurn, DispatchIsDue, ContextOk, Finished, BothDone;
    if BothDone(x) {
      DoneCanReturn(s, n);
    } else {
      var dispatch := DispatchIsDue(x);
      TurnsEnd(x);
      TurnMoves(s, n, dispatch);
      var u :| Becomes(s, u, n, Turn(x, dispatch));
      CanFinish(u, n);
      var t :| Reaches(u, t) && Finished(t, n, x.completion);
      ReachesOn(s, u, t);
    }
  }

  /** The thread that is to be last still holds its reference, and the other one has not found
      itself the last. */
  predicate Undecided(x: Irp, dispatchLast: bool) {
    if dispatchLast then (x.d.Hooked? || DispatchHolds(x.d)) && (CompletionHolds(x.c) || x.c.CompletionDone?)
    else CompletionHolds(x.c) && (x.d.Hooked? || DispatchHolds(x.d) || x.d.DispatchDone?)
  }

  predicate Last(x: Irp, dispatchLast: bool) { if dispatchLast then x.d.LastOut? else x.c.DroppedLast? }

  /** The dispatch path moves until the IRP is forwarded; then the thread that is not to be last. */
  predicate DispatchFirst(x: Irp, dispatchLast: bool) {
    x.d.Hooked? || x.d.Referenced? || (if dispatchLast then x.c.CompletionDone? else !x.d.DispatchDone?)
  }

  lemma TurnsDecide(x: Irp, dispatchLast: bool)
    requires ContextOk(x) && Undecided(x, dispatchLast)
    ensures HasTurn(x, DispatchFirst(x, dispatchLast))
    ensures var y := Turn(x, DispatchFirst(x, dispatchLast)); Left(y) < Left(x) && (Last(y, dispatchLast) || Undecided(y, dispatchLast))
  {}

  /** From every reached state in which the threads of an IRP still hold their references, either
      of them can be the one that drops the last one. */
  lemma {:induction false} EitherCanBeLast(s: System, n: nat, dispatchLast: bool)
    requires SystemOk(s) && n in s.irps && Undecided(s.irps[n], dispatchLast)
    ensures exists t :: Reaches(s, t) && n in t.irps && Last(t.irps[n], dispatchLast)
    decreases Left(s.irps[n])
  {
    var x := s.irps[n];
    assert ContextOk(x);
    hide SystemOk, Reaches, Turn, Left, HasTurn, DispatchFirst, ContextOk, Last, Undecided;
    TurnsDecide(x, dispatchLast);
    TurnMoves(s, n, DispatchFirst(x, dispatchLast));
    var u :| Becomes(s, u, n, Turn(x, DispatchFirst(x, dispatchLast)));
    if !Last(u.irps[n], dispatchLast) {
      EitherCanBeLast(u, n, dispatchLast);
      var t :| Reaches(u, t) && n in t.irps && Last(t.irps[n], dispatchLast);
      ReachesOn(s, u, t);
    }
  }

  /** After every run: every hooked IRP can be brought to its end, with the context freed once and
      both records inserted; and while both threads hold their references, either can be last. */
  lemma HandshakeNeverSticks(run: seq<Action>, collect: bool, clear: bool, n: nat)
    requires LegalRun(Start(collect, clear), run) && n in Perform(Start(collect, clear), run).irps
    ensures var s := Perform(Start(collect, clear), run); var x := s.irps[n];
      && (exists t :: Reaches(s, t) && n in t.irps && BothDone(t.irps[n]) && t.irps[n].frees == 1
                      && At(t.q, t.irps[n].record, Returned) && At(t.q, t.irps[n].completion, Returned))
      && ((x.d.Hooked? || x.d.Referenced? || x.d.Forwarded? || x.d.Publishing?) && (x.c.Waiting? || x.c.Running? || x.c.Stored?) ==>
            && (exists t :: Reaches(s, t) && n in t.irps && t.irps[n].d.LastOut?)
            && (exists t :: Reaches(s, t) && n in t.irps && t.irps[n].c.DroppedLast?))
  {
    hide Reaches, LegalRun, Perform;
    RunKeepsSystem(Start(collect, clear), run);
    var s := Perform(Start(collect, clear), run);
    CanFinish(s, n);
    var t :| Reaches(s, t) && Finished(t, n, s.irps[n].completion);
    assert ContextOk(t.irps[n]) && RecordsOk(t.q, t.irps[n]);
    hide SystemOk, RecordsOk;
    var x := s.irps[n];
    if (x.d.Hooked? || DispatchHolds(x.d)) && CompletionHolds(x.c) {
      EitherCanBeLast(s, n, true);
      EitherCanBeLast(s, n, false);
    }
  }
}
