/** The handshake between the dispatch path and the completion path of every hooked
    IRP, running on top of the event queue.

    Two assumptions: the IRP record, the context and the completion record are all
    allocated, and the I/O manager completes an IRP once, after it was forwarded. */
module CompletionProtocol {
  import opened Basics
  import opened EventQueue
  import opened EventQueueInvariants
  import opened EventQueueFifo
  import opened EventQueueRundown
  import opened EventQueueGates

  datatype Dispatch =
    | Hooked                // context allocated, one reference
    | Referenced            // second reference taken for the IRP record
    | Forwarded             // the original dispatch routine was called
    | Publishing            // inside RequestQueueInsert for the IRP record
    | LastOut               // its decrement reached zero
    | PublishingCompletion  // inside RequestQueueInsert for the completion record
    | DispatchDone

  datatype Completion =
    | Waiting               // not called yet
    | Running               // completion record under construction
    | Stored                // completion record stored in the context
    | DroppedLast           // its decrement reached zero
    | ContextFreed          // about to insert the completion record
    | CompletionDone

  /** One hooked IRP: its two records, both threads, and its context. */
  datatype Irp = Irp(record: Request, completion: Request, d: Dispatch, c: Completion,
                     refs: int, stored: bool, live: bool, frees: nat)

  datatype System = System(q: State, irps: map<nat, Irp>)

  datatype Action =
    | Queue(step: Step)
    | HookIrp(n: nat, record: Request, completion: Request)
    | AddReference(n: nat) | Forward(n: nat) | PublishRecord(n: nat) | DispatchDrop(n: nat)
    | DispatchPublish(n: nat) | DispatchFree(n: nat)
    | CompletionStart(n: nat) | CompletionStore(n: nat) | CompletionDrop(n: nat)
    | CompletionFree(n: nat) | CompletionPublish(n: nat)

  function Start(collect: bool, clear: bool): System { System(Initial(collect, clear), map[]) }

  ghost predicate Owned(irps: map<nat, Irp>, r: Request) {
    exists n :: n in irps && (irps[n].record == r || irps[n].completion == r)
  }

  predicate Introduces(step: Step) { step.Call? || step.SnapshotInsert? }

  ghost predicate Can(s: System, a: Action) {
    match a
    // other requests come and go as they like
    case Queue(step) => Enabled(s.q, step) && (Introduces(step) ==> !Owned(s.irps, step.r))
    case HookIrp(n, record, completion) =>
      && n !in s.irps && record != completion && At(s.q, record, Fresh) && At(s.q, completion, Fresh)
      && !Owned(s.irps, record) && !Owned(s.irps, completion)
    case AddReference(n) => n in s.irps && s.irps[n].d.Hooked?
    case Forward(n) => n in s.irps && s.irps[n].d.Referenced?
    case PublishRecord(n) => n in s.irps && s.irps[n].d.Forwarded?
    case DispatchDrop(n) => n in s.irps && s.irps[n].d.Publishing? && At(s.q, s.irps[n].record, Returned)
    case DispatchPublish(n) => n in s.irps && s.irps[n].d.LastOut?
    case DispatchFree(n) =>
      n in s.irps && s.irps[n].d.PublishingCompletion? && At(s.q, s.irps[n].completion, Returned)
    case CompletionStart(n) =>
      n in s.irps && s.irps[n].c.Waiting? && !s.irps[n].d.Hooked? && !s.irps[n].d.Referenced?
    case CompletionStore(n) => n in s.irps && s.irps[n].c.Running?
    case CompletionDrop(n) => n in s.irps && s.irps[n].c.Stored?
    case CompletionFree(n) => n in s.irps && s.irps[n].c.DroppedLast?
    case CompletionPublish(n) => n in s.irps && s.irps[n].c.ContextFreed?
  }

  /** Calling RequestQueueInsert; `Enabled` says the record was never inserted before. */
  function Insert(q: State, r: Request): State {
    if Enabled(q, Call(r)) then After(q, Call(r)) else q
  }

  function Free(x: Irp): Irp { x.(live := false, frees := x.frees + 1) }

  /** What a step of one IRP's threads does to that IRP. */
  function Advance(x: Irp, a: Action): Irp
    requires !a.Queue? && !a.HookIrp?
  {
    match a
    case AddReference(_) => x.(d := Referenced, refs := x.refs + 1)
    case Forward(_) => x.(d := Forwarded)
    case PublishRecord(_) => x.(d := Publishing)
    case DispatchDrop(_) => x.(d := if x.refs == 1 then LastOut else DispatchDone, refs := x.refs - 1)
    case DispatchPublish(_) => x.(d := PublishingCompletion)
    case DispatchFree(_) => Free(x).(d := DispatchDone)
    case CompletionStart(_) => x.(c := Running)
    case CompletionStore(_) => x.(c := Stored, stored := true)
    case CompletionDrop(_) => x.(c := if x.refs == 1 then DroppedLast else CompletionDone, refs := x.refs - 1)
    case CompletionFree(_) => Free(x).(c := ContextFreed)
    case CompletionPublish(_) => x.(c := CompletionDone)
  }

  function AfterAction(s: System, a: Action): System
    requires Can(s, a)
  {
    match a
    case Queue(step) => s.(q := After(s.q, step))
    case HookIrp(n, record, completion) =>
      s.(irps := s.irps[n := Irp(record, completion, Hooked, Waiting, 1, false, true, 0)])
    case _ =>
      var x := s.irps[a.n];
      System(if a.PublishRecord? then Insert(s.q, x.record)
             else if a.DispatchPublish? || a.CompletionPublish? then Insert(s.q, x.completion)
             else s.q,
             s.irps[a.n := Advance(x, a)])
  }

  ghost predicate LegalRun(s: System, run: seq<Action>)
    decreases |run|
  {
    run == [] || (Can(s, run[0]) && LegalRun(AfterAction(s, run[0]), run[1..]))
  }

  ghost function Perform(s: System, run: seq<Action>): System
    requires LegalRun(s, run)
    decreases |run|
  {
    if run == [] then s else Perform(AfterAction(s, run[0]), run[1..])
  }

  // ----- the invariant

  predicate DispatchHolds(d: Dispatch) { d.Referenced? || d.Forwarded? || d.Publishing? }

  predicate CompletionHolds(c: Completion) { c.Waiting? || c.Running? || c.Stored? }

  predicate BothDone(x: Irp) { x.d.DispatchDone? && x.c.CompletionDone? }

  /** Where the two threads of an IRP can be, and what that says about the context. */
  predicate ContextOk(x: Irp) {
    && x.record != x.completion
    && (if x.d.Hooked? then x.refs == 1 && x.c.Waiting? else x.refs == One(DispatchHolds(x.d)) + One(CompletionHolds(x.c)))
    && (x.d.Referenced? ==> x.c.Waiting?)
    && (x.stored <==> !x.c.Waiting? && !x.c.Running?)
    && (x.d.LastOut? || x.d.PublishingCompletion? ==> x.c.CompletionDone?)
    && (x.c.DroppedLast? || x.c.ContextFreed? ==> x.d.DispatchDone?)
    && (x.live <==> !(x.d.DispatchDone? && (x.c.ContextFreed? || x.c.CompletionDone?)))
    && x.frees == One(!x.live)
  }

  /** How far the two records of an IRP are with respect to the queue. */
  ghost predicate RecordsOk(q: State, x: Irp) {
    && (At(q, x.record, Fresh) <==> x.d.Hooked? || x.d.Referenced? || x.d.Forwarded?)
    && (x.d.LastOut? || x.d.PublishingCompletion? || x.d.DispatchDone? ==> At(q, x.record, Returned))
    && (At(q, x.completion, Fresh) <==> !x.d.PublishingCompletion? && !BothDone(x))
    && (!At(q, x.completion, Fresh) ==> NotQueued(q, x.record) || Ordered(q, x.record, x.completion))
  }

  predicate Apart(x: Irp, y: Irp) {
    x.record != y.record && x.record != y.completion && x.completion != y.record && x.completion != y.completion
  }

  ghost predicate SystemOk(s: System) {
    && Sound(s.q)
    && (forall n :: n in s.irps ==> ContextOk(s.irps[n]) && RecordsOk(s.q, s.irps[n]))
    && (forall n, k :: n in s.irps && k in s.irps && n != k ==> Apart(s.irps[n], s.irps[k]))
  }

  // ----- queue steps

  lemma InsertAndReturned(q: State, step: Step, r: Request)
    requires Enabled(q, step) && InsertStep(step)
    ensures At(After(q, step), r, Fresh) <==> At(q, r, Fresh) && !(Introduces(step) && step.r == r)
    ensures At(q, r, Returned) ==> Of(After(q, step).requests, r) == Of(q.requests, r)
  {}

  lemma OtherKeepsPcs(q: State, step: Step, r: Request)
    requires Enabled(q, step) && !InsertStep(step) && !GetStep(step)
    ensures Of(After(q, step).requests, r).pc == Of(q.requests, r).pc
  {}

  /** A step that does not introduce r leaves it unintroduced; what was introduced stays so. */
  lemma StepAndFreshness(q: State, step: Step, r: Request)
    requires Enabled(q, step) && (Introduces(step) ==> step.r != r)
    ensures At(After(q, step), r, Fresh) <==> At(q, r, Fresh)
    ensures At(q, r, Returned) ==> At(After(q, step), r, Returned)
  {
    if InsertStep(step) { InsertAndReturned(q, step, r); }
    else if GetStep(step) { GetKeepsPcs(q, step); }
    else { OtherKeepsPcs(q, step, r); }
    hide Enabled, After;
  }

  lemma QueueStepKeepsRecords(q: State, step: Step, x: Irp)
    requires Sound(q) && Enabled(q, step) && RecordsOk(q, x)
    requires Introduces(step) ==> step.r != x.record && step.r != x.completion
    ensures RecordsOk(After(q, step), x)
  {
    StepAndFreshness(q, step, x.record);
    StepAndFreshness(q, step, x.completion);
    if !At(q, x.completion, Fresh) {
      if NotQueued(q, x.record) {
        StepTurnsAway(q, step, x.record);
      } else {
        var bound :| Fenced(q, x.record, bound) && Later(q, x.record, x.completion, bound);
        StepKeepsOrder(q, step, x.record, x.completion, bound);
      }
    }
    hide Enabled, After, Sound, Fenced, Later;
  }

  // ----- system steps

  lemma ContextKept(s: System, a: Action)
    requires SystemOk(s) && Can(s, a) && !a.Queue? && !a.HookIrp?
    ensures ContextOk(Advance(s.irps[a.n], a))
  {
    assert ContextOk(s.irps[a.n]);
  }

  /** A publishing step always finds its record never inserted before. */
  lemma PublishesOnce(s: System, a: Action)
    requires SystemOk(s) && Can(s, a)
    ensures a.PublishRecord? ==> Enabled(s.q, Call(s.irps[a.n].record))
    ensures a.DispatchPublish? || a.CompletionPublish? ==> Enabled(s.q, Call(s.irps[a.n].completion))
  {
    if !a.Queue? && !a.HookIrp? { assert ContextOk(s.irps[a.n]) && RecordsOk(s.q, s.irps[a.n]); }
  }

  /** A thread step that does not publish keeps the IRP's records right. */
  lemma QuietKeepsRecords(q: State, x: Irp, a: Action)
    requires ContextOk(x) && RecordsOk(q, x) && !a.Queue? && !a.HookIrp?
    requires Can(System(q, map[a.n := x]), a)
    requires !a.PublishRecord? && !a.DispatchPublish? && !a.CompletionPublish?
    ensures RecordsOk(q, Advance(x, a))
  {}

  lemma PublishRecordKeepsRecords(q: State, x: Irp)
    requires Sound(q) && ContextOk(x) && RecordsOk(q, x) && x.d.Forwarded?
    ensures RecordsOk(Insert(q, x.record), Advance(x, PublishRecord(0)))
  {
    StepAndFreshness(q, Call(x.record), x.completion);
  }

  /** When the completion record is inserted its IRP record's insert has returned, so
      either the queue refused that record or it is ahead for good. */
  lemma PublishCompletionKeepsRecords(q: State, x: Irp, a: Action)
    requires Sound(q) && ContextOk(x) && RecordsOk(q, x)
    requires (a.DispatchPublish? && x.d.LastOut?) || (a.CompletionPublish? && x.c.ContextFreed?)
    ensures RecordsOk(Insert(q, x.completion), Advance(x, a))
  {
    var t := Insert(q, x.completion);
    StepAndFreshness(q, Call(x.completion), x.record);
    StepKeepsSound(q, Call(x.completion));
    assert StatusOk(Of(t.requests, x.record), t.lastId);
    if !NotQueued(t, x.record) {
      AcceptedComesFirst(t, x.record, x.completion);
    }
    hide Fenced, Later, Sound, After;
  }

  lemma QueueKeepsSystem(s: System, step: Step)
    requires SystemOk(s) && Can(s, Queue(step))
    ensures SystemOk(AfterAction(s, Queue(step)))
  {
    StepKeepsSound(s.q, step);
    forall n | n in s.irps ensures RecordsOk(After(s.q, step), s.irps[n]) {
      QueueStepKeepsRecords(s.q, step, s.irps[n]);
    }
    hide Enabled, After, Sound, RecordsOk, ContextOk;
  }

  lemma HookKeepsSystem(s: System, n: nat, record: Request, completion: Request)
    requires SystemOk(s) && Can(s, HookIrp(n, record, completion))
    ensures SystemOk(AfterAction(s, HookIrp(n, record, completion)))
  {
    hide Sound, Ordered;
  }

  /** What the queue does when an IRP's thread acts. */
  lemma QueueAfterThread(s: System, a: Action)
    requires SystemOk(s) && Can(s, a) && !a.Queue? && !a.HookIrp?
    ensures Sound(AfterAction(s, a).q)
    ensures forall k :: k in s.irps && k != a.n ==> RecordsOk(AfterAction(s, a).q, s.irps[k])
  {
    PublishesOnce(s, a);
    if a.PublishRecord? || a.DispatchPublish? || a.CompletionPublish? {
      var r := if a.PublishRecord? then s.irps[a.n].record else s.irps[a.n].completion;
      StepKeepsSound(s.q, Call(r));
      forall k | k in s.irps && k != a.n ensures RecordsOk(AfterAction(s, a).q, s.irps[k]) {
        assert Apart(s.irps[k], s.irps[a.n]);
        QueueStepKeepsRecords(s.q, Call(r), s.irps[k]);
      }
    }
    hide Enabled, After, Sound, RecordsOk, ContextOk;
  }

  lemma RecordsAfterThread(s: System, a: Action)
    requires SystemOk(s) && Can(s, a) && !a.Queue? && !a.HookIrp?
    ensures RecordsOk(AfterAction(s, a).q, Advance(s.irps[a.n], a))
  {
    var x := s.irps[a.n];
    assert ContextOk(x) && RecordsOk(s.q, x);
    if a.PublishRecord? {
      PublishRecordKeepsRecords(s.q, x);
    } else if a.DispatchPublish? || a.CompletionPublish? {
      PublishCompletionKeepsRecords(s.q, x, a);
    } else {
      QuietKeepsRecords(s.q, x, a);
    }
    hide Sound, RecordsOk, Insert;
  }

  lemma ThreadChangesOne(s: System, a: Action)
    requires Can(s, a) && !a.Queue? && !a.HookIrp?
    ensures a.n in s.irps && AfterAction(s, a).irps == s.irps[a.n := Advance(s.irps[a.n], a)]
    ensures Advance(s.irps[a.n], a).record == s.irps[a.n].record
    ensures Advance(s.irps[a.n], a).completion == s.irps[a.n].completion
  {}

  lemma ThreadKeepsSystem(s: System, a: Action)
    requires SystemOk(s) && Can(s, a) && !a.Queue? && !a.HookIrp?
    ensures SystemOk(AfterAction(s, a))
  {
    hide Can, AfterAction, Sound, RecordsOk, ContextOk, Advance;
    ThreadChangesOne(s, a);
    ContextKept(s, a);
    QueueAfterThread(s, a);
    RecordsAfterThread(s, a);
  }

  lemma StepKeepsSystem(s: System, a: Action)
    requires SystemOk(s) && Can(s, a)
    ensures SystemOk(AfterAction(s, a))
  {
    hide *;
    match a
    case Queue(step) => QueueKeepsSystem(s, step);
    case HookIrp(n, record, completion) => HookKeepsSystem(s, n, record, completion);
    case _ => ThreadKeepsSystem(s, a);
  }

  lemma {:induction false} RunKeepsSystem(s: System, run: seq<Action>)
    requires SystemOk(s) && LegalRun(s, run)
    ensures SystemOk(Perform(s, run))
    decreases |run|
  {
    if run != [] {
      StepKeepsSystem(s, run[0]);
      RunKeepsSystem(AfterAction(s, run[0]), run[1..]);
    }
  }

  // ----- the theorems

  /** The steps that read or write the completion context of an IRP. */
  predicate Touches(a: Action) {
    a.AddReference? || a.DispatchDrop? || a.DispatchPublish? || a.DispatchFree? ||
    a.CompletionStart? || a.CompletionStore? || a.CompletionDrop? || a.CompletionFree?
  }

  /** In every state of every run: a thread about to touch a context finds it allocated,
      one about to insert the stored completion record finds it stored, and no record is
      inserted a second time. */
  lemma ContextIsNeverTouchedAfterFree(run: seq<Action>, collect: bool, clear: bool, a: Action)
    requires LegalRun(Start(collect, clear), run) && Can(Perform(Start(collect, clear), run), a)
    ensures var s := Perform(Start(collect, clear), run);
      && (Touches(a) ==> s.irps[a.n].live)
      && (a.DispatchPublish? || a.CompletionPublish? ==> s.irps[a.n].stored && At(s.q, s.irps[a.n].completion, Fresh))
      && (a.PublishRecord? ==> At(s.q, s.irps[a.n].record, Fresh))
  {
    hide SystemOk, Touches, Can, At, AfterAction;
    RunKeepsSystem(Start(collect, clear), run);
    TouchedIsLive(Perform(Start(collect, clear), run), a);
  }

  lemma TouchedIsLive(s: System, a: Action)
    requires SystemOk(s) && Can(s, a)
    ensures Touches(a) ==> a.n in s.irps && s.irps[a.n].live
    ensures a.DispatchPublish? || a.CompletionPublish? ==>
      a.n in s.irps && s.irps[a.n].stored && At(s.q, s.irps[a.n].completion, Fresh)
    ensures a.PublishRecord? ==> a.n in s.irps && At(s.q, s.irps[a.n].record, Fresh)
  {
    if !a.Queue? && !a.HookIrp? { assert ContextOk(s.irps[a.n]) && RecordsOk(s.q, s.irps[a.n]); }
    hide Sound, Enabled;
  }

  /** In every state of every run the context is freed at most once and the completion
      record inserted at most once, not before the insert of the IRP record returned;
      when both threads are done, each has happened exactly once. */
  lemma HandshakeIsExact(run: seq<Action>, collect: bool, clear: bool, n: nat)
    requires LegalRun(Start(collect, clear), run) && n in Perform(Start(collect, clear), run).irps
    ensures var s := Perform(Start(collect, clear), run); var x := s.irps[n];
      && x.frees <= 1
      && (!At(s.q, x.completion, Fresh) ==> At(s.q, x.record, Returned))
      && (BothDone(x) ==> x.frees == 1 && !At(s.q, x.completion, Fresh) && At(s.q, x.record, Returned))
  {
    RunKeepsSystem(Start(collect, clear), run);
    var s := Perform(Start(collect, clear), run);
    assert ContextOk(s.irps[n]) && RecordsOk(s.q, s.irps[n]);
  }

  lemma DeliveredInOrder(q: State, x: Irp)
    requires Sound(q) && RecordsOk(q, x) && x.completion in q.delivered
    ensures DeliveredBefore(q, x.record, x.completion) <==>
            !NotQueued(q, x.record) && !WasCleared(Of(q.requests, x.record).place)
    ensures !NotQueued(q, x.record) ==> Of(q.requests, x.record).id < Of(q.requests, x.completion).id
  {
    assert Of(q.requests, x.completion).place.Delivered? && StatusOk(Of(q.requests, x.completion), q.lastId);
    if DeliveredBefore(q, x.record, x.completion) {
      assert x.record in q.delivered;
    } else if !NotQueued(q, x.record) {
      assert Ordered(q, x.record, x.completion);
    }
  }

  /** End to end: a consumer that received the completion of an IRP has received its IRP
      record before, with a smaller ID, exactly if the queue accepted that record and
      nobody cleared it. */
  lemma CompletionFollowsItsIrp(run: seq<Action>, collect: bool, clear: bool, n: nat)
    requires LegalRun(Start(collect, clear), run)
    requires n in Perform(Start(collect, clear), run).irps
    requires var s := Perform(Start(collect, clear), run); s.irps[n].completion in s.q.delivered
    ensures var s := Perform(Start(collect, clear), run); var x := s.irps[n];
      && (DeliveredBefore(s.q, x.record, x.completion) <==>
          !NotQueued(s.q, x.record) && !WasCleared(Of(s.q.requests, x.record).place))
      && (!NotQueued(s.q, x.record) ==> Of(s.q.requests, x.record).id < Of(s.q.requests, x.completion).id)
  {
    RunKeepsSystem(Start(collect, clear), run);
    var s := Perform(Start(collect, clear), run);
    DeliveredInOrder(s.q, s.irps[n]);
    hide Sound, RecordsOk, ContextOk, NotQueued, DeliveredBefore;
  }

  // ----- the IRP record may be missing

  lemma {:induction false} OneMore(s: System, run: seq<Action>, a: Action)
    requires LegalRun(s, run) && Can(Perform(s, run), a)
    ensures LegalRun(s, run + [a]) && Perform(s, run + [a]) == AfterAction(Perform(s, run), a)
    decreases |run|
  {
    if run == [] {
      assert run + [a] == [a];
      assert LegalRun(AfterAction(s, a), [a][1..]);
    } else {
      OneMore(AfterAction(s, run[0]), run[1..], a);
      assert (run + [a])[1..] == run[1..] + [a];
    }
  }

  ghost predicate Reached(s: System) {
    exists run {:trigger LegalRun(Start(false, false), run)} ::
      LegalRun(Start(false, false), run) && Perform(Start(false, false), run) == s
  }

  lemma ReachOneMore(s: System, a: Action)
    requires Reached(s) && Can(s, a)
    ensures Reached(AfterAction(s, a))
  {
    var run :| LegalRun(Start(false, false), run) && Perform(Start(false, false), run) == s;
    OneMore(Start(false, false), run, a);
  }

  const GAP_RECORD := Request(0, NonPaged)
  const GAP_COMPLETION := Request(1, NonPaged)

  /** An IRP dispatched while nobody is connected: its record is freed on insert. */
  function Unconnected(): System {
    System(Initial(false, false).(requests := map[GAP_RECORD := Status(Returned, Place.Refused, 0)]),
           map[0 := Irp(GAP_RECORD, GAP_COMPLETION, DispatchDone, Waiting, 1, false, true, 0)])
  }

  lemma PublishedReached() returns (s4: System)
    ensures Reached(s4) && s4.irps == map[0 := Irp(GAP_RECORD, GAP_COMPLETION, Publishing, Waiting, 2, false, true, 0)]
    ensures s4.q == Start(false, false).q.(requests := map[GAP_RECORD := Status(Entered, Calling, 0)])
  {
    var s0 := Start(false, false);
    assert LegalRun(s0, []) && Perform(s0, []) == s0;
    var s1 := AfterAction(s0, HookIrp(0, GAP_RECORD, GAP_COMPLETION));
    ReachOneMore(s0, HookIrp(0, GAP_RECORD, GAP_COMPLETION));
    var s2 := AfterAction(s1, AddReference(0));
    ReachOneMore(s1, AddReference(0));
    var s3 := AfterAction(s2, Forward(0));
    ReachOneMore(s2, Forward(0));
    s4 := AfterAction(s3, PublishRecord(0));
    ReachOneMore(s3, PublishRecord(0));
    assert s4.irps == map[0 := Irp(GAP_RECORD, GAP_COMPLETION, Publishing, Waiting, 2, false, true, 0)];
    assert s4.q == s0.q.(requests := map[GAP_RECORD := Status(Entered, Calling, 0)]);
  }

  lemma UnconnectedReached()
    ensures Reached(Unconnected())
  {
    hide Reached;
    var s4 := PublishedReached();
    Refusing(s4, Irp(GAP_RECORD, GAP_COMPLETION, Publishing, Waiting, 2, false, true, 0));
  }

  lemma Refusing(s4: System, x: Irp)
    requires Reached(s4)
    requires x == Irp(GAP_RECORD, GAP_COMPLETION, Publishing, Waiting, 2, false, true, 0) && s4.irps == map[0 := x]
    requires s4.q == Initial(false, false).(requests := map[GAP_RECORD := Status(Entered, Calling, 0)])
    ensures Reached(Unconnected())
  {
    var s5 := AfterAction(s4, Queue(Step.Refuse(GAP_RECORD, false)));
    ReachOneMore(s4, Queue(Step.Refuse(GAP_RECORD, false)));
    var s6 := AfterAction(s5, DispatchDrop(0));
    ReachOneMore(s5, DispatchDrop(0));
    assert s6.q.requests == Unconnected().q.requests;
    assert s6.irps == Unconnected().irps;
    assert s6 == Unconnected();
  }

  /** Someone connects, then the completion thread runs up to the given point. */
  function Completing(c: Completion, refs: int, stored: bool, live: bool): System {
    System(Unconnected().q.(session := Up, holders := {SessionHolder}),
           map[0 := Irp(GAP_RECORD, GAP_COMPLETION, DispatchDone, c, refs, stored, live, if live then 0 else 1)])
  }

  lemma ConnectedReached()
    ensures Reached(Completing(Waiting, 1, false, true))
  {
    UnconnectedReached();
    var s0 := Unconnected();
    var s1 := AfterAction(s0, Queue(ConnectStart));
    ReachOneMore(s0, Queue(ConnectStart));
    var s2 := AfterAction(s1, Queue(ConnectFinish));
    ReachOneMore(s1, Queue(ConnectFinish));
    assert s2.q == Completing(Waiting, 1, false, true).q;
  }

  /** A step of the IRP's own threads that does not publish. */
  lemma QuietReach(s: System, a: Action, x: Irp)
    requires Reached(s) && Can(s, a) && !a.Queue? && !a.HookIrp?
    requires !a.PublishRecord? && !a.DispatchPublish? && !a.CompletionPublish?
    requires Advance(s.irps[a.n], a) == x
    ensures Reached(s.(irps := s.irps[a.n := x]))
  {
    ReachOneMore(s, a);
  }

  lemma CompletedReached()
    ensures Reached(Completing(ContextFreed, 0, true, false))
  {
    ConnectedReached();
    var s := Completing(Waiting, 1, false, true);
    QuietReach(s, CompletionStart(0), s.irps[0].(c := Running));
    QuietReach(s.(irps := s.irps[0 := s.irps[0].(c := Running)]), CompletionStore(0),
               s.irps[0].(c := Stored, stored := true));
    DroppedReached(s.(irps := s.irps[0 := s.irps[0].(c := Stored, stored := true)]));
    hide Reached;
  }

  lemma DroppedReached(s: System)
    requires Reached(s) && s.q == Completing(Waiting, 1, false, true).q
    requires s.irps == map[0 := Irp(GAP_RECORD, GAP_COMPLETION, DispatchDone, Stored, 1, true, true, 0)]
    ensures Reached(Completing(ContextFreed, 0, true, false))
  {
    QuietReach(s, CompletionDrop(0), s.irps[0].(c := DroppedLast, refs := 0));
    var t := s.(irps := s.irps[0 := s.irps[0].(c := DroppedLast, refs := 0)]);
    QuietReach(t, CompletionFree(0), t.irps[0].(c := ContextFreed, live := false, frees := 1));
    assert t.irps[0 := t.irps[0].(c := ContextFreed, live := false, frees := 1)] == Completing(ContextFreed, 0, true, false).irps;
  }

  /** The completion record, and the consumer, in a connected queue. */
  function Receiving(status: Status, listed: bool, holders: set<Holder>, consumer: Consumer): System {
    System(Unconnected().q.(requests := map[GAP_RECORD := Status(Returned, Place.Refused, 0), GAP_COMPLETION := status],
                            session := Up, lastId := status.id, nonpaged := if listed then [GAP_COMPLETION] else [],
                            holders := holders, consumer := consumer),
           map[0 := Irp(GAP_RECORD, GAP_COMPLETION, DispatchDone, CompletionDone, 0, true, false, 1)])
  }

  lemma EnteredReached()
    ensures Reached(Receiving(Status(Entered, Calling, 0), false, {SessionHolder}, Idle))
  {
    CompletedReached();
    var s := Completing(ContextFreed, 0, true, false);
    var t := AfterAction(s, CompletionPublish(0));
    ReachOneMore(s, CompletionPublish(0));
    assert t.irps == Receiving(Status(Entered, Calling, 0), false, {SessionHolder}, Idle).irps;
    assert t.q.requests == Receiving(Status(Entered, Calling, 0), false, {SessionHolder}, Idle).q.requests;
    assert t == Receiving(Status(Entered, Calling, 0), false, {SessionHolder}, Idle);
  }

  lemma QueueReach(s: System, step: Step, q: State)
    requires Reached(s) && Can(s, Queue(step)) && After(s.q, step) == q
    ensures Reached(s.(q := q))
  {
    ReachOneMore(s, Queue(step));
  }

  lemma LockedReached()
    ensures Reached(Receiving(Status(Locked, Calling, 0), false, {SessionHolder, Inserter(GAP_COMPLETION)}, Idle))
  {
    EnteredReached();
    var s0 := Receiving(Status(Entered, Calling, 0), false, {SessionHolder}, Idle);
    var s1 := Receiving(Status(Admitted, Calling, 0), false, {SessionHolder}, Idle);
    assert After(s0.q, PassGate(GAP_COMPLETION)).requests == s1.q.requests;
    QueueReach(s0, PassGate(GAP_COMPLETION), s1.q);
    var s2 := Receiving(Status(Locked, Calling, 0), false, {SessionHolder, Inserter(GAP_COMPLETION)}, Idle);
    assert After(s1.q, Acquire(GAP_COMPLETION)).requests == s2.q.requests;
    QueueReach(s1, Acquire(GAP_COMPLETION), s2.q);
  }

  lemma LinkedReached()
    ensures Reached(Receiving(Status(Linked, Listed, 1), true, {SessionHolder, Inserter(GAP_COMPLETION)}, Idle))
  {
    LockedReached();
    var h := {SessionHolder, Inserter(GAP_COMPLETION)};
    var s0 := Receiving(Status(Locked, Calling, 0), false, h, Idle);
    var s1 := Receiving(Status(Numbered, Calling, 1), false, h, Idle);
    assert After(s0.q, Number(GAP_COMPLETION)).requests == s1.q.requests;
    QueueReach(s0, Number(GAP_COMPLETION), s1.q);
    var s2 := Receiving(Status(Linked, Listed, 1), true, h, Idle);
    assert After(s1.q, Link(GAP_COMPLETION)).requests == s2.q.requests;
    QueueReach(s1, Link(GAP_COMPLETION), s2.q);
  }

  lemma ReadyReached()
    ensures Reached(Receiving(Status(Linked, Listed, 1), true, {SessionHolder, Inserter(GAP_COMPLETION), Getter}, Ready))
  {
    LinkedReached();
    var h := {SessionHolder, Inserter(GAP_COMPLETION)};
    var s0 := Receiving(Status(Linked, Listed, 1), true, h, Idle);
    var s1 := Receiving(Status(Linked, Listed, 1), true, h, Knocking);
    QueueReach(s0, GetEnter, s1.q);
    var s2 := Receiving(Status(Linked, Listed, 1), true, h + {Getter}, Ready);
    QueueReach(s1, GetAcquire, s2.q);
    assert h + {Getter} == {SessionHolder, Inserter(GAP_COMPLETION), Getter};
  }

  lemma ChosenReached()
    ensures Reached(Receiving(Status(Linked, Taken, 1), false, {SessionHolder, Inserter(GAP_COMPLETION), Getter},
                              Unlinked(GAP_COMPLETION)))
  {
    ReadyReached();
    var h := {SessionHolder, Inserter(GAP_COMPLETION), Getter};
    var s2 := Receiving(Status(Linked, Listed, 1), true, h, Ready);
    var s3 := Receiving(Status(Linked, Taken, 1), false, h, Unlinked(GAP_COMPLETION));
    assert After(s2.q, Choose).requests == s3.q.requests;
    QueueReach(s2, Choose, s3.q);
  }

  /** Without the condition the claim fails: a consumer can receive the completion of an
      IRP whose own record it never gets, though nothing was cleared. */
  lemma IrpRecordCanBeMissing()
    ensures exists s: System ::
      && Reached(s) && 0 in s.irps && s.irps[0].completion in s.q.delivered
      && s.irps[0].record !in s.q.delivered && !WasCleared(Of(s.q.requests, s.irps[0].record).place)
  {
    hide Reached;
    ChosenReached();
    var s0 := Receiving(Status(Linked, Taken, 1), false, {SessionHolder, Inserter(GAP_COMPLETION), Getter}, Unlinked(GAP_COMPLETION));
    var s1 := AfterAction(s0, Queue(DiscountList));
    ReachOneMore(s0, Queue(DiscountList));
    var s2 := AfterAction(s1, Queue(DiscountTotal));
    ReachOneMore(s1, Queue(DiscountTotal));
    var s3 := AfterAction(s2, Queue(Deliver));
    ReachOneMore(s2, Queue(Deliver));
    assert s3.q.delivered == [GAP_COMPLETION];
    assert Of(s3.q.requests, GAP_RECORD).place.Refused?;
  }
}
