/** Real-time FIFO: a request linked before another takes its ID is returned first.

    The lists are not sorted by ID, because taking an ID and linking are separate
    steps.  What holds instead: whatever is ahead of a linked request has an ID no
    larger than the last one given out when it was linked. */
module EventQueueFifo {
  import opened EventQueue
  import opened EventQueueInvariants

  /** IDs never change, and a new one exceeds all earlier ones. */
  ghost predicate IdsGrow(s: State, t: State) {
    && s.lastId <= t.lastId
    && forall r {:trigger Of(t.requests, r)} :: var i, j := Of(s.requests, r).id, Of(t.requests, r).id;
      if i != 0 then j == i else j == 0 || s.lastId < j
  }

  lemma EntryGrowsIds(s: State, step: Step)
    requires Enabled(s, step) && EntryStep(step) && StatusesOk(s.requests, s.lastId)
    ensures IdsGrow(s, After(s, step))
  {}

  lemma InsertGrowsIds(s: State, step: Step)
    requires Enabled(s, step) && InsertStep(step) && StatusesOk(s.requests, s.lastId)
    ensures IdsGrow(s, After(s, step))
  {
    if EntryStep(step) {
      EntryGrowsIds(s, step);
      hide After, Enabled, IdsGrow;
    }
  }

  lemma TakingGrowsIds(s: State, step: Step)
    requires Enabled(s, step) && TakingStep(step)
    ensures IdsGrow(s, After(s, step))
  {}

  lemma GetGrowsIds(s: State, step: Step)
    requires Enabled(s, step) && GetStep(step)
    ensures IdsGrow(s, After(s, step))
  {
    if TakingStep(step) {
      TakingGrowsIds(s, step);
      hide After, Enabled, IdsGrow;
    } else if step.Choose? {
      ChosenIs(s);
      hide After, Enabled;
    } else {
      assert After(s, step).requests == s.requests && After(s, step).lastId == s.lastId;
      hide After, Enabled;
    }
  }

  lemma OtherGrowsIds(s: State, step: Step)
    requires Enabled(s, step) && !InsertStep(step) && !GetStep(step)
    ensures IdsGrow(s, After(s, step))
  {}

  lemma StepGrowsIds(s: State, step: Step)
    requires Enabled(s, step) && Sound(s)
    ensures IdsGrow(s, After(s, step))
  {
    if InsertStep(step) { InsertGrowsIds(s, step); }
    else if GetStep(step) { GetGrowsIds(s, step); }
    else { OtherGrowsIds(s, step); }
  }

  /** The request was put on a list: RequestQueueInsert did not refuse it. */
  predicate Accepted(p: Place) { p.Listed? || p.Taken? || p.Delivered? || p.Detached? || p.Cleared? }

  predicate WasCleared(p: Place) { p.Detached? || p.Cleared? }

  /** The consumer has picked a request and not yet disposed of it. */
  predicate Chosen(c: Consumer) { c.Taking? || c.Unlinked? || c.ListDiscounted? || c.Holding? }

  /** Nothing at or ahead of a in the list has an ID above the bound. */
  ghost predicate AheadOk(m: Statuses, q: seq<Request>, a: Request, bound: nat) {
    forall i, j :: 0 <= i <= j < |q| && q[j] == a ==> Of(m, q[i]).id <= bound
  }

  /** a was accepted when `bound` was the last ID, and nothing newer can overtake it. */
  ghost predicate Fenced(s: State, a: Request, bound: nat) {
    var p := Of(s.requests, a).place;
    && bound <= s.lastId
    && Accepted(p) && 0 < Of(s.requests, a).id <= bound
    && (p.Listed? ==> AheadOk(s.requests, ListOf(s, a.pool), a, bound))
    && (p.Listed? && Chosen(s.consumer) ==> Of(s.requests, s.consumer.r).id <= bound)
  }

  /** b is newer than the bound, and is not delivered before a. */
  ghost predicate Later(s: State, a: Request, b: Request, bound: nat) {
    && (Of(s.requests, b).id == 0 || bound < Of(s.requests, b).id)
    && (b in s.delivered ==> a in s.delivered || WasCleared(Of(s.requests, a).place))
    && (forall i, j :: 0 <= i < |s.delivered| && 0 <= j < |s.delivered| && s.delivered[i] == a && s.delivered[j] == b ==> i < j)
  }

  /** a is returned before b, or is cleared. */
  ghost predicate Ordered(s: State, a: Request, b: Request) {
    exists bound {:trigger Fenced(s, a, bound)} :: Fenced(s, a, bound) && Later(s, a, b, bound)
  }

  ghost predicate SameIds(m: Statuses, n: Statuses) {
    forall x {:trigger Of(n, x)} :: Of(n, x).id == Of(m, x).id
  }

  lemma AheadAppend(m: Statuses, n: Statuses, q: seq<Request>, r: Request, a: Request, bound: nat)
    requires SameIds(m, n) && r != a && AheadOk(m, q, a, bound)
    ensures AheadOk(n, q + [r], a, bound)
  {}

  lemma AheadPrepend(m: Statuses, n: Statuses, q: seq<Request>, r: Request, a: Request, bound: nat)
    requires SameIds(m, n) && Of(m, r).id <= bound && (a in q ==> AheadOk(m, q, a, bound))
    ensures AheadOk(n, [r] + q, a, bound)
  {
    var u := [r] + q;
    forall i, j | 0 <= i <= j < |u| && u[j] == a ensures Of(n, u[i]).id <= bound {
      if i > 0 { assert u[i] == q[i - 1] && u[j] == q[j - 1]; }
    }
  }

  lemma AheadTail(m: Statuses, n: Statuses, q: seq<Request>, a: Request, bound: nat)
    requires SameIds(m, n) && q != [] && AheadOk(m, q, a, bound)
    ensures AheadOk(n, q[1..], a, bound)
  {
    var u := q[1..];
    forall i, j | 0 <= i <= j < |u| && u[j] == a ensures Of(n, u[i]).id <= bound {
      assert u[i] == q[i + 1] && u[j] == q[j + 1];
    }
  }

  // ----- one step keeps the fence

  lemma StillKeepsFence(s: State, t: State, a: Request, bound: nat)
    requires Sound(s) && Still(s, t) && IdsGrow(s, t) && Fenced(s, a, bound)
    ensures Fenced(t, a, bound)
  {
    forall x | x in ListOf(s, a.pool) ensures Of(t.requests, x).id == Of(s.requests, x).id {
      assert Of(s.requests, x).place.Listed?;
    }
    if Chosen(t.consumer) {
      var x := t.consumer.r;
      assert InHand(t.consumer, x) ==> InHand(s.consumer, x);
      assert s.consumer.Taking? ==> x in s.paged;
      assert Of(t.requests, x).id == Of(s.requests, x).id;
    }
  }

  lemma LinkKeepsFence(s: State, r: Request, a: Request, bound: nat)
    requires Enabled(s, Link(r)) && Fenced(s, a, bound)
    requires StatusOk(Of(s.requests, r), s.lastId)
    ensures Fenced(After(s, Link(r)), a, bound)
  {
    var t := After(s, Link(r));
    assert SameIds(s.requests, t.requests);
    if r.pool == a.pool {
      if Of(s.requests, a).place.Listed? { AheadAppend(s.requests, t.requests, ListOf(s, a.pool), r, a, bound); }
    } else {
      assert ListOf(t, a.pool) == ListOf(s, a.pool);
    }
  }

  /** The head of a's list is within the bound. */
  lemma HeadWithinBound(s: State, a: Request, bound: nat)
    requires Sound(s) && Fenced(s, a, bound) && Of(s.requests, a).place.Listed?
    ensures ListOf(s, a.pool) != [] && Of(s.requests, ListOf(s, a.pool)[0]).id <= bound
  {
    var q := ListOf(s, a.pool);
    assert a in q;
  }

  /** Whatever the consumer picks while a is listed is within the bound. */
  lemma ChooseKeepsFence(s: State, a: Request, bound: nat)
    requires Enabled(s, Choose) && Fenced(s, a, bound)
    requires s.nonpaged != [] && s.nonpaged[0] == a ==> Of(s.requests, a).place.Listed?
    requires Of(s.requests, a).place.Listed? ==>
      ListOf(s, a.pool) != [] && Of(s.requests, ListOf(s, a.pool)[0]).id <= bound
    ensures Fenced(After(s, Choose), a, bound)
  {
    var t := After(s, Choose);
    assert SameIds(s.requests, t.requests);
    if Of(s.requests, a).place.Listed? && t.consumer.Unlinked? && a.pool.NonPaged? {
      AheadTail(s.requests, t.requests, s.nonpaged, a, bound);
    }
  }

  lemma UnlinkKeepsFence(s: State, a: Request, bound: nat)
    requires Sound(s) && Enabled(s, UnlinkPaged) && Fenced(s, a, bound)
    ensures Fenced(After(s, UnlinkPaged), a, bound)
  {
    var t := After(s, UnlinkPaged);
    assert SameIds(s.requests, t.requests);
    assert s.paged[0] in s.paged;
  }

  lemma DeliverKeepsFence(s: State, a: Request, bound: nat)
    requires Sound(s) && Enabled(s, Deliver) && Fenced(s, a, bound)
    ensures Fenced(After(s, Deliver), a, bound)
  {
    assert SameIds(s.requests, After(s, Deliver).requests);
    assert InHand(s.consumer, s.consumer.r);
  }

  /** A request put back is within the bound, so it may stand ahead of a. */
  lemma TooLargeKeepsFence(s: State, a: Request, bound: nat)
    requires Enabled(s, TooLarge) && Fenced(s, a, bound)
    requires Of(s.requests, s.consumer.r).place.Taken?
    requires ListOk(s.requests, ListOf(s, a.pool), a.pool)
    ensures Fenced(After(s, TooLarge), a, bound)
  {
    PutBackIs(s);
    hide After;
    var t := After(s, TooLarge);
    var r := s.consumer.r;
    assert SameIds(s.requests, t.requests);
    if r.pool == a.pool {
      if Of(t.requests, a).place.Listed? { AheadPrepend(s.requests, t.requests, ListOf(s, a.pool), r, a, bound); }
    } else {
      assert ListOf(t, a.pool) == ListOf(s, a.pool);
    }
  }

  lemma DetachKeepsFence(s: State, pool: Pool, a: Request, bound: nat)
    requires Sound(s) && Enabled(s, ClearList(pool)) && Fenced(s, a, bound)
    ensures Fenced(Detach(s, pool), a, bound)
  {
    assert SameIds(s.requests, Detach(s, pool).requests);
  }

  lemma MoveKeepsFence(s: State, step: Step, a: Request, bound: nat)
    requires Sound(s) && Enabled(s, step) && Moves(step) && Fenced(s, a, bound)
    ensures Fenced(After(s, step), a, bound)
  {
    hide Fenced;
    match step
    case Link(r) =>
      assert StatusOk(Of(s.requests, r), s.lastId);
      LinkKeepsFence(s, r, a, bound);
    case Choose =>
      assert s.nonpaged != [] ==> s.nonpaged[0] in s.nonpaged;
      if Of(s.requests, a).place.Listed? { HeadWithinBound(s, a, bound); }
      ChooseKeepsFence(s, a, bound);
    case UnlinkPaged => UnlinkKeepsFence(s, a, bound);
    case Deliver => DeliverKeepsFence(s, a, bound);
    case TooLarge =>
      assert InHand(s.consumer, s.consumer.r);
      TooLargeKeepsFence(s, a, bound);
    case ClearList(pool) => DetachKeepsFence(s, pool, a, bound);
    case DisconnectClearNonPaged =>
      DetachKeepsFence(s, NonPaged, a, bound);
      SessionIrrelevant(Detach(s, NonPaged), ClearingPaged, a, bound);
    case DisconnectClearPaged =>
      DetachKeepsFence(s, Paged, a, bound);
      SessionIrrelevant(Detach(s, Paged), Down, a, bound);
  }

  lemma SessionIrrelevant(s: State, session: Session, a: Request, bound: nat)
    requires Fenced(s, a, bound)
    ensures Fenced(s.(session := session), a, bound)
  {}

  lemma StepKeepsFence(s: State, step: Step, a: Request, bound: nat)
    requires Sound(s) && Enabled(s, step) && Fenced(s, a, bound)
    ensures Fenced(After(s, step), a, bound)
  {
    if Moves(step) { MoveKeepsFence(s, step, a, bound); } else {
      StillStep(s, step);
      StepGrowsIds(s, step);
      StillKeepsFence(s, After(s, step), a, bound);
    }
  }

  // ----- one step keeps the order

  lemma LaterKept(s: State, t: State, a: Request, b: Request, bound: nat)
    requires Later(s, a, b, bound) && bound <= s.lastId && IdsGrow(s, t)
    requires t.delivered == s.delivered
    requires WasCleared(Of(s.requests, a).place) ==> WasCleared(Of(t.requests, a).place)
    ensures Later(t, a, b, bound)
  {}

  /** The consumer never returns b while a is listed or in its hands. */
  lemma DeliverKeepsLater(s: State, a: Request, b: Request, bound: nat)
    requires Sound(s) && Enabled(s, Deliver) && Fenced(s, a, bound) && Later(s, a, b, bound)
    ensures Later(After(s, Deliver), a, b, bound)
  {
    assert SameIds(s.requests, After(s, Deliver).requests);
    assert InHand(s.consumer, s.consumer.r);
  }

  lemma ClearedIsForever(s: State, step: Step, a: Request)
    requires Sound(s) && Enabled(s, step) && WasCleared(Of(s.requests, a).place)
    ensures WasCleared(Of(After(s, step).requests, a).place)
  {
    hide Sound, After;
    if !Moves(step) {
      StillStep(s, step);
    } else if TakingStep(step) {
      HeadsAreListed(s);
      ClearedWhileTaking(s, step, a);
    } else if step.Choose? {
      HeadsAreListed(s);
      ClearedWhileChoosing(s, a);
    } else {
      AllAreListed(s);
      ClearedOtherwise(s, step, a);
    }
  }

  lemma ClearedWhileUnlinking(s: State, a: Request)
    requires Enabled(s, UnlinkPaged) && WasCleared(Of(s.requests, a).place)
    requires s.consumer.r == s.paged[0] && Of(s.requests, s.paged[0]).place.Listed?
    ensures WasCleared(Of(After(s, UnlinkPaged).requests, a).place)
  {}

  lemma ClearedWhileHolding(s: State, step: Step, a: Request)
    requires Enabled(s, step) && (step.Deliver? || step.TooLarge?) && WasCleared(Of(s.requests, a).place)
    requires Of(s.requests, s.consumer.r).place.Taken?
    ensures WasCleared(Of(After(s, step).requests, a).place)
  {}

  lemma ClearedWhileTaking(s: State, step: Step, a: Request)
    requires Enabled(s, step) && TakingStep(step) && WasCleared(Of(s.requests, a).place)
    requires s.consumer.Taking? && s.paged != [] ==>
      s.consumer.r == s.paged[0] && Of(s.requests, s.paged[0]).place.Listed?
    requires s.consumer.Holding? ==> Of(s.requests, s.consumer.r).place.Taken?
    ensures WasCleared(Of(After(s, step).requests, a).place)
  {
    hide After, WasCleared;
    if step.UnlinkPaged? { ClearedWhileUnlinking(s, a); } else { ClearedWhileHolding(s, step, a); }
  }

  lemma ClearedWhileChoosing(s: State, a: Request)
    requires Enabled(s, Choose) && WasCleared(Of(s.requests, a).place)
    requires s.nonpaged != [] ==> Of(s.requests, s.nonpaged[0]).place.Listed?
    ensures WasCleared(Of(After(s, Choose).requests, a).place)
  {}

  lemma ClearedOtherwise(s: State, step: Step, a: Request)
    requires Enabled(s, step) && Moves(step) && !TakingStep(step) && !step.Choose?
    requires WasCleared(Of(s.requests, a).place)
    requires step.Link? ==> Of(s.requests, step.r).place.Calling?
    requires forall r :: r in s.paged || r in s.nonpaged ==> Of(s.requests, r).place.Listed?
    ensures WasCleared(Of(After(s, step).requests, a).place)
  {}

  lemma HeadsAreListed(s: State)
    requires Sound(s)
    ensures s.nonpaged != [] ==> Of(s.requests, s.nonpaged[0]).place.Listed?
    ensures s.consumer.Taking? && s.paged != [] ==>
      s.consumer.r == s.paged[0] && Of(s.requests, s.paged[0]).place.Listed?
    ensures s.consumer.Holding? ==> Of(s.requests, s.consumer.r).place.Taken?
  {
    assert s.nonpaged != [] ==> s.nonpaged[0] in s.nonpaged;
    assert s.paged != [] ==> s.paged[0] in s.paged;
    if s.consumer.Holding? { assert InHand(s.consumer, s.consumer.r); }
  }

  lemma AllAreListed(s: State)
    requires Sound(s)
    ensures forall r :: r in s.paged || r in s.nonpaged ==> Of(s.requests, r).place.Listed?
    ensures forall r {:trigger Of(s.requests, r)} :: Of(s.requests, r).pc.Numbered? ==> Of(s.requests, r).place.Calling?
  {}

  lemma StepKeepsOrder(s: State, step: Step, a: Request, b: Request, bound: nat)
    requires Sound(s) && Enabled(s, step) && Fenced(s, a, bound) && Later(s, a, b, bound)
    ensures Fenced(After(s, step), a, bound) && Later(After(s, step), a, b, bound)
  {
    StepKeepsFence(s, step, a, bound);
    if step.Deliver? { DeliverKeepsLater(s, a, b, bound); } else {
      StepGrowsIds(s, step);
      if WasCleared(Of(s.requests, a).place) { ClearedIsForever(s, step, a); }
      DeliveredUnchanged(s, step);
      LaterKept(s, After(s, step), a, b, bound);
    }
  }

  lemma DeliveredUnchanged(s: State, step: Step)
    requires Sound(s) && Enabled(s, step) && !step.Deliver?
    ensures After(s, step).delivered == s.delivered
  {
    if !Moves(step) { StillStep(s, step); }
  }

  lemma {:induction false} RunKeepsOrder(s: State, run: seq<Step>, a: Request, b: Request, bound: nat)
    requires Sound(s) && Legal(s, run) && Fenced(s, a, bound) && Later(s, a, b, bound)
    ensures Fenced(Exec(s, run), a, bound) && Later(Exec(s, run), a, b, bound)
    decreases |run|
  {
    if run != [] {
      StepKeepsSound(s, run[0]);
      StepKeepsOrder(s, run[0], a, b, bound);
      RunKeepsOrder(After(s, run[0]), run[1..], a, b, bound);
    }
  }

  /** A request already accepted is ordered before every request without an ID. */
  lemma AcceptedComesFirst(s: State, a: Request, b: Request)
    requires Sound(s) && Accepted(Of(s.requests, a).place) && Of(s.requests, b).id == 0
    ensures Fenced(s, a, s.lastId) && Later(s, a, b, s.lastId)
  {
    assert StatusOk(Of(s.requests, a), s.lastId) && StatusOk(Of(s.requests, b), s.lastId);
    forall x ensures Of(s.requests, x).id <= s.lastId { assert StatusOk(Of(s.requests, x), s.lastId); }
    assert b !in s.delivered;
  }

  /** The position of the request in what the consumer was given. */
  ghost predicate DeliveredBefore(s: State, a: Request, b: Request) {
    exists i, j :: 0 <= i < j < |s.delivered| && s.delivered[i] == a && s.delivered[j] == b
  }

  /** Real-time FIFO over every run: once the insert of a has linked a, a request b
      that had no ID then is never returned before a, unless a is cleared; and b gets
      the larger ID.  The inserts may use different lists. */
  lemma RealTimeFifo(before: seq<Step>, run: seq<Step>, collect: bool, clear: bool, a: Request, b: Request)
    requires Legal(Initial(collect, clear), before)
    requires Legal(Exec(Initial(collect, clear), before), run)
    requires Accepted(Of(Exec(Initial(collect, clear), before).requests, a).place)
    requires Of(Exec(Initial(collect, clear), before).requests, b).id == 0
    requires b in Exec(Exec(Initial(collect, clear), before), run).delivered
    ensures var t := Exec(Exec(Initial(collect, clear), before), run);
      && (DeliveredBefore(t, a, b) || WasCleared(Of(t.requests, a).place))
      && Of(t.requests, a).id < Of(t.requests, b).id
  {
    var s := Exec(Initial(collect, clear), before);
    RunKeepsSound(Initial(collect, clear), before);
    AcceptedComesFirst(s, a, b);
    RunKeepsOrder(s, run, a, b, s.lastId);
    RunKeepsSound(s, run);
    var t := Exec(s, run);
    assert Of(t.requests, b).place.Delivered? && StatusOk(Of(t.requests, b), t.lastId);
  }

  // ----- which IDs there are

  /** The step gives its request an ID. */
  predicate Numbers(step: Step) { step.Number? || step.SnapshotInsert? || (step.Refuse? && step.callbacks) }

  /** A step that numbers a request gives it the next ID; every other ID stays. */
  ghost predicate NumberedRight(s: State, step: Step, t: State) {
    && t.lastId == s.lastId + (if Numbers(step) then 1 else 0)
    && forall r {:trigger Of(t.requests, r)} ::
      Of(t.requests, r).id == (if Numbers(step) && step.r == r then t.lastId else Of(s.requests, r).id)
  }

  lemma EntryNumbers(s: State, step: Step)
    requires StatusesOk(s.requests, s.lastId) && Enabled(s, step) && EntryStep(step)
    ensures NumberedRight(s, step, After(s, step))
  {}

  lemma InsertNumbers(s: State, step: Step)
    requires StatusesOk(s.requests, s.lastId) && Enabled(s, step) && InsertStep(step)
    ensures NumberedRight(s, step, After(s, step))
  {
    if EntryStep(step) {
      EntryNumbers(s, step);
      hide After, Enabled, NumberedRight;
    }
  }

  lemma TakingNumbersNothing(s: State, step: Step)
    requires Enabled(s, step) && TakingStep(step)
    ensures NumberedRight(s, step, After(s, step))
  {}

  lemma GetNumbersNothing(s: State, step: Step)
    requires Enabled(s, step) && GetStep(step)
    ensures NumberedRight(s, step, After(s, step))
  {
    if TakingStep(step) {
      TakingNumbersNothing(s, step);
      hide After, Enabled, NumberedRight;
    } else if step.Choose? {
      ChosenIs(s);
      hide After, Enabled;
    } else {
      assert After(s, step).requests == s.requests && After(s, step).lastId == s.lastId;
      hide After, Enabled;
    }
  }

  lemma OthersNumberNothing(s: State, step: Step)
    requires Enabled(s, step) && !InsertStep(step) && !GetStep(step)
    ensures NumberedRight(s, step, After(s, step))
  {}

  ghost predicate Given(m: Statuses, id: nat) { exists r {:trigger Of(m, r)} :: Of(m, r).id == id }

  /** Every ID up to the last one has been given to exactly one request. */
  ghost predicate IdsExact(s: State) {
    && (forall i {:trigger Given(s.requests, i)} :: 0 < i <= s.lastId ==> Given(s.requests, i))
    && (forall a, b {:trigger Of(s.requests, a), Of(s.requests, b)} ::
          Of(s.requests, a).id == Of(s.requests, b).id != 0 ==> a == b)
  }

  lemma NumberedExact(s: State, step: Step, t: State)
    requires StatusesOk(s.requests, s.lastId) && IdsExact(s) && NumberedRight(s, step, t)
    requires Numbers(step) ==> Of(s.requests, step.r).id == 0
    ensures IdsExact(t)
  {
    forall i {:trigger Given(t.requests, i)} | 0 < i <= t.lastId ensures Given(t.requests, i) {
      if i <= s.lastId {
        assert Given(s.requests, i);
        var r :| Of(s.requests, r).id == i;
        assert Of(t.requests, r).id == i;
      } else {
        assert Of(t.requests, step.r).id == i;
      }
    }
    forall a, b | Of(t.requests, a).id == Of(t.requests, b).id != 0 ensures a == b {
      assert StatusOk(Of(s.requests, a), s.lastId) && StatusOk(Of(s.requests, b), s.lastId);
    }
  }

  lemma StepKeepsIdsExact(s: State, step: Step)
    requires Sound(s) && IdsExact(s) && Enabled(s, step)
    ensures IdsExact(After(s, step))
  {
    if Numbers(step) { assert StatusOk(Of(s.requests, step.r), s.lastId); }
    if InsertStep(step) { InsertNumbers(s, step); }
    else if GetStep(step) { GetNumbersNothing(s, step); }
    else { OthersNumberNothing(s, step); }
    NumberedExact(s, step, After(s, step));
    hide IdsExact, NumberedRight, Sound, After;
  }

  /** In every state of every run, the IDs given out are 1 to the last one, each given once. */
  lemma {:induction false} RunKeepsIdsExact(s: State, run: seq<Step>)
    requires Sound(s) && IdsExact(s) && Legal(s, run)
    ensures IdsExact(Exec(s, run))
    decreases |run|
  {
    hide IdsExact, Sound, Enabled, After;
    if run != [] {
      StepKeepsSound(s, run[0]);
      StepKeepsIdsExact(s, run[0]);
      RunKeepsIdsExact(After(s, run[0]), run[1..]);
    }
  }
}
