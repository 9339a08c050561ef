/** What every step of the event queue keeps: every request is in exactly one place,
    and the lists, the consumer and the delivered sequence agree with the places. */
module EventQueueInvariants {
  import opened Basics
  import opened EventQueue

  type Statuses = map<Request, Status>

  /** Which place and ID go with which program counter.  In particular a request that
      was linked once is never back in its caller's hands. */
  predicate StatusOk(t: Status, lastId: nat) {
    && t.id <= lastId
    && (t.pc.Fresh? <==> t.place.Nowhere?)
    && (t.place.Calling? <==> t.pc.Entered? || t.pc.Admitted? || t.pc.Locked? || t.pc.Numbered?)
    && (t.id == 0 <==> t.pc.Fresh? || t.pc.Entered? || t.pc.Admitted? || t.pc.Locked? || t.place.Refused?)
    && (t.place.Refused? || t.place.HandedOver? ==> t.pc.Returned?)
  }

  ghost predicate StatusesOk(m: Statuses, lastId: nat) {
    forall r {:trigger Of(m, r)} :: StatusOk(Of(m, r), lastId)
  }

  /** A list holds exactly the listed requests of its pool, each once. */
  ghost predicate ListOk(m: Statuses, q: seq<Request>, pool: Pool) {
    && Distinct(q)
    && (forall r {:trigger r in q} :: r in q ==> Of(m, r).place.Listed? && r.pool == pool)
    && (forall r {:trigger Of(m, r)} :: Of(m, r).place.Listed? && r.pool == pool ==> r in q)
  }

  predicate InHand(c: Consumer, r: Request) { (c.Unlinked? || c.ListDiscounted? || c.Holding?) && c.r == r }

  ghost predicate ConsumerOk(m: Statuses, c: Consumer, paged: seq<Request>) {
    && (forall r {:trigger Of(m, r)} :: InHand(c, r) <==> Of(m, r).place.Taken?)
    && (c.Taking? ==> paged != [] && paged[0] == c.r)
  }

  ghost predicate DeliveredOk(m: Statuses, q: seq<Request>) {
    && Distinct(q)
    && (forall r {:trigger r in q} :: r in q ==> Of(m, r).place.Delivered?)
    && (forall r {:trigger Of(m, r)} :: Of(m, r).place.Delivered? ==> r in q)
  }

  ghost predicate Sound(s: State) {
    && StatusesOk(s.requests, s.lastId)
    && ListOk(s.requests, s.paged, Paged)
    && ListOk(s.requests, s.nonpaged, NonPaged)
    && ConsumerOk(s.requests, s.consumer, s.paged)
    && DeliveredOk(s.requests, s.delivered)
  }

  // ----- one request changes its status, one list changes

  lemma Untouched(m: Statuses, q: seq<Request>, pool: Pool, r: Request, t: Status)
    requires ListOk(m, q, pool)
    requires r.pool != pool || (t.place.Listed? <==> Of(m, r).place.Listed?)
    ensures ListOk(Set(m, r, t), q, pool)
  {
    var n := Set(m, r, t);
  }

  lemma Appended(m: Statuses, q: seq<Request>, r: Request, t: Status)
    requires ListOk(m, q, r.pool) && !Of(m, r).place.Listed? && t.place.Listed?
    ensures ListOk(Set(m, r, t), q + [r], r.pool)
  {
    var n := Set(m, r, t);
    assert r !in q;
    assert forall x :: x in q + [r] <==> x in q || x == r;
  }

  lemma Prepended(m: Statuses, q: seq<Request>, r: Request, t: Status)
    requires ListOk(m, q, r.pool) && !Of(m, r).place.Listed? && t.place.Listed?
    ensures ListOk(Set(m, r, t), [r] + q, r.pool)
  {
    var n := Set(m, r, t);
    assert r !in q;
    assert forall x :: x in [r] + q <==> x in q || x == r;
  }

  lemma HeadRemoved(m: Statuses, q: seq<Request>, pool: Pool, t: Status)
    requires q != [] && ListOk(m, q, pool) && !t.place.Listed?
    ensures q[0].pool == pool && Of(m, q[0]).place.Listed?
    ensures ListOk(Set(m, q[0], t), q[1..], pool)
  {
    assert q[0] in q;
    var n := Set(m, q[0], t);
    assert q == [q[0]] + q[1..];
    assert forall x :: x in q[1..] <==> x in q && x != q[0];
  }

  lemma AllDetached(m: Statuses, q: seq<Request>, pool: Pool, other: Pool, u: seq<Request>)
    requires pool != other && ListOk(m, q, pool) && ListOk(m, u, other)
    ensures ListOk(DetachAll(m, q), [], pool) && ListOk(DetachAll(m, q), u, other)
  {
    var n := DetachAll(m, q);
  }

  // ----- the steps that move a request

  /** The record is too large: it goes back to the head of its list. */
  lemma PutBackIs(s: State)
    requires Enabled(s, TooLarge)
    ensures var t := After(s, TooLarge); var r := s.consumer.r;
      && t.requests == Set(s.requests, r, Of(s.requests, r).(place := Listed)) && t.consumer == PutBack(r)
      && t.paged == (if r.pool.Paged? then [r] + s.paged else s.paged)
      && t.nonpaged == (if r.pool.Paged? then s.nonpaged else [r] + s.nonpaged)
      && t.pagedLength == s.pagedLength && t.nonpagedLength == s.nonpagedLength && t.length == s.length
  {}

  /** The consumer takes the nonpaged head, or leaves the lists alone. */
  lemma ChosenIs(s: State)
    requires Enabled(s, Choose)
    ensures var t := After(s, Choose);
      && t.paged == s.paged && t.pagedLength == s.pagedLength && t.nonpagedLength == s.nonpagedLength
      && t.length == s.length && t.lastId == s.lastId
      && (if t.consumer.Unlinked? then
            && s.nonpaged != [] && t.consumer == Unlinked(s.nonpaged[0]) && t.nonpaged == s.nonpaged[1..]
            && t.requests == Set(s.requests, s.nonpaged[0], Of(s.requests, s.nonpaged[0]).(place := Taken))
          else (t.consumer.Taking? || t.consumer.Leaving?) && t.nonpaged == s.nonpaged && t.requests == s.requests)
  {}

  // ----- one step

  /** The first half of RequestQueueInsert. */
  predicate EntryStep(step: Step) { step.Call? || step.PassGate? || step.Refuse? || step.Acquire? || step.Number? }

  lemma StatusesKeptByEntry(s: State, step: Step)
    requires StatusesOk(s.requests, s.lastId) && Enabled(s, step) && EntryStep(step)
    ensures StatusesOk(After(s, step).requests, After(s, step).lastId)
  {}

  lemma StatusesKeptByInsert(s: State, step: Step)
    requires StatusesOk(s.requests, s.lastId) && Enabled(s, step) && InsertStep(step)
    ensures StatusesOk(After(s, step).requests, After(s, step).lastId)
  {
    if EntryStep(step) { StatusesKeptByEntry(s, step); hide After, StatusesOk; }
  }

  /** The steps of RequestQueueGet that change a request's place. */
  predicate TakingStep(step: Step) { step.UnlinkPaged? || step.Deliver? || step.TooLarge? }

  lemma StatusesKeptByHolding(s: State, step: Step)
    requires StatusesOk(s.requests, s.lastId) && Enabled(s, step) && (step.Deliver? || step.TooLarge?)
    requires ConsumerOk(s.requests, s.consumer, s.paged)
    ensures StatusesOk(After(s, step).requests, After(s, step).lastId)
  {}

  lemma StatusesKeptByTaking(s: State, step: Step)
    requires StatusesOk(s.requests, s.lastId) && Enabled(s, step) && TakingStep(step)
    requires ConsumerOk(s.requests, s.consumer, s.paged)
    requires s.paged != [] ==> Of(s.requests, s.paged[0]).place.Listed?
    requires s.nonpaged != [] ==> Of(s.requests, s.nonpaged[0]).place.Listed?
    ensures StatusesOk(After(s, step).requests, After(s, step).lastId)
  {
    if !step.UnlinkPaged? {
      StatusesKeptByHolding(s, step);
      hide After, StatusesOk, Enabled;
    }
  }

  lemma StatusesKeptByChoose(s: State)
    requires StatusesOk(s.requests, s.lastId) && Enabled(s, Choose)
    requires s.nonpaged != [] ==> Of(s.requests, s.nonpaged[0]).place.Listed?
    ensures StatusesOk(After(s, Choose).requests, After(s, Choose).lastId)
  {}

  lemma StatusesKeptByGet(s: State, step: Step)
    requires StatusesOk(s.requests, s.lastId) && Enabled(s, step) && GetStep(step)
    requires ConsumerOk(s.requests, s.consumer, s.paged)
    requires s.paged != [] ==> Of(s.requests, s.paged[0]).place.Listed?
    requires s.nonpaged != [] ==> Of(s.requests, s.nonpaged[0]).place.Listed?
    ensures StatusesOk(After(s, step).requests, After(s, step).lastId)
  {
    if TakingStep(step) {
      StatusesKeptByTaking(s, step);
      hide After, StatusesOk;
    } else if step.Choose? {
      StatusesKeptByChoose(s);
      hide After, StatusesOk;
    } else {
      assert After(s, step).requests == s.requests && After(s, step).lastId == s.lastId;
      hide StatusesOk;
    }
  }

  /** The steps of RequestQueueClear that concern one request. */
  predicate FreeStep(step: Step) { step.FreeDetached? || step.ClearDiscountList? || step.ClearDiscountTotal? }

  /** The steps that empty a list. */
  predicate EmptyStep(step: Step) { step.ClearList? || step.DisconnectClearNonPaged? || step.DisconnectClearPaged? }

  lemma StatusesKeptByFree(s: State, step: Step)
    requires StatusesOk(s.requests, s.lastId) && Enabled(s, step) && FreeStep(step)
    ensures StatusesOk(After(s, step).requests, After(s, step).lastId)
  {}

  lemma StatusesKeptByEmptying(s: State, step: Step)
    requires StatusesOk(s.requests, s.lastId) && Enabled(s, step) && EmptyStep(step)
    requires forall r :: r in s.paged || r in s.nonpaged ==> Of(s.requests, r).place.Listed?
    ensures StatusesOk(After(s, step).requests, After(s, step).lastId)
  {}

  lemma StatusesKeptByOthers(s: State, step: Step)
    requires StatusesOk(s.requests, s.lastId) && Enabled(s, step) && !InsertStep(step) && !GetStep(step)
    requires forall r :: r in s.paged || r in s.nonpaged ==> Of(s.requests, r).place.Listed?
    ensures StatusesOk(After(s, step).requests, After(s, step).lastId)
  {
    if FreeStep(step) {
      StatusesKeptByFree(s, step);
      hide After, StatusesOk;
    } else if EmptyStep(step) {
      StatusesKeptByEmptying(s, step);
      hide After, StatusesOk;
    } else {
      assert After(s, step).requests == s.requests && After(s, step).lastId == s.lastId;
      hide StatusesOk;
    }
  }

  /** A step that moves no request between places leaves lists and places as they are. */
  predicate Moves(step: Step) {
    step.Link? || step.Choose? || step.UnlinkPaged? || step.Deliver? || step.TooLarge? ||
    step.ClearList? || step.DisconnectClearNonPaged? || step.DisconnectClearPaged?
  }

  ghost predicate SamePlaces(m: Statuses, n: Statuses) {
    forall r {:trigger Of(n, r)} :: var p, q := Of(m, r).place, Of(n, r).place;
      && (p.Listed? <==> q.Listed?) && (p.Taken? <==> q.Taken?) && (p.Delivered? <==> q.Delivered?)
      && (p.Detached? || p.Cleared? <==> q.Detached? || q.Cleared?)
  }

  ghost predicate Still(s: State, t: State) {
    && t.paged == s.paged && t.nonpaged == s.nonpaged && t.delivered == s.delivered
    && SamePlaces(s.requests, t.requests)
    && (t.consumer.Taking? ==> t.consumer == s.consumer)
    && forall r :: InHand(t.consumer, r) <==> InHand(s.consumer, r)
  }

  lemma StillInsert(s: State, step: Step)
    requires Enabled(s, step) && InsertStep(step) && !Moves(step) && StatusesOk(s.requests, s.lastId)
    ensures Still(s, After(s, step))
  {}

  lemma StillGet(s: State, step: Step)
    requires Enabled(s, step) && GetStep(step) && !Moves(step)
    ensures Still(s, After(s, step))
  {}

  lemma StillOther(s: State, step: Step)
    requires Enabled(s, step) && !InsertStep(step) && !GetStep(step) && !Moves(step)
    ensures Still(s, After(s, step))
  {}

  lemma StillStep(s: State, step: Step)
    requires Sound(s) && Enabled(s, step) && !Moves(step)
    ensures Still(s, After(s, step))
  {
    if InsertStep(step) { StillInsert(s, step); }
    else if GetStep(step) { StillGet(s, step); }
    else { StillOther(s, step); }
  }

  /** Everything Sound says about lists and places. */
  ghost predicate ListsOk(s: State) {
    && ListOk(s.requests, s.paged, Paged)
    && ListOk(s.requests, s.nonpaged, NonPaged)
    && ConsumerOk(s.requests, s.consumer, s.paged)
    && DeliveredOk(s.requests, s.delivered)
  }

  lemma StillKeepsLists(s: State, t: State)
    requires ListsOk(s) && Still(s, t)
    ensures ListsOk(t)
  {}

  lemma LinkKeepsLists(s: State, r: Request)
    requires Sound(s) && Enabled(s, Link(r))
    ensures ListsOk(After(s, Link(r)))
  {
    var status := Status(Linked, Listed, Of(s.requests, r).id);
    Appended(s.requests, ListOf(s, r.pool), r, status);
    Untouched(s.requests, if r.pool.Paged? then s.nonpaged else s.paged, if r.pool.Paged? then NonPaged else Paged, r,
              status);
  }

  lemma ChooseKeepsLists(s: State)
    requires Sound(s) && Enabled(s, Choose)
    ensures ListsOk(After(s, Choose))
  {
    hide ListOk, StatusesOk;
    if After(s, Choose).consumer.Unlinked? {
      var status := Of(s.requests, s.nonpaged[0]).(place := Taken);
      HeadRemoved(s.requests, s.nonpaged, NonPaged, status);
      Untouched(s.requests, s.paged, Paged, s.nonpaged[0], status);
    }
  }

  lemma UnlinkKeepsLists(s: State)
    requires Sound(s) && Enabled(s, UnlinkPaged)
    ensures ListsOk(After(s, UnlinkPaged))
  {
    var status := Of(s.requests, s.paged[0]).(place := Taken);
    HeadRemoved(s.requests, s.paged, Paged, status);
    Untouched(s.requests, s.nonpaged, NonPaged, s.paged[0], status);
  }

  lemma DeliverKeepsLists(s: State)
    requires Sound(s) && Enabled(s, Deliver)
    ensures ListsOk(After(s, Deliver))
  {
    var status := Of(s.requests, s.consumer.r).(place := Delivered);
    assert s.consumer.r !in s.delivered;
    assert forall x :: x in s.delivered + [s.consumer.r] <==> x in s.delivered || x == s.consumer.r;
    Untouched(s.requests, s.paged, Paged, s.consumer.r, status);
    Untouched(s.requests, s.nonpaged, NonPaged, s.consumer.r, status);
  }

  lemma TooLargeKeepsLists(s: State)
    requires Sound(s) && Enabled(s, TooLarge)
    ensures ListsOk(After(s, TooLarge))
  {
    var r := s.consumer.r;
    var status := Of(s.requests, r).(place := Listed);
    Prepended(s.requests, ListOf(s, r.pool), r, status);
    Untouched(s.requests, if r.pool.Paged? then s.nonpaged else s.paged, if r.pool.Paged? then NonPaged else Paged, r,
              status);
  }

  lemma DetachKeepsLists(s: State, pool: Pool)
    requires Sound(s) && Enabled(s, ClearList(pool))
    ensures ListsOk(Detach(s, pool))
  {
    if pool.Paged? {
      AllDetached(s.requests, s.paged, Paged, NonPaged, s.nonpaged);
    } else {
      AllDetached(s.requests, s.nonpaged, NonPaged, Paged, s.paged);
    }
  }

  lemma MoveKeepsLists(s: State, step: Step)
    requires Sound(s) && Enabled(s, step) && Moves(step)
    ensures ListsOk(After(s, step))
  {
    hide StatusesOk;
    match step
    case Link(r) => LinkKeepsLists(s, r);
    case Choose => ChooseKeepsLists(s);
    case UnlinkPaged => UnlinkKeepsLists(s);
    case Deliver => DeliverKeepsLists(s);
    case TooLarge => TooLargeKeepsLists(s);
    case ClearList(pool) => DetachKeepsLists(s, pool);
    case DisconnectClearNonPaged => DetachKeepsLists(s, NonPaged);
    case DisconnectClearPaged => DetachKeepsLists(s, Paged);
  }

  lemma StatusesKept(s: State, step: Step)
    requires Sound(s) && Enabled(s, step)
    ensures StatusesOk(After(s, step).requests, After(s, step).lastId)
  {
    if InsertStep(step) { StatusesKeptByInsert(s, step); }
    else if GetStep(step) {
      assert s.paged != [] ==> s.paged[0] in s.paged;
      assert s.nonpaged != [] ==> s.nonpaged[0] in s.nonpaged;
      StatusesKeptByGet(s, step);
    } else { StatusesKeptByOthers(s, step); }
  }

  /** One step of any thread keeps the queue sound. */
  lemma StepKeepsSound(s: State, step: Step)
    requires Sound(s) && Enabled(s, step)
    ensures Sound(After(s, step))
  {
    StatusesKept(s, step);
    if Moves(step) { MoveKeepsLists(s, step); } else {
      StillStep(s, step);
      StillKeepsLists(s, After(s, step));
    }
    hide StatusesOk, ListOk, ConsumerOk, DeliveredOk;
  }

  /** Every state of every run is sound. */
  lemma {:induction false} RunKeepsSound(s: State, run: seq<Step>)
    requires Sound(s) && Legal(s, run)
    ensures Sound(Exec(s, run))
    decreases |run|
  {
    if run != [] {
      StepKeepsSound(s, run[0]);
      RunKeepsSound(After(s, run[0]), run[1..]);
    }
  }
}
