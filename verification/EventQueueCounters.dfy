/** The three length counters at every step: each is the length of its list, less the
    requests linked but not yet counted, plus those unlinked but not yet discounted. */
module EventQueueCounters {
  import opened Basics
  import opened EventQueue
  import opened EventQueueInvariants

  type Test = (Request, Status) -> bool

  /** Linked, but its list's counter is not yet raised. */
  function Uncounted(pool: Pool): Test { (r: Request, t: Status) => t.pc.Linked? && r.pool == pool }

  /** Detached by RequestQueueClear, but its list's counter is not yet lowered. */
  function Owed(pool: Pool): Test {
    (r: Request, t: Status) => (t.place.Detached? || t.place == Cleared(2)) && r.pool == pool
  }

  function TotalUncounted(): Test { (r: Request, t: Status) => t.pc.Linked? || t.pc.ListCounted? }

  function TotalOwed(): Test {
    (r: Request, t: Status) => t.place.Detached? || t.place == Cleared(2) || t.place == Cleared(1)
  }

  ghost function Matching(m: Statuses, p: Test): set<Request> { set r | r in m && p(r, m[r]) }

  ghost function Count(m: Statuses, p: Test): nat { |Matching(m, p)| }

  /** What the consumer has unlinked and not discounted, or put back and not recounted. */
  function ConsumerOnList(c: Consumer, pool: Pool): int {
    if c.Unlinked? && c.r.pool == pool then 1 else if c.PutBack? && c.r.pool == pool then -1 else 0
  }

  function ConsumerOnTotal(c: Consumer): int {
    if c.Unlinked? || c.ListDiscounted? then 1 else if c.PutBack? || c.ListRecounted? then -1 else 0
  }

  /** The requests whose counting is under way: on the two lists, and in total; first
      those linked and not yet counted, then those detached and not yet discounted. */
  datatype Tally = Tally(
    newPaged: int, newNonPaged: int, newTotal: int, owedPaged: int, owedNonPaged: int, owedTotal: int)

  ghost function TallyOf(m: Statuses): Tally {
    Tally(Count(m, Uncounted(Paged)), Count(m, Uncounted(NonPaged)), Count(m, TotalUncounted()),
          Count(m, Owed(Paged)), Count(m, Owed(NonPaged)), Count(m, TotalOwed()))
  }

  /** What one request adds to the tally. */
  function Share(r: Request, t: Status): Tally {
    Tally(One(t.pc.Linked? && r.pool.Paged?), One(t.pc.Linked? && r.pool.NonPaged?), One(t.pc.Linked? || t.pc.ListCounted?),
          One((t.place.Detached? || t.place == Cleared(2)) && r.pool.Paged?),
          One((t.place.Detached? || t.place == Cleared(2)) && r.pool.NonPaged?),
          One(t.place.Detached? || t.place == Cleared(2) || t.place == Cleared(1)))
  }

  function Exchange(x: Tally, less: Tally, more: Tally): Tally {
    Tally(x.newPaged - less.newPaged + more.newPaged, x.newNonPaged - less.newNonPaged + more.newNonPaged,
          x.newTotal - less.newTotal + more.newTotal, x.owedPaged - less.owedPaged + more.owedPaged,
          x.owedNonPaged - less.owedNonPaged + more.owedNonPaged, x.owedTotal - less.owedTotal + more.owedTotal)
  }

  /** The counters agree with the lists, up to the counting under way. */
  predicate Balanced(s: State, x: Tally) {
    && s.pagedLength == |s.paged| - x.newPaged + ConsumerOnList(s.consumer, Paged) + x.owedPaged
    && s.nonpagedLength == |s.nonpaged| - x.newNonPaged + ConsumerOnList(s.consumer, NonPaged) + x.owedNonPaged
    && s.length == |s.paged| + |s.nonpaged| - x.newTotal + ConsumerOnTotal(s.consumer) + x.owedTotal
  }

  ghost predicate CountersOk(s: State) { Balanced(s, TallyOf(s.requests)) }

  // ----- counting after one change

  lemma CountAfter(m: Statuses, r: Request, t: Status, p: Test)
    requires !p(r, Status(Fresh, Nowhere, 0))
    ensures Count(Set(m, r, t), p) == Count(m, p) - One(p(r, Of(m, r))) + One(p(r, t))
  {
    var n, was := m[r := t], Matching(m, p);
    var others := was - {r};
    if p(r, t) {
      assert Matching(n, p) == others + {r};
    } else {
      assert Matching(n, p) == others;
    }
    if p(r, Of(m, r)) {
      assert was == others + {r};
    } else {
      assert was == others;
    }
  }

  lemma TallyAfter(m: Statuses, r: Request, t: Status)
    ensures TallyOf(Set(m, r, t)) == Exchange(TallyOf(m), Share(r, Of(m, r)), Share(r, t))
  {
    CountAfter(m, r, t, Uncounted(Paged));
    CountAfter(m, r, t, Uncounted(NonPaged));
    CountAfter(m, r, t, Owed(Paged));
    CountAfter(m, r, t, Owed(NonPaged));
    CountAfter(m, r, t, TotalUncounted());
    CountAfter(m, r, t, TotalOwed());
    hide Count;
  }

  lemma {:induction false} SizeOfList(q: seq<Request>)
    requires Distinct(q)
    ensures |set r | r in q| == |q|
  {
    if q != [] {
      var rest := q[1..];
      SizeOfList(rest);
      assert q == [q[0]] + rest;
      assert (set r | r in q) == (set r | r in rest) + {q[0]};
    }
  }

  /** Detaching a list of requests none of which passes the test, all of which do afterwards. */
  lemma CountAfterDetach(m: Statuses, q: seq<Request>, p: Test)
    requires Distinct(q) && forall r {:trigger r in q} :: r in q ==> r in m
    requires forall r {:trigger r in q} :: r in q ==> !p(r, m[r]) && p(r, m[r].(place := Detached))
    ensures Count(DetachAll(m, q), p) == Count(m, p) + |q|
  {
    SizeOfList(q);
    var all := set r | r in q;
    assert Matching(DetachAll(m, q), p) == Matching(m, p) + all;
  }

  /** A test that a detached list does not affect. */
  lemma CountKeptByDetach(m: Statuses, q: seq<Request>, p: Test)
    requires forall r {:trigger r in q} :: r in q && r in m ==> p(r, m[r]) == p(r, m[r].(place := Detached))
    ensures Count(DetachAll(m, q), p) == Count(m, p)
  {
    assert Matching(DetachAll(m, q), p) == Matching(m, p);
  }

  lemma TallyAfterDetach(m: Statuses, q: seq<Request>, pool: Pool)
    requires ListOk(m, q, pool)
    ensures var x, y := TallyOf(m), TallyOf(DetachAll(m, q));
      y == x.(owedTotal := x.owedTotal + |q|, owedPaged := x.owedPaged + (if pool.Paged? then |q| else 0),
              owedNonPaged := x.owedNonPaged + (if pool.NonPaged? then |q| else 0))
  {
    CountKeptByDetach(m, q, Uncounted(Paged));
    CountKeptByDetach(m, q, Uncounted(NonPaged));
    CountKeptByDetach(m, q, TotalUncounted());
    CountAfterDetach(m, q, Owed(pool));
    CountKeptByDetach(m, q, Owed(if pool.Paged? then NonPaged else Paged));
    CountAfterDetach(m, q, TotalOwed());
    hide Count;
  }

  // ----- one step

  /** One status change, and the counters, lists and consumer move along with it. */
  ghost predicate Balances(s: State, t: State, r: Request, x: Tally) {
    && t.requests == Set(s.requests, r, Of(t.requests, r))
    && (Balanced(s, x) ==> Balanced(t, Exchange(x, Share(r, Of(s.requests, r)), Share(r, Of(t.requests, r)))))
  }

  lemma PcStepBalances(s: State, step: Step, x: Tally)
    requires Enabled(s, step) && InsertStep(step) && StatusOk(Of(s.requests, step.r), s.lastId)
    requires !step.Link? && !step.CountList? && !step.CountTotal?
    ensures Balances(s, After(s, step), step.r, x)
  {
    assert Share(step.r, Of(s.requests, step.r)) == Share(step.r, Of(After(s, step).requests, step.r));
  }

  lemma LinkBalances(s: State, r: Request, x: Tally)
    requires Enabled(s, Link(r)) && StatusOk(Of(s.requests, r), s.lastId)
    ensures Balances(s, After(s, Link(r)), r, x)
  {}

  lemma CountListBalances(s: State, r: Request, x: Tally)
    requires Enabled(s, CountList(r))
    ensures Balances(s, After(s, CountList(r)), r, x)
  {}

  lemma CountTotalBalances(s: State, r: Request, x: Tally)
    requires Enabled(s, CountTotal(r))
    ensures Balances(s, After(s, CountTotal(r)), r, x)
  {}

  lemma InsertBalances(s: State, step: Step, x: Tally)
    requires Enabled(s, step) && InsertStep(step) && StatusOk(Of(s.requests, step.r), s.lastId)
    ensures Balances(s, After(s, step), step.r, x)
  {
    hide Balances;
    match step
    case Link(r) => LinkBalances(s, r, x);
    case CountList(r) => CountListBalances(s, r, x);
    case CountTotal(r) => CountTotalBalances(s, r, x);
    case _ => PcStepBalances(s, step, x);
  }

  /** The request a consumer or clearing step changes, if it changes one. */
  predicate Changes(step: Step) {
    step.UnlinkPaged? || step.Deliver? || step.TooLarge? || step.FreeDetached? ||
    step.ClearDiscountList? || step.ClearDiscountTotal?
  }

  function Changed(s: State, step: Step): Request
    requires Enabled(s, step) && Changes(step)
  {
    if step.UnlinkPaged? || step.Deliver? || step.TooLarge? then s.consumer.r else step.r
  }

  lemma UnlinkBalances(s: State, x: Tally)
    requires Enabled(s, UnlinkPaged) && Of(s.requests, s.consumer.r).place.Listed? && s.consumer.r.pool.Paged?
    ensures Balances(s, After(s, UnlinkPaged), s.consumer.r, x)
  {}

  lemma DeliverBalances(s: State, x: Tally)
    requires Enabled(s, Deliver) && Of(s.requests, s.consumer.r).place.Taken?
    ensures Balances(s, After(s, Deliver), s.consumer.r, x)
  {}

  lemma TooLargeBalances(s: State, x: Tally)
    requires Enabled(s, TooLarge) && Of(s.requests, s.consumer.r).place.Taken?
    ensures Balances(s, After(s, TooLarge), s.consumer.r, x)
  {
    var r := s.consumer.r;
    PutBackIs(s);
    hide After, Enabled;
    assert Share(r, Of(s.requests, r)) == Share(r, Of(s.requests, r).(place := Listed));
  }

  lemma FreeBalances(s: State, r: Request, x: Tally)
    requires Enabled(s, FreeDetached(r))
    ensures Balances(s, After(s, FreeDetached(r)), r, x)
  {}

  lemma DiscountListBalances(s: State, r: Request, x: Tally)
    requires Enabled(s, ClearDiscountList(r))
    ensures Balances(s, After(s, ClearDiscountList(r)), r, x)
  {}

  lemma DiscountTotalBalances(s: State, r: Request, x: Tally)
    requires Enabled(s, ClearDiscountTotal(r))
    ensures Balances(s, After(s, ClearDiscountTotal(r)), r, x)
  {}

  lemma ChangeBalances(s: State, step: Step, x: Tally)
    requires Sound(s) && Enabled(s, step) && Changes(step)
    ensures Balances(s, After(s, step), Changed(s, step), x)
  {
    hide Balances, ListOk, DeliveredOk;
    match step
    case UnlinkPaged =>
      HeadRemoved(s.requests, s.paged, Paged, Status(Fresh, Nowhere, 0));
      UnlinkBalances(s, x);
    case Deliver =>
      assert InHand(s.consumer, s.consumer.r) ==> Of(s.requests, s.consumer.r).place.Taken?;
      DeliverBalances(s, x);
    case TooLarge =>
      assert InHand(s.consumer, s.consumer.r) ==> Of(s.requests, s.consumer.r).place.Taken?;
      TooLargeBalances(s, x);
    case FreeDetached(r) => FreeBalances(s, r, x);
    case ClearDiscountList(r) => DiscountListBalances(s, r, x);
    case ClearDiscountTotal(r) => DiscountTotalBalances(s, r, x);
  }

  lemma ChooseBalances(s: State, x: Tally)
    requires Enabled(s, Choose)
    requires s.nonpaged != [] ==> Of(s.requests, s.nonpaged[0]).place.Listed? && s.nonpaged[0].pool.NonPaged?
    ensures if After(s, Choose).consumer.Unlinked? then s.nonpaged != [] && Balances(s, After(s, Choose), s.nonpaged[0], x)
            else After(s, Choose).requests == s.requests && (Balanced(s, x) ==> Balanced(After(s, Choose), x))
  {
    ChosenIs(s);
    hide After;
    if After(s, Choose).consumer.Unlinked? {
      var r := s.nonpaged[0];
      assert Share(r, Of(s.requests, r)) == Share(r, Of(s.requests, r).(place := Taken));
    }
  }

  lemma DiscountKeepsBalance(s: State, x: Tally)
    requires Balanced(s, x) && Enabled(s, DiscountList)
    ensures After(s, DiscountList).requests == s.requests && Balanced(After(s, DiscountList), x)
  {}

  lemma RecountKeepsBalance(s: State, x: Tally)
    requires Balanced(s, x) && Enabled(s, RecountList)
    ensures After(s, RecountList).requests == s.requests && Balanced(After(s, RecountList), x)
  {}

  lemma GetKeepsBalance(s: State, step: Step, x: Tally)
    requires Balanced(s, x) && Enabled(s, step) && GetStep(step) && !Changes(step) && !step.Choose?
    ensures After(s, step).requests == s.requests && Balanced(After(s, step), x)
  {
    if step.DiscountList? {
      DiscountKeepsBalance(s, x);
      hide After, Balanced;
    } else if step.RecountList? {
      RecountKeepsBalance(s, x);
      hide After, Balanced;
    }
  }

  lemma OthersKeepBalance(s: State, step: Step, x: Tally)
    requires Balanced(s, x) && Enabled(s, step)
    requires !InsertStep(step) && !Changes(step) && !step.Choose?
    requires !step.ClearList? && !step.DisconnectClearNonPaged? && !step.DisconnectClearPaged?
    ensures After(s, step).requests == s.requests && Balanced(After(s, step), x)
  {
    if GetStep(step) {
      GetKeepsBalance(s, step, x);
      hide After, Balanced, Enabled;
    }
  }

  lemma DetachKeepsCounters(s: State, pool: Pool)
    requires CountersOk(s) && ListOk(s.requests, ListOf(s, pool), pool)
    ensures CountersOk(Detach(s, pool))
  {
    TallyAfterDetach(s.requests, ListOf(s, pool), pool);
    hide TallyOf;
  }

  lemma BalancedStep(s: State, t: State, r: Request)
    requires CountersOk(s) && Balances(s, t, r, TallyOf(s.requests))
    ensures CountersOk(t)
  {
    TallyAfter(s.requests, r, Of(t.requests, r));
    hide TallyOf, Share, Exchange;
  }

  lemma StepKeepsCounters(s: State, step: Step)
    requires CountersOk(s) && Sound(s) && Enabled(s, step)
    ensures CountersOk(After(s, step))
  {
    hide CountersOk, TallyOf, Balances;
    var x, t := TallyOf(s.requests), After(s, step);
    if InsertStep(step) {
      assert StatusOk(Of(s.requests, step.r), s.lastId);
      InsertBalances(s, step, x);
      BalancedStep(s, t, step.r);
    } else if Changes(step) {
      ChangeBalances(s, step, x);
      BalancedStep(s, t, Changed(s, step));
    } else {
      OtherStepKeepsCounters(s, step);
    }
  }

  lemma SessionApart(s: State, session: Session)
    requires CountersOk(s)
    ensures CountersOk(s.(session := session))
  {}

  lemma ChooseKeepsCounters(s: State)
    requires CountersOk(s) && Sound(s) && Enabled(s, Choose)
    ensures CountersOk(After(s, Choose))
  {
    hide TallyOf, Balances, Balanced;
    var x := TallyOf(s.requests);
    if s.nonpaged != [] { HeadRemoved(s.requests, s.nonpaged, NonPaged, Status(Fresh, Nowhere, 0)); }
    ChooseBalances(s, x);
    if After(s, Choose).consumer.Unlinked? { BalancedStep(s, After(s, Choose), s.nonpaged[0]); }
  }

  lemma OtherStepKeepsCounters(s: State, step: Step)
    requires CountersOk(s) && Sound(s) && Enabled(s, step) && !InsertStep(step) && !Changes(step)
    ensures CountersOk(After(s, step))
  {
    hide TallyOf, Balances, Balanced, Detach;
    var x := TallyOf(s.requests);
    match step
    case Choose => ChooseKeepsCounters(s);
    case ClearList(pool) => DetachKeepsCounters(s, pool);
    case DisconnectClearNonPaged =>
      DetachKeepsCounters(s, NonPaged);
      SessionApart(Detach(s, NonPaged), ClearingPaged);
    case DisconnectClearPaged =>
      DetachKeepsCounters(s, Paged);
      SessionApart(Detach(s, Paged), Down);
    case _ => OthersKeepBalance(s, step, x);
  }

  /** Every state of every run has the counters right. */
  lemma {:induction false} RunKeepsCounters(s: State, run: seq<Step>)
    requires CountersOk(s) && Sound(s) && Legal(s, run)
    ensures CountersOk(Exec(s, run))
    decreases |run|
  {
    if run != [] {
      StepKeepsSound(s, run[0]);
      StepKeepsCounters(s, run[0]);
      RunKeepsCounters(After(s, run[0]), run[1..]);
    }
  }

  /** No thread is between linking and counting, or between unlinking and discounting. */
  ghost predicate Quiescent(s: State) {
    && (forall r :: r in s.requests ==> !s.requests[r].pc.Linked? && !s.requests[r].pc.ListCounted?)
    && (forall r :: r in s.requests ==>
          !s.requests[r].place.Detached? && s.requests[r].place != Cleared(2) && s.requests[r].place != Cleared(1))
    && ConsumerOnTotal(s.consumer) == 0
  }

  /** At quiescence the counters of every run are the list lengths. */
  lemma CountersExactAtQuiescence(run: seq<Step>, collect: bool, clear: bool)
    requires Legal(Initial(collect, clear), run) && Quiescent(Exec(Initial(collect, clear), run))
    ensures var s := Exec(Initial(collect, clear), run);
      s.pagedLength == |s.paged| && s.nonpagedLength == |s.nonpaged| && s.length == |s.paged| + |s.nonpaged|
  {
    RunKeepsCounters(Initial(collect, clear), run);
    var m := Exec(Initial(collect, clear), run).requests;
    assert Matching(m, Uncounted(Paged)) == {} && Matching(m, Uncounted(NonPaged)) == {};
    assert Matching(m, Owed(Paged)) == {} && Matching(m, Owed(NonPaged)) == {};
    assert Matching(m, TotalUncounted()) == {} && Matching(m, TotalOwed()) == {};
  }

  // ----- conservation

  /** In every state of every run each request given to the queue is in exactly one
      place: with its caller, on the list of its pool (once), in the consumer's hands,
      delivered (once), cleared, handed to the callbacks, or freed by the insert. */
  lemma EveryRequestInOnePlace(run: seq<Step>, collect: bool, clear: bool, r: Request)
    requires Legal(Initial(collect, clear), run)
    ensures var s := Exec(Initial(collect, clear), run); var p := Of(s.requests, r).place;
      && multiset(s.paged)[r] + multiset(s.nonpaged)[r] + multiset(s.delivered)[r]
         + One(InHand(s.consumer, r)) + One(p.Calling?) + One(p.Detached? || p.Cleared?)
         + One(p.HandedOver?) + One(p.Refused?)
         == One(Of(s.requests, r).pc != Fresh)
  {
    var s := Exec(Initial(collect, clear), run);
    RunKeepsSound(Initial(collect, clear), run);
    assert StatusOk(Of(s.requests, r), s.lastId);
    AtMostOnce(s.paged, r);
    AtMostOnce(s.nonpaged, r);
    AtMostOnce(s.delivered, r);
  }

  lemma {:induction false} AtMostOnce(q: seq<Request>, r: Request)
    requires Distinct(q)
    ensures multiset(q)[r] == One(r in q)
  {
    if q != [] {
      AtMostOnce(q[1..], r);
      assert q == [q[0]] + q[1..];
    }
  }
}
