/** Liveness: which request the consumer picks, and that every queued request can be
    returned by calls of RequestQueueGet alone, from every state of a live session. */
module EventQueueDelivery {
  import opened EventQueue
  import opened EventQueueInvariants
  import opened EventQueueFifo
  import opened EventQueueRundown
  import opened EventQueueGates

  function Id(s: State, r: Request): nat { Of(s.requests, r).id }

  /** The head of a list, no newer than the head of the other one; the paged head on a tie. */
  predicate Oldest(s: State, r: Request) {
    || (s.paged != [] && r == s.paged[0] && (s.nonpaged == [] || Id(s, r) <= Id(s, s.nonpaged[0])))
    || (s.nonpaged != [] && r == s.nonpaged[0] && (s.paged == [] || Id(s, r) < Id(s, s.paged[0])))
  }

  predicate Empty(s: State) { s.paged == [] && s.nonpaged == [] }

  /** The consumer leaves empty-handed exactly if both lists are empty; otherwise it has
      picked the oldest head. */
  lemma ChosenExactly(s: State)
    requires Enabled(s, Choose)
    ensures var c := After(s, Choose).consumer;
      && (c.Leaving? <==> Empty(s)) && (!Empty(s) ==> (c.Taking? || c.Unlinked?) && Oldest(s, c.r))
      && (c.Taking? ==> s.paged != [] && c.r == s.paged[0]) && (c.Unlinked? ==> s.nonpaged != [] && c.r == s.nonpaged[0])
  {}

  // ----- one call of RequestQueueGet

  /** Steps of RequestQueueGet alone, none of them putting a request back. */
  ghost predicate GetsOnly(run: seq<Step>) { forall i :: 0 <= i < |run| ==> GetStep(run[i]) && !run[i].TooLarge? }

  ghost predicate GetLeads(s: State, t: State) {
    exists run {:trigger Legal(s, run)} :: Legal(s, run) && GetsOnly(run) && Exec(s, run) == t
  }

  lemma GetsNothing(s: State)
    ensures GetLeads(s, s)
  {
    assert Legal(s, []) && GetsOnly([]) && Exec(s, []) == s;
  }

  lemma GetsFirst(s: State, step: Step, t: State)
    requires Enabled(s, step) && GetStep(step) && !step.TooLarge? && GetLeads(After(s, step), t)
    ensures GetLeads(s, t)
  {
    var run :| Legal(After(s, step), run) && GetsOnly(run) && Exec(After(s, step), run) == t;
    var all := [step] + run;
    assert all[1..] == run && Legal(s, all);
    assert GetsOnly(all) by {
      forall i | 0 <= i < |all| ensures GetStep(all[i]) && !all[i].TooLarge? { if i > 0 { assert all[i] == run[i - 1]; } }
    }
  }

  lemma CountedIsReturned(s: State)
    requires s.consumer.Holding?
    ensures exists t :: GetLeads(s, t) && t.delivered == s.delivered + [s.consumer.r] && t.consumer.Idle?
                        && t.paged == s.paged && t.nonpaged == s.nonpaged
  {
    hide GetLeads, Set;
    var u := After(s, Deliver);
    var t := After(u, GetRelease);
    GetsNothing(t);
    GetsFirst(u, GetRelease, t);
    GetsFirst(s, Deliver, t);
  }

  /** A request in the consumer's hands can be returned. */
  lemma HeldIsReturned(s: State)
    requires s.consumer.Unlinked?
    ensures exists t :: GetLeads(s, t) && t.delivered == s.delivered + [s.consumer.r] && t.consumer.Idle?
                        && t.paged == s.paged && t.nonpaged == s.nonpaged
  {
    hide GetLeads;
    var u := After(s, DiscountList);
    var v := After(u, DiscountTotal);
    CountedIsReturned(v);
    var t :| GetLeads(v, t) && t.delivered == v.delivered + [s.consumer.r] && t.consumer.Idle?
             && t.paged == v.paged && t.nonpaged == v.nonpaged;
    GetsFirst(u, DiscountTotal, t);
    GetsFirst(s, DiscountList, t);
  }

  lemma TakenIsReturned(s: State)
    requires s.consumer.Taking? && s.paged != [] && s.consumer.r == s.paged[0]
    ensures exists t :: GetLeads(s, t) && t.delivered == s.delivered + [s.consumer.r] && t.consumer.Idle?
                        && s.paged == [s.consumer.r] + t.paged && t.nonpaged == s.nonpaged
  {
    hide GetLeads, Set;
    var u := After(s, UnlinkPaged);
    HeldIsReturned(u);
    var t :| GetLeads(u, t) && t.delivered == u.delivered + [s.consumer.r] && t.consumer.Idle?
             && t.paged == u.paged && t.nonpaged == u.nonpaged;
    GetsFirst(s, UnlinkPaged, t);
  }

  /** A call that has the lock can return the oldest head whenever a list is not empty; the
      other requests stay where they are. */
  lemma GetCanReturn(s: State)
    requires s.consumer.Ready? && !Empty(s)
    ensures exists r, t :: GetLeads(s, t) && Oldest(s, r) && t.delivered == s.delivered + [r] && t.consumer.Idle?
                           && ((s.paged == [r] + t.paged && t.nonpaged == s.nonpaged)
                               || (s.nonpaged == [r] + t.nonpaged && t.paged == s.paged))
  {
    hide GetLeads, GetsOnly, Set;
    ChosenExactly(s);
    var u := After(s, Choose);
    var r := u.consumer.r;
    if u.consumer.Taking? {
      TakenIsReturned(u);
      var t :| GetLeads(u, t) && t.delivered == u.delivered + [r] && t.consumer.Idle?
               && u.paged == [r] + t.paged && t.nonpaged == u.nonpaged;
      GetsFirst(s, Choose, t);
    } else {
      HeldIsReturned(u);
      var t :| GetLeads(u, t) && t.delivered == u.delivered + [r] && t.consumer.Idle?
               && t.paged == u.paged && t.nonpaged == u.nonpaged;
      GetsFirst(s, Choose, t);
      assert s.nonpaged == [r] + t.nonpaged;
    }
  }

  /** A call that finds a connected queue and an intact lock can do the same. */
  lemma CallCanReturn(s: State)
    requires s.consumer.Idle? && Connected(s) && !s.removed && !Empty(s)
    ensures exists r, t :: GetLeads(s, t) && Oldest(s, r) && t.delivered == s.delivered + [r] && t.consumer.Idle?
                           && ((s.paged == [r] + t.paged && t.nonpaged == s.nonpaged)
                               || (s.nonpaged == [r] + t.nonpaged && t.paged == s.paged))
  {
    hide GetLeads, Set;
    var s1 := After(s, GetEnter);
    var s2 := After(s1, GetAcquire);
    GetCanReturn(s2);
    var r, t :| GetLeads(s2, t) && Oldest(s2, r) && t.delivered == s2.delivered + [r] && t.consumer.Idle?
                && ((s2.paged == [r] + t.paged && t.nonpaged == s2.nonpaged)
                    || (s2.nonpaged == [r] + t.nonpaged && t.paged == s2.paged));
    assert Oldest(s, r);
    GetsFirst(s1, GetAcquire, t);
    GetsFirst(s, GetEnter, t);
  }

  // ----- calls of RequestQueueGet until both lists are empty

  /** The next step of the thread that gets, if no record is too large. */
  function NextGet(c: Consumer): Step {
    match c
    case Idle => GetEnter
    case Knocking => GetAcquire
    case Ready => Choose
    case Taking(_) => UnlinkPaged
    case Unlinked(_) => DiscountList
    case ListDiscounted(_) => DiscountTotal
    case Holding(_) => Deliver
    case PutBack(_) => RecountList
    case ListRecounted(_) => RecountTotal
    case Leaving => GetRelease
  }

  /** The steps still to be taken for the call under way, at most. */
  function StepsLeft(c: Consumer, empty: bool): nat {
    match c
    case Idle => if empty then 0 else 12
    case Knocking => 11
    case Ready => 10
    case Taking(_) => 9
    case Unlinked(_) => 16
    case ListDiscounted(_) => 15
    case Holding(_) => 14
    case PutBack(_) => 16
    case ListRecounted(_) => 15
    case Leaving => if empty then 1 else 13
  }

  function Rank(s: State): nat { 20 * (|s.paged| + |s.nonpaged|) + StepsLeft(s.consumer, Empty(s)) }

  /** What is listed or in the consumer's hands is delivered or still there; everything else
      is where it was. */
  ghost predicate OnlyReturned(s: State, t: State) {
    && s.delivered <= t.delivered && t.session == s.session && t.removed == s.removed
    && forall r {:trigger Of(t.requests, r)} :: var p, q := Of(s.requests, r).place, Of(t.requests, r).place;
      if p.Listed? || p.Taken? then q.Listed? || q.Taken? || q.Delivered? else q == p
  }

  ghost predicate Proceeds(s: State, step: Step) {
    Enabled(s, step) && Rank(After(s, step)) < Rank(s) && OnlyReturned(s, After(s, step))
  }

  lemma ChooseProceeds(s: State)
    requires s.consumer.Ready? && (s.nonpaged != [] ==> Of(s.requests, s.nonpaged[0]).place.Listed?)
    ensures Proceeds(s, Choose)
  {
    ChosenExactly(s);
    ChosenIs(s);
    hide After;
  }

  lemma UnlinkProceeds(s: State)
    requires s.consumer.Taking? && s.paged != [] && s.paged[0] == s.consumer.r && Of(s.requests, s.paged[0]).place.Listed?
    ensures Proceeds(s, UnlinkPaged)
  {}

  lemma DeliverProceeds(s: State)
    requires s.consumer.Holding? && Of(s.requests, s.consumer.r).place.Taken?
    ensures Proceeds(s, Deliver)
  {}

  lemma StepProceeds(s: State)
    requires s.session.Up? && !s.removed && Rank(s) > 0
    requires !s.consumer.Ready? && !s.consumer.Taking? && !s.consumer.Holding?
    ensures Proceeds(s, NextGet(s.consumer))
  {
    assert After(s, NextGet(s.consumer)).requests == s.requests;
  }

  lemma GetProceeds(s: State)
    requires Sound(s) && s.session.Up? && !s.removed && Rank(s) > 0
    ensures Proceeds(s, NextGet(s.consumer))
  {
    if s.consumer.Ready? {
      if s.nonpaged != [] { assert s.nonpaged[0] in s.nonpaged; }
      ChooseProceeds(s);
      hide Proceeds;
    } else if s.consumer.Taking? {
      assert s.paged[0] in s.paged;
      UnlinkProceeds(s);
      hide Proceeds;
    } else if s.consumer.Holding? {
      assert InHand(s.consumer, s.consumer.r);
      DeliverProceeds(s);
      hide Proceeds;
    } else {
      StepProceeds(s);
      hide Proceeds, Sound;
    }
  }

  /** Everything queued in s has been returned in t; everything else is where it was. */
  ghost predicate AllReturned(s: State, t: State) {
    && Empty(t) && t.consumer.Idle? && s.delivered <= t.delivered && t.session == s.session && t.removed == s.removed
    && forall r {:trigger Of(t.requests, r)} {:trigger Of(s.requests, r)} ::
      if Of(s.requests, r).place.Listed? || Of(s.requests, r).place.Taken? then r in t.delivered
      else Of(t.requests, r).place == Of(s.requests, r).place
  }

  lemma ReturnedAtLast(s: State)
    requires Sound(s) && Rank(s) == 0
    ensures AllReturned(s, s)
  {
    forall r | Of(s.requests, r).place.Listed? || Of(s.requests, r).place.Taken? ensures false {
      assert r in s.paged || r in s.nonpaged || InHand(s.consumer, r) by {
        assert r.pool.Paged? || r.pool.NonPaged?;
      }
    }
  }

  lemma ReturnedFirst(s: State, u: State, t: State)
    requires Sound(u) && OnlyReturned(s, u) && AllReturned(u, t)
    ensures AllReturned(s, t)
  {
    forall r | Of(s.requests, r).place.Listed? || Of(s.requests, r).place.Taken? ensures r in t.delivered {
      var q := Of(u.requests, r).place;
      if q.Delivered? { assert r in u.delivered; }
    }
    hide Sound;
  }

  /** From every state of a live session both lists can be emptied by gets alone, and every
      request that was queued is then returned. */
  lemma {:induction false} GetsCanReturnAll(s: State)
    requires Sound(s) && s.session.Up? && !s.removed
    ensures exists t :: GetLeads(s, t) && AllReturned(s, t)
    decreases Rank(s)
  {
    if Rank(s) == 0 {
      ReturnedAtLast(s);
      GetsNothing(s);
      hide AllReturned, GetLeads, Sound;
    } else {
      var step := NextGet(s.consumer);
      GetProceeds(s);
      StepKeepsSound(s, step);
      GetsCanReturnAll(After(s, step));
      var t :| GetLeads(After(s, step), t) && AllReturned(After(s, step), t);
      GetsFirst(s, step, t);
      ReturnedFirst(s, After(s, step), t);
      hide AllReturned, GetLeads, Sound;
    }
  }

  // ----- from the insert to the consumer

  lemma {:induction false} RunLeads(s: State, run: seq<Step>, t: State)
    requires Legal(s, run) && Leads(Exec(s, run), t)
    ensures Leads(s, t)
    decreases |run|
  {
    hide Leads;
    if run != [] {
      RunLeads(After(s, run[0]), run[1..], t);
      LeadsFirst(s, run[0], t);
    }
  }

  lemma LeadsOn(s: State, u: State, t: State)
    requires Leads(s, u) && Leads(u, t)
    ensures Leads(s, t)
  {
    var run :| Legal(s, run) && Exec(s, run) == u;
    RunLeads(s, run, t);
  }

  lemma GetLeadsLeads(s: State, t: State)
    requires GetLeads(s, t)
    ensures Leads(s, t)
  {}

  /** A session that is up, with the consumer between two calls. */
  predicate Live(s: State) { s.session.Up? && !s.removed && s.consumer.Idle? }

  lemma LeadsSelf(s: State)
    ensures Leads(s, s)
  {
    assert Legal(s, []) && Exec(s, []) == s;
  }

  lemma LinkedIsQueued(s: State, r: Request)
    requires At(s, r, Linked) && Live(s)
    ensures exists t :: Leads(s, t) && Live(t) && t.delivered == s.delivered
                        && Of(t.requests, r) == Of(s.requests, r).(pc := Returned)
  {
    hide Leads;
    var s1 := After(s, CountList(r));
    var s2 := After(s1, CountTotal(r));
    var t := After(s2, Return(r));
    LeadsSelf(t);
    LeadsFirst(s2, Return(r), t);
    LeadsFirst(s1, CountTotal(r), t);
    LeadsFirst(s, CountList(r), t);
  }

  lemma LockedIsQueued(s: State, r: Request)
    requires At(s, r, Locked) && Live(s)
    ensures exists t :: Leads(s, t) && Live(t) && t.delivered == s.delivered
                        && Of(t.requests, r) == Status(Returned, Listed, s.lastId + 1)
  {
    hide Leads;
    var u := After(s, Number(r));
    var v := After(u, Link(r));
    LinkedIsQueued(v, r);
    var t :| Leads(v, t) && Live(t) && t.delivered == v.delivered && Of(t.requests, r) == Of(v.requests, r).(pc := Returned);
    LeadsFirst(u, Link(r), t);
    LeadsFirst(s, Number(r), t);
  }

  /** A new request gets through to its list while somebody is connected. */
  lemma NewIsQueued(s: State, r: Request)
    requires At(s, r, Fresh) && Live(s)
    ensures exists t :: Leads(s, t) && Live(t) && t.delivered == s.delivered
                        && Of(t.requests, r) == Status(Returned, Listed, s.lastId + 1)
  {
    hide Leads;
    var u := After(s, Call(r));
    var v := After(u, PassGate(r));
    var w := After(v, Acquire(r));
    LockedIsQueued(w, r);
    var t :| Leads(w, t) && Live(t) && t.delivered == w.delivered && Of(t.requests, r) == Status(Returned, Listed, w.lastId + 1);
    LeadsFirst(v, Acquire(r), t);
    LeadsFirst(u, PassGate(r), t);
    LeadsFirst(s, Call(r), t);
  }

  /** In every state of a live session, a request that has not been inserted yet can be inserted
      and returned, after everything that is queued already. */
  lemma NewCanBeReturned(s: State, r: Request)
    requires Sound(s) && s.session.Up? && !s.removed && At(s, r, Fresh)
    ensures exists t :: Leads(s, t) && r in t.delivered && s.delivered <= t.delivered
  {
    hide GetLeads, Leads, Legal;
    GetsCanReturnAll(s);
    var u :| GetLeads(s, u) && AllReturned(s, u);
    assert StatusOk(Of(s.requests, r), s.lastId);
    GetLeadsLeads(s, u);
    LeadsSound(s, u);
    assert StatusOk(Of(u.requests, r), u.lastId);
    NewIsQueued(u, r);
    var v :| Leads(u, v) && Live(v) && v.delivered == u.delivered && Of(v.requests, r) == Status(Returned, Listed, u.lastId + 1);
    LeadsSound(u, v);
    GetsCanReturnAll(v);
    var t :| GetLeads(v, t) && AllReturned(v, t);
    GetLeadsLeads(v, t);
    LeadsOn(u, v, t);
    LeadsOn(s, u, t);
  }

  lemma LeadsSound(s: State, t: State)
    requires Sound(s) && Leads(s, t)
    ensures Sound(t)
  {
    var run :| Legal(s, run) && Exec(s, run) == t;
    RunKeepsSound(s, run);
  }

  /** After every run that leaves a session up, everything queued can be returned by gets alone,
      and everything that has not been inserted yet can be inserted and returned. */
  lemma NothingIsStuck(run: seq<Step>, collect: bool, clear: bool, r: Request)
    requires Legal(Initial(collect, clear), run) && Exec(Initial(collect, clear), run).session.Up?
    ensures var s := Exec(Initial(collect, clear), run);
      && (exists t :: GetLeads(s, t) && AllReturned(s, t))
      && (At(s, r, Fresh) ==> exists t :: Leads(s, t) && r in t.delivered && s.delivered <= t.delivered)
  {
    hide GetLeads, Leads, AllReturned, Legal, Exec;
    RunKeepsSound(Initial(collect, clear), run);
    RunKeepsLocks(Initial(collect, clear), run);
    var s := Exec(Initial(collect, clear), run);
    GetsCanReturnAll(s);
    if At(s, r, Fresh) { NewCanBeReturned(s, r); }
  }
}
