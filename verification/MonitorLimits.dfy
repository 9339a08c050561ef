/** Where monitoring may be switched on: the converse of MonitorRuns, and two reachable states
    in which the slots are not right. */
module MonitorLimits {
  import opened HookRecords
  import opened HookManager
  import opened HookHandles
  import opened HookServices
  import opened DispatchHandlers
  import opened HookEffects
  import opened HookRuns
  import opened HookReached
  import opened MonitorRuns
  import H = DispatchHooks

  // ----- closing all handles is always possible

  lemma CanDelete(s: State) returns (t: State)
    requires Settled(s) && Borrowless(s)
    ensures Next(s, DeleteHandles, t)
  {
    t := Emptied(s);
    CountedOff(s, t);
    hide Settled, FewerHandles, HandlesCounted;
  }

  /** The handles closed, one after the other. */
  lemma Emptied(s: State) returns (t: State)
    requires Settled(s) && Borrowless(s)
    ensures Settled(t) && FewerHandles(s, t) && t.driverHandles == map[] && t.deviceHandles == map[]
    decreases s.driverHandles.Keys, s.deviceHandles.Keys
  {
    hide Settled, Conserved, FewerHandles, DriverHandleGone, DeviceHandleGone;
    if s.driverHandles != map[] {
      var h :| h in s.driverHandles;
      DriverHandleGoneSettled(s, h);
      FewerDriverHandles(s, h);
      var u := DriverHandleGone(s, h);
      DriverHandleLess(s, h);
      GoneBorrowless(s, u);
      t := Emptied(u);
      FewerIsTransitive(s, u, t);
    } else if s.deviceHandles != map[] {
      var h :| h in s.deviceHandles;
      DeviceHandleGoneSettled(s, h);
      FewerDeviceHandles(s, h);
      var u := DeviceHandleGone(s, h);
      DeviceHandleLess(s, h);
      GoneBorrowless(s, u);
      t := Emptied(u);
      FewerIsTransitive(s, u, t);
    } else {
      t := s;
      NoFewer(s);
    }
  }

  lemma GoneBorrowless(s: State, t: State)
    requires Borrowless(s) && FewerHandles(s, t)
    ensures Borrowless(t)
  {}

  lemma DriverHandleLess(s: State, h: Address)
    requires h in s.driverHandles && s.driverHandles[h] in s.drivers
    ensures DriverHandleGone(s, h).driverHandles.Keys < s.driverHandles.Keys
  {
    assert h !in DriverHandleGone(s, h).driverHandles.Keys;
  }

  lemma DeviceHandleLess(s: State, h: Address)
    requires h in s.deviceHandles && s.deviceHandles[h] in s.devices
    requires s.devices[s.deviceHandles[h]].driver in s.drivers
    ensures DeviceHandleGone(s, h).deviceHandles.Keys < s.deviceHandles.Keys
  {
    assert h !in DeviceHandleGone(s, h).deviceHandles.Keys;
  }

  /** With all handles closed, the records in the driver table are those left. */
  lemma OnlyTabledLeft(s: State, t: State, p: Address)
    requires Settled(s) && Borrowless(s) && Next(s, DeleteHandles, t) && p in t.drivers
    ensures InDriverTable(t, p)
  {
    hide Settled, Next;
    DeletedAll(s, t);
    NextSettled(s, DeleteHandles, t);
    AliveAtRest(t);
    var o :| o in t.driverTable && t.driverTable[o] == p;
    TableNames(t, o);
  }

  lemma DeletedAll(s: State, t: State)
    requires Next(s, DeleteHandles, t)
    ensures t.driverHandles == map[] && t.deviceHandles == map[] && FewerHandles(s, t)
  {}

  // ----- the converse

  /** The world after a service. */
  function Served(w: World, c: Call, x: H.Settings, t: State): World {
    var monitors := if Unhooks(w.hooks, c) then RecordMonitors(w, UnhookedRecord(w.hooks, c), false) else w.monitors;
    World(t, if Unhooks(w.hooks, c) then RecordSlots(w, UnhookedRecord(w.hooks, c), false) else w.slots,
          map p | p in t.drivers :: if p in monitors then monitors[p] else NewMonitor(x, t.drivers[p].extensionHook))
  }

  lemma IsServed(w: World, c: Call, x: H.Settings, t: State)
    requires Next(w.hooks, c, t) && (c.HookDriver? ==> c.driverObject in w.slots) && !c.SeeDevice?
    ensures Step(w, Service(c, x), Served(w, c, x, t))
  {
    hide Next;
  }

  /** The slots are right, and stay right when the handles are closed. */
  ghost predicate StaysRight(w: World, original: Objects) {
    Right(w, original) && forall x, u :: Step(w, Service(DeleteHandles, x), u) ==> Right(u, original)
  }

  /** A second working record for the same driver object. */
  lemma SecondIsWrong(w: World, original: Objects, h: Address, q: Address, v: World)
    requires Neat(w, original) && Opens(w, h) && !w.monitors[Record(w, h)].enabled && Step(w, Enable(h, true), v)
    requires Object(w, h) in original && H.Selects(original[Object(w, h)], w.monitors[Record(w, h)])
    requires Works(w, original, q) && w.hooks.drivers[q].driverObject == Object(w, h)
    ensures !Right(v, original)
  {
    hide Neat, H.HookedRight, H.Hooked, H.Saved, Step;
    var p, o := Record(w, h), Object(w, h);
    var m := w.monitors[p];
    assert v == w.(slots := SwitchedSlots(w, h, true), monitors := SwitchedMonitors(w, h, true)) by {
      Switched(w, h, true, v);
    }
    WorkersAreTabled(w, original, q);
    HandlesOpen(w, original, h);
    H.NotBothRight(original[o], w.monitors[q].settings, w.monitors[q].extensionHook, w.monitors[q].saved, m);
    assert Works(v, original, q) && Works(v, original, p);
    assert v.monitors[q] == w.monitors[q];
    assert v.monitors[p].settings == m.settings && v.monitors[p].extensionHook == m.extensionHook;
  }

  lemma Switched(w: World, h: Address, on: bool, v: World)
    requires Step(w, Enable(h, on), v)
    ensures v == w.(slots := SwitchedSlots(w, h, on), monitors := SwitchedMonitors(w, h, on))
  {}

  lemma DeletedWorkers(w: World, original: Objects, v: World, x: H.Settings, t: State, p: Address, m: H.Monitor,
                       r: Address)
    requires Neat(w, original) && v.hooks == w.hooks && Next(w.hooks, DeleteHandles, t) && p in w.monitors
    requires !InDriverTable(w.hooks, p) && v.monitors == w.monitors[p := m]
    requires Works(Served(v, DeleteHandles, x, t), original, r)
    ensures r in t.drivers && r in w.hooks.drivers && Works(w, original, r)
    ensures w.hooks.drivers[r].driverObject == t.drivers[r].driverObject
  {
    hide Next, Settled, Borrowless, RecordOk, ObjectOk, Originals;
    DeletedAll(w.hooks, t);
    OnlyTabledLeft(w.hooks, t, r);
    assert r != p;
    assert r in w.monitors.Keys;
    hide H.Selects;
  }

  /** A working record outside the driver table: closing its handles frees it, and its hooks
      stay. */
  lemma FreedIsWrong(w: World, original: Objects, h: Address, v: World)
    requires Neat(w, original) && Opens(w, h) && !w.monitors[Record(w, h)].enabled && Step(w, Enable(h, true), v)
    requires Object(w, h) in original && H.Selects(original[Object(w, h)], w.monitors[Record(w, h)])
    requires !InDriverTable(w.hooks, Record(w, h)) && Idle(w, original, Object(w, h))
    ensures !StaysRight(v, original)
  {
    hide Next, Settled, RecordOk, ObjectOk, H.MonitorAfter, Works, Step;
    var p, o := Record(w, h), Object(w, h);
    var m := w.monitors[p];
    assert v == w.(slots := SwitchedSlots(w, h, true), monitors := SwitchedMonitors(w, h, true)) by {
      Switched(w, h, true, v);
    }
    IdleIsOriginal(w, original, o);
    assert v.slots[o] != original[o];
    var t := CanDelete(w.hooks);
    var u := Served(v, DeleteHandles, m.settings, t);
    IsServed(v, DeleteHandles, m.settings, t);
    assert v.monitors == w.monitors[p := H.MonitorAfter(w.slots[o], m, true)];
    forall r | Works(u, original, r) ensures r in t.drivers && t.drivers[r].driverObject != o {
      DeletedWorkers(w, original, v, m.settings, t, p, H.MonitorAfter(w.slots[o], m, true), r);
    }
    StrayHooks(u, original, o);
    assert Step(v, Service(DeleteHandles, m.settings), u);
    NotRightLater(v, original, m.settings, u);
  }

  lemma StrayHooks(w: World, original: Objects, o: Address)
    requires o in original && o in w.slots && w.slots[o] != original[o]
    requires forall r :: Works(w, original, r) ==> r in w.hooks.drivers && w.hooks.drivers[r].driverObject != o
    ensures !Right(w, original)
  {
    assert Idle(w, original, o);
  }

  lemma NotRightLater(w: World, original: Objects, x: H.Settings, u: World)
    requires Step(w, Service(DeleteHandles, x), u) && !Right(u, original)
    ensures !StaysRight(w, original)
  {
    hide Step, Right;
  }

  lemma Worker(w: World, original: Objects, o: Address) returns (q: Address)
    requires !Idle(w, original, o)
    ensures Works(w, original, q) && w.hooks.drivers[q].driverObject == o
  {
    q :| Works(w, original, q) && w.hooks.drivers[q].driverObject == o;
  }

  lemma AllowedStaysRight(w: World, original: Objects, h: Address, v: World)
    requires Neat(w, original) && Step(w, Enable(h, true), v) && Allowed(w, original, h)
    ensures StaysRight(v, original)
  {
    hide Neat, Step, Right, Allowed;
    EnableKeepsNeat(w, original, h, true, v);
    NeatIsRight(v, original);
    forall x, u | Step(v, Service(DeleteHandles, x), u) ensures Right(u, original) {
      StepKeepsNeat(v, original, Service(DeleteHandles, x), u);
      NeatIsRight(u, original);
    }
  }

  /** The condition is exact: where it does not hold, the slots are wrong as soon as
      monitoring is on, or once all handles are closed. */
  lemma AllowedExactly(w: World, original: Objects, h: Address, v: World)
    requires Neat(w, original) && Step(w, Enable(h, true), v)
    ensures Allowed(w, original, h) <==> StaysRight(v, original)
  {
    hide Neat, Step, Right, StaysRight, Works, H.Selects, InDriverTable;
    if Allowed(w, original, h) {
      AllowedStaysRight(w, original, h, v);
    } else if Idle(w, original, Object(w, h)) {
      FreedIsWrong(w, original, h, v);
    } else {
      var q := Worker(w, original, Object(w, h));
      SecondIsWrong(w, original, h, q, v);
      assert !StaysRight(v, original) by { NotRight(v, original); }
    }
  }

  lemma NotRight(w: World, original: Objects)
    requires !Right(w, original)
    ensures !StaysRight(w, original)
  {
    hide Right;
  }

  /** After any run in which the condition has been met, it says whether monitoring may be
      switched on next. */
  lemma EnableExactly(original: Objects, trace: seq<World>, actions: seq<Action>, h: Address, v: World)
    requires Runs(original, trace, actions) && Step(trace[|actions|], Enable(h, true), v)
    requires forall k :: 0 <= k < |actions| ==> Careful(trace[k], original, actions[k])
    ensures Allowed(trace[|actions|], original, h) <==> StaysRight(v, original)
  {
    hide Careful, Step, Allowed, StaysRight, Neat;
    RunStaysNeat(original, trace, actions, |actions|);
    AllowedExactly(trace[|actions|], original, h, v);
  }

  // ----- reachable states

  ghost predicate Reaches(original: Objects, w: World) {
    exists trace, actions :: Runs(original, trace, actions) && trace[|actions|] == w
  }

  lemma ReachesStart(original: Objects)
    requires Originals(original)
    ensures Reaches(original, World(NOTHING, original, map[]))
  {
    assert Runs(original, [World(NOTHING, original, map[])], []);
  }

  lemma ReachesNext(original: Objects, w: World, a: Action, v: World)
    requires Reaches(original, w) && Step(w, a, v)
    ensures Reaches(original, v)
  {
    hide Step;
    var trace, actions :| Runs(original, trace, actions) && trace[|actions|] == w;
    var n := |actions|;
    forall i | 0 <= i < n + 1 ensures Step((trace + [v])[i], (actions + [a])[i], (trace + [v])[i + 1]) {
      if i < n { assert Step(trace[i], actions[i], trace[i + 1]); }
    }
    assert Runs(original, trace + [v], actions + [a]) && (trace + [v])[|actions + [a]|] == v;
  }

  lemma ReachesServed(original: Objects, w: World, c: Call, x: H.Settings, t: State)
    requires Reaches(original, w) && Next(w.hooks, c, t) && (c.HookDriver? ==> c.driverObject in w.slots) && !c.SeeDevice?
    ensures Reaches(original, Served(w, c, x, t))
  {
    hide Step, Next, Reaches;
    IsServed(w, c, x, t);
    ReachesNext(original, w, Service(c, x), Served(w, c, x, t));
  }

  lemma ReachesSwitched(original: Objects, w: World, h: Address, on: bool) returns (v: World)
    requires Reaches(original, w)
    ensures Reaches(original, v) && v == w.(slots := SwitchedSlots(w, h, on), monitors := SwitchedMonitors(w, h, on))
  {
    hide Reaches, SwitchedSlots, SwitchedMonitors;
    v := w.(slots := SwitchedSlots(w, h, on), monitors := SwitchedMonitors(w, h, on));
    ReachesNext(original, w, Enable(h, on), v);
  }

  /** Driver object 1 was hooked and opened twice, and unhooked through the first handle. */
  lemma OutOfTableReached(original: Objects, x: H.Settings) returns (w: World)
    requires Originals(original) && 1 in original
    ensures Reaches(original, w) && Settled(w.hooks) && Borrowless(w.hooks) && OutOfTable(w.hooks)
    ensures w.slots == original && w.monitors == map[1 := NewMonitor(x, false)]
  {
    hide Settled, Next, Reaches, Originals, H.SlotsAfter, H.Shape, NewMonitor;
    var w0 := World(NOTHING, original, map[]);
    NothingIsSettled();
    ReachesStart(original);
    var s1 := HookingOnce();
    ReachesServed(original, w0, HookDriver(1, false, [], true), x, s1);
    var w1 := Served(w0, HookDriver(1, false, [], true), x, s1);
    assert w1.monitors == map[1 := NewMonitor(x, false)];
    NextSettled(NOTHING, HookDriver(1, false, [], true), s1);
    var s2 := OpeningTwice(s1);
    ReachesServed(original, w1, OpenDriver(1, true), x, s2);
    var w2 := Served(w1, OpenDriver(1, true), x, s2);
    assert w2.monitors == w1.monitors;
    NextSettled(s1, OpenDriver(1, true), s2);
    var s3 := TakingOut(s2);
    ReachesServed(original, w2, UnhookDriver(2), x, s3);
    w := Served(w2, UnhookDriver(2), x, s3);
    NextSettled(s2, UnhookDriver(2), s3);
    NothingSwitched(w2, 2);
    assert w.monitors == w2.monitors;
  }

  /** Switching off what is off changes nothing. */
  lemma NothingSwitched(w: World, h: Address)
    requires forall p :: p in w.monitors ==> !w.monitors[p].enabled
    ensures SwitchedSlots(w, h, false) == w.slots && SwitchedMonitors(w, h, false) == w.monitors
  {}

  lemma NothingSelected(w: World, original: Objects, o: Address)
    requires w.monitors == map[] && o in original && o in w.slots && w.slots[o] != original[o]
    ensures !Right(w, original)
  {
    assert Idle(w, original, o);
  }

  /** Monitoring a driver that has been unhooked, and closing the last handle: no record is
      left, and whatever the record selected stays hooked. */
  lemma HooksLeftBehind(original: Objects, x: H.Settings)
    requires Originals(original) && 1 in original
    ensures exists w ::
      && Reaches(original, w) && w.hooks.drivers == map[] && w.slots == original[1 := H.Hooked(original[1], x, false)]
      && (H.Hooked(original[1], x, false) != original[1] ==> !Right(w, original))
  {
    hide Settled, Next, Reaches, H.Hooked, Right;
    var w3 := OutOfTableReached(original, x);
    var w4 := ReachesSwitched(original, w3, 3, true);
    assert w4.slots == original[1 := H.Hooked(original[1], x, false)];
    var s5 := DriverHandleGone(w4.hooks, 3);
    CanClose(w4.hooks, 3);
    NothingLeft(s5);
    ReachesServed(original, w4, CloseDriver(3), x, s5);
    var w5 := Served(w4, CloseDriver(3), x, s5);
    assert w5.monitors == map[];
    if H.Hooked(original[1], x, false) != original[1] { NothingSelected(w5, original, 1); }
  }

  lemma CanClose(s: State, h: Address)
    requires Settled(s) && Borrowless(s) && h in s.driverHandles
    ensures s.driverHandles[h] in s.drivers && Next(s, CloseDriver(h), DriverHandleGone(s, h))
    ensures var t := DriverHandleGone(s, h);
      && Settled(t) && Borrowless(t) && t.driverTable == s.driverTable
      && t.driverHandles == s.driverHandles - {h} && t.deviceHandles == s.deviceHandles
  {
    DriverHandleGoneSettled(s, h);
    FewerDriverHandles(s, h);
    GoneBorrowless(s, DriverHandleGone(s, h));
    hide Settled, UnrefDriver;
    UnrefFrame(DropDriverHandle(s, h), s.driverHandles[h]);
  }

  /** Two records of one driver object, one of them unhooked, monitored on, on, off, off: no
      record is monitored, but the slots are restored exactly if the two select no present
      routine in common. */
  lemma HooksPutBack(original: Objects, x: H.Settings, y: H.Settings)
    requires Originals(original) && 1 in original
    ensures exists w ::
      && Reaches(original, w) && (forall p :: p in w.monitors ==> !w.monitors[p].enabled) && 1 in w.slots
      && (w.slots[1] == original[1] <==> !H.Overlap(original[1], x, false, y, false))
  {
    hide Settled, Next, Reaches, H.Hooked, H.Saved, H.Restored;
    var w3 := OutOfTableReached(original, x);
    var s4 := HookingAgain(w3.hooks);
    ReachesServed(original, w3, HookDriver(1, false, [], true), y, s4);
    var w4 := Served(w3, HookDriver(1, false, [], true), y, s4);
    assert w4.monitors == map[1 := NewMonitor(x, false), 2 := NewMonitor(y, false)];
    var w5 := ReachesSwitched(original, w4, 3, true);
    var w6 := ReachesSwitched(original, w5, 4, true);
    var w7 := ReachesSwitched(original, w6, 3, false);
    var w8 := ReachesSwitched(original, w7, 4, false);
    FourSwitches(original, x, y, w4, w5, w6, w7, w8);
    var nulls := NewMonitor(x, false).saved;
    H.TwoRecords(original[1], x, false, nulls, y, false, nulls);
  }

  predicate IsSwitched(w: World, h: Address, on: bool, v: World) {
    v == w.(slots := SwitchedSlots(w, h, on), monitors := SwitchedMonitors(w, h, on))
  }

  lemma FourSwitches(original: Objects, x: H.Settings, y: H.Settings, w4: World, w5: World, w6: World, w7: World,
                     w8: World)
    requires Originals(original) && 1 in original && HookedAgain(w4.hooks) && w4.slots == original
    requires w4.monitors == map[1 := NewMonitor(x, false), 2 := NewMonitor(y, false)]
    requires IsSwitched(w4, 3, true, w5) && IsSwitched(w5, 4, true, w6) && IsSwitched(w6, 3, false, w7)
    requires IsSwitched(w7, 4, false, w8)
    ensures 1 in w8.slots && forall p :: p in w8.monitors ==> !w8.monitors[p].enabled
    ensures var nulls := NewMonitor(x, false).saved;
      w8.slots[1] == H.OnOnOffOff(original[1], x, false, nulls, y, false, nulls)
  {
    hide Originals, IsSwitched, HookedAgain, H.OnOnOffOff, TwoMonitors, H.SlotsAfter, H.MonitorAfter;
    var s, a, b := original[1], NewMonitor(x, false), NewMonitor(y, false);
    FirstMonitors(original, x, y, w4);
    SwitchFirst(w4, s, a, b, true, w5);
    var s1, a1 := H.SlotsAfter(s, a, true), H.MonitorAfter(s, a, true);
    SwitchSecond(w5, s1, a1, b, true, w6);
    var s2, b2 := H.SlotsAfter(s1, b, true), H.MonitorAfter(s1, b, true);
    SwitchFirst(w6, s2, a1, b2, false, w7);
    var s3, a3 := H.SlotsAfter(s2, a1, false), H.MonitorAfter(s2, a1, false);
    SwitchSecond(w7, s3, a3, b2, false, w8);
    LastOfFour(s, x, y, w8, a3, H.SlotsAfter(s3, b2, false), H.MonitorAfter(s3, b2, false));
  }

  lemma FirstMonitors(original: Objects, x: H.Settings, y: H.Settings, w: World)
    requires Originals(original) && 1 in original && HookedAgain(w.hooks) && w.slots == original
    requires w.monitors == map[1 := NewMonitor(x, false), 2 := NewMonitor(y, false)]
    ensures TwoMonitors(w, original[1], NewMonitor(x, false), NewMonitor(y, false))
  {
    hide NewMonitor, HookedAgain;
  }

  lemma LastOfFour(s: H.Slots, x: H.Settings, y: H.Settings, w: World, a3: H.Monitor, s4: H.Slots, b4: H.Monitor)
    requires H.Shape(s) && TwoMonitors(w, s4, a3, b4)
    requires var a, b := NewMonitor(x, false), NewMonitor(y, false);
      var s1, a1 := H.SlotsAfter(s, a, true), H.MonitorAfter(s, a, true);
      && |s1.fastIo| <= H.FAST_ROUTINES
      && var s2, b2 := H.SlotsAfter(s1, b, true), H.MonitorAfter(s1, b, true);
      && |s2.fastIo| <= H.FAST_ROUTINES && |a1.saved.fastIo| == |b2.saved.fastIo| == H.FAST_ROUTINES
      && var s3 := H.SlotsAfter(s2, a1, false);
      && |s3.fastIo| <= H.FAST_ROUTINES
      && a3 == H.MonitorAfter(s2, a1, false) && s4 == H.SlotsAfter(s3, b2, false) && b4 == H.MonitorAfter(s3, b2, false)
    ensures 1 in w.slots && forall p :: p in w.monitors ==> !w.monitors[p].enabled
    ensures var nulls := NewMonitor(x, false).saved;
      w.slots[1] == H.OnOnOffOff(s, x, false, nulls, y, false, nulls)
  {
    hide HookedAgain, H.Hooked, H.Saved, H.Restored, H.Present;
  }

  /** Records 1 and 2 of driver object 1, behind handles 3 and 4. */
  predicate TwoMonitors(w: World, s: H.Slots, a: H.Monitor, b: H.Monitor) {
    && HookedAgain(w.hooks) && 1 in w.slots && w.slots[1] == s && w.monitors == map[1 := a, 2 := b]
    && H.Shape(s) && H.MonitorShape(a) && H.MonitorShape(b)
  }

  lemma SwitchFirst(w: World, s: H.Slots, a: H.Monitor, b: H.Monitor, on: bool, v: World)
    requires TwoMonitors(w, s, a, b) && IsSwitched(w, 3, on, v)
    ensures H.Shape(s) && H.MonitorShape(a) && H.MonitorShape(b)
    ensures TwoMonitors(v, H.SlotsAfter(s, a, on), H.MonitorAfter(s, a, on), b)
  {
    H.ShapesStay(s, a, on, a.settings);
    hide H.SlotsAfter, H.MonitorAfter;
    assert Opens(w, 3);
  }

  lemma SwitchSecond(w: World, s: H.Slots, a: H.Monitor, b: H.Monitor, on: bool, v: World)
    requires TwoMonitors(w, s, a, b) && IsSwitched(w, 4, on, v)
    ensures H.Shape(s) && H.MonitorShape(a) && H.MonitorShape(b)
    ensures TwoMonitors(v, H.SlotsAfter(s, b, on), a, H.MonitorAfter(s, b, on))
  {
    H.ShapesStay(s, b, on, b.settings);
    hide H.SlotsAfter, H.MonitorAfter;
    assert Opens(w, 4);
  }
}
