/** Runs of the user-mode services: which records are alive after any of them. */
module HookRuns {
  import opened Basics
  import opened HookRecords
  import opened HookManager
  import opened HookHandles
  import opened HookServices
  import opened DispatchHandlers
  import opened HookEffects
  import D = HookDeviceServices

  // ----- UMOpenObjectById

  /** UMOpenObjectById for a driver: exactly the hooked drivers' records can be opened. */
  method OpenDriver(m: Manager, p: Address, copied: bool) returns (status: Status, h: Address)
    requires Ready(m)
    modifies m
    ensures Ready(m)
    ensures status == if p !in old(m.driverTable).Values then InvalidObject else if copied then Success else CopyFailed
    ensures status == Success ==>
      && h !in old(m.driverHandles) && p in old(m.drivers)
      && m.Snapshot() == DriverHandleMade(old(m.Snapshot()), h, p)
    ensures status != Success ==> m.Snapshot() == old(m.Snapshot())
  {
    hide Settled, Conserved, DevicesIndexed, DriversIndexed, NoStray, Issued, UnrefDriver, DriverHandleMade;
    ghost var s := m.Snapshot();
    SettledIsQuiet(s);
    h := 0;
    var valid := m.DriverValid(p);
    if !valid { return InvalidObject, h; }
    LiveDriver(s, p);
    DriverRefSettled(s, p);
    h := CreateDriverHandle(m, p);
    OpenedDriver(s, h, p);
    if copied {
      status := Success;
    } else {
      DriverHandleMadeSettled(RefDriver(s, p), h, p);
      CloseDriverHandle(m, h);
      status := CopyFailed;
    }
    m.DereferenceDriver(p);
  }

  lemma OpenedDriver(s: State, h: Address, p: Address)
    requires Settled(s) && p in s.drivers && s.drivers[p].refCount > 0 && h !in s.driverHandles
    ensures var t := RefDriver(s, p); var u := DriverHandleMade(t, h, p);
      && p in t.drivers && p in u.drivers && h in u.driverHandles && u.driverHandles[h] == p
      && UnrefDriver(t, p) == s && UnrefDriver(u, p) == DriverHandleMade(s, h, p) && Settled(UnrefDriver(u, p))
  {
    hide Settled;
    BorrowDriver(s, p);
    DriverHandleMadeSettled(s, h, p);
    PlusMinus(s.driverBorrows + multiset{p}, p);
    var u := DriverHandleMade(RefDriver(s, p), h, p);
    assert UnrefDriver(u, p).drivers == DriverHandleMade(s, h, p).drivers;
  }

  /** UMOpenObjectById for a device: exactly the live records the user asked for can be opened. */
  method OpenDevice(m: Manager, d: Address, copied: bool) returns (status: Status, h: Address)
    requires Ready(m)
    modifies m
    ensures Ready(m)
    ensures status == if d !in old(m.devices) || old(m.devices)[d].reason.DriverHooked? then InvalidObject
                      else if copied then Success else CopyFailed
    ensures status == Success ==>
      && h !in old(m.deviceHandles) && d in old(m.devices)
      && m.Snapshot() == DeviceHandleMade(old(m.Snapshot()), h, d)
    ensures status != Success ==> m.Snapshot() == old(m.Snapshot())
  {
    hide Settled, Conserved, DevicesIndexed, DriversIndexed, NoStray, Issued, UnrefDevice, DeviceHandleMade;
    ghost var s := m.Snapshot();
    SettledIsQuiet(s);
    h := 0;
    var valid := m.DeviceValid(d);
    if !valid { return InvalidObject, h; }
    LiveDevice(s, d);
    DeviceRefSettled(s, d);
    h := CreateDeviceHandle(m, d);
    OpenedDevice(s, h, d);
    if copied {
      status := Success;
    } else {
      DeviceHandleMadeSettled(RefDevice(s, d), h, d);
      CloseDeviceHandle(m, h);
      status := CopyFailed;
    }
    m.DereferenceDevice(d);
  }

  lemma OpenedDevice(s: State, h: Address, d: Address)
    requires Settled(s) && d in s.devices && s.devices[d].refCount > 0 && s.devices[d].driver in s.drivers
    requires h !in s.deviceHandles
    ensures var t := RefDevice(s, d); var u := DeviceHandleMade(t, h, d);
      && d in t.devices && t.devices[d].driver in t.drivers && UnrefDevice(t, d) == s
      && d in u.devices && u.devices[d].driver in u.drivers && h in u.deviceHandles && u.deviceHandles[h] == d
      && UnrefDevice(u, d) == DeviceHandleMade(s, h, d) && Settled(UnrefDevice(u, d))
  {
    hide Settled;
    D.BorrowDevice(s, d);
    DeviceHandleMadeSettled(s, h, d);
    PlusMinus(s.deviceBorrows + multiset{d}, d);
    var u := DeviceHandleMade(RefDevice(s, d), h, d);
    assert UnrefDevice(u, d).devices == DeviceHandleMade(s, h, d).devices;
  }

  // ----- who is alive

  /** A driver record is alive exactly if it is in the driver table, has a handle, or is the
      driver record of a device record with a handle; a device record is alive exactly if it
      is in its driver record's table or has a handle. */
  ghost predicate AliveExactly(s: State) {
    && (forall p :: p in s.drivers <==>
          p in s.driverTable.Values || p in s.driverHandles.Values
          || exists d :: d in s.devices && s.devices[d].driver == p && d in s.deviceHandles.Values)
    && (forall d :: d in s.devices <==> Tabled(s.drivers, s.devices, d) || d in s.deviceHandles.Values)
  }

  lemma DeviceAlive(s: State, d: Address)
    requires Conserved(s) && Borrowless(s)
    ensures d in s.devices <==> Tabled(s.drivers, s.devices, d) || d in s.deviceHandles.Values
  {
    InTableIffReferenced(s.deviceHandles, d);
    assert DeviceCount(s, d) == DeviceDue(s, d);
  }

  lemma DriverAlive(s: State, p: Address)
    requires Conserved(s) && NoStray(s) && Borrowless(s)
    ensures p in s.drivers <==>
      p in s.driverTable.Values || p in s.driverHandles.Values
      || exists d :: d in s.devices && s.devices[d].driver == p && d in s.deviceHandles.Values
  {
    InTableIffReferenced(s.driverTable, p);
    InTableIffReferenced(s.driverHandles, p);
    InTableIffReferenced(Owners(s.devices), p);
    assert DriverCount(s, p) == DriverDue(s, p);
    if p in s.drivers && p !in s.driverTable.Values && p !in s.driverHandles.Values {
      assert p in Owners(s.devices).Values;
      var d :| d in s.devices && s.devices[d].driver == p;
      assert s.drivers[p].devices == map[];
      DeviceAlive(s, d);
    }
    forall d | d in s.devices && s.devices[d].driver == p ensures p in s.drivers {
      assert Owners(s.devices)[d] == p;
    }
  }

  /** Nothing is freed while reachable, and nothing unreachable stays allocated. */
  lemma AliveAtRest(s: State)
    requires Settled(s) && Borrowless(s)
    ensures AliveExactly(s)
  {
    forall p ensures p in s.drivers <==>
      p in s.driverTable.Values || p in s.driverHandles.Values
      || exists d :: d in s.devices && s.devices[d].driver == p && d in s.deviceHandles.Values
    { DriverAlive(s, p); }
    forall d ensures d in s.devices <==> Tabled(s.drivers, s.devices, d) || d in s.deviceHandles.Values { DeviceAlive(s, d); }
  }

  /** With every driver unhooked and every handle closed, every record has been freed. */
  lemma NothingLeft(s: State)
    requires Settled(s) && Borrowless(s) && s.driverTable == map[] && s.driverHandles == map[]
    requires s.deviceHandles == map[]
    ensures s.drivers == map[] && s.devices == map[]
  {
    forall p | p in s.drivers ensures false { DriverAlive(s, p); }
    forall d | d in s.devices ensures false { ReferencedIsLive(s, d); }
    assert s.drivers.Keys == {} && s.devices.Keys == {};
  }

  // ----- runs

  /** One call. */
  ghost predicate Next(s: State, c: Call, t: State) { Possible(s, c) && Effect(s, c, t) }

  lemma NextSettled(s: State, c: Call, t: State)
    requires Settled(s) && Borrowless(s) && Next(s, c, t)
    ensures Settled(t) && Borrowless(t)
  {
    hide Settled, Possible, Effect;
    EffectSettled(s, c, t);
  }

  const NOTHING: State := State(map[], map[], map[], multiset{}, multiset{}, map[], map[], multiset{}, multiset{})

  lemma NothingIsSettled()
    ensures Settled(NOTHING) && Borrowless(NOTHING)
  {
    assert forall p :: Holders(NOTHING.driverTable, p) == {} && Holders(Owners(NOTHING.devices), p) == {};
  }

  /** The states of a run of the services, one before and after each call. */
  ghost predicate Run(trace: seq<State>, calls: seq<Call>) {
    && |trace| == |calls| + 1 && trace[0] == NOTHING
    && forall i :: 0 <= i < |calls| ==> Next(trace[i], calls[i], trace[i + 1])
  }

  /** In every state of every run the references are right, no caller has one, and exactly the
      reachable records are alive. */
  lemma {:induction false} RunsStayAlive(trace: seq<State>, calls: seq<Call>, i: nat)
    requires Run(trace, calls) && i < |trace|
    ensures Settled(trace[i]) && Borrowless(trace[i]) && AliveExactly(trace[i])
  {
    hide Settled, Next, AliveExactly;
    if i == 0 {
      NothingIsSettled();
    } else {
      RunsStayAlive(trace, calls, i - 1);
      assert Next(trace[i - 1], calls[i - 1], trace[i]);
      NextSettled(trace[i - 1], calls[i - 1], trace[i]);
    }
    AliveAtRest(trace[i]);
  }

  lemma OneMoreState(trace: seq<State>, calls: seq<Call>, c: Call, t: State)
    requires Run(trace, calls) && Next(trace[|calls|], c, t)
    ensures Run(trace + [t], calls + [c])
  {
    hide Next;
    forall i | 0 <= i < |calls| + 1 ensures Next((trace + [t])[i], (calls + [c])[i], (trace + [t])[i + 1]) {
      if i < |calls| { assert Next(trace[i], calls[i], trace[i + 1]); }
    }
  }

  /** One call. */
  method Perform(m: Manager, c: Call)
    requires Ready(m) && Borrowless(m.Snapshot()) && Possible(m.Snapshot(), c)
    modifies m
    ensures Ready(m) && Borrowless(m.Snapshot()) && Next(old(m.Snapshot()), c, m.Snapshot())
  {
    hide Settled, Issued, Possible, Effect;
    ghost var s := m.Snapshot();
    if c.HookDriver? || c.UnhookDriver? { PerformOnDriver(m, c); }
    else if c.AddDevice? || c.DeleteDevice? { PerformOnDevice(m, c); }
    else if c.OpenDriver? || c.OpenDevice? { PerformOpen(m, c); }
    else if c.UnloadDriver? || c.SeeDevice? { PerformHandler(m, c); }
    else { PerformClose(m, c); }
    EffectSettled(s, c, m.Snapshot());
  }

  method PerformOnDriver(m: Manager, c: Call)
    requires Ready(m) && Borrowless(m.Snapshot()) && Possible(m.Snapshot(), c) && (c.HookDriver? || c.UnhookDriver?)
    modifies m
    ensures Ready(m) && Effect(old(m.Snapshot()), c, m.Snapshot())
  {
    hide Settled, Issued, Stale, UnhookedByHandle, UnhookedStale;
    ghost var s := m.Snapshot();
    match c {
      case HookDriver(o, ext, existing, copied) =>
        var status, h, p, records := HookServices.HookDriver(m, o, ext, existing, copied);
        if status == Success { HookedCount(s, m.Snapshot(), h, p, o, ext, existing, records); }
      case UnhookDriver(h) =>
        var status, dangling := HookServices.UnhookDriver(m, h);
    }
  }

  method PerformOnDevice(m: Manager, c: Call)
    requires Ready(m) && (c.AddDevice? || c.DeleteDevice?)
    modifies m
    ensures Ready(m) && Effect(old(m.Snapshot()), c, m.Snapshot())
  {
    hide Settled, Issued, Stale, D.DeletedByHandle, D.AddOutcome, D.Suits, D.HandleDeletable;
    ghost var s := m.Snapshot();
    match c {
      case AddDevice(driverObject, o, proxyOk, copied) =>
        var status, h, d := D.AddDevice(m, driverObject, o, proxyOk, copied);
      case DeleteDevice(h) =>
        var status := D.DeleteDevice(m, h);
        NotDeletable(s, h);
    }
  }

  lemma NotDeletable(s: State, h: Address)
    ensures h !in s.deviceHandles ==> !D.HandleDeletable(s, h)
  {}

  method PerformOpen(m: Manager, c: Call)
    requires Ready(m) && (c.OpenDriver? || c.OpenDevice?)
    modifies m
    ensures Ready(m) && Effect(old(m.Snapshot()), c, m.Snapshot())
  {
    hide Settled, Issued, DriverHandleMade, DeviceHandleMade;
    match c {
      case OpenDriver(p, copied) =>
        var status, h := OpenDriver(m, p, copied);
      case OpenDevice(d, copied) =>
        var status, h := OpenDevice(m, d, copied);
    }
  }

  method PerformHandler(m: Manager, c: Call)
    requires Ready(m) && (c.UnloadDriver? || c.SeeDevice?)
    modifies m
    ensures Ready(m) && Effect(old(m.Snapshot()), c, m.Snapshot())
  {
    hide Settled, Issued, UnhookedTo, WithSeen;
    match c {
      case UnloadDriver(o) =>
        var found := DispatchHandlers.UnloadDriver(m, o);
      case SeeDevice(driverObject, o, catching, proxyOk) =>
        var seen, d := DispatchHandlers.SeeDevice(m, driverObject, o, catching, proxyOk);
    }
  }

  method PerformClose(m: Manager, c: Call)
    requires Ready(m) && (c.CloseDriver? || c.CloseDevice? || c.DeleteHandles?)
    modifies m
    ensures Ready(m) && Effect(old(m.Snapshot()), c, m.Snapshot())
  {
    hide Settled, Issued, DriverHandleGone, DeviceHandleGone, HandlesCounted;
    ghost var s := m.Snapshot();
    match c {
      case CloseDriver(h) =>
        CloseDriverHandle(m, h);
      case CloseDevice(h) =>
        CloseDeviceHandle(m, h);
      case DeleteHandles =>
        ClearDeviceHandles(m);
        ghost var t := m.Snapshot();
        ClearDriverHandles(m);
        FewerIsTransitive(s, t, m.Snapshot());
        CountedOff(s, m.Snapshot());
    }
  }

  /** Any sequence of calls of the services from the initial state, up to the first attempt to
      unhook a driver through a stale handle.  `trace` are the states in between. */
  method Serve(calls: seq<Call>) returns (m: Manager, done: nat, ghost trace: seq<State>)
    requires forall c :: c in calls && c.HookDriver? ==> Distinct(c.existing)
    ensures fresh(m) && Ready(m) && done <= |calls|
    ensures Run(trace, calls[..done]) && trace[done] == m.Snapshot() && forall s :: s in trace ==> AliveExactly(s)
    ensures done < |calls| ==> calls[done].UnhookDriver? && Stale(m.Snapshot(), calls[done].handle)
  {
    hide Next, Settled, AliveExactly;
    m := new Manager();
    NothingIsSettled();
    assert m.Snapshot() == NOTHING;
    done, trace := 0, [m.Snapshot()];
    assert calls[..0] == [];
    while done < |calls|
      invariant fresh(m) && done <= |calls| && Ready(m) && Borrowless(m.Snapshot())
      invariant Run(trace, calls[..done]) && trace[done] == m.Snapshot()
    {
      var c := calls[done];
      assert c in calls;
      var stale := c.UnhookDriver? && c.handle in m.driverHandles && m.driverHandles[c.handle] in m.drivers
        && m.drivers[m.driverHandles[c.handle]].driverObject in m.driverTable
        && m.driverTable[m.drivers[m.driverHandles[c.handle]].driverObject] != m.driverHandles[c.handle];
      if stale { break; }
      Perform(m, c);
      OneMoreState(trace, calls[..done], c, m.Snapshot());
      assert calls[..done + 1] == calls[..done] + [c];
      trace, done := trace + [m.Snapshot()], done + 1;
    }
    forall s | s in trace ensures AliveExactly(s) {
      var i :| 0 <= i < |trace| && trace[i] == s;
      RunsStayAlive(trace, calls[..done], i);
    }
  }
}
