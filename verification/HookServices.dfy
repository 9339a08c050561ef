/** The user-mode services above the hook manager.  Each leaves no reference behind: every
    reference it borrows it gives back, or it becomes a handle's. */
module HookServices {
  import opened Basics
  import opened HookRecords
  import opened HookExisting
  import opened HookManager
  import opened HookDrivers
  import opened HookHandles

  ghost predicate Borrowless(s: State) { s.driverBorrows == multiset{} && s.deviceBorrows == multiset{} }

  lemma SettledIsQuiet(s: State)
    ensures Settled(s) <==> Quiet(s) && NoStray(s)
  {
    hide Conserved, DevicesIndexed, DriversIndexed, NoStray;
  }

  // ----- UMHookDriver

  /** Hooked, with the caller's reference handed to the new handle. */
  ghost predicate HookedWithHandle(s: State, t: State, h: Address, p: Address, o: Address, ext: bool,
                                   objects: seq<Address>, records: seq<Address>) {
    && h !in s.driverHandles && t.driverHandles == s.driverHandles[h := p] && t.driverBorrows == s.driverBorrows
    && Hooked(s, t.(driverHandles := s.driverHandles, driverBorrows := s.driverBorrows + multiset{p}), p, o, ext, objects, records)
  }

  /** A handle made and the caller's reference given back: the reference has moved. */
  lemma HandleTakesOver(t: State, h: Address, p: Address)
    requires p in t.drivers && t.drivers[p].refCount > 0
    ensures p in DriverHandleMade(t, h, p).drivers
    ensures UnrefDriver(DriverHandleMade(t, h, p), p) ==
      t.(driverHandles := t.driverHandles[h := p], driverBorrows := t.driverBorrows - multiset{p})
  {
    PlusMinus(t.driverBorrows, p);
    assert UnrefDriver(DriverHandleMade(t, h, p), p).drivers == t.drivers;
  }

  lemma HookedFacts(s: State, t: State, p: Address, o: Address, ext: bool, objects: seq<Address>, records: seq<Address>)
    requires Hooked(s, t, p, o, ext, objects, records) && Settled(t)
    ensures p in t.drivers && t.drivers[p].refCount > 0 && t.driverBorrows == s.driverBorrows + multiset{p}
    ensures t.deviceBorrows == s.deviceBorrows && t.driverHandles == s.driverHandles
    ensures t.deviceHandles == s.deviceHandles
    ensures t.drivers[p].driverObject == o && o in t.driverTable && t.driverTable[o] == p
  {
    assert p in t.drivers;
    LiveDriver(t, p);
    hide Settled;
  }

  lemma HookedOwned(s: State, t: State, h: Address, p: Address, o: Address, ext: bool, objects: seq<Address>,
                    records: seq<Address>)
    requires Settled(t) && Hooked(s, t, p, o, ext, objects, records) && h !in s.driverHandles
    ensures p in t.drivers && p in DriverHandleMade(t, h, p).drivers
    ensures var u := UnrefDriver(DriverHandleMade(t, h, p), p);
      && Settled(u) && HookedWithHandle(s, u, h, p, o, ext, objects, records)
      && u.driverBorrows == s.driverBorrows && u.deviceBorrows == s.deviceBorrows
  {
    HookedFacts(s, t, p, o, ext, objects, records);
    PlusMinus(s.driverBorrows, p);
    HandleTakesOver(t, h, p);
    DriverHandleMadeSettled(t, h, p);
    assert DriverHandleMade(t, h, p).driverBorrows[p] > 0;
    DriverRefSettled(DriverHandleMade(t, h, p), p);
    var u := UnrefDriver(DriverHandleMade(t, h, p), p);
    assert u.(driverHandles := s.driverHandles, driverBorrows := s.driverBorrows + multiset{p}) == t;
    hide Settled, Hooked;
  }

  /** The records made by hooking a driver are gone after unhooking it. */
  lemma RecordsGone(s: State, t: State, u: State, p: Address, o: Address, ext: bool, objects: seq<Address>,
                    records: seq<Address>)
    requires Hooked(s, t, p, o, ext, objects, records) && AllReleased(t, u, p)
    requires Distinct(objects) && p !in s.drivers && (forall d :: d in s.devices ==> s.devices[d].driver in s.drivers)
    ensures u.devices == s.devices
  {
    TableHolds(objects, records, |objects|);
    forall d | d in records ensures d !in u.devices {
      var i :| 0 <= i < |records| && records[i] == d;
      assert InTableOf(t, p, d);
    }
    forall d | d in s.devices ensures d in u.devices && u.devices[d] == s.devices[d] {
      assert !InTableOf(t, p, d);
    }
  }

  /** The validation tables are determined by the records. */
  lemma SameIndex(s: State, t: State)
    requires Indexed(s) && Indexed(t) && s.devices == t.devices && s.driverTable == t.driverTable
    ensures s.validDevices == t.validDevices && s.validDrivers == t.validDrivers
  {
    forall d ensures s.validDevices[d] == t.validDevices[d] {}
    forall p ensures s.validDrivers[p] == t.validDrivers[p] {}
  }

  /** With equal tables, handles and device records, equal references mean the same records
      are live. */
  lemma DriverGone(s: State, t: State, p: Address)
    requires Conserved(s) && Conserved(t) && p !in s.drivers
    requires t.devices == s.devices && t.driverTable == s.driverTable && t.driverHandles == s.driverHandles
    requires t.driverBorrows == s.driverBorrows
    ensures p !in t.drivers
  {
    assert DriverCount(s, p) == DriverDue(s, p) && DriverCount(t, p) == DriverDue(t, p);
  }

  lemma OthersTheSame(s: State, t: State, u: State, v: State, p: Address, o: Address, ext: bool, objects: seq<Address>,
                      records: seq<Address>)
    requires Hooked(s, t, p, o, ext, objects, records) && UnhookEffect(t, u, p) && p in u.drivers
    requires v == UnrefDriver(u, p)
    ensures v.driverTable == s.driverTable && v.driverHandles == s.driverHandles && v.deviceHandles == s.deviceHandles
    ensures v.driverBorrows == s.driverBorrows && v.deviceBorrows == s.deviceBorrows
    ensures forall q :: q in v.drivers && q != p ==> q in s.drivers && v.drivers[q] == s.drivers[q]
    ensures forall q :: q in s.drivers ==> q in v.drivers
    ensures AllReleased(t, v, p)
  {
    hide Quiet, Conserved, NoStray, AllReleased, UnrefDriver;
    PlusMinus(s.driverBorrows, p);
    PlusMinus(t.driverBorrows, p);
    UnrefFrame(u, p);
    assert t.driverTable - {o} == s.driverTable;
    assert forall q :: q in s.drivers ==> q in t.drivers && q != p;
    SameReleased(t, u, v, p);
  }

  /** Hooking a driver and unhooking it again leaves no trace: the whole cycle is freed. */
  lemma HookUndone(s: State, t: State, u: State, p: Address, o: Address, ext: bool, objects: seq<Address>,
                   records: seq<Address>)
    requires Settled(s) && Distinct(objects) && Settled(t) && Hooked(s, t, p, o, ext, objects, records)
    requires UnhookEffect(t, u, p)
    ensures Settled(u) && u.driverBorrows[p] > 0 && p in u.drivers && UnrefDriver(u, p) == s
  {
    HookedFacts(s, t, p, o, ext, objects, records);
    SettledIsQuiet(t);
    SettledIsQuiet(u);
    assert Settled(u);
    assert u.driverBorrows == t.driverBorrows by { PlusMinus(t.driverBorrows, p); }
    DriverRefSettled(u, p);
    var v := UnrefDriver(u, p);
    OthersTheSame(s, t, u, v, p, o, ext, objects, records);
    HookUndoneAlso(s, t, v, p, o, ext, objects, records);
    hide Settled, UnhookEffect, Hooked, UnrefDriver;
  }

  lemma OwnersLive(s: State)
    requires Settled(s)
    ensures forall d :: d in s.devices ==> s.devices[d].driver in s.drivers
  {
    forall d | d in s.devices ensures s.devices[d].driver in s.drivers { ReferencedIsLive(s, d); }
  }

  lemma HookUndoneAlso(s: State, t: State, v: State, p: Address, o: Address, ext: bool, objects: seq<Address>,
                       records: seq<Address>)
    requires Settled(s) && Settled(v) && Distinct(objects) && Hooked(s, t, p, o, ext, objects, records)
    requires AllReleased(t, v, p)
    requires v.driverTable == s.driverTable && v.driverHandles == s.driverHandles && v.deviceHandles == s.deviceHandles
    requires v.driverBorrows == s.driverBorrows && v.deviceBorrows == s.deviceBorrows
    requires forall q :: q in v.drivers && q != p ==> q in s.drivers && v.drivers[q] == s.drivers[q]
    requires forall q :: q in s.drivers ==> q in v.drivers
    ensures v == s
  {
    assert p !in s.drivers;
    OwnersLive(s);
    hide Hooked, AllReleased, Conserved, Indexed;
    RecordsGone(s, t, v, p, o, ext, objects, records);
    DriverGone(s, v, p);
    SameIndex(s, v);
    assert v.drivers == s.drivers;
  }

  /** The way back out of UMHookDriver when the output cannot be written. */
  method TakeBack(m: Manager, ghost s: State, h: Address, p: Address, ghost o: Address, ghost ext: bool,
                  ghost objects: seq<Address>, ghost records: seq<Address>, ghost t: State)
    requires Ready(m) && Settled(s) && Settled(t) && Distinct(objects) && Hooked(s, t, p, o, ext, objects, records)
    requires h !in t.driverHandles && p in t.drivers && m.Snapshot() == DriverHandleMade(t, h, p)
    modifies m
    ensures Ready(m) && m.Snapshot() == s
  {
    hide Settled, Quiet, NoStray, Hooked, UnhookEffect, Issued, DriverHandleMade, UnrefDriver;
    DriverHandleIsThere(t, h, p);
    DriverHandleMadeSettled(t, h, p);
    CloseDriverHandle(m, h);
    HookedFacts(s, t, p, o, ext, objects, records);
    SettledIsQuiet(t);
    var status := m.UnhookDriverObject(p);
    HookUndone(s, t, m.Snapshot(), p, o, ext, objects, records);
    m.DereferenceDriver(p);
  }

  lemma DriverHandleIsThere(t: State, h: Address, p: Address)
    requires p in t.drivers
    ensures h in DriverHandleMade(t, h, p).driverHandles && DriverHandleMade(t, h, p).driverHandles[h] == p
    ensures p in DriverHandleMade(t, h, p).drivers
  {}

  /** UMHookDriver.  Only a success changes anything. */
  method HookDriver(m: Manager, o: Address, ext: bool, existing: seq<Address>, copied: bool)
    returns (status: Status, h: Address, p: Address, records: seq<Address>)
    requires Ready(m) && Distinct(existing)
    modifies m
    ensures Ready(m)
    ensures status == if o in old(m.driverTable) then Collision else if copied then Success else CopyFailed
    ensures status != Success ==> m.Snapshot() == old(m.Snapshot())
    ensures status == Success ==> HookedWithHandle(old(m.Snapshot()), m.Snapshot(), h, p, o, ext, existing, records)
    ensures m.driverBorrows == old(m.driverBorrows) && m.deviceBorrows == old(m.deviceBorrows)
  {
    hide Settled, Quiet, NoStray, Issued, Hooked, HookedWithHandle, DriverHandleMade, UnrefDriver;
    ghost var s := m.Snapshot();
    SettledIsQuiet(s);
    h := 0;
    status, p, records := HookDriverObject(m, o, ext, existing);
    ghost var t := m.Snapshot();
    SettledIsQuiet(t);
    if status == Success {
      HookedFacts(s, t, p, o, ext, existing, records);
      h := CreateDriverHandle(m, p);
      if copied {
        HookedOwned(s, t, h, p, o, ext, existing, records);
        m.DereferenceDriver(p);
      } else {
        TakeBack(m, s, h, p, o, ext, existing, records, t);
        status := CopyFailed;
      }
    }
  }

  // ----- UMUnhookDriver

  /** The handle's record is not the one hooked for its driver object: the driver was
      unhooked and hooked again while the handle stayed open. */
  predicate Stale(s: State, h: Address) {
    && h in s.driverHandles && s.driverHandles[h] in s.drivers
    && s.drivers[s.driverHandles[h]].driverObject in s.driverTable
    && s.driverTable[s.drivers[s.driverHandles[h]].driverObject] != s.driverHandles[h]
  }

  /** p has lost the driver table's reference, those of the handles closed, and that of every
      device record of its own that was freed. */
  predicate UnhookedCount(s: State, t: State, p: Address) {
    && DriverCount(s, p) - DriverCount(t, p) ==
         1 + Refs(s.driverHandles, p) - Refs(t.driverHandles, p)
         + Refs(Owners(s.devices), p) - Refs(Owners(t.devices), p)
    && (p in t.drivers ==> t.drivers[p].refCount > 0)
  }

  /** Apart from p and the device records in its table, nothing but the driver table and the
      handle table has changed. */
  ghost predicate UnhookedFrame(s: State, t: State, p: Address, handles: map<Address, Address>) {
    && p in s.drivers && s.drivers[p].driverObject in s.driverTable
    && s.driverTable[s.drivers[p].driverObject] == p
    && t.driverTable == s.driverTable - {s.drivers[p].driverObject}
    && t.driverHandles == handles && t.deviceHandles == s.deviceHandles
    && t.driverBorrows == s.driverBorrows && t.deviceBorrows == s.deviceBorrows
    && (forall q :: q in s.drivers && q != p ==> q in t.drivers && t.drivers[q] == s.drivers[q])
    && t.drivers.Keys <= s.drivers.Keys
    && (p in t.drivers ==> t.drivers[p] == s.drivers[p].(refCount := t.drivers[p].refCount, devices := map[]))
    && AllReleased(s, t, p)
  }

  ghost predicate UnhookedTo(s: State, t: State, p: Address, handles: map<Address, Address>) {
    && UnhookedFrame(s, t, p, handles) && UnhookedCount(s, t, p)
    && t.validDrivers == s.validDrivers[p := 0]
    && (forall d {:trigger t.validDevices[d]} :: !InTableOf(s, p, d) ==> t.validDevices[d] == s.validDevices[d])
  }

  /** Unhooked, and the handle is closed. */
  ghost predicate UnhookedByHandle(s: State, t: State, h: Address) {
    h in s.driverHandles && UnhookedTo(s, t, s.driverHandles[h], s.driverHandles - {h})
  }

  /** Two references to p given back, one of them the handle's. */
  ghost predicate GaveBack(u: State, w: State, h: Address, p: Address) {
    && w.driverTable == u.driverTable && w.driverHandles == u.driverHandles - {h} && w.deviceHandles == u.deviceHandles
    && w.devices == u.devices && w.validDevices == u.validDevices && w.deviceBorrows == u.deviceBorrows
    && w.driverBorrows == u.driverBorrows - multiset{p}
    && (forall q :: q in u.drivers && q != p ==> q in w.drivers && w.drivers[q] == u.drivers[q])
    && w.drivers.Keys <= u.drivers.Keys
    && (p in w.drivers ==> w.drivers[p] == u.drivers[p].(refCount := w.drivers[p].refCount))
  }

  lemma GivenBack(u: State, h: Address, p: Address)
    requires Settled(u) && u.driverBorrows[p] > 0 && h in u.driverHandles && u.driverHandles[h] == p
    ensures p in u.drivers && p in UnrefDriver(u, p).drivers && Settled(UnrefDriver(u, p))
    ensures UnrefDriver(u, p).driverHandles == u.driverHandles
    ensures GaveBack(u, DriverHandleGone(UnrefDriver(u, p), h), h, p)
  {
    hide Settled, GaveBack;
    DriverRefSettled(u, p);
    assert UnrefDriver(u, p).driverHandles == u.driverHandles;
    DriverHandleGoneSettled(UnrefDriver(u, p), h);
    GivenBackFields(u, h, p);
  }

  lemma GivenBackFields(u: State, h: Address, p: Address)
    requires h in u.driverHandles && u.driverHandles[h] == p && p in u.drivers && p in UnrefDriver(u, p).drivers
    ensures GaveBack(u, DriverHandleGone(UnrefDriver(u, p), h), h, p)
  {
    var v := UnrefDriver(u, p);
    UnrefFrame(u, p);
    UnrefFrame(DropDriverHandle(v, h), p);
    hide UnrefDriver;
    PlusMinus(v.driverBorrows, p);
  }

  /** With the references conserved, the rest follows. */
  lemma FrameIsUnhooked(s: State, t: State, p: Address, handles: map<Address, Address>)
    requires Settled(s) && Settled(t) && UnhookedFrame(s, t, p, handles)
    ensures UnhookedTo(s, t, p, handles)
  {
    hide AllReleased, Released, TablesOk, NoStray;
    var o := s.drivers[p].driverObject;
    OwnEntry(s, p, o);
    RefsRemoved(s.driverTable, o, p);
    assert DriverCount(s, p) == DriverDue(s, p) && DriverCount(t, p) == DriverDue(t, p);
    hide DriversCounted, DevicesCounted;
    forall q ensures t.validDrivers[q] == s.validDrivers[p := 0][q] { RefsRemoved(s.driverTable, o, q); }
    forall d | !InTableOf(s, p, d) ensures t.validDevices[d] == s.validDevices[d] { UntouchedIndex(s, t, p, d); }
  }

  lemma UntouchedIndex(s: State, t: State, p: Address, d: Address)
    requires DevicesIndexed(s) && DevicesIndexed(t) && AllReleased(s, t, p) && !InTableOf(s, p, d)
    ensures t.validDevices[d] == s.validDevices[d]
  {
    assert d in t.devices ==> d in s.devices;
    assert d in s.devices ==> d in t.devices && t.devices[d] == s.devices[d];
  }

  lemma UnhookedAndClosed(s: State, s1: State, u: State, w: State, h: Address)
    requires h in s.driverHandles && s.driverHandles[h] in s.drivers
    requires s1 == RefDriver(s, s.driverHandles[h]) && UnhookEffect(s1, u, s.driverHandles[h])
    requires s1.driverTable[s1.drivers[s.driverHandles[h]].driverObject] == s.driverHandles[h]
    requires GaveBack(u, w, h, s.driverHandles[h])
    ensures UnhookedFrame(s, w, s.driverHandles[h], s.driverHandles - {h})
  {
    var p := s.driverHandles[h];
    hide Quiet, Conserved, NoStray;
    PlusMinus(s.driverBorrows, p);
    PlusMinus(s1.driverBorrows, p);
    assert w.driverBorrows == s.driverBorrows;
    ReleasedAlso(s, s1, u, w, p);
    hide AllReleased;
    assert w.driverTable == s.driverTable - {s.drivers[p].driverObject};
  }

  lemma ReleasedAlso(s: State, s1: State, u: State, w: State, p: Address)
    requires p in s.drivers && s1 == RefDriver(s, p) && AllReleased(s1, u, p) && w.devices == u.devices
    requires w.validDevices == u.validDevices
    ensures AllReleased(s, w, p)
  {
    forall d | d in s.devices ensures InTableOf(s1, p, d) == InTableOf(s, p, d) {}
  }

  lemma NotStale(s: State, h: Address)
    requires Settled(s) && h in s.driverHandles && !Stale(s, h)
    ensures var p := s.driverHandles[h];
      && p in s.drivers && s.drivers[p].refCount > 0
      && (p in s.driverTable.Values <==> s.drivers[p].driverObject in s.driverTable)
      && (s.drivers[p].driverObject in s.driverTable ==> s.driverTable[s.drivers[p].driverObject] == p)
  {
    RefsPositive(s.driverHandles, h);
    ReferencedIsLive(s, s.driverHandles[h]);
  }

  lemma BorrowDriver(s: State, p: Address)
    requires p in s.drivers && s.drivers[p].refCount > 0
    ensures UnrefDriver(RefDriver(s, p), p) == s
  {
    PlusMinus(s.driverBorrows, p);
    assert UnrefDriver(RefDriver(s, p), p).drivers == s.drivers;
  }

  /** Unhooking through the handle of a record in the driver table. */
  lemma OwnUnhooked(s: State, u: State, h: Address, p: Address)
    requires Settled(s) && h in s.driverHandles && s.driverHandles[h] == p && p in s.drivers && Settled(RefDriver(s, p))
    requires s.drivers[p].driverObject in s.driverTable && s.driverTable[s.drivers[p].driverObject] == p
    requires UnhookEffect(RefDriver(s, p), u, p)
    ensures p in u.drivers && p in UnrefDriver(u, p).drivers && h in UnrefDriver(u, p).driverHandles
    ensures var w := DriverHandleGone(UnrefDriver(u, p), h); Settled(w) && UnhookedByHandle(s, w, h)
  {
    hide Settled, Quiet, NoStray, UnrefDriver, UnhookedTo, UnhookedFrame, GaveBack;
    var s1 := RefDriver(s, p);
    SettledIsQuiet(s1);
    SettledIsQuiet(u);
    assert u.driverBorrows == s1.driverBorrows;
    GivenBack(u, h, p);
    DriverHandleGoneSettled(UnrefDriver(u, p), h);
    UnhookedAndClosed(s, s1, u, DriverHandleGone(UnrefDriver(u, p), h), h);
    FrameIsUnhooked(s, DriverHandleGone(UnrefDriver(u, p), h), p, s.driverHandles - {h});
  }

  /** What UMUnhookDriver does with a stale handle: the entry deleted is another record's, and
      the reference it held stays behind; the caller's own reference is given back twice.  If
      that frees the record, closing the handle would be next, but the handle names nothing. */
  ghost predicate UnhookedStale(s: State, t: State, h: Address, dangling: bool) {
    && h in s.driverHandles && s.driverHandles[h] in s.drivers
    && var p := s.driverHandles[h];
      exists u {:trigger UnhookEffect(RefDriver(s, p), u, p)} ::
        && UnhookEffect(RefDriver(s, p), u, p) && p in u.drivers
        && var v := UnrefDriver(u, p);
          (dangling <==> p !in v.drivers) && t == if dangling then v else DriverHandleGone(v, h)
  }

  /** Unhooking through a stale handle leaves the record with the references it had. */
  lemma StaleCounts(s: State, u: State, h: Address)
    requires Settled(s) && Stale(s, h) && UnhookEffect(RefDriver(s, s.driverHandles[h]), u, s.driverHandles[h])
    ensures var p := s.driverHandles[h]; p in u.drivers && u.drivers[p].refCount == s.drivers[p].refCount
    ensures u.driverHandles == s.driverHandles
  {
    hide Quiet;
    var p := s.driverHandles[h];
    var o := s.drivers[p].driverObject;
    RefsPositive(s.driverHandles, h);
    if Refs(s.driverTable, p) > 0 { InTableIffReferenced(s.driverTable, p); }
    assert s.drivers[p].devices == map[];
    assert forall d :: !InTableOf(RefDriver(s, p), p, d);
    assert u.devices == s.devices;
    RefsRemoved(s.driverTable, o, p);
    assert DriverCount(s, p) == DriverDue(s, p) && DriverCount(u, p) == DriverDue(u, p);
  }

  /** The outcome of UMUnhookDriver. */
  ghost predicate UnhookOutcome(s: State, t: State, h: Address, status: Status, dangling: bool) {
    && status == (if h !in s.driverHandles then InvalidHandle
                  else if Stale(s, h) || s.driverHandles[h] in s.driverTable.Values then Success else NotFound)
    && (if status != Success then t == s && !dangling
        else if !Stale(s, h) then UnhookedByHandle(s, t, h) && !dangling
        else UnhookedStale(s, t, h, dangling) && dangling == (s.drivers[s.driverHandles[h]].refCount == 1))
  }

  lemma IsUnhookedStale(s: State, u: State, t: State, h: Address, dangling: bool)
    requires h in s.driverHandles && s.driverHandles[h] in s.drivers
    requires UnhookEffect(RefDriver(s, s.driverHandles[h]), u, s.driverHandles[h]) && s.driverHandles[h] in u.drivers
    requires var v := UnrefDriver(u, s.driverHandles[h]); (dangling <==> s.driverHandles[h] !in v.drivers)
    requires var v := UnrefDriver(u, s.driverHandles[h]);
      !dangling ==> h in v.driverHandles && v.driverHandles[h] == s.driverHandles[h]
    requires var v := UnrefDriver(u, s.driverHandles[h]); t == if dangling then v else DriverHandleGone(v, h)
    ensures UnhookedStale(s, t, h, dangling)
  {
    hide UnhookEffect;
  }

  lemma NoHandleOutcome(s: State, h: Address)
    requires h !in s.driverHandles
    ensures UnhookOutcome(s, s, h, InvalidHandle, false) && !Stale(s, h)
  {}

  lemma HandleIsLive(s: State, h: Address)
    requires Settled(s) && h in s.driverHandles
    ensures s.driverHandles[h] in s.drivers && s.drivers[s.driverHandles[h]].refCount > 0
  {
    RefsPositive(s.driverHandles, h);
    ReferencedIsLive(s, s.driverHandles[h]);
  }

  lemma NoEntryOutcome(s: State, h: Address)
    requires Settled(s) && h in s.driverHandles && s.driverHandles[h] in s.drivers
    requires s.drivers[s.driverHandles[h]].driverObject !in s.driverTable
    ensures UnhookOutcome(s, s, h, NotFound, false) && !Stale(s, h)
  {
    NotStale(s, h);
  }

  /** What is left to do once the driver is unhooked. */
  lemma EntryOutcome(s: State, u: State, h: Address, p: Address)
    requires Settled(s) && h in s.driverHandles && s.driverHandles[h] == p && p in s.drivers && Settled(RefDriver(s, p))
    requires s.drivers[p].driverObject in s.driverTable && UnhookEffect(RefDriver(s, p), u, p)
    ensures p in u.drivers && u.driverHandles == s.driverHandles
    ensures var v := UnrefDriver(u, p); var dangling := p !in v.drivers;
      && v.driverHandles == s.driverHandles
      && var t := if dangling then v else DriverHandleGone(v, h);
        && UnhookOutcome(s, t, h, Success, dangling)
        && (!Stale(s, h) ==>
              !dangling && Settled(t) && t.driverHandles == s.driverHandles - {h} && t.deviceHandles == s.deviceHandles)
  {
    hide Settled, UnhookedByHandle, UnhookedStale, UnhookEffect, UnrefDriver;
    if Stale(s, h) {
      StaleCounts(s, u, h);
      UnrefFrame(u, p);
      LastOne(u, p);
      var v := UnrefDriver(u, p);
      IsUnhookedStale(s, u, if p !in v.drivers then v else DriverHandleGone(v, h), h, p !in v.drivers);
    } else {
      NotStale(s, h);
      OwnUnhooked(s, u, h, p);
      SameHandles(s, u, h, p);
      UnrefFrame(u, p);
      UnrefFrame(DropDriverHandle(UnrefDriver(u, p), h), p);
    }
  }

  lemma LastOne(u: State, p: Address)
    requires p in u.drivers
    ensures p in UnrefDriver(u, p).drivers <==> u.drivers[p].refCount != 1
  {}

  lemma SameHandles(s: State, u: State, h: Address, p: Address)
    requires p in s.drivers && UnhookEffect(RefDriver(s, p), u, p)
    ensures u.driverHandles == s.driverHandles && u.deviceHandles == s.deviceHandles
  {}

  lemma FewerIssued(handles: map<Address, Address>, last: Address, h: Address)
    requires Issued(handles, last)
    ensures Issued(handles - {h}, last)
  {}

  /** The end of UMUnhookDriver: the caller's reference, then, after a success, the handle. */
  method GiveBackAndClose(m: Manager, h: Address, p: Address, close: bool) returns (dangling: bool)
    requires p in m.drivers && (close ==> h in m.driverHandles && m.driverHandles[h] == p)
    modifies m`drivers, m`driverBorrows, m`driverHandles
    ensures var v := UnrefDriver(old(m.Snapshot()), p);
      && dangling == (close && p !in v.drivers)
      && (close ==> h in v.driverHandles && v.driverHandles[h] == p)
      && m.Snapshot() == if close && p in v.drivers then DriverHandleGone(v, h) else v
  {
    UnrefFrame(m.Snapshot(), p);
    hide UnrefDriver;
    m.DereferenceDriver(p);
    dangling := close && p !in m.drivers;
    if close && !dangling {
      m.driverHandles := m.driverHandles - {h};
      m.driverBorrows := m.driverBorrows + multiset{p};
      m.DereferenceDriver(p);
    }
  }

  /** UMUnhookDriver.  `dangling` is whether the handle is left naming a freed record. */
  method UnhookDriver(m: Manager, h: Address) returns (status: Status, dangling: bool)
    requires Ready(m)
    modifies m
    ensures UnhookOutcome(old(m.Snapshot()), m.Snapshot(), h, status, dangling)
    ensures !Stale(old(m.Snapshot()), h) ==> Ready(m)
  {
    hide Settled, Quiet, NoStray, Issued, UnrefDriver, UnhookEffect, UnhookOutcome, Stale;
    ghost var s := m.Snapshot();
    dangling := false;
    var ok, p := TranslateDriverHandle(m, h);
    if !ok {
      NoHandleOutcome(s, h);
      return InvalidHandle, dangling;
    }
    HandleIsLive(s, h);
    SettledIsQuiet(m.Snapshot());
    BorrowDriver(s, p);
    status := m.UnhookDriverObject(p);
    if status == Success { EntryOutcome(s, m.Snapshot(), h, p); } else { NoEntryOutcome(s, h); }
    FewerIssued(m.driverHandles, m.lastDriverHandle, h);
    dangling := GiveBackAndClose(m, h, p, status == Success);
  }
}
