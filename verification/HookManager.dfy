/** The hook manager and the handle tables above it, as one object whose methods update
    the records, the tables and the handle maps in place. */
module HookManager {
  import opened Basics
  import opened HookRecords

  datatype Status = Success | Collision | NotFound | InvalidHandle | InvalidObject | ProxyFailed | CopyFailed

  /** At rest a device record is in the validation table once if the user asked for it,
      and not at all otherwise. */
  ghost predicate DevicesIndexed(s: State) {
    forall d {:trigger s.validDevices[d]} {:trigger d in s.devices} ::
      s.validDevices[d] == One(d in s.devices && s.devices[d].reason.UserRequest?)
  }

  /** At rest exactly the driver records in the driver table are valid object IDs. */
  ghost predicate DriversIndexed(s: State) {
    forall p {:trigger s.validDrivers[p]} :: s.validDrivers[p] == Refs(s.driverTable, p)
  }

  /** What holds between two calls. */
  ghost predicate Quiet(s: State) { Conserved(s) && DevicesIndexed(s) && DriversIndexed(s) }

  /** A driver record outside the driver table has no devices in its table. */
  ghost predicate NoStray(s: State) {
    forall p {:trigger s.drivers[p]} :: p in s.drivers && Refs(s.driverTable, p) == 0 ==> s.drivers[p].devices == map[]
  }

  /** No handle value above the last one given out is in use. */
  ghost predicate Issued(handles: map<Address, Address>, last: Address) { forall h :: h in handles ==> h <= last }

  class Manager {
    var drivers: map<Address, DriverRecord>
    var devices: map<Address, DeviceRecord>
    var driverTable: map<Address, Address>
    var validDrivers: multiset<Address>
    var validDevices: multiset<Address>
    var driverHandles: map<Address, Address>
    var deviceHandles: map<Address, Address>
    var lastDriverHandle: Address
    var lastDeviceHandle: Address
    ghost var driverBorrows: multiset<Address>
    ghost var deviceBorrows: multiset<Address>

    ghost function Snapshot(): State
      reads this
    {
      State(drivers, devices, driverTable, validDrivers, validDevices, driverHandles, deviceHandles,
            driverBorrows, deviceBorrows)
    }

    ghost predicate Valid()
      reads this
    {
      && Quiet(Snapshot())
      && Issued(driverHandles, lastDriverHandle) && Issued(deviceHandles, lastDeviceHandle)
    }

    constructor ()
      ensures Valid() && NoStray(Snapshot())
      ensures Snapshot() == State(map[], map[], map[], multiset{}, multiset{}, map[], map[], multiset{}, multiset{})
    {
      drivers, devices, driverTable := map[], map[], map[];
      validDrivers, validDevices := multiset{}, multiset{};
      driverHandles, deviceHandles, lastDriverHandle, lastDeviceHandle := map[], map[], 1, 1;
      driverBorrows, deviceBorrows := multiset{}, multiset{};
      new;
      assert forall p :: Holders(driverTable, p) == {} && Holders(Owners(devices), p) == {};
    }

    // ----- reference counts

    method ReferenceDriver(p: Address)
      requires p in drivers
      modifies `drivers, `driverBorrows
      ensures Snapshot() == RefDriver(old(Snapshot()), p)
    {
      drivers := drivers[p := drivers[p].(refCount := drivers[p].refCount + 1)];
      driverBorrows := driverBorrows + multiset{p};
    }

    method DereferenceDriver(p: Address)
      requires p in drivers
      modifies `drivers, `driverBorrows
      ensures Snapshot() == UnrefDriver(old(Snapshot()), p)
    {
      drivers := drivers[p := drivers[p].(refCount := drivers[p].refCount - 1)];
      driverBorrows := driverBorrows - multiset{p};
      if drivers[p].refCount == 0 {
        drivers := drivers - {p};
        assert drivers == old(drivers) - {p};
      }
    }

    method ReferenceDevice(d: Address)
      requires d in devices
      modifies `devices, `deviceBorrows
      ensures Snapshot() == RefDevice(old(Snapshot()), d)
    {
      devices := devices[d := devices[d].(refCount := devices[d].refCount + 1)];
      deviceBorrows := deviceBorrows + multiset{d};
    }

    /** The first half of _DeviceHookRecordFree: its reference to the driver record is left
        for the caller to give back. */
    method FreeDeviceRecord(d: Address)
      requires d in devices
      modifies `devices, `driverBorrows, `validDevices
      ensures devices == old(devices) - {d} && validDevices == old(validDevices)[d := 0]
      ensures driverBorrows == old(driverBorrows) + multiset{old(devices)[d].driver}
    {
      validDevices := validDevices[d := 0];
      driverBorrows := driverBorrows + multiset{devices[d].driver};
      devices := devices - {d};
    }

    method DereferenceDevice(d: Address)
      requires d in devices && devices[d].driver in drivers
      modifies `devices, `deviceBorrows, `drivers, `driverBorrows, `validDevices
      ensures Snapshot() == UnrefDevice(old(Snapshot()), d)
    {
      hide UnrefDriver;
      devices := devices[d := devices[d].(refCount := devices[d].refCount - 1)];
      deviceBorrows := deviceBorrows - multiset{d};
      if devices[d].refCount == 0 {
        var p := devices[d].driver;
        FreeDeviceRecord(d);
        assert devices == old(devices) - {d};
        assert Snapshot() == FreeDevice(old(Snapshot()), d);
        hide FreeDevice;
        DereferenceDriver(p);
      }
    }

    /** _DriverHookRecordCreate. */
    method CreateDriverRecord(driverObject: Address, extensionHook: bool) returns (p: Address)
      modifies `drivers, `driverBorrows
      ensures p !in old(drivers) && Snapshot() == NewDriver(old(Snapshot()), p, driverObject, extensionHook)
    {
      p := FreshAddress(drivers.Keys);
      drivers := drivers[p := DriverRecord(1, driverObject, extensionHook, map[])];
      driverBorrows := driverBorrows + multiset{p};
    }

    /** _DeviceHookRecordCreate. */
    method CreateDeviceRecord(p: Address, deviceObject: Address, reason: CreateReason) returns (d: Address)
      requires p in drivers
      modifies `drivers, `devices, `deviceBorrows, `driverBorrows
      ensures d !in old(devices) && Snapshot() == NewDevice(old(Snapshot()), d, p, deviceObject, reason)
    {
      d := FreshAddress(devices.Keys);
      ReferenceDriver(p);
      driverBorrows := driverBorrows - multiset{p};
      devices := devices[d := DeviceRecord(1, p, deviceObject, reason)];
      deviceBorrows := deviceBorrows + multiset{d};
      assert driverBorrows == old(driverBorrows);
    }

    // ----- lookups

    /** DriverHookRecordGet. */
    method Get(driverObject: Address) returns (found: bool, p: Address)
      requires Quiet(Snapshot())
      modifies `drivers, `driverBorrows
      ensures Quiet(Snapshot()) && found == (driverObject in driverTable)
      ensures found ==>
        p == driverTable[driverObject] && p in old(drivers) && Snapshot() == RefDriver(old(Snapshot()), p)
      ensures !found ==> Snapshot() == old(Snapshot())
    {
      found, p := driverObject in driverTable, 0;
      if found {
        p := driverTable[driverObject];
        ReferenceDriver(p);
        RefDriverKeeps(old(Snapshot()), p);
      }
    }

    /** DriverHookRecordGetDevice. */
    method GetDevice(p: Address, deviceObject: Address) returns (found: bool, d: Address)
      requires Quiet(Snapshot()) && p in drivers
      modifies `devices, `deviceBorrows
      ensures Quiet(Snapshot()) && found == (deviceObject in drivers[p].devices)
      ensures found ==>
        d == drivers[p].devices[deviceObject] && d in old(devices) && Snapshot() == RefDevice(old(Snapshot()), d)
      ensures !found ==> Snapshot() == old(Snapshot())
    {
      found, d := deviceObject in drivers[p].devices, 0;
      if found {
        d := drivers[p].devices[deviceObject];
        ReferenceDevice(d);
        RefDeviceKeeps(old(Snapshot()), d);
      }
    }

    /** DeviceHookRecordValid: an accepted object ID names a live record the user asked for. */
    method DeviceValid(d: Address) returns (valid: bool)
      requires Quiet(Snapshot())
      modifies `devices, `deviceBorrows
      ensures Quiet(Snapshot()) && valid == (d in old(devices) && old(devices)[d].reason.UserRequest?)
      ensures valid ==> Snapshot() == RefDevice(old(Snapshot()), d)
      ensures !valid ==> Snapshot() == old(Snapshot())
    {
      valid := d in validDevices;
      if valid {
        ReferenceDevice(d);
        RefDeviceKeeps(old(Snapshot()), d);
      }
    }

    /** DriverHookRecordValid: an accepted object ID names a hooked driver's record. */
    method DriverValid(p: Address) returns (valid: bool)
      requires Quiet(Snapshot())
      modifies `drivers, `driverBorrows
      ensures Quiet(Snapshot()) && valid == (p in driverTable.Values)
      ensures valid ==> p in old(drivers) && Snapshot() == RefDriver(old(Snapshot()), p)
      ensures !valid ==> Snapshot() == old(Snapshot())
    {
      valid := p in validDrivers;
      InTableIffReferenced(driverTable, p);
      if valid {
        assert p in drivers;
        ReferenceDriver(p);
        RefDriverKeeps(old(Snapshot()), p);
      }
    }

    // ----- devices

    /** _MakeDeviceHookRecordValid: the intrusive link must not be linked already. */
    method MakeDeviceValid(d: Address)
      requires validDevices[d] == 0
      modifies `validDevices
      ensures validDevices == old(validDevices)[d := 1]
    {
      validDevices := validDevices + multiset{d};
    }

    method SetReason(d: Address, reason: CreateReason)
      requires d in devices
      modifies `devices
      ensures devices == old(devices)[d := old(devices)[d].(reason := reason)]
    {
      devices := devices[d := devices[d].(reason := reason)];
    }

    /** HashTableInsert into SelectedDevices; the table takes over a borrowed reference. */
    method InsertDevice(d: Address)
      requires d in devices && devices[d].driver in drivers
      modifies `drivers, `deviceBorrows
      ensures Snapshot() == TableDevice(old(Snapshot()), d)
    {
      var p := devices[d].driver;
      drivers := drivers[p := drivers[p].(devices := drivers[p].devices[devices[d].deviceObject := d])];
      deviceBorrows := deviceBorrows - multiset{d};
    }

    /** HashTableDelete from SelectedDevices; the table's reference becomes the caller's. */
    method RemoveDevice(p: Address, o: Address)
      requires p in drivers && o in drivers[p].devices
      modifies `drivers, `deviceBorrows
      ensures Snapshot() == UntableDevice(old(Snapshot()), p, o)
    {
      deviceBorrows := deviceBorrows + multiset{drivers[p].devices[o]};
      drivers := drivers[p := drivers[p].(devices := drivers[p].devices - {o})];
    }

    /** Reference a device record and put it into the table of its driver record. */
    method LinkDevice(d: Address)
      requires Conserved(Snapshot()) && d in devices && devices[d].driver in drivers
      requires devices[d].deviceObject !in drivers[devices[d].driver].devices
      modifies `drivers, `devices, `deviceBorrows
      ensures Conserved(Snapshot()) && deviceBorrows == old(deviceBorrows)
      ensures devices == old(devices)[d := old(devices)[d].(refCount := old(devices)[d].refCount + 1)]
      ensures drivers == var p := old(devices)[d].driver;
        old(drivers)[p := old(drivers)[p].(devices := old(drivers)[p].devices[old(devices)[d].deviceObject := d])]
    {
      ReferenceDevice(d);
      RefDeviceKeeps(old(Snapshot()), d);
      ghost var s1 := Snapshot();
      InsertDevice(d);
      TableDeviceKeeps(s1, d);
      assert deviceBorrows == old(deviceBorrows);
      hide Conserved;
    }

    /** Take a device record out of its table and give the table's reference back. */
    method UnlinkDevice(p: Address, o: Address, d: Address)
      requires Conserved(Snapshot()) && p in drivers && o in drivers[p].devices && drivers[p].devices[o] == d
      requires d in devices && devices[d].refCount > 1
      modifies `drivers, `devices, `deviceBorrows, `driverBorrows, `validDevices
      ensures Conserved(Snapshot()) && deviceBorrows == old(deviceBorrows) && driverBorrows == old(driverBorrows)
      ensures validDevices == old(validDevices)
      ensures devices == old(devices)[d := old(devices)[d].(refCount := old(devices)[d].refCount - 1)]
      ensures drivers == old(drivers)[p := old(drivers)[p].(devices := old(drivers)[p].devices - {o})]
    {
      RemoveDevice(p, o);
      UntableDeviceKeeps(old(Snapshot()), p, o);
      ghost var s1 := Snapshot();
      UnrefDeviceKeeps(s1, d);
      DereferenceDevice(d);
      assert deviceBorrows == old(deviceBorrows);
      hide Conserved;
    }

    /** Make a record the user asked for valid, and reference it for the caller. */
    method PublishDevice(d: Address)
      requires Conserved(Snapshot()) && d in devices && validDevices[d] == 0
      modifies `devices, `validDevices, `deviceBorrows
      ensures Conserved(Snapshot())
      ensures Snapshot() == PromotedIn(old(Snapshot()), d)
    {
      SetReason(d, UserRequest);
      MakeDeviceValid(d);
      SameCountsKeeps(old(Snapshot()), Snapshot());
      ghost var s1 := Snapshot();
      ReferenceDevice(d);
      RefDeviceKeeps(s1, d);
      hide Conserved;
    }

    /** DriverHookRecordAddDevice for a device object not yet in the table: the fresh record
        `d`, borrowed once, goes into the table unless its proxy device cannot be made. */
    method AddNewDevice(p: Address, o: Address, d: Address, proxyOk: bool) returns (status: Status)
      requires Conserved(Snapshot()) && p in drivers && o !in drivers[p].devices
      requires d in devices && devices[d] == DeviceRecord(1, p, o, UserRequest) && validDevices[d] == 0
      modifies `drivers, `devices, `validDevices, `deviceBorrows, `driverBorrows
      ensures Conserved(Snapshot())
      ensures status == if old(drivers)[p].extensionHook && !proxyOk then ProxyFailed else Success
      ensures Snapshot() == if status == Success then EnteredIn(old(Snapshot()), d) else old(Snapshot())
    {
      hide Conserved;
      LinkDevice(d);
      status := if drivers[p].extensionHook && !proxyOk then ProxyFailed else Success;
      if status == Success {
        PublishDevice(d);
        assert devices == old(devices)[d := old(devices)[d].(refCount := 3)];
      } else {
        UnlinkDevice(p, o, d);
        assert old(drivers)[p].devices[o := d] - {o} == old(drivers)[p].devices;
        assert drivers == old(drivers) && devices == old(devices);
      }
    }

    /** DriverHookRecordAddDevice for a device object already in the table: the record made
        when the driver was hooked is promoted to one the user asked for. */
    method AddKnownDevice(p: Address, o: Address, d: Address, proxyOk: bool) returns (status: Status)
      requires Conserved(Snapshot()) && p in drivers && o in drivers[p].devices && drivers[p].devices[o] == d
      requires d in devices && devices[d].refCount > 0 && devices[d].driver in drivers
      requires (devices[d].reason.DriverHooked? ==> validDevices[d] == 0)
      modifies `drivers, `devices, `validDevices, `deviceBorrows, `driverBorrows
      ensures Conserved(Snapshot())
      ensures status == if old(devices)[d].reason.UserRequest? then Collision
                        else if old(drivers)[p].extensionHook && !proxyOk then ProxyFailed else Success
      ensures Snapshot() == if status == Success then PromotedIn(old(Snapshot()), d) else old(Snapshot())
    {
      hide Conserved;
      ghost var s0 := Snapshot();
      RefDeviceKeeps(s0, d);
      ReferenceDevice(d);
      RefUnref(s0, d);
      if devices[d].reason.DriverHooked? {
        status := if drivers[p].extensionHook && !proxyOk then ProxyFailed else Success;
        if status == Success {
          PublishDevice(d);
        }
      } else {
        status := Collision;
      }
      ghost var s1 := Snapshot();
      UnrefDeviceKeeps(s1, d);
      DereferenceDevice(d);
    }

    /** The two cases of DriverHookRecordAddDevice, with a fresh record at hand. */
    method AddDeviceUsing(p: Address, o: Address, newRecord: Address, proxyOk: bool)
      returns (status: Status, d: Address)
      requires Conserved(Snapshot()) && p in drivers
      requires newRecord in devices && devices[newRecord] == DeviceRecord(1, p, o, UserRequest)
      requires validDevices[newRecord] == 0
      requires forall q :: q in devices && devices[q].reason.DriverHooked? ==> validDevices[q] == 0
      modifies `drivers, `devices, `validDevices, `deviceBorrows, `driverBorrows
      ensures Conserved(Snapshot())
      ensures status == AddDeviceStatus(old(drivers)[p], old(devices), o, proxyOk)
      ensures status != Success ==> Snapshot() == old(Snapshot())
      ensures status == Success && o !in old(drivers)[p].devices ==>
        d == newRecord && Snapshot() == EnteredIn(old(Snapshot()), d)
      ensures status == Success && o in old(drivers)[p].devices ==>
        d == old(drivers)[p].devices[o] && d in old(devices) && Snapshot() == PromotedIn(old(Snapshot()), d)
    {
      if o in drivers[p].devices {
        d := drivers[p].devices[o];
        assert d in devices && devices[d].refCount > 0 && devices[d].driver in drivers;
        hide Conserved;
        status := AddKnownDevice(p, o, d, proxyOk);
      } else {
        d := newRecord;
        hide Conserved;
        status := AddNewDevice(p, o, d, proxyOk);
      }
    }

    /** DriverHookRecordAddDevice.  A failed call leaves everything as it was; on success the
        table holds a record the user asked for, once valid, and the caller a reference. */
    method AddDevice(p: Address, o: Address, proxyOk: bool) returns (status: Status, d: Address)
      requires Quiet(Snapshot()) && p in drivers
      modifies `drivers, `devices, `validDevices, `deviceBorrows, `driverBorrows
      ensures Quiet(Snapshot())
      ensures AddDeviceEffect(old(Snapshot()), Snapshot(), p, o, proxyOk, status, d)
      ensures var x := old(drivers)[p];
        status == if o in x.devices && x.devices[o] in old(devices) && old(devices)[x.devices[o]].reason.UserRequest?
                  then Collision else if x.extensionHook && !proxyOk then ProxyFailed else Success
      ensures status != Success ==> Snapshot() == old(Snapshot())
      ensures status == Success ==>
        && d in devices && devices[d].reason.UserRequest? && validDevices[d] == 1
        && p in drivers && o in drivers[p].devices && drivers[p].devices[o] == d
        && deviceBorrows == old(deviceBorrows) + multiset{d}
        && (if o in old(drivers)[p].devices
            then d in old(devices) && devices[d] == old(devices)[d].(reason := UserRequest, refCount := devices[d].refCount)
            else d !in old(devices) && devices[d] == DeviceRecord(2, p, o, UserRequest))
    {
      ghost var s0 := Snapshot();
      var newRecord := CreateDeviceRecord(p, o, UserRequest);
      AddDeviceReady(s0, newRecord, p, o, proxyOk);
      assert validDevices[newRecord] == 0;
      hide Quiet, Conserved, NewDevice, UnrefDevice, PromotedIn, EnteredIn, AddDeviceEffect, AddDeviceStatus;
      status, d := AddDeviceUsing(p, o, newRecord, proxyOk);
      AddDeviceOutcome(s0, Snapshot(), newRecord, d, p, o, proxyOk, status);
      DereferenceDevice(newRecord);
      AddDeviceIs(s0, Snapshot(), p, o, proxyOk, status, d);
    }

    /** DriverHookRecordDeleteDevice: the record in the table for this device object goes
        back to being one made by hooking the driver. */
    method DeleteDevice(d: Address) returns (status: Status)
      requires Quiet(Snapshot()) && d in devices && devices[d].driver in drivers
      modifies `drivers, `devices, `validDevices, `deviceBorrows, `driverBorrows
      ensures Quiet(Snapshot())
      ensures status == if Deletable(old(Snapshot()), d) then Success else NotFound
      ensures Snapshot() == if status == Success
                            then DemotedIn(old(Snapshot()), old(drivers)[old(devices)[d].driver].devices[old(devices)[d].deviceObject])
                            else old(Snapshot())
      ensures var table := old(drivers)[old(devices)[d].driver].devices; var o := old(devices)[d].deviceObject;
        && (status == Success <==> o in table && table[o] in old(devices) && old(devices)[table[o]].reason.UserRequest?)
        && (status == Success ==>
              && table[o] in devices && devices[table[o]] == old(devices)[table[o]].(reason := DriverHooked)
              && validDevices == old(validDevices)[table[o] := 0])
    {
      hide Conserved, DevicesIndexed, DriversIndexed, UnrefDevice;
      ghost var s0 := Snapshot();
      var p := devices[d].driver;
      if devices[d].deviceObject in drivers[p].devices {
        var e := drivers[p].devices[devices[d].deviceObject];
        EntryFacts(s0, p, devices[d].deviceObject);
        RefDeviceKeeps(s0, e);
        ReferenceDevice(e);
        RefUnref(s0, e);
        ghost var s1 := Snapshot();
        if devices[e].reason.UserRequest? {
          SetReason(e, DriverHooked);
          validDevices := validDevices[e := 0];
          SameCountsKeeps(s1, Snapshot());
          status := Success;
          DemoteKeepsIndex(s0, e);
        } else {
          status := NotFound;
        }
        UnrefDeviceKeeps(Snapshot(), e);
        DereferenceDevice(e);
      } else {
        status := NotFound;
      }
    }

    // ----- unhooking a driver

    /** HashTableClear of SelectedDevices: every record in it loses the table's reference. */
    method ClearSelectedDevices(p: Address)
      requires Conserved(Snapshot()) && p in drivers && driverBorrows[p] > 0
      modifies `drivers, `devices, `validDevices, `deviceBorrows, `driverBorrows
      ensures Conserved(Snapshot()) && PartlyEmptied(old(Snapshot()), Snapshot(), p)
      ensures drivers[p].devices == map[]
    {
      ghost var s0 := Snapshot();
      while drivers[p].devices != map[]
        invariant Conserved(Snapshot()) && PartlyEmptied(s0, Snapshot(), p)
        decreases drivers[p].devices.Keys
      {
        DropDevice(p, s0);
      }
    }

    /** One record of the table loses the table's reference. */
    method DropDevice(p: Address, ghost s0: State)
      requires Conserved(Snapshot()) && PartlyEmptied(s0, Snapshot(), p) && drivers[p].devices != map[]
      requires driverBorrows[p] > 0
      modifies `drivers, `devices, `validDevices, `deviceBorrows, `driverBorrows
      ensures Conserved(Snapshot()) && PartlyEmptied(s0, Snapshot(), p)
      ensures drivers[p].devices.Keys < old(drivers)[p].devices.Keys
    {
      var o :| o in drivers[p].devices;
      var d := drivers[p].devices[o];
      ghost var s1 := Snapshot();
      EmptyOne(s0, s1, p, o);
      assert Dropped(s1, p, o).drivers[p].devices == drivers[p].devices - {o};
      hide Conserved, PartlyEmptied, Dropped;
      RemoveDevice(p, o);
      DereferenceDevice(d);
    }

    /** UnhookDriverObject.  The driver table is searched by driver object, so the entry it
        deletes may belong to another record; only the reference that entry held may be
        given back.  Unhooking is sound exactly if the entry is the record's own: then the
        manager is at rest again, the record's device table is empty and the caller still
        has its reference.  Otherwise the caller's reference is used up, and the one the
        entry held on the other record belongs to nobody. */
    method UnhookDriverObject(p: Address) returns (status: Status)
      requires Quiet(Snapshot()) && p in drivers && driverBorrows[p] > 0
      modifies `drivers, `devices, `driverTable, `validDrivers, `validDevices, `driverBorrows, `deviceBorrows
      ensures status == if old(drivers)[p].driverObject in old(driverTable) then Success else NotFound
      ensures if status == Success then UnhookEffect(old(Snapshot()), Snapshot(), p) else Snapshot() == old(Snapshot())
    {
      if drivers[p].driverObject !in driverTable {
        return NotFound;
      }
      ghost var s0 := Snapshot();
      DetachDriver(p);
      Unhooked(s0, Snapshot(), p);
      hide UnhookEffect, Quiet, Conserved, UnhookReady, UnrefDriver;
      DereferenceDriver(p);
      status := Success;
    }

    /** The part of UnhookDriverObject before the last reference is given back. */
    method DetachDriver(p: Address)
      requires Quiet(Snapshot()) && p in drivers && driverBorrows[p] > 0 && drivers[p].driverObject in driverTable
      modifies `drivers, `devices, `driverTable, `validDrivers, `validDevices, `driverBorrows, `deviceBorrows
      ensures UnhookReady(old(Snapshot()), Snapshot(), p)
    {
      ghost var s0 := Snapshot();
      var o := drivers[p].driverObject;
      UntableDriverKeeps(s0, o);
      RemoveFromDriverTable(o);
      ghost var s1 := Snapshot();
      assert p in drivers && driverBorrows[p] > 0;
      hide Quiet, Conserved, PartlyEmptied, UnhookReady;
      ClearSelectedDevices(p);
      ghost var s := Snapshot();
      validDrivers := validDrivers[p := 0];
      assert Snapshot().(validDrivers := s1.validDrivers) == s by { EmptyingKeepsTables(s1, s, p); }
      UnhookedSoFar(s0, s1, Snapshot(), p);
    }

    method RemoveFromDriverTable(o: Address)
      requires o in driverTable
      modifies `driverTable, `driverBorrows
      ensures Snapshot() == UntableDriver(old(Snapshot()), o)
    {
      driverBorrows := driverBorrows + multiset{driverTable[o]};
      driverTable := driverTable - {o};
    }
  }

  /** Before the last reference is given back. */
  ghost predicate UnhookReady(s0: State, s2: State, p: Address) {
    && p in s0.drivers && p in s2.drivers && s0.drivers[p].driverObject in s0.driverTable
    && Conserved(s2) && DevicesIndexed(s2)
    && s2.drivers.Keys == s0.drivers.Keys
    && s2.drivers[p] == s0.drivers[p].(refCount := s2.drivers[p].refCount, devices := map[])
    && (forall q :: q in s0.drivers && q != p ==> s2.drivers[q] == s0.drivers[q])
    && s2.driverTable == s0.driverTable - {s0.drivers[p].driverObject}
    && s2.validDrivers == s0.validDrivers[p := 0]
    && s2.driverHandles == s0.driverHandles && s2.deviceHandles == s0.deviceHandles
    && s2.driverBorrows == s0.driverBorrows + multiset{s0.driverTable[s0.drivers[p].driverObject]}
    && s2.deviceBorrows == s0.deviceBorrows && AllReleased(s0, s2, p)
  }

  /** Every record in p's device table has lost the table's reference; no other changed. */
  ghost predicate AllReleased(s: State, t: State, p: Address) {
    && t.devices.Keys <= s.devices.Keys
    && (forall d {:trigger d in s.devices} :: d in s.devices ==>
          if InTableOf(s, p, d) then Released(s, t, d) else d in t.devices && t.devices[d] == s.devices[d])
  }

  lemma EmptyingKeepsTables(s: State, t: State, p: Address)
    requires PartlyEmptied(s, t, p)
    ensures t.validDrivers == s.validDrivers && t.driverTable == s.driverTable && p in t.drivers
  {}

  lemma EmptyingKeepsIndex(s: State, t: State, p: Address)
    requires DevicesIndexed(s) && PartlyEmptied(s, t, p)
    ensures DevicesIndexed(t)
  {
    forall d ensures t.validDevices[d] == One(d in t.devices && t.devices[d].reason.UserRequest?) {
      assert s.validDevices[d] == One(d in s.devices && s.devices[d].reason.UserRequest?);
    }
  }

  lemma EmptiedIsReleased(s0: State, s: State, t: State, u: State, p: Address)
    requires PartlyEmptied(s, t, p) && t.drivers[p].devices == map[]
    requires s0.devices == s.devices && s0.drivers == s.drivers && s0.validDevices == s.validDevices
    requires u.devices == t.devices && u.validDevices == t.validDevices
    ensures AllReleased(s0, u, p)
  {
    forall d | d in s0.devices
      ensures if InTableOf(s0, p, d) then Released(s0, u, d) else d in u.devices && u.devices[d] == s0.devices[d]
    {
      assert InTableOf(s0, p, d) == InTableOf(s, p, d);
    }
  }

  lemma UnhookedSoFar(s0: State, s1: State, s2: State, p: Address)
    requires Quiet(s0) && p in s0.drivers && s0.drivers[p].driverObject in s0.driverTable
    requires s1 == UntableDriver(s0, s0.drivers[p].driverObject)
    requires PartlyEmptied(s1, s2.(validDrivers := s1.validDrivers), p)
    requires Conserved(s2.(validDrivers := s1.validDrivers))
    requires s2.drivers[p].devices == map[] && s2.validDrivers == s1.validDrivers[p := 0]
    ensures UnhookReady(s0, s2, p)
  {
    EmptyingKeepsIndex(s1, s2.(validDrivers := s1.validDrivers), p);
    EmptiedIsReleased(s0, s1, s2.(validDrivers := s1.validDrivers), s2, p);
    hide AllReleased;
    SameCountsKeeps(s2.(validDrivers := s1.validDrivers), s2);
    hide Conserved;
  }

  /** A record is in the driver table once, under its own driver object, or not at all. */
  lemma OwnEntry(s: State, p: Address, o: Address)
    requires Conserved(s) && o in s.driverTable && s.driverTable[o] == p
    ensures Refs(s.driverTable, p) == 1
  {
    assert Holders(s.driverTable, p) == {o};
  }

  /** What a successful UnhookDriverObject of p does. */
  ghost predicate UnhookEffect(s: State, t: State, p: Address) {
    && p in s.drivers && s.drivers[p].driverObject in s.driverTable
    && var o := s.drivers[p].driverObject; var owner := s.driverTable[o];
      && Conserved(t) && t.driverTable == s.driverTable - {o} && t.deviceBorrows == s.deviceBorrows
      && t.driverBorrows == s.driverBorrows + multiset{owner} - multiset{p}
      && (forall q :: q in s.drivers && q != p ==> q in t.drivers && t.drivers[q] == s.drivers[q])
      && t.drivers.Keys <= s.drivers.Keys
      && (p in t.drivers ==> t.drivers[p] == s.drivers[p].(refCount := t.drivers[p].refCount, devices := map[]))
      && t.driverHandles == s.driverHandles && t.deviceHandles == s.deviceHandles && AllReleased(s, t, p)
      && (Quiet(t) <==> owner == p) && (t.driverBorrows == s.driverBorrows <==> owner == p)
      && (NoStray(s) && owner == p ==> NoStray(t))
  }

  lemma UnhookedIndex(s0: State, s2: State, p: Address)
    requires Conserved(s0) && DriversIndexed(s0) && UnhookReady(s0, s2, p)
    ensures DriversIndexed(UnrefDriver(s2, p)) <==> s0.driverTable[s0.drivers[p].driverObject] == p
  {
    var t := UnrefDriver(s2, p);
    var o := s0.drivers[p].driverObject;
    var owner := s0.driverTable[o];
    OwnEntry(s0, owner, o);
    forall q ensures Refs(t.driverTable, q) == Refs(s0.driverTable, q) - One(q == owner) {
      RefsRemoved(s0.driverTable, o, q);
    }
    if owner != p {
      assert t.validDrivers[owner] == s0.validDrivers[owner] == 1 && Refs(t.driverTable, owner) == 0;
    }
    hide Conserved;
  }

  lemma UnhookedNoStray(s0: State, s2: State, p: Address)
    requires UnhookReady(s0, s2, p) && NoStray(s0) && s0.driverTable[s0.drivers[p].driverObject] == p
    ensures NoStray(UnrefDriver(s2, p))
  {
    var t := UnrefDriver(s2, p);
    var o := s0.drivers[p].driverObject;
    forall q | q in t.drivers && Refs(t.driverTable, q) == 0 ensures t.drivers[q].devices == map[] {
      RefsRemoved(s0.driverTable, o, q);
      assert q != p ==> t.drivers[q] == s0.drivers[q] && q in s0.drivers;
    }
  }

  /** Taking one address and giving back another leaves a trace. */
  lemma BorrowsEven(m: multiset<Address>, x: Address, y: Address)
    requires m[y] > 0
    ensures m + multiset{x} - multiset{y} == m <==> x == y
  {
    if x != y { assert (m + multiset{x} - multiset{y})[x] == m[x] + 1; } else { PlusMinus(m, x); }
  }

  lemma UnhookedFields(s0: State, s2: State, p: Address)
    requires UnhookReady(s0, s2, p)
    ensures var t := UnrefDriver(s2, p); var o := s0.drivers[p].driverObject;
      && t.driverTable == s0.driverTable - {o} && t.deviceBorrows == s0.deviceBorrows
      && t.driverBorrows == s0.driverBorrows + multiset{s0.driverTable[o]} - multiset{p}
      && (forall q :: q in s0.drivers && q != p ==> q in t.drivers && t.drivers[q] == s0.drivers[q])
      && t.drivers.Keys <= s0.drivers.Keys
      && (p in t.drivers ==> t.drivers[p] == s0.drivers[p].(refCount := t.drivers[p].refCount, devices := map[]))
      && t.driverHandles == s0.driverHandles && t.deviceHandles == s0.deviceHandles
      && DevicesIndexed(t) && AllReleased(s0, t, p)
  {
    hide UnhookReady, UnrefDriver, Conserved, AllReleased, DevicesIndexed;
    UnhookReadyFields(s0, s2, p);
    UnrefFrame(s2, p);
    var t := UnrefDriver(s2, p);
    SameReleased(s0, s2, t, p);
    SameDevicesIndexed(s2, t);
  }

  lemma UnhookReadyFields(s0: State, s2: State, p: Address)
    requires UnhookReady(s0, s2, p)
    ensures p in s0.drivers && p in s2.drivers && s0.drivers[p].driverObject in s0.driverTable
    ensures s2.drivers.Keys == s0.drivers.Keys
    ensures (forall q :: q in s0.drivers && q != p ==> s2.drivers[q] == s0.drivers[q])
    ensures s2.drivers[p] == s0.drivers[p].(refCount := s2.drivers[p].refCount, devices := map[])
    ensures s2.driverTable == s0.driverTable - {s0.drivers[p].driverObject}
    ensures s2.driverBorrows == s0.driverBorrows + multiset{s0.driverTable[s0.drivers[p].driverObject]}
    ensures s2.deviceBorrows == s0.deviceBorrows && s2.driverHandles == s0.driverHandles
    ensures s2.deviceHandles == s0.deviceHandles
    ensures DevicesIndexed(s2) && AllReleased(s0, s2, p)
  {
    hide Conserved, DevicesIndexed, AllReleased;
  }

  /** A reference given back concerns one driver record and the borrowers. */
  lemma UnrefFrame(u: State, p: Address)
    requires p in u.drivers
    ensures var v := UnrefDriver(u, p);
      && v == u.(drivers := v.drivers, driverBorrows := u.driverBorrows - multiset{p})
      && (forall q :: q in u.drivers && q != p ==> q in v.drivers && v.drivers[q] == u.drivers[q])
      && v.drivers.Keys <= u.drivers.Keys
      && (p in v.drivers ==> v.drivers[p] == u.drivers[p].(refCount := v.drivers[p].refCount))
  {}

  lemma SameDevicesIndexed(s: State, t: State)
    requires DevicesIndexed(s) && t.devices == s.devices && t.validDevices == s.validDevices
    ensures DevicesIndexed(t)
  {}

  lemma SameReleased(s: State, t: State, u: State, p: Address)
    requires AllReleased(s, t, p) && u.devices == t.devices && u.validDevices == t.validDevices
    ensures AllReleased(s, u, p)
  {}

  lemma Unhooked(s0: State, s2: State, p: Address)
    requires Quiet(s0) && UnhookReady(s0, s2, p) && s0.driverBorrows[p] > 0
    ensures UnhookEffect(s0, UnrefDriver(s2, p), p)
  {
    assert Conserved(s0) && DriversIndexed(s0) && Conserved(s2) && s2.driverBorrows[p] > 0;
    hide Conserved, DevicesIndexed, DriversIndexed, NoStray, UnrefDriver;
    UnrefDriverKeeps(s2, p);
    UnhookedFields(s0, s2, p);
    UnhookedIndex(s0, s2, p);
    if NoStray(s0) && s0.driverTable[s0.drivers[p].driverObject] == p { UnhookedNoStray(s0, s2, p); }
    BorrowsEven(s0.driverBorrows, s0.driverTable[s0.drivers[p].driverObject], p);
  }

  predicate InTableOf(s: State, p: Address, d: Address) {
    && p in s.drivers && d in s.devices && s.devices[d].driver == p
    && s.devices[d].deviceObject in s.drivers[p].devices && s.drivers[p].devices[s.devices[d].deviceObject] == d
  }

  /** The record has lost one reference; if that was the last it is freed and invalid. */
  predicate Released(s: State, t: State, d: Address)
    requires d in s.devices
  {
    if s.devices[d].refCount == 1 then d !in t.devices && t.validDevices[d] == 0
    else d in t.devices && t.devices[d] == s.devices[d].(refCount := s.devices[d].refCount - 1)
         && t.validDevices[d] == s.validDevices[d]
  }

  /** Some records of p's device table were taken out and released; all else is unchanged. */
  ghost predicate PartlyEmptied(s: State, t: State, p: Address) {
    && p in s.drivers && p in t.drivers && t.drivers.Keys == s.drivers.Keys
    && (forall q :: q in s.drivers && q != p ==> t.drivers[q] == s.drivers[q])
    && t.drivers[p] == s.drivers[p].(refCount := t.drivers[p].refCount, devices := t.drivers[p].devices)
    && (forall o :: o in t.drivers[p].devices ==>
          o in s.drivers[p].devices && t.drivers[p].devices[o] == s.drivers[p].devices[o])
    && t.driverTable == s.driverTable && t.validDrivers == s.validDrivers
    && t.driverHandles == s.driverHandles && t.deviceHandles == s.deviceHandles
    && t.driverBorrows == s.driverBorrows && t.deviceBorrows == s.deviceBorrows
    && t.devices.Keys <= s.devices.Keys
    && (forall d {:trigger d in s.devices} :: d in s.devices ==>
          if InTableOf(s, p, d) && s.devices[d].deviceObject !in t.drivers[p].devices then Released(s, t, d)
          else d in t.devices && t.devices[d] == s.devices[d] && t.validDevices[d] == s.validDevices[d])
    && (forall d {:trigger t.validDevices[d]} :: d !in s.devices ==> t.validDevices[d] == s.validDevices[d])
  }

  /** A driver record with a borrower outlives its device records. */
  lemma OwnerSurvives(s: State, d: Address, p: Address)
    requires Conserved(s) && d in s.devices && s.devices[d].driver == p && s.driverBorrows[p] > 0
    ensures p in s.drivers && s.drivers[p].refCount > 1
  {
    ReferencedIsLive(s, p);
    assert Owners(s.devices)[d] == p;
    RefsPositive(Owners(s.devices), d);
    assert DriverCount(s, p) == DriverDue(s, p);
  }

  /** Releasing one more record empties the table further. */
  lemma EmptiedFurther(s0: State, s: State, t: State, p: Address, o: Address, d: Address)
    requires PartlyEmptied(s0, s, p) && o in s.drivers[p].devices && d == s.drivers[p].devices[o]
    requires d in s0.devices && d in s.devices && s.devices[d] == s0.devices[d] && s.devices[d].driver == p
    requires s.devices[d].deviceObject == o
    requires t.drivers.Keys == s.drivers.Keys && (forall q :: q in s.drivers && q != p ==> t.drivers[q] == s.drivers[q])
    requires t.drivers[p] == s.drivers[p].(refCount := t.drivers[p].refCount, devices := s.drivers[p].devices - {o})
    requires t.driverTable == s.driverTable && t.validDrivers == s.validDrivers
    requires t.driverHandles == s.driverHandles && t.deviceHandles == s.deviceHandles
    requires t.driverBorrows == s.driverBorrows && t.deviceBorrows == s.deviceBorrows
    requires Released(s, t, d) && t.devices.Keys <= s.devices.Keys
    requires forall q :: q in s.devices && q != d ==> q in t.devices && t.devices[q] == s.devices[q]
    requires forall q :: q != d ==> t.validDevices[q] == s.validDevices[q]
    ensures PartlyEmptied(s0, t, p)
  {
    forall q | q in s0.devices
      ensures if InTableOf(s0, p, q) && s0.devices[q].deviceObject !in t.drivers[p].devices then Released(s0, t, q)
              else q in t.devices && t.devices[q] == s0.devices[q] && t.validDevices[q] == s0.validDevices[q]
    {
      if q == d {
        assert InTableOf(s0, p, d);
      } else if InTableOf(s0, p, q) {
        assert s0.devices[q].deviceObject != o;
      }
    }
  }

  /** One record taken out of the table and released, all at once. */
  function Dropped(s: State, p: Address, o: Address): State
    requires p in s.drivers && o in s.drivers[p].devices && s.drivers[p].devices[o] in s.devices
  {
    var d := s.drivers[p].devices[o];
    var x := s.drivers[p].(devices := s.drivers[p].devices - {o});
    if s.devices[d].refCount == 1 then
      s.(drivers := s.drivers[p := x.(refCount := x.refCount - 1)], devices := s.devices - {d}, validDevices := s.validDevices[d := 0])
    else
      s.(drivers := s.drivers[p := x], devices := s.devices[d := s.devices[d].(refCount := s.devices[d].refCount - 1)])
  }

  lemma LastDropped(s: State, p: Address, o: Address, d: Address)
    requires p in s.drivers && o in s.drivers[p].devices && s.drivers[p].devices[o] == d
    requires d in s.devices && s.devices[d].driver == p && s.drivers[p].refCount > 1 && s.devices[d].refCount == 1
    ensures UnrefDriver(FreeDevice(UntableDevice(s, p, o), d), p) == Dropped(s, p, o)
  {
    PlusMinus(s.deviceBorrows, d);
    PlusMinus(s.driverBorrows, p);
    var t := UnrefDriver(FreeDevice(UntableDevice(s, p, o), d), p);
    assert t.drivers == Dropped(s, p, o).drivers;
  }

  lemma DroppedIsReleased(s: State, p: Address, o: Address, d: Address)
    requires p in s.drivers && o in s.drivers[p].devices && s.drivers[p].devices[o] == d
    requires d in s.devices && s.devices[d].driver == p && s.drivers[p].refCount > 1
    ensures UnrefDevice(UntableDevice(s, p, o), d) == Dropped(s, p, o)
  {
    if s.devices[d].refCount == 1 {
      LastDropped(s, p, o, d);
    } else {
      var t := UnrefDevice(UntableDevice(s, p, o), d);
      assert t.deviceBorrows == s.deviceBorrows;
      assert t.drivers == Dropped(s, p, o).drivers;
    }
    hide Dropped, FreeDevice, UnrefDriver;
  }

  lemma TabledFacts(s: State, p: Address, o: Address)
    requires Conserved(s) && p in s.drivers && o in s.drivers[p].devices && s.driverBorrows[p] > 0
    ensures var d := s.drivers[p].devices[o];
      d in s.devices && s.devices[d].driver == p && s.devices[d].deviceObject == o
    ensures s.drivers[p].refCount > 1
  {
    OwnerSurvives(s, s.drivers[p].devices[o], p);
  }

  lemma DroppedKeeps(s: State, p: Address, o: Address)
    requires Conserved(s) && p in s.drivers && o in s.drivers[p].devices && s.driverBorrows[p] > 0
    ensures s.drivers[p].devices[o] in s.devices && Conserved(Dropped(s, p, o))
  {
    TabledFacts(s, p, o);
    DroppedIsReleased(s, p, o, s.drivers[p].devices[o]);
    UntableDeviceKeeps(s, p, o);
    UnrefDeviceKeeps(UntableDevice(s, p, o), s.drivers[p].devices[o]);
    hide Conserved, Dropped;
  }

  /** A record still in the table has not been touched. */
  lemma StillThere(s0: State, s: State, p: Address, o: Address)
    requires PartlyEmptied(s0, s, p) && o in s.drivers[p].devices
    requires var d := s.drivers[p].devices[o];
      d in s.devices && s.devices[d].driver == p && s.devices[d].deviceObject == o
    ensures var d := s.drivers[p].devices[o]; d in s0.devices && s.devices[d] == s0.devices[d]
  {
    var d := s.drivers[p].devices[o];
    assert d in s0.devices;
    assert Released(s0, s, d) ==> s0.devices[d].deviceObject == o;
  }

  lemma EmptiedAfterDrop(s0: State, s: State, p: Address, o: Address)
    requires PartlyEmptied(s0, s, p) && o in s.drivers[p].devices
    requires var d := s.drivers[p].devices[o];
      d in s.devices && s.devices[d].driver == p && s.devices[d].deviceObject == o && d in s0.devices && s.devices[d] == s0.devices[d]
    ensures PartlyEmptied(s0, Dropped(s, p, o), p)
  {
    EmptiedFurther(s0, s, Dropped(s, p, o), p, o, s.drivers[p].devices[o]);
    hide PartlyEmptied;
  }

  lemma EmptyOne(s0: State, s: State, p: Address, o: Address)
    requires Conserved(s) && PartlyEmptied(s0, s, p) && s.driverBorrows[p] > 0
    requires o in s.drivers[p].devices
    ensures var d := s.drivers[p].devices[o]; var u := UntableDevice(s, p, o);
      d in u.devices && u.devices[d].driver in u.drivers && UnrefDevice(u, d) == Dropped(s, p, o)
    ensures Conserved(Dropped(s, p, o)) && PartlyEmptied(s0, Dropped(s, p, o), p)
  {
    TabledFacts(s, p, o);
    DroppedIsReleased(s, p, o, s.drivers[p].devices[o]);
    DroppedKeeps(s, p, o);
    StillThere(s0, s, p, o);
    EmptiedAfterDrop(s0, s, p, o);
    hide Conserved, PartlyEmptied, Dropped, UnrefDevice;
  }

  /** The record becomes one made by hooking the driver, and is no valid object ID any more. */
  function DemotedIn(s: State, d: Address): State
    requires d in s.devices
  {
    s.(devices := s.devices[d := s.devices[d].(reason := DriverHooked)], validDevices := s.validDevices[d := 0])
  }

  /** The table has a record for this device object that the user asked for. */
  predicate Deletable(s: State, d: Address)
    requires d in s.devices && s.devices[d].driver in s.drivers
  {
    var table := s.drivers[s.devices[d].driver].devices;
    s.devices[d].deviceObject in table && table[s.devices[d].deviceObject] in s.devices
    && s.devices[table[s.devices[d].deviceObject]].reason.UserRequest?
  }

  lemma EntryFacts(s: State, p: Address, o: Address)
    requires Conserved(s) && p in s.drivers && o in s.drivers[p].devices
    ensures var d := s.drivers[p].devices[o];
      d in s.devices && s.devices[d].refCount > 0 && s.devices[d].driver == p && s.devices[d].deviceObject == o
  {}

  lemma DemoteKeepsIndex(s: State, d: Address)
    requires DevicesIndexed(s) && DriversIndexed(s) && d in s.devices
    ensures DevicesIndexed(DemotedIn(s, d)) && DriversIndexed(DemotedIn(s, d))
  {}

  /** Deleting a device undoes adding it, once the caller gives its reference back. */
  lemma DeleteUndoesAdd(s: State, d: Address)
    requires d in s.devices && s.devices[d].reason.DriverHooked? && s.validDevices[d] == 0
    requires s.devices[d].refCount > 0 && s.devices[d].driver in s.drivers
    ensures UnrefDevice(DemotedIn(PromotedIn(s, d), d), d) == s
  {
    var t := UnrefDevice(DemotedIn(PromotedIn(s, d), d), d);
    assert t.devices == s.devices;
    assert t.validDevices == s.validDevices;
    assert t.deviceBorrows == s.deviceBorrows;
  }

  lemma AddDeviceReady(s0: State, made: Address, p: Address, o: Address, proxyOk: bool)
    requires Conserved(s0) && DevicesIndexed(s0) && p in s0.drivers && made !in s0.devices
    ensures var sc := NewDevice(s0, made, p, o, UserRequest);
      && Conserved(sc) && p in sc.drivers && made in sc.devices
      && sc.devices[made] == DeviceRecord(1, p, o, UserRequest) && sc.validDevices[made] == 0
      && (forall q :: q in sc.devices && sc.devices[q].reason.DriverHooked? ==> sc.validDevices[q] == 0)
      && sc.drivers[p].devices == s0.drivers[p].devices
      && AddDeviceStatus(sc.drivers[p], sc.devices, o, proxyOk) == AddDeviceStatus(s0.drivers[p], s0.devices, o, proxyOk)
  {
    AddDeviceFacts(s0, p, o);
    NewDeviceKeeps(s0, made, p, o, UserRequest);
    hide Conserved;
  }

  /** A failed DriverHookRecordAddDevice leaves everything as it was; on success the table
      holds a record the user asked for, once valid, and the caller has a reference. */
  ghost predicate AddDeviceEffect(s: State, t: State, p: Address, o: Address, proxyOk: bool, status: Status, d: Address)
    requires p in s.drivers
  {
    && status == AddDeviceStatus(s.drivers[p], s.devices, o, proxyOk)
    && (status != Success ==> t == s)
    && (status == Success ==>
          && (if o in s.drivers[p].devices then d == s.drivers[p].devices[o] && d in s.devices else d !in s.devices)
          && AddedDevice(s, t, p, o, d, o !in s.drivers[p].devices))
  }

  /** The effect, field by field. */
  lemma AddDeviceIs(s: State, t: State, p: Address, o: Address, proxyOk: bool, status: Status, d: Address)
    requires p in s.drivers && AddDeviceEffect(s, t, p, o, proxyOk, status, d)
    ensures status == if o in s.drivers[p].devices && s.drivers[p].devices[o] in s.devices
                         && s.devices[s.drivers[p].devices[o]].reason.UserRequest?
                      then Collision else if s.drivers[p].extensionHook && !proxyOk then ProxyFailed else Success
    ensures status != Success ==> t == s
    ensures status == Success ==>
      && d in t.devices && t.devices[d].reason.UserRequest? && t.validDevices[d] == 1
      && p in t.drivers && o in t.drivers[p].devices && t.drivers[p].devices[o] == d
      && t.deviceBorrows == s.deviceBorrows + multiset{d}
      && (if o in s.drivers[p].devices
          then d in s.devices && t.devices[d] == s.devices[d].(reason := UserRequest, refCount := t.devices[d].refCount)
          else d !in s.devices && t.devices[d] == DeviceRecord(2, p, o, UserRequest))
  {}

  lemma AddDeviceOutcome(s0: State, s1: State, made: Address, d: Address, p: Address, o: Address, proxyOk: bool,
                         status: Status)
    requires Quiet(s0) && p in s0.drivers && made !in s0.devices
    requires Conserved(s1) && status == AddDeviceStatus(s0.drivers[p], s0.devices, o, proxyOk)
    requires var sc := NewDevice(s0, made, p, o, UserRequest);
      && (status != Success ==> s1 == sc)
      && (status == Success && o !in s0.drivers[p].devices ==>
            d == made && d in sc.devices && sc.devices[d].driver in sc.drivers && s1 == EnteredIn(sc, d))
      && (status == Success && o in s0.drivers[p].devices ==>
            d == s0.drivers[p].devices[o] && d in sc.devices && s1 == PromotedIn(sc, d))
    ensures made in s1.devices && s1.devices[made].driver in s1.drivers
    ensures Quiet(UnrefDevice(s1, made)) && AddDeviceEffect(s0, UnrefDevice(s1, made), p, o, proxyOk, status, d)
  {
    AddDeviceFacts(s0, p, o);
    assert s1.deviceBorrows[made] > 0;
    UnrefDeviceKeeps(s1, made);
    hide Conserved;
    if status != Success {
      NothingAdded(s0, made, p, o);
    } else {
      if d == made { NewAdded(s0, s1, d, p, o); } else { KnownAdded(s0, s1, made, d, p, o); }
      hide NewDevice, UnrefDevice, PromotedIn, EnteredIn;
      StillIndexed(s0, UnrefDevice(s1, made), p, o, d, d == made);
    }
  }

  /** When DriverHookRecordAddDevice succeeds. */
  function AddDeviceStatus(x: DriverRecord, devices: map<Address, DeviceRecord>, o: Address, proxyOk: bool): Status {
    if o in x.devices && x.devices[o] in devices && devices[x.devices[o]].reason.UserRequest? then Collision
    else if x.extensionHook && !proxyOk then ProxyFailed else Success
  }

  lemma AddDeviceFacts(s: State, p: Address, o: Address)
    requires Conserved(s) && DevicesIndexed(s) && p in s.drivers
    ensures s.drivers[p].refCount > 0
    ensures forall q :: q !in s.devices ==> s.validDevices[q] == 0
    ensures forall q :: q in s.devices && s.devices[q].reason.DriverHooked? ==> s.validDevices[q] == 0
    ensures o in s.drivers[p].devices ==> s.drivers[p].devices[o] in s.devices
  {}

  /** A reference taken for the length of a routine leaves no trace. */
  /** A reference that is not the last one is given back. */
  lemma UnrefOne(t: State, d: Address, devices: map<Address, DeviceRecord>, x: DeviceRecord)
    requires t.devices == devices[d := x] && x.refCount > 1 && x.driver in t.drivers
    ensures UnrefDevice(t, d) == t.(devices := devices[d := x.(refCount := x.refCount - 1)],
                                    deviceBorrows := t.deviceBorrows - multiset{d})
  {
    assert devices[d := x][d := x.(refCount := x.refCount - 1)] == devices[d := x.(refCount := x.refCount - 1)];
  }

  lemma RefUnref(s: State, d: Address)
    requires d in s.devices && s.devices[d].refCount > 0 && s.devices[d].driver in s.drivers
    ensures UnrefDevice(RefDevice(s, d), d) == s
    ensures UnrefDevice(PromotedIn(RefDevice(s, d), d), d) == PromotedIn(s, d)
    ensures UnrefDevice(DemotedIn(RefDevice(s, d), d), d) == DemotedIn(s, d)
  {
    hide UnrefDevice;
    var t, x := RefDevice(s, d), s.devices[d].(refCount := s.devices[d].refCount + 1);
    PlusMinus(s.deviceBorrows, d);
    PlusMinus(s.deviceBorrows + multiset{d}, d);
    UnrefOne(t, d, s.devices, x);
    assert PromotedIn(t, d).devices == s.devices[d := Promoted(x)];
    UnrefOne(PromotedIn(t, d), d, s.devices, Promoted(x));
    assert DemotedIn(t, d).devices == s.devices[d := x.(reason := DriverHooked)];
    UnrefOne(DemotedIn(t, d), d, s.devices, x.(reason := DriverHooked));
  }

  /** Giving back the fresh record after a failed attempt frees it without a trace. */
  lemma NothingAdded(s0: State, made: Address, p: Address, o: Address)
    requires made !in s0.devices && p in s0.drivers && s0.drivers[p].refCount > 0 && s0.validDevices[made] == 0
    ensures UnrefDevice(NewDevice(s0, made, p, o, UserRequest), made) == s0
  {
    var s1 := NewDevice(s0, made, p, o, UserRequest);
    FreshRecordFreed(s0, s1, made, p);
    assert s1.devices - {made} == s0.devices;
    assert s1.deviceBorrows - multiset{made} == s0.deviceBorrows;
  }

  /** Giving back the fresh record frees it when a known one was promoted instead. */
  lemma KnownAdded(s0: State, s1: State, made: Address, d: Address, p: Address, o: Address)
    requires made !in s0.devices && p in s0.drivers && s0.drivers[p].refCount > 0 && s0.validDevices[made] == 0
    requires d in s0.devices
    requires s1 == PromotedIn(NewDevice(s0, made, p, o, UserRequest), d)
    ensures AddedDevice(s0, UnrefDevice(s1, made), p, o, d, false)
  {
    FreshRecordFreed(s0, s1, made, p);
    assert s1.devices - {made} == s0.devices[d := Promoted(s0.devices[d])];
    assert s1.deviceBorrows - multiset{made} == s0.deviceBorrows + multiset{d};
  }

  function Promoted(x: DeviceRecord): DeviceRecord { x.(reason := UserRequest, refCount := x.refCount + 1) }

  /** The record becomes one the user asked for, is made valid, and referenced once more. */
  function PromotedIn(s: State, d: Address): State
    requires d in s.devices
  {
    s.(devices := s.devices[d := Promoted(s.devices[d])], validDevices := s.validDevices[d := 1],
       deviceBorrows := s.deviceBorrows + multiset{d})
  }

  /** The record goes into the table, is made valid, and referenced for table and caller. */
  function EnteredIn(s: State, d: Address): State
    requires d in s.devices && s.devices[d].driver in s.drivers
  {
    var x := s.devices[d];
    PromotedIn(CountDevice(s, d, 1), d)
      .(drivers := s.drivers[x.driver := s.drivers[x.driver].(devices := s.drivers[x.driver].devices[x.deviceObject := d])])
  }

  /** The table keeps the fresh record. */
  lemma NewAdded(s0: State, s1: State, d: Address, p: Address, o: Address)
    requires d !in s0.devices && p in s0.drivers
    requires s1 == EnteredIn(NewDevice(s0, d, p, o, UserRequest), d)
    ensures AddedDevice(s0, UnrefDevice(s1, d), p, o, d, true)
  {
    hide UnrefDevice;
    PlusMinus(s0.deviceBorrows + multiset{d}, d);
    assert s1.devices == s0.devices[d := DeviceRecord(3, p, o, UserRequest)];
    UnrefOne(s1, d, s0.devices, DeviceRecord(3, p, o, UserRequest));
    var t := UnrefDevice(s1, d);
    assert t.drivers == s0.drivers[p := s0.drivers[p].(refCount := s0.drivers[p].refCount + 1, devices := s0.drivers[p].devices[o := d])];
  }

  /** What a successful DriverHookRecordAddDevice changes: a known record is promoted, an
      unknown device gets a record of its own. */
  predicate AddedDevice(s: State, t: State, p: Address, o: Address, d: Address, isNew: bool)
    requires p in s.drivers && (!isNew ==> d in s.devices)
  {
    && t.validDevices == s.validDevices[d := 1]
    && t.deviceBorrows == s.deviceBorrows + multiset{d} && t.driverBorrows == s.driverBorrows
    && t.driverTable == s.driverTable && t.validDrivers == s.validDrivers
    && (if isNew then
          && t.devices == s.devices[d := DeviceRecord(2, p, o, UserRequest)]
          && t.drivers == s.drivers[p := s.drivers[p].(refCount := s.drivers[p].refCount + 1, devices := s.drivers[p].devices[o := d])]
        else
          && t.devices == s.devices[d := Promoted(s.devices[d])]
          && t.drivers == s.drivers)
  }

  /** Freeing a fresh record undoes what creating it did to its driver record. */
  lemma FreshRecordFreed(s0: State, s1: State, d: Address, p: Address)
    requires d !in s0.devices && p in s0.drivers && s0.drivers[p].refCount > 0
    requires s1.drivers == s0.drivers[p := s0.drivers[p].(refCount := s0.drivers[p].refCount + 1)]
    requires s1.driverBorrows == s0.driverBorrows && s1.validDevices[d] == 0
    requires d in s1.devices && s1.devices[d].refCount == 1 && s1.devices[d].driver == p
    ensures var t := UnrefDevice(s1, d);
      && t.drivers == s0.drivers && t.devices == s1.devices - {d}
      && t.driverBorrows == s0.driverBorrows && t.validDevices == s1.validDevices
      && t.deviceBorrows == s1.deviceBorrows - multiset{d}
  {
    assert UnrefDevice(s1, d).drivers == s0.drivers;
    assert s1.validDevices[d := 0] == s1.validDevices;
  }

  lemma StillIndexed(s: State, t: State, p: Address, o: Address, d: Address, isNew: bool)
    requires DevicesIndexed(s) && DriversIndexed(s) && p in s.drivers && (!isNew ==> d in s.devices)
    requires AddedDevice(s, t, p, o, d, isNew)
    ensures DevicesIndexed(t) && DriversIndexed(t)
  {}

  lemma InTableIffReferenced(m: map<Address, Address>, p: Address)
    ensures p in m.Values <==> Refs(m, p) > 0
  {
    if p in m.Values {
      var k :| k in m && m[k] == p;
      RefsPositive(m, k);
    } else {
      assert Holders(m, p) == {};
    }
  }

  /** An address no record has: the allocator. */
  method FreshAddress(used: set<Address>) returns (p: Address)
    ensures p !in used
  {
    ghost var rest := used;
    p := 0;
    while p in used
      invariant rest <= used && forall q :: q in used && q >= p ==> q in rest
      decreases rest
    {
      rest := rest - {p};
      p := p + 1;
    }
  }
}
