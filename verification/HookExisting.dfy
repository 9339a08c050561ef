/** The device records made when a driver is hooked, one for each existing device: what the
    state looks like while they are created, put into the table, and given back. */
module HookExisting {
  import opened Basics
  import opened HookRecords

  /** SelectedDevices after the first k records are in it. */
  function TableOf(objects: seq<Address>, records: seq<Address>, k: nat): map<Address, Address>
    requires k <= |objects| && |records| == |objects|
  {
    if k == 0 then map[] else TableOf(objects, records, k - 1)[objects[k - 1] := records[k - 1]]
  }

  lemma {:induction false} TableHolds(objects: seq<Address>, records: seq<Address>, k: nat)
    requires k <= |objects| && |records| == |objects| && Distinct(objects)
    ensures forall o :: o in TableOf(objects, records, k) <==> o in objects[..k]
    ensures forall i :: 0 <= i < k ==>
      objects[i] in TableOf(objects, records, k) && TableOf(objects, records, k)[objects[i]] == records[i]
  {
    if k > 0 {
      TableHolds(objects, records, k - 1);
      assert objects[..k] == objects[..k - 1] + [objects[k - 1]];
    }
  }

  /** t is s with new device records of p: record i has counts[i] references (none: it is
      freed), the first `tabled` are in p's table, and the callers owe `owed`. */
  ghost predicate Grown(s: State, t: State, p: Address, objects: seq<Address>, records: seq<Address>,
                        counts: seq<nat>, tabled: nat, owed: multiset<Address>) {
    && |records| == |objects| == |counts| && tabled <= |records| && Distinct(records)
    && p in s.drivers && p in t.drivers && s.drivers[p].devices == map[]
    && (forall i :: 0 <= i < |records| ==> records[i] !in s.devices && s.validDevices[records[i]] == 0)
    && (forall i :: 0 <= i < |records| ==>
          if counts[i] == 0 then records[i] !in t.devices
          else records[i] in t.devices && t.devices[records[i]] == DeviceRecord(counts[i], p, objects[i], DriverHooked))
    && (forall d {:trigger d in s.devices} :: d in s.devices ==> d in t.devices && t.devices[d] == s.devices[d])
    && (forall d {:trigger d in t.devices} :: d in t.devices ==> d in s.devices || d in records)
    && t.drivers.Keys == s.drivers.Keys && (forall q :: q in s.drivers && q != p ==> t.drivers[q] == s.drivers[q])
    && t.drivers[p] == s.drivers[p].(refCount := t.drivers[p].refCount, devices := TableOf(objects, records, tabled))
    && t.driverTable == s.driverTable && t.validDrivers == s.validDrivers && t.validDevices == s.validDevices
    && t.driverHandles == s.driverHandles && t.deviceHandles == s.deviceHandles
    && t.driverBorrows == s.driverBorrows && t.deviceBorrows == s.deviceBorrows + owed
  }

  lemma {:induction false} TablePrefix(objects: seq<Address>, records: seq<Address>, o: Address, r: Address, k: nat)
    requires |records| == |objects| && k <= |objects|
    ensures TableOf(objects + [o], records + [r], k) == TableOf(objects, records, k)
  {
    if k > 0 { TablePrefix(objects, records, o, r, k - 1); }
  }

  lemma CreatedOne(s: State, t: State, p: Address, objects: seq<Address>, records: seq<Address>,
                   counts: seq<nat>, owed: multiset<Address>, d: Address, o: Address)
    requires Grown(s, t, p, objects, records, counts, 0, owed) && d !in t.devices && d !in s.devices
    requires s.validDevices[d] == 0
    requires forall i :: 0 <= i < |counts| ==> counts[i] > 0
    ensures Grown(s, NewDevice(t, d, p, o, DriverHooked), p, objects + [o], records + [d], counts + [1], 0, owed + multiset{d})
  {
    var u := NewDevice(t, d, p, o, DriverHooked);
    forall i | 0 <= i < |records| ensures records[i] in t.devices { assert counts[i] > 0; }
    assert TableOf(objects + [o], records + [d], 0) == map[];
  }

  lemma TabledOne(s: State, t: State, p: Address, objects: seq<Address>, records: seq<Address>,
                  counts: seq<nat>, k: nat, owed: multiset<Address>)
    requires Grown(s, t, p, objects, records, counts, k, owed) && k < |records| && counts[k] > 0
    ensures records[k] in t.devices && t.devices[records[k]].driver in t.drivers
    ensures var u := TableDevice(RefDevice(t, records[k]), records[k]);
      Grown(s, u, p, objects, records, counts[k := counts[k] + 1], k + 1, owed)
  {
    hide TableDevice, RefDevice, Distinct;
    var d := records[k];
    Unlike(records, k);
    assert t.devices[d] == DeviceRecord(counts[k], p, objects[k], DriverHooked);
    TabledFields(t, p, objects[k], d);
  }

  /** A reference to the device record goes into the driver record's table. */
  lemma TabledFields(t: State, p: Address, o: Address, d: Address)
    requires d in t.devices && t.devices[d].driver == p && t.devices[d].deviceObject == o && p in t.drivers
    ensures TableDevice(RefDevice(t, d), d) ==
      t.(devices := t.devices[d := t.devices[d].(refCount := t.devices[d].refCount + 1)],
         drivers := t.drivers[p := t.drivers[p].(devices := t.drivers[p].devices[o := d])])
  {
    PlusMinus(t.deviceBorrows, d);
  }

  lemma Unlike(records: seq<Address>, k: nat)
    requires Distinct(records) && k < |records|
    ensures forall i :: 0 <= i < |records| && i != k ==> records[i] != records[k]
  {}

  lemma FreedOne(s: State, t: State, p: Address, objects: seq<Address>, records: seq<Address>,
                 counts: seq<nat>, k: nat, tabled: nat, owed: multiset<Address>)
    requires Grown(s, t, p, objects, records, counts, tabled, owed) && k < |records| && counts[k] == 1
    requires owed[records[k]] > 0
    requires t.drivers[p].refCount > 1
    ensures Grown(s, UnrefDriver(FreeDevice(t, records[k]), p), p, objects, records, counts[k := 0], tabled,
                  owed - multiset{records[k]})
  {
    hide UnrefDriver, FreeDevice, TableOf, Distinct;
    var d := records[k];
    Unlike(records, k);
    assert t.devices[d] == DeviceRecord(counts[k], p, objects[k], DriverHooked);
    FreedFields(t, p, d);
    assert (s.deviceBorrows + owed) - multiset{d} == s.deviceBorrows + (owed - multiset{d});
    assert t.validDevices[d := 0] == t.validDevices;
  }

  /** A device record and its reference to the driver record go. */
  lemma FreedFields(t: State, p: Address, d: Address)
    requires d in t.devices && t.devices[d].driver == p && p in t.drivers && t.drivers[p].refCount > 1
    ensures UnrefDriver(FreeDevice(t, d), p) ==
      t.(devices := t.devices - {d}, validDevices := t.validDevices[d := 0], deviceBorrows := t.deviceBorrows - multiset{d},
         drivers := t.drivers[p := t.drivers[p].(refCount := t.drivers[p].refCount - 1)])
  {
    PlusMinus(t.driverBorrows, p);
  }

  lemma ReleasedOne(s: State, t: State, p: Address, objects: seq<Address>, records: seq<Address>,
                    counts: seq<nat>, k: nat, tabled: nat, owed: multiset<Address>)
    requires Grown(s, t, p, objects, records, counts, tabled, owed) && k < |records| && counts[k] > 0
    requires owed[records[k]] > 0
    requires t.drivers[p].refCount > 1
    ensures records[k] in t.devices && t.devices[records[k]].driver in t.drivers
    ensures Grown(s, UnrefDevice(t, records[k]), p, objects, records, counts[k := counts[k] - 1], tabled, owed - multiset{records[k]})
  {
    if counts[k] == 1 {
      FreedOne(s, t, p, objects, records, counts, k, tabled, owed);
    } else {
      assert (s.deviceBorrows + owed) - multiset{records[k]} == s.deviceBorrows + (owed - multiset{records[k]});
    }
  }
}
