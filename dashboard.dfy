/** The layout mutation primitive of the dashboard: merge a partial record into
    every device with a given id, rebuilding the room/device tree around it. */
module Dashboard {
  import opened Types

  /** Object spread `{ ...device, ...updates }`: each field present in the
      update wins, every other field keeps the device's value. */
  function Merge(d: Device, u: DeviceUpdate): (r: Device)
    ensures u.IsEmpty() ==> r == d
    ensures (u.id.Some? ==> r.id == u.id.value) && (u.id.None? ==> r.id == d.id)
    ensures (u.name.Some? ==> r.name == u.name.value) && (u.name.None? ==> r.name == d.name)
    ensures (u.deviceType.Some? ==> r.deviceType == u.deviceType.value)
      && (u.deviceType.None? ==> r.deviceType == d.deviceType)
    ensures (u.state.Some? ==> r.state == u.state.value) && (u.state.None? ==> r.state == d.state)
    ensures (u.brightness.Some? ==> r.brightness == u.brightness) && (u.brightness.None? ==> r.brightness == d.brightness)
    ensures (u.color.Some? ==> r.color == u.color) && (u.color.None? ==> r.color == d.color)
  {
    Device(
      u.id.GetOr(d.id),
      u.name.GetOr(d.name),
      u.deviceType.GetOr(d.deviceType),
      u.state.GetOr(d.state),
      if u.brightness.Some? then u.brightness else d.brightness,
      if u.color.Some? then u.color else d.color)
  }

  /** The inner `map` over one room's devices. */
  function UpdateDevices(ds: seq<Device>, deviceId: string, updates: DeviceUpdate): (r: seq<Device>)
    ensures |r| == |ds|
    ensures forall j :: 0 <= j < |ds| && ds[j].id == deviceId ==> r[j] == Merge(ds[j], updates)
    ensures forall j :: 0 <= j < |ds| && ds[j].id != deviceId ==> r[j] == ds[j]
  {
    if ds == [] then []
    else
      var head := if ds[0].id == deviceId then Merge(ds[0], updates) else ds[0];
      [head] + UpdateDevices(ds[1..], deviceId, updates)
  }

  /** The outer `map` over the rooms: only each room's device list is rebuilt. */
  function UpdateRooms(rooms: seq<Room>, deviceId: string, updates: DeviceUpdate): (r: seq<Room>)
    ensures |r| == |rooms|
    ensures forall i :: 0 <= i < |rooms| ==>
      r[i] == rooms[i].(devices := UpdateDevices(rooms[i].devices, deviceId, updates))
  {
    if rooms == [] then []
    else
      [rooms[0].(devices := UpdateDevices(rooms[0].devices, deviceId, updates))]
      + UpdateRooms(rooms[1..], deviceId, updates)
  }

  /** The state updater passed to `setHomeLayout`: a missing layout stays
      missing, otherwise the rooms are rebuilt with the update merged in. */
  function HandleDeviceUpdate(prevLayout: Option<HomeLayout>, deviceId: string, updates: DeviceUpdate)
    : (r: Option<HomeLayout>)
    ensures r.None? <==> prevLayout.None?
    ensures r.Some? ==> |r.value.rooms| == |prevLayout.value.rooms|
  {
    match prevLayout
    case None => None
    case Some(layout) => Some(layout.(rooms := UpdateRooms(layout.rooms, deviceId, updates)))
  }

  /** Some device of the layout carries the id. */
  predicate HasDevice(layout: HomeLayout, deviceId: string) {
    exists i, j :: 0 <= i < |layout.rooms| && 0 <= j < |layout.rooms[i].devices|
      && layout.rooms[i].devices[j].id == deviceId
  }

  /** The device at room `i`, slot `j` after the update: when its id is the
      target, each field present in `updates` is overwritten and every absent
      field is kept; when it is not, the device is unchanged. The room keeps
      its name, grid placement and number of devices. */
  lemma UpdatedDevice(layout: HomeLayout, deviceId: string, updates: DeviceUpdate, i: int, j: int)
    requires 0 <= i < |layout.rooms| && 0 <= j < |layout.rooms[i].devices|
    ensures var r := HandleDeviceUpdate(Some(layout), deviceId, updates).value;
      var before := layout.rooms[i].devices[j];
      && |r.rooms| == |layout.rooms|
      && r.rooms[i].name == layout.rooms[i].name
      && r.rooms[i].gridPosition == layout.rooms[i].gridPosition
      && r.rooms[i].gridSpan == layout.rooms[i].gridSpan
      && |r.rooms[i].devices| == |layout.rooms[i].devices|
      && var after := r.rooms[i].devices[j];
      && (before.id != deviceId ==> after == before)
      && (before.id == deviceId ==>
            && after.id == (if updates.id.Some? then updates.id.value else before.id)
            && after.name == (if updates.name.Some? then updates.name.value else before.name)
            && after.deviceType == (if updates.deviceType.Some? then updates.deviceType.value else before.deviceType)
            && after.state == (if updates.state.Some? then updates.state.value else before.state)
            && after.brightness == (if updates.brightness.Some? then updates.brightness else before.brightness)
            && after.color == (if updates.color.Some? then updates.color else before.color))
  {
  }

  /** An id that no device carries leaves the layout exactly as it was. */
  lemma {:induction false} UnknownIdLeavesLayout(layout: HomeLayout, deviceId: string, updates: DeviceUpdate)
    requires !HasDevice(layout, deviceId)
    ensures HandleDeviceUpdate(Some(layout), deviceId, updates) == Some(layout)
  {
    var rooms := UpdateRooms(layout.rooms, deviceId, updates);
    forall i | 0 <= i < |layout.rooms|
      ensures rooms[i] == layout.rooms[i]
    {
      var ds := layout.rooms[i].devices;
      assert UpdateDevices(ds, deviceId, updates) == ds by {
        forall j | 0 <= j < |ds| ensures ds[j].id != deviceId {
          assert ds[j] == layout.rooms[i].devices[j];
        }
      }
    }
    assert rooms == layout.rooms;
  }

  /** Merging a record a second time changes nothing. */
  lemma MergeIdempotent(d: Device, u: DeviceUpdate)
    ensures Merge(Merge(d, u), u) == Merge(d, u)
  {
  }

  /** Applying the same update twice gives the layout that applying it once
      gives, including when the update rewrites the id itself. */
  lemma UpdateIdempotent(prevLayout: Option<HomeLayout>, deviceId: string, updates: DeviceUpdate)
    ensures var once := HandleDeviceUpdate(prevLayout, deviceId, updates);
      HandleDeviceUpdate(once, deviceId, updates) == once
  {
    if prevLayout.Some? {
      var rooms := prevLayout.value.rooms;
      var once := UpdateRooms(rooms, deviceId, updates);
      var twice := UpdateRooms(once, deviceId, updates);
      forall i | 0 <= i < |rooms|
        ensures twice[i] == once[i]
      {
        var ds := once[i].devices;
        forall j | 0 <= j < |ds|
          ensures UpdateDevices(ds, deviceId, updates)[j] == ds[j]
        {
          if ds[j].id == deviceId {
            MergeIdempotent(rooms[i].devices[j], updates);
          }
        }
        assert UpdateDevices(ds, deviceId, updates) == ds;
      }
      assert twice == once;
    }
  }
}
