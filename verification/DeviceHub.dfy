/**
 * The table of device connections in hub.go: registering and removing, the devices they make up, and the connection that
 * a call is sent to. Connections are kept by connection id and walked in an arbitrary order, as Go walks a map.
 */
module DeviceHub {
  import opened Wrappers
  import Sorting

  // `serial` tells connection objects apart; the rest is the attachment.
  datatype Conn = Conn(serial: nat, connectionID: string, deviceID: string, channel: string, connectedAt: int,
                       hostname: string, platform: string, authenticated: bool)

  type Table = map<string, Conn>

  ghost predicate ById(conns: Table) {
    forall id :: id in conns ==> conns[id].connectionID == id
  }

  // ------------------------------------------------------------------ dispatch priority

  function ChannelRank(channel: string): int {
    if channel == "cli" then 0
    else if channel == "cli-dev" then 1
    else if channel == "desktop" then 2
    else if channel == "desktop-dev" then 3
    else 4
  }

  function ByDispatchPriority(a: Conn, b: Conn): int {
    var byChannel := ChannelRank(a.channel) - ChannelRank(b.channel);
    if byChannel != 0 then byChannel
    else if a.connectedAt > b.connectedAt then -1
    else if a.connectedAt < b.connectedAt then 1
    else 0
  }

  predicate Preferred(a: Conn, b: Conn) {
    ByDispatchPriority(a, b) < 0
  }

  predicate Matches(c: Conn, deviceID: string) {
    c.authenticated && (deviceID == "" || c.deviceID == deviceID)
  }

  // A connection to which a call for `deviceID` may be sent first: no matching one has a better channel, or the same
  // channel and a later connection time.
  ghost predicate BestTarget(conns: Table, deviceID: string, c: Conn) {
    && (exists id :: id in conns && conns[id] == c)
    && Matches(c, deviceID)
    && forall id :: id in conns && Matches(conns[id], deviceID) ==> !Preferred(conns[id], c)
  }

  // In plain terms: a command line connection before a development one, then the desktop, then its development version,
  // then any other; and of one channel, or of two unknown ones, the latest.
  lemma BestTargetMeans(conns: Table, deviceID: string, c: Conn, id: string)
    requires BestTarget(conns, deviceID, c)
    requires id in conns && conns[id].authenticated && (deviceID == "" || conns[id].deviceID == deviceID)
    ensures c.authenticated && (deviceID == "" || c.deviceID == deviceID)
    ensures var d := conns[id];
      && (d.channel == "cli" ==> c.channel == "cli")
      && (d.channel == "cli-dev" ==> c.channel in {"cli", "cli-dev"})
      && (d.channel == "desktop" ==> c.channel in {"cli", "cli-dev", "desktop"})
      && (d.channel == "desktop-dev" ==> c.channel in {"cli", "cli-dev", "desktop", "desktop-dev"})
      && (d.channel == c.channel ==> d.connectedAt <= c.connectedAt)
      && (d.channel !in KNOWN_CHANNELS && c.channel !in KNOWN_CHANNELS ==> d.connectedAt <= c.connectedAt)
  {
    var d := conns[id];
    assert Matches(d, deviceID) && !Preferred(d, c);
    assert ByDispatchPriority(d, c) >= 0;
  }

  const KNOWN_CHANNELS: set<string> := {"cli", "cli-dev", "desktop", "desktop-dev"}

  // ------------------------------------------------------------------ devices

  datatype Channel = Channel(name: string, connectedAt: int, connectionID: string)

  datatype Device = Device(channels: seq<Channel>, connectedAt: int, deviceID: string, hostname: string, platform: string)

  function ChannelOf(c: Conn): Channel {
    Channel(c.channel, c.connectedAt, c.connectionID)
  }

  predicate NewerChannel(a: Channel, b: Channel) {
    a.connectedAt > b.connectedAt
  }

  predicate NewerDevice(a: Device, b: Device) {
    a.connectedAt > b.connectedAt
  }

  // The connection under `id` has been visited and belongs to the device.
  predicate Member(conns: Table, seen: set<string>, id: string, deviceID: string) {
    id in seen && id in conns && conns[id].authenticated && conns[id].deviceID == deviceID
  }

  // The channels are those of the device's connections, each once.
  ghost predicate ListsChannels(conns: Table, seen: set<string>, d: Device) {
    && Sorting.Distinct(d.channels)
    && forall ch :: ch in d.channels <==> Member(conns, seen, ch.connectionID, d.deviceID) && ch == ChannelOf(conns[ch.connectionID])
  }

  // The device's time is the latest of its connections', and its host and platform are those of a connection of that time.
  ghost predicate NamedByLatest(conns: Table, seen: set<string>, d: Device) {
    && (forall id :: Member(conns, seen, id, d.deviceID) ==> conns[id].connectedAt <= d.connectedAt)
    && (exists id :: Member(conns, seen, id, d.deviceID) && Names(conns[id], d))
  }

  predicate Names(c: Conn, d: Device) {
    c.connectedAt == d.connectedAt && c.hostname == d.hostname && c.platform == d.platform
  }

  ghost predicate Summary(conns: Table, seen: set<string>, d: Device) {
    ListsChannels(conns, seen, d) && NamedByLatest(conns, seen, d)
  }

  ghost predicate Grouped(conns: Table, seen: set<string>, byDevice: map<string, Device>) {
    && (forall id :: id in seen && id in conns && conns[id].authenticated ==> conns[id].deviceID in byDevice)
    && (forall k :: k in byDevice ==> byDevice[k].deviceID == k && Summary(conns, seen, byDevice[k]))
  }

  function DeviceIDs(conns: Table): set<string> {
    set id | id in conns && conns[id].authenticated :: conns[id].deviceID
  }

  ghost predicate DistinctDevices(devices: seq<Device>) {
    forall i, j :: 0 <= i < j < |devices| ==> devices[i].deviceID != devices[j].deviceID
  }

  ghost predicate HasDevice(devices: seq<Device>, deviceID: string) {
    exists d :: d in devices && d.deviceID == deviceID
  }

  // A finished device entry.
  ghost predicate Complete(conns: Table, d: Device) {
    Summary(conns, conns.Keys, d) && Sorting.Sorted(d.channels, NewerChannel)
  }

  // What `devices` answers: the authenticated connections, partitioned by device, newest first.
  ghost predicate Inventory(conns: Table, devices: seq<Device>) {
    && DistinctDevices(devices)
    && (forall id :: id in conns && conns[id].authenticated ==> HasDevice(devices, conns[id].deviceID))
    && (forall d :: d in devices ==> Complete(conns, d))
    && Sorting.Sorted(devices, NewerDevice)
  }

  // Channel j of device i is that of the connection `id`.
  predicate Lists(devices: seq<Device>, i: nat, j: nat, id: string) {
    i < |devices| && j < |devices[i].channels| && devices[i].channels[j].connectionID == id
  }

  // The entry is of the connection's device, and shows its channel and its time of connecting.
  predicate DescribedIn(d: Device, ch: Channel, c: Conn) {
    d.deviceID == c.deviceID && ch.name == c.channel && ch.connectedAt == c.connectedAt
  }

  // Each authenticated connection is listed in exactly one device exactly once, and no other connection is listed.
  lemma Partition(conns: Table, devices: seq<Device>, id: string)
    requires ById(conns) && Inventory(conns, devices)
    ensures (exists i: nat, j: nat :: Lists(devices, i, j, id)) <==> id in conns && conns[id].authenticated
    ensures forall i: nat, j: nat, k: nat, l: nat :: Lists(devices, i, j, id) && Lists(devices, k, l, id) ==> i == k && j == l
    ensures forall i: nat, j: nat :: Lists(devices, i, j, id) ==> DescribedIn(devices[i], devices[i].channels[j], conns[id])
  {
    forall i: nat, j: nat | Lists(devices, i, j, id)
      ensures id in conns && conns[id].authenticated && devices[i].deviceID == conns[id].deviceID
      ensures devices[i].channels[j] == ChannelOf(conns[id])
    {
      ListedMember(conns, devices[i], j);
    }
    if id in conns && conns[id].authenticated {
      assert HasDevice(devices, conns[id].deviceID);
      var i :| 0 <= i < |devices| && devices[i].deviceID == conns[id].deviceID;
      var j := ListedSomewhere(conns, devices[i], id);
      assert Lists(devices, i, j, id);
    }
    forall i: nat, j: nat, k: nat, l: nat | Lists(devices, i, j, id) && Lists(devices, k, l, id) ensures i == k && j == l {
      if i == k { OnceListed(conns, devices[i], j, l); }
    }
  }

  lemma ListedMember(conns: Table, d: Device, j: nat)
    requires Complete(conns, d) && j < |d.channels|
    ensures var id := d.channels[j].connectionID;
      Member(conns, conns.Keys, id, d.deviceID) && d.channels[j] == ChannelOf(conns[id])
  {
    assert d.channels[j] in d.channels;
  }

  lemma ListedSomewhere(conns: Table, d: Device, id: string) returns (j: nat)
    requires ById(conns) && Complete(conns, d) && Member(conns, conns.Keys, id, d.deviceID)
    ensures j < |d.channels| && d.channels[j].connectionID == id
  {
    assert ChannelOf(conns[id]).connectionID == id;
    assert ChannelOf(conns[id]) in d.channels;
    j :| 0 <= j < |d.channels| && d.channels[j] == ChannelOf(conns[id]);
  }

  lemma OnceListed(conns: Table, d: Device, j: nat, l: nat)
    requires Complete(conns, d) && j < |d.channels| && l < |d.channels| && d.channels[j] == d.channels[l]
    ensures j == l
  {
  }

  // There are as many devices as `deviceCount` counts.
  lemma CountAgrees(conns: Table, devices: seq<Device>)
    requires Inventory(conns, devices)
    ensures |devices| == |DeviceIDs(conns)|
  {
    var ids := set d | d in devices :: d.deviceID;
    OneIdEach(devices);
    forall k | k in ids ensures k in DeviceIDs(conns) {
      var d :| d in devices && d.deviceID == k;
      assert Complete(conns, d);
      var id :| Member(conns, conns.Keys, id, k) && Names(conns[id], d);
    }
    forall k | k in DeviceIDs(conns) ensures k in ids {
      var id :| id in conns && conns[id].authenticated && conns[id].deviceID == k;
      assert HasDevice(devices, k);
    }
    assert ids == DeviceIDs(conns);
  }

  lemma {:induction false} OneIdEach(devices: seq<Device>)
    requires DistinctDevices(devices)
    ensures |set d | d in devices :: d.deviceID| == |devices|
  {
    if devices == [] {
    } else {
      var front, last := devices[..|devices| - 1], devices[|devices| - 1];
      OneIdEach(front);
      var ids := set d | d in front :: d.deviceID;
      assert devices == front + [last];
      assert last.deviceID !in ids;
      assert (set d | d in devices :: d.deviceID) == ids + {last.deviceID};
    }
  }

  // ------------------------------------------------------------------ grouping, one connection at a time

  // The device entry after one more connection.
  function Joined(byDevice: map<string, Device>, c: Conn): Device {
    if c.deviceID !in byDevice then Device([ChannelOf(c)], c.connectedAt, c.deviceID, c.hostname, c.platform)
    else
      var d := byDevice[c.deviceID];
      var channels := d.channels + [ChannelOf(c)];
      if c.connectedAt > d.connectedAt then Device(channels, c.connectedAt, d.deviceID, c.hostname, c.platform)
      else d.(channels := channels)
  }

  lemma JoinGroups(conns: Table, seen: set<string>, byDevice: map<string, Device>, id: string)
    requires ById(conns) && Grouped(conns, seen, byDevice) && id in conns && id !in seen
    ensures conns[id].authenticated
      ==> Grouped(conns, seen + {id}, byDevice[conns[id].deviceID := Joined(byDevice, conns[id])])
    ensures !conns[id].authenticated ==> Grouped(conns, seen + {id}, byDevice)
  {
    hide Summary;
    var c := conns[id];
    forall k | k in byDevice && !(c.authenticated && c.deviceID == k) ensures Summary(conns, seen + {id}, byDevice[k]) {
      SameSummary(conns, seen, byDevice[k], id);
    }
    if c.authenticated { JoinSummary(conns, seen, byDevice, id); }
  }

  lemma SameSummary(conns: Table, seen: set<string>, d: Device, id: string)
    requires Summary(conns, seen, d) && id in conns && !(conns[id].authenticated && conns[id].deviceID == d.deviceID)
    ensures Summary(conns, seen + {id}, d)
  {
    assert forall i :: Member(conns, seen + {id}, i, d.deviceID) <==> Member(conns, seen, i, d.deviceID);
  }

  lemma JoinSummary(conns: Table, seen: set<string>, byDevice: map<string, Device>, id: string)
    requires ById(conns) && Grouped(conns, seen, byDevice) && id in conns && id !in seen && conns[id].authenticated
    ensures Summary(conns, seen + {id}, Joined(byDevice, conns[id]))
  {
    var c := conns[id];
    var k, now := c.deviceID, seen + {id};
    assert forall i :: Member(conns, now, i, k) <==> Member(conns, seen, i, k) || i == id;
    var d := Joined(byDevice, c);
    if k in byDevice {
      var before := byDevice[k];
      assert ChannelOf(c) !in before.channels;
      var latest :| Member(conns, seen, latest, k) && Names(conns[latest], before);
      var name := if c.connectedAt > before.connectedAt then id else latest;
      assert Member(conns, now, name, k) && Names(conns[name], d);
    } else {
      assert forall i :: !Member(conns, seen, i, k);
      assert Member(conns, now, id, k) && Names(c, d);
    }
  }

  // ------------------------------------------------------------------ the hub

  class Hub {
    var connections: Table

    ghost predicate Valid()
      reads this
    {
      ById(connections)
    }

    constructor ()
      ensures Valid() && connections == map[]
    {
      connections := map[];
    }

    // A connection that was registered under the same id and is another object is to be closed.
    method Register(conn: Conn) returns (replaced: Option<Conn>)
      requires Valid()
      modifies this
      ensures Valid() && connections == old(connections)[conn.connectionID := conn]
      ensures replaced == (if conn.connectionID in old(connections) && old(connections)[conn.connectionID].serial != conn.serial
                           then Some(old(connections)[conn.connectionID]) else None)
    {
      var previous := if conn.connectionID in connections then Some(connections[conn.connectionID]) else None;
      connections := connections[conn.connectionID := conn];
      replaced := if previous.Some? && previous.value.serial != conn.serial then previous else None;
    }

    method Remove(conn: Conn)
      requires Valid()
      modifies this
      ensures Valid() && connections == Removed(old(connections), conn)
      ensures forall id :: id in connections <==>
        id in old(connections) && !(id == conn.connectionID && old(connections)[id].serial == conn.serial)
    {
      if conn.connectionID in connections && connections[conn.connectionID].serial == conn.serial {
        connections := connections - {conn.connectionID};
      }
    }

    method AuthenticatedConnections() returns (conns: seq<Conn>)
      requires Valid()
      ensures Sorting.Distinct(conns)
      ensures forall c :: c in conns <==> c.connectionID in connections && connections[c.connectionID] == c && c.authenticated
    {
      conns := [];
      var todo := connections.Keys;
      while todo != {}
        invariant todo <= connections.Keys && Sorting.Distinct(conns)
        invariant forall c :: c in conns <==>
          c.connectionID in connections.Keys - todo && connections[c.connectionID] == c && c.authenticated
        decreases |todo|
      {
        var id :| id in todo;
        todo := todo - {id};
        var conn := connections[id];
        if conn.authenticated {
          assert conn !in conns;
          conns := conns + [conn];
        }
      }
    }

    method DeviceCount() returns (n: nat)
      ensures n == |DeviceIDs(connections)|
    {
      var deviceIDs: set<string> := {};
      var todo := connections.Keys;
      while todo != {}
        invariant todo <= connections.Keys
        invariant deviceIDs == set id | id in connections.Keys - todo && connections[id].authenticated :: connections[id].deviceID
        decreases |todo|
      {
        var id :| id in todo;
        todo := todo - {id};
        if connections[id].authenticated { deviceIDs := deviceIDs + {connections[id].deviceID}; }
      }
      assert deviceIDs == DeviceIDs(connections);
      return |deviceIDs|;
    }

    method GroupByDevice() returns (byDevice: map<string, Device>)
      requires Valid()
      ensures Grouped(connections, connections.Keys, byDevice)
    {
      byDevice := map[];
      var todo := connections.Keys;
      while todo != {}
        invariant todo <= connections.Keys
        invariant Grouped(connections, connections.Keys - todo, byDevice)
        decreases |todo|
      {
        var id :| id in todo;
        JoinGroups(connections, connections.Keys - todo, byDevice, id);
        assert connections.Keys - (todo - {id}) == connections.Keys - todo + {id};
        todo := todo - {id};
        var conn := connections[id];
        if !conn.authenticated { continue; }
        var channel := Channel(conn.channel, conn.connectedAt, conn.connectionID);
        if conn.deviceID !in byDevice {
          byDevice := byDevice[conn.deviceID := Device([channel], conn.connectedAt, conn.deviceID, conn.hostname, conn.platform)];
          continue;
        }
        var device := byDevice[conn.deviceID];
        device := device.(channels := device.channels + [channel]);
        if conn.connectedAt > device.connectedAt {
          device := device.(connectedAt := conn.connectedAt, hostname := conn.hostname, platform := conn.platform);
        }
        byDevice := byDevice[conn.deviceID := device];
      }
      assert connections.Keys - todo == connections.Keys;
    }

    method Devices() returns (devices: seq<Device>)
      requires Valid()
      ensures Inventory(connections, devices)
    {
      hide Complete, Summary, HasDevice, Sorting.Stable, Sorting.Sorted, Sorting.Distinct;
      var byDevice := GroupByDevice();
      devices := [];
      var todo := byDevice.Keys;
      while todo != {}
        invariant todo <= byDevice.Keys && DistinctDevices(devices)
        invariant forall d :: d in devices ==> d.deviceID in byDevice.Keys - todo && Complete(connections, d)
        invariant forall k :: k in byDevice.Keys - todo ==> HasDevice(devices, k)
        decreases |todo|
      {
        var k :| k in todo;
        todo := todo - {k};
        var device := byDevice[k];
        SortedSummary(connections, device);
        device := device.(channels := Sorting.Stable(device.channels, NewerChannel));
        ghost var before := devices;
        devices := devices + [device];
        assert devices[|before|] == device;
        OneMoreDevice(before, device);
      }
      SortedInventory(connections, devices);
      devices := Sorting.Stable(devices, NewerDevice);
    }

    method Target(deviceID: string) returns (target: Option<Conn>)
      requires Valid()
      ensures target.None? <==> forall id :: id in connections ==> !Matches(connections[id], deviceID)
      ensures target.Some? ==> BestTarget(connections, deviceID, target.value)
    {
      var conns := AuthenticatedConnections();
      var candidates: seq<Conn> := [];
      var i := 0;
      while i < |conns|
        invariant 0 <= i <= |conns|
        invariant forall c :: c in candidates <==> c in conns[..i] && Matches(c, deviceID)
      {
        var conn := conns[i];
        assert conns[..i + 1] == conns[..i] + [conn];
        assert conn in conns;
        if deviceID == "" || conn.deviceID == deviceID { candidates := candidates + [conn]; }
        i := i + 1;
      }
      assert conns[..i] == conns;
      assert forall id :: id in connections && Matches(connections[id], deviceID) ==> connections[id] in candidates;
      if |candidates| == 0 { return None; }
      FirstIsBest(candidates);
      return Some(Sorting.Stable(candidates, Preferred)[0]);
    }
  }

  // A connection that was replaced under its id removes nothing.
  function Removed(conns: Table, conn: Conn): Table {
    if conn.connectionID in conns && conns[conn.connectionID].serial == conn.serial then conns - {conn.connectionID} else conns
  }

  lemma FirstIsBest(candidates: seq<Conn>)
    requires candidates != []
    ensures var sorted := Sorting.Stable(candidates, Preferred);
      |sorted| > 0 && sorted[0] in candidates && forall c :: c in candidates ==> !Preferred(c, sorted[0])
  {
    var sorted := Sorting.Stable(candidates, Preferred);
    Sorting.StableSorted(candidates, Preferred);
    Sorting.SameElements(candidates, Preferred);
    forall c | c in candidates ensures !Preferred(c, sorted[0]) {
      var i :| 0 <= i < |sorted| && sorted[i] == c;
    }
  }

  lemma OneMoreDevice(devices: seq<Device>, d: Device)
    ensures forall k :: HasDevice(devices + [d], k) <==> HasDevice(devices, k) || k == d.deviceID
    ensures forall e :: e in devices + [d] <==> e in devices || e == d
  {
    assert d in devices + [d];
    assert forall e :: e in devices ==> e in devices + [d];
  }

  lemma SortedSummary(conns: Table, d: Device)
    requires Summary(conns, conns.Keys, d)
    ensures Complete(conns, d.(channels := Sorting.Stable(d.channels, NewerChannel)))
  {
    hide Sorting.Stable;
    Sorting.StableSorted(d.channels, NewerChannel);
    Sorting.StableDistinct(d.channels, NewerChannel);
    Sorting.SameElements(d.channels, NewerChannel);
  }

  lemma SortedInventory(conns: Table, devices: seq<Device>)
    requires DistinctDevices(devices)
    requires forall id :: id in conns && conns[id].authenticated ==> HasDevice(devices, conns[id].deviceID)
    requires forall d :: d in devices ==> Complete(conns, d)
    ensures Inventory(conns, Sorting.Stable(devices, NewerDevice))
  {
    hide Sorting.Stable, Complete;
    var sorted := Sorting.Stable(devices, NewerDevice);
    Sorting.StableSorted(devices, NewerDevice);
    Sorting.SameElements(devices, NewerDevice);
    StillDistinct(devices);
    forall k | HasDevice(devices, k) ensures HasDevice(sorted, k) {
      var d :| d in devices && d.deviceID == k;
      assert d in sorted;
    }
  }

  lemma StillDistinct(devices: seq<Device>)
    requires DistinctDevices(devices)
    ensures DistinctDevices(Sorting.Stable(devices, NewerDevice))
  {
    hide Sorting.Stable;
    var sorted := Sorting.Stable(devices, NewerDevice);
    Sorting.StableDistinct(devices, NewerDevice);
    Sorting.SameElements(devices, NewerDevice);
    forall i, j | 0 <= i < j < |sorted| ensures sorted[i].deviceID != sorted[j].deviceID {
      assert sorted[i] in devices && sorted[j] in devices;
    }
  }
}
