/** Traffic totals on four nested levels, kept by in-place updates (client/src/lib.rs). */
module Traffic {
  import opened Basics

  datatype Dir = Rx | Tx

  datatype Traffic = Traffic(rx: u64, tx: u64) {
    function Get(dir: Dir): u64 { if dir.Rx? then rx else tx }

    function Plus(other: Traffic): Traffic
    {
      Traffic((rx + other.rx) % U64, (tx + other.tx) % U64)
    }
  }

  const NOTHING := Traffic(0, 0)

  datatype Device = Device(traffic: Traffic, times: map<nat, Traffic>) {
    function Add(time: nat, t: Traffic): Device
    {
      Device(traffic.Plus(t), times[time := t])
    }
  }

  const NO_DEVICE := Device(NOTHING, map[])

  datatype Network = Network(traffic: Traffic, devices: map<Pubkey, Device>) {
    function At(device: Pubkey): Device { if device in devices then devices[device] else NO_DEVICE }

    function Add(device: Pubkey, time: nat, t: Traffic): Network
    {
      Network(traffic.Plus(t), devices[device := At(device).Add(time, t)])
    }
  }

  const NO_NETWORK := Network(NOTHING, map[])

  datatype Info = Info(startTime: nat, stopTime: nat, traffic: Traffic, networks: map<Pubkey, Network>) {
    function At(network: Pubkey): Network { if network in networks then networks[network] else NO_NETWORK }

    function Add(network: Pubkey, device: Pubkey, time: nat, t: Traffic): Info
    {
      Info(startTime, if stopTime < time then time else stopTime, traffic.Plus(t),
           networks[network := At(network).Add(device, time, t)])
    }
  }

  function New(startTime: nat): Info { Info(startTime, startTime, NOTHING, map[]) }

  // Each level is updated in place by its own method; the value that a map holds is taken out, updated, put back.
  class DeviceTraffic {
    var traffic: Traffic
    var times: map<nat, Traffic>

    function Value(): Device
      reads this
    {
      Device(traffic, times)
    }

    constructor (d: Device)
      ensures Value() == d
    {
      traffic, times := d.traffic, d.times;
    }

    method Add(time: nat, t: Traffic)
      modifies this
      ensures Value() == old(Value()).Add(time, t)
    {
      traffic := traffic.Plus(t);
      times := times[time := t];
    }
  }

  class NetworkTraffic {
    var traffic: Traffic
    var devices: map<Pubkey, Device>

    function Value(): Network
      reads this
    {
      Network(traffic, devices)
    }

    constructor (n: Network)
      ensures Value() == n
    {
      traffic, devices := n.traffic, n.devices;
    }

    method Add(device: Pubkey, time: nat, t: Traffic)
      modifies this
      ensures Value() == old(Value()).Add(device, time, t)
    {
      traffic := traffic.Plus(t);
      var entry := new DeviceTraffic(if device in devices then devices[device] else NO_DEVICE);
      entry.Add(time, t);
      devices := devices[device := entry.Value()];
    }
  }

  class TrafficInfo {
    const startTime: nat
    var stopTime: nat
    var traffic: Traffic
    var networks: map<Pubkey, Network>

    function Value(): Info
      reads this
    {
      Info(startTime, stopTime, traffic, networks)
    }

    constructor (startTime: nat)
      ensures Value() == New(startTime)
    {
      this.startTime, stopTime, traffic, networks := startTime, startTime, NOTHING, map[];
    }

    method Add(network: Pubkey, device: Pubkey, time: nat, t: Traffic)
      modifies this
      ensures Value() == old(Value()).Add(network, device, time, t)
    {
      traffic := traffic.Plus(t);
      var entry := new NetworkTraffic(if network in networks then networks[network] else NO_NETWORK);
      if stopTime < time { stopTime := time; }
      entry.Add(device, time, t);
      networks := networks[network := entry.Value()];
    }
  }

  /*** What a sequence of `Add` calls has recorded. ***/

  datatype Item = Item(network: Pubkey, device: Pubkey, time: nat, traffic: Traffic)

  function Record(startTime: nat, items: seq<Item>): Info
  {
    if items == [] then New(startTime)
    else
      var last := items[|items| - 1];
      Record(startTime, items[..|items| - 1]).Add(last.network, last.device, last.time, last.traffic)
  }

  // The totals of the entries of a level, per key.
  ghost function NetworkTotals(info: Info, dir: Dir): map<Pubkey, nat>
  {
    map n | n in info.networks :: info.networks[n].traffic.Get(dir)
  }

  ghost function DeviceTotals(network: Network, dir: Dir): map<Pubkey, nat>
  {
    map d | d in network.devices :: network.devices[d].traffic.Get(dir)
  }

  ghost function TimeTotals(device: Device, dir: Dir): map<nat, nat>
  {
    map t | t in device.times :: device.times[t].Get(dir)
  }

  ghost predicate NetworkBalanced(network: Network, dir: Dir)
  {
    network.traffic.Get(dir) == Sum(DeviceTotals(network, dir)) % U64
  }

  ghost predicate TotalBalanced(info: Info, dir: Dir)
  {
    info.traffic.Get(dir) == Sum(NetworkTotals(info, dir)) % U64
  }

  /** Each total is the sum of the totals one level below, modulo the word size. */
  ghost predicate Balanced(info: Info, dir: Dir)
  {
    && TotalBalanced(info, dir)
    && forall n | n in info.networks :: NetworkBalanced(info.networks[n], dir)
  }

  function Wrapped(a: nat, b: nat): nat { (a + b) % U64 }

  lemma PlusWraps(a: Traffic, b: Traffic, dir: Dir)
    ensures a.Plus(b).Get(dir) == Wrapped(a.Get(dir), b.Get(dir))
  {
  }

  lemma DeviceTotalsAdd(network: Network, device: Pubkey, time: nat, t: Traffic, dir: Dir)
    ensures DeviceTotals(network.Add(device, time, t), dir)
         == DeviceTotals(network, dir)[device := Wrapped(network.At(device).traffic.Get(dir), t.Get(dir))]
  {
  }

  lemma NetworkTotalsAdd(info: Info, network: Pubkey, device: Pubkey, time: nat, t: Traffic, dir: Dir)
    ensures NetworkTotals(info.Add(network, device, time, t), dir)
         == NetworkTotals(info, dir)[network := Wrapped(info.At(network).traffic.Get(dir), t.Get(dir))]
  {
  }

  // What an addition does to a network's total and to the sum one level below.
  lemma NetworkAddFigures(network: Network, device: Pubkey, time: nat, t: Traffic, dir: Dir)
    ensures network.Add(device, time, t).traffic.Get(dir) == Wrapped(network.traffic.Get(dir), t.Get(dir))
    ensures Sum(DeviceTotals(network.Add(device, time, t), dir)) % U64 == Wrapped(Sum(DeviceTotals(network, dir)) % U64, t.Get(dir))
  {
    PlusWraps(network.traffic, t, dir);
    DeviceTotalsAdd(network, device, time, t, dir);
    LevelAdds(DeviceTotals(network, dir), device, network.At(device).traffic.Get(dir), t.Get(dir));
  }

  lemma NetworkAddBalanced(network: Network, device: Pubkey, time: nat, t: Traffic, dir: Dir)
    requires NetworkBalanced(network, dir)
    ensures NetworkBalanced(network.Add(device, time, t), dir)
  {
    NetworkAddFigures(network, device, time, t, dir);
  }

  lemma TotalAddFigures(info: Info, network: Pubkey, device: Pubkey, time: nat, t: Traffic, dir: Dir)
    ensures info.Add(network, device, time, t).traffic.Get(dir) == Wrapped(info.traffic.Get(dir), t.Get(dir))
    ensures Sum(NetworkTotals(info.Add(network, device, time, t), dir)) % U64 == Wrapped(Sum(NetworkTotals(info, dir)) % U64, t.Get(dir))
  {
    PlusWraps(info.traffic, t, dir);
    NetworkTotalsAdd(info, network, device, time, t, dir);
    LevelAdds(NetworkTotals(info, dir), network, info.At(network).traffic.Get(dir), t.Get(dir));
  }

  lemma TotalAddBalanced(info: Info, network: Pubkey, device: Pubkey, time: nat, t: Traffic, dir: Dir)
    requires TotalBalanced(info, dir)
    ensures TotalBalanced(info.Add(network, device, time, t), dir)
  {
    TotalAddFigures(info, network, device, time, t, dir);
  }

  lemma AddBalanced(info: Info, network: Pubkey, device: Pubkey, time: nat, t: Traffic, dir: Dir)
    requires Balanced(info, dir)
    ensures Balanced(info.Add(network, device, time, t), dir)
  {
    EmptyBalanced(dir);
    NetworkAddBalanced(info.At(network), device, time, t, dir);
    TotalAddBalanced(info, network, device, time, t, dir);
  }

  lemma EmptyBalanced(dir: Dir)
    ensures NetworkBalanced(NO_NETWORK, dir)
  {
    assert DeviceTotals(NO_NETWORK, dir) == map[];
  }

  lemma LevelAdds(totals: map<Pubkey, nat>, key: Pubkey, part: nat, x: nat)
    requires part == if key in totals then totals[key] else 0
    ensures Sum(totals[key := Wrapped(part, x)]) % U64 == Wrapped(Sum(totals) % U64, x)
  {
    SumUpdated(totals, key, (part + x) % U64);
    AddModulo(Sum(totals), part, x);
  }

  // Adding x to one summand modulo the word size adds x to the sum modulo the word size.
  lemma AddModulo(sum: nat, part: nat, x: nat)
    ensures (sum % U64 + x) % U64 == (sum + (part + x) % U64 - part) % U64
  {
    ModuloShift(sum + x, (part + x) / U64);
    ModuloShift(sum % U64 + x, -(sum / U64));
  }

  lemma ModuloShift(a: int, q: int)
    ensures (a - q * U64) % U64 == a % U64
  {
  }

  /** After any sequence of additions the three upper levels agree. */
  lemma {:induction false} RecordBalanced(startTime: nat, items: seq<Item>, dir: Dir)
    ensures Balanced(Record(startTime, items), dir)
  {
    if items == [] {
      assert TotalBalanced(New(startTime), dir) by { assert NetworkTotals(New(startTime), dir) == map[]; }
    } else {
      var last := items[|items| - 1];
      RecordBalanced(startTime, items[..|items| - 1], dir);
      AddBalanced(Record(startTime, items[..|items| - 1]), last.network, last.device, last.time, last.traffic, dir);
    }
  }

  // The items of one device.
  function Of(items: seq<Item>, network: Pubkey, device: Pubkey): seq<Item>
  {
    if items == [] then []
    else
      var last := items[|items| - 1];
      var rest := Of(items[..|items| - 1], network, device);
      if last.network == network && last.device == device then rest + [last] else rest
  }

  function DeviceRecord(items: seq<Item>): Device
  {
    if items == [] then NO_DEVICE
    else
      var last := items[|items| - 1];
      DeviceRecord(items[..|items| - 1]).Add(last.time, last.traffic)
  }

  /** One device's record depends on its own items only. */
  lemma {:induction false} RecordOfDevice(startTime: nat, items: seq<Item>, network: Pubkey, device: Pubkey)
    ensures Record(startTime, items).At(network).At(device) == DeviceRecord(Of(items, network, device))
    ensures device in Record(startTime, items).At(network).devices <==> Of(items, network, device) != []
  {
    if items != [] {
      RecordOfDevice(startTime, items[..|items| - 1], network, device);
      var rest := Of(items[..|items| - 1], network, device);
      var last := items[|items| - 1];
      assert (rest + [last])[..|rest|] == rest;
    }
  }

  function Total(items: seq<Item>, dir: Dir): nat
  {
    if items == [] then 0 else Total(items[..|items| - 1], dir) + items[|items| - 1].traffic.Get(dir)
  }

  /** The traffic whose time entry was replaced by a later one with the same timestamp. */
  function Overwritten(items: seq<Item>, dir: Dir): nat
  {
    if items == [] then 0
    else
      var last := items[|items| - 1];
      var before := DeviceRecord(items[..|items| - 1]);
      Overwritten(items[..|items| - 1], dir)
        + if last.time in before.times then before.times[last.time].Get(dir) else 0
  }

  // One more entry, in place of one with the same timestamp if there is one.
  lemma AddTime(device: Device, time: nat, t: Traffic, dir: Dir)
    ensures Sum(TimeTotals(device.Add(time, t), dir)) + (if time in device.times then device.times[time].Get(dir) else 0)
      == Sum(TimeTotals(device, dir)) + t.Get(dir)
  {
    assert TimeTotals(device.Add(time, t), dir) == TimeTotals(device, dir)[time := t.Get(dir)];
    SumUpdated(TimeTotals(device, dir), time, t.Get(dir));
  }

  lemma AddWrapped(total: nat, x: nat)
    ensures Wrapped(total % U64, x) == (total + x) % U64
  {
    ModuloShift(total + x, total / U64);
  }

  lemma {:induction false} DeviceWraps(items: seq<Item>, dir: Dir)
    ensures DeviceRecord(items).traffic.Get(dir) == Total(items, dir) % U64
  {
    if items != [] {
      var init, last := items[..|items| - 1], items[|items| - 1];
      DeviceWraps(init, dir);
      PlusWraps(DeviceRecord(init).traffic, last.traffic, dir);
      AddWrapped(Total(init, dir), last.traffic.Get(dir));
    }
  }

  lemma {:induction false} DeviceSums(items: seq<Item>, dir: Dir)
    ensures Total(items, dir) == Sum(TimeTotals(DeviceRecord(items), dir)) + Overwritten(items, dir)
  {
    if items == [] {
      assert TimeTotals(NO_DEVICE, dir) == map[];
    } else {
      var init, last := items[..|items| - 1], items[|items| - 1];
      DeviceSums(init, dir);
      AddTime(DeviceRecord(init), last.time, last.traffic, dir);
    }
  }

  /** Exact account of one device: what was added is what the time entries hold plus what was overwritten. */
  lemma DeviceAccount(items: seq<Item>, dir: Dir)
    ensures DeviceRecord(items).traffic.Get(dir) == Total(items, dir) % U64
    ensures Total(items, dir) == Sum(TimeTotals(DeviceRecord(items), dir)) + Overwritten(items, dir)
  {
    DeviceWraps(items, dir);
    DeviceSums(items, dir);
  }

  lemma NotWrapped(total: nat)
    requires total < U64
    ensures total % U64 == total
  {
  }

  lemma OwnBoundsTimes(own: seq<Item>, dir: Dir)
    requires Total(own, dir) < U64
    ensures var d := DeviceRecord(own);
      && d.traffic.Get(dir) == Total(own, dir)
      && d.traffic.Get(dir) == Sum(TimeTotals(d, dir)) + Overwritten(own, dir)
  {
    DeviceAccount(own, dir);
    NotWrapped(Total(own, dir));
  }

  /** A device total bounds the sum of its time entries as long as it has not wrapped, and equals it
      exactly when no recorded traffic was overwritten. */
  lemma DeviceBoundsTimes(startTime: nat, items: seq<Item>, network: Pubkey, device: Pubkey, dir: Dir)
    requires Total(Of(items, network, device), dir) < U64
    ensures var d := Record(startTime, items).At(network).At(device);
      && d.traffic.Get(dir) == Total(Of(items, network, device), dir)
      && d.traffic.Get(dir) >= Sum(TimeTotals(d, dir))
      && (d.traffic.Get(dir) == Sum(TimeTotals(d, dir)) <==> Overwritten(Of(items, network, device), dir) == 0)
  {
    RecordOfDevice(startTime, items, network, device);
    OwnBoundsTimes(Of(items, network, device), dir);
  }

  /*** Time bounds ***/

  ghost predicate HasTime(info: Info, network: Pubkey, device: Pubkey, time: nat)
  {
    time in info.At(network).At(device).times
  }

  /** The end of the slice is the latest of its start and every time entry of every device. */
  ghost predicate StopIsLatest(info: Info)
  {
    && info.startTime <= info.stopTime
    && (forall n: Pubkey, d: Pubkey, time: nat | HasTime(info, n, d, time) :: time <= info.stopTime)
    && (info.stopTime == info.startTime || exists n: Pubkey, d: Pubkey :: HasTime(info, n, d, info.stopTime))
  }

  lemma {:induction false} RecordStopIsLatest(startTime: nat, items: seq<Item>)
    ensures StopIsLatest(Record(startTime, items))
    ensures Record(startTime, items).startTime == startTime
  {
    if items != [] {
      var last := items[|items| - 1];
      var info := Record(startTime, items[..|items| - 1]);
      var next := Record(startTime, items);
      RecordStopIsLatest(startTime, items[..|items| - 1]);
      forall n: Pubkey, d: Pubkey, time: nat | HasTime(next, n, d, time)
        ensures time <= next.stopTime
      {
        assert HasTime(info, n, d, time) || time == last.time;
      }
      if next.stopTime == last.time {
        assert HasTime(next, last.network, last.device, next.stopTime);
      } else if next.stopTime != startTime {
        var n: Pubkey, d: Pubkey :| HasTime(info, n, d, info.stopTime);
        assert HasTime(next, n, d, next.stopTime);
      }
    }
  }
}
