/** The cloned devices: each controlling terminal has a scull device of its own, made at its first open. */
module CloneList {
  import opened Options
  import opened Spine
  import opened Scull
  import opened ScullIoctl
  import opened ScullRuns

  const EINVAL: int := -22
  const ENOMEM: int := -12

  class ListItem {
    const key: nat
    const device: ScullDev

    constructor (key: nat, device: ScullDev)
      ensures this.key == key && this.device == device
    {
      this.key, this.device := key, device;
    }
  }

  // The device that the list has for a terminal.
  function Lookup(list: seq<ListItem>, key: nat): ScullDev? {
    if list == [] then null
    else if list[0].key == key then list[0].device
    else Lookup(list[1..], key)
  }

  ghost predicate DistinctKeys(list: seq<ListItem>) {
    forall i, j :: 0 <= i < j < |list| ==> list[i].key != list[j].key
  }

  ghost predicate DistinctDevices(list: seq<ListItem>) {
    forall i, j :: 0 <= i < j < |list| ==> list[i].device != list[j].device
  }

  // With distinct keys, every item of the list is the one that its key finds.
  lemma {:induction false} LookupFinds(list: seq<ListItem>, i: nat)
    requires DistinctKeys(list) && i < |list|
    ensures Lookup(list, list[i].key) == list[i].device
  {
    if i > 0 {
      assert list[1..][i - 1] == list[i];
      LookupFinds(list[1..], i - 1);
    }
  }

  lemma {:induction false} LookupSound(list: seq<ListItem>, key: nat) returns (i: nat)
    requires Lookup(list, key) != null
    ensures i < |list| && list[i].key == key && list[i].device == Lookup(list, key)
  {
    if list[0].key == key {
      i := 0;
    } else {
      i := LookupSound(list[1..], key);
      i := i + 1;
    }
  }

  // Two terminals never share a device.
  lemma LookupApart(list: seq<ListItem>, k: nat, l: nat)
    requires DistinctDevices(list) && Lookup(list, k) != null && Lookup(list, k) == Lookup(list, l)
    ensures k == l
  {
    var i := LookupSound(list, k);
    var j := LookupSound(list, l);
    assert i == j;
  }

  lemma Prepend(list: seq<ListItem>, item: ListItem)
    requires DistinctKeys(list) && DistinctDevices(list) && Lookup(list, item.key) == null
    requires forall i :: 0 <= i < |list| ==> list[i].device != item.device
    ensures DistinctKeys([item] + list) && DistinctDevices([item] + list)
  {
    forall i | 0 <= i < |list|
      ensures list[i].key != item.key
    {
      LookupFinds(list, i);
    }
  }

  datatype Event = Open(tty: Option<nat>, wronly: bool, memory: bool) | Use(key: nat, op: Op) {
    predicate Concerns(k: nat) {
      if Open? then tty.Some? && tty.value == k else key == k
    }
  }

  class Clones {
    const mem: Allocator
    var list: seq<ListItem>               // newest first
    ghost var devices: set<ScullDev>
    ghost var owned: set<object>          // at least what the devices have allocated

    ghost predicate Listed()
      reads this
    {
      && DistinctKeys(list) && DistinctDevices(list)
      && forall i {:trigger list[i]} :: 0 <= i < |list| ==> list[i].device in devices
    }

    ghost predicate Apart()
      reads this, devices
    {
      && (forall d <- devices :: d.mem == mem && d.where.Keys <= owned)
      && (forall d <- devices, e <- devices :: d != e ==> d.where.Keys !! e.where.Keys)
    }

    ghost predicate Valid()
      reads this, mem, devices, owned
    {
      && Listed() && Apart()
      && (forall d <- devices :: d.Intact() && d.where.Keys <= mem.live)
    }

    constructor (mem: Allocator)
      ensures Valid() && list == [] && this.mem == mem
    {
      this.mem, list, devices, owned := mem, [], {}, {};
    }

    // What a device owns is items, arrays and blocks.
    lemma OwnStorageOnly(d: ScullDev, o: object)
      requires Valid() && d in devices && o in d.where
      ensures !(o is ScullDev) && !(o is Allocator) && !(o is Params) && !(o is Clones)
    {
      d.ValidIsIntact();
      assert InPlace(o, d.where[o], d.items, d.tables, d.blocks);
    }

    lemma ListApart()
      requires Valid()
      ensures forall d <- devices :: this !in d.where
    {
      forall d <- devices, o: object | o in d.where
        ensures o != this
      {
        OwnStorageOnly(d, o);
      }
    }

    // A new, empty device at the front of the list.
    method AddDevice(params: Params, key: nat) returns (dev: ScullDev)
      requires Valid() && params.Positive() && Lookup(list, key) == null
      modifies this`list, this`devices
      ensures Valid() && fresh(dev) && dev.where == map[] && View(dev) == Plain(map[], 0)
      ensures list != [] && list == [list[0]] + old(list) && list[0].key == key && list[0].device == dev
      ensures devices == old(devices) + {dev}
    {
      hide ScullDev.Intact, ScullDev.Valid;
      ListApart();
      dev := new ScullDev(mem, params.quantum, params.qset);
      var lptr := new ListItem(key, dev);
      Prepend(list, lptr);
      dev.ValidIsIntact();
      list := [lptr] + list;
      devices := devices + {dev};
    }

    // scull_c_lookfor_device: the first item with the key, or a new one.
    method LookforDevice(params: Params, key: nat, memory: bool) returns (dev: ScullDev?)
      requires Valid() && params.Positive()
      modifies this`list, this`devices
      ensures Valid() && dev == Lookup(list, key) && (dev != null ==> dev in devices)
      ensures dev == null <==> Lookup(old(list), key) == null && !memory
      ensures forall k :: k != key || Lookup(old(list), k) != null ==> Lookup(list, k) == Lookup(old(list), k)
      ensures if Lookup(old(list), key) == null && memory
              then list != [] && list[1..] == old(list)
                   && fresh(dev) && View(dev) == Plain(map[], 0) && dev.where == map[]
                   && devices == old(devices) + {dev}
              else list == old(list) && devices == old(devices)
    {
      dev := null;
      for i := 0 to |list|
        invariant Lookup(list, key) == Lookup(list[i..], key)
      {
        if list[i].key == key {
          return list[i].device;
        }
      }
      if memory {
        dev := AddDevice(params, key);
      }
    }

    // The devices other than one, with what they own.
    lemma OthersApart(dev: ScullDev, params: Params) returns (kept: set<object>)
      requires Valid() && dev in devices
      ensures forall d <- devices :: d != dev ==> d in kept && d.where.Keys <= kept
      ensures kept !! dev.where.Keys && kept !! {dev, mem, params}
    {
      forall d <- devices, o: object | o in d.where
        ensures !(o is ScullDev) && !(o is Allocator) && !(o is Params)
      {
        OwnStorageOnly(d, o);
      }
      kept := (owned - dev.where.Keys - {dev, mem, params}) + (devices - {dev});
    }

    // Any system call on one device leaves what is kept apart from it alone.
    method Apply(dev: ScullDev, params: Params, op: Op, ghost kept: set<object>) returns (out: Outcome)
      requires Ready(dev, params) && PositiveOp(op) && kept !! dev.where.Keys && kept !! {dev, dev.mem, params}
      modifies dev.mem, params, dev, dev.where.Keys
      ensures Ready(dev, params)
      ensures Fits(old(View(dev)), op, out) && View(dev) == After(old(View(dev)), op, out)
      ensures !op.Ioctl? ==> unchanged(params)
      ensures fresh(dev.where.Keys - old(dev.where.Keys))
      ensures unchanged(kept) && kept !! dev.where.Keys && kept * old(dev.mem.live) <= dev.mem.live
    {
      hide ScullDev.Valid;
      out := Perform(dev, params, op);
      KeptOwned(old(dev.mem.live), old(dev.where.Keys), kept, dev.where.Keys);
    }

    method Through(dev: ScullDev, params: Params, op: Op) returns (out: Outcome)
      requires Valid() && dev in devices && params.Positive() && PositiveOp(op)
      modifies this`owned, mem, params, dev, dev.where.Keys
      ensures Valid() && params.Positive() && fresh(owned - old(owned)) && unchanged(`list) && unchanged(`devices)
      ensures Fits(old(View(dev)), op, out) && View(dev) == After(old(View(dev)), op, out)
      ensures !op.Ioctl? ==> unchanged(params)
      ensures forall d <- devices :: d != dev ==> unchanged(d)
    {
      hide ScullDev.Intact, ScullDev.Valid;
      ListApart();
      ghost var kept := OthersApart(dev, params);
      dev.ValidIsIntact();
      out := Apply(dev, params, op, kept);
      owned := owned + dev.where.Keys;
      dev.ValidIsIntact();
    }

    // scull_c_open: without a controlling terminal there is no device; an open for writing trims
    // the terminal's own device and no other.
    method ScullCOpen(params: Params, tty: Option<nat>, wronly: bool, memory: bool)
        returns (result: int, dev: ScullDev?)
      requires Valid() && params.Positive()
      modifies this, mem, params, devices, owned
      ensures Valid() && unchanged(params)
      ensures result == if tty.None? then EINVAL
                        else if Lookup(old(list), tty.value) == null && !memory then ENOMEM else 0
      ensures result == 0 ==> dev != null && dev == Lookup(list, tty.value)
      ensures result == 0 && (wronly || Lookup(old(list), tty.value) == null) ==> View(dev) == Plain(map[], 0)
      ensures result == 0 ==> dev in devices
      ensures result != 0 ==> dev == null && list == old(list)
      ensures forall k :: (tty.None? || k != tty.value) || Lookup(old(list), k) != null ==>
        Lookup(list, k) == Lookup(old(list), k)
      ensures forall d <- old(devices) :: d != dev || !wronly ==> unchanged(d)
      ensures old(devices) <= devices && fresh(devices - old(devices)) && fresh(owned - old(owned))
    {
      hide ScullDev.Intact, Listed;
      dev := null;
      if tty.None? {
        return EINVAL, null;
      }
      dev := LookforDevice(params, tty.value, memory);
      if dev == null {
        return ENOMEM, null;
      }
      if wronly {
        var out := Through(dev, params, OpenForWrite);
      }
      result := 0;
    }

    // The store that each terminal sees.
    ghost predicate Holds(stores: map<nat, Plain>)
      reads this, devices
    {
      forall k: nat ::
        && (k in stores <==> Lookup(list, k) != null)
        && (k in stores ==> Lookup(list, k) in devices && View(Lookup(list, k)) == stores[k])
    }

    // A terminal that has a device keeps it, with nothing about it changed.
    twostate predicate Spared(key: nat)
      reads this, devices
    {
      old(Lookup(list, key)) != null ==>
        Lookup(list, key) == old(Lookup(list, key)) && Lookup(list, key) in devices && unchanged(Lookup(list, key))
    }

    // A call through the device that a terminal has.
    method Use(params: Params, key: nat, op: Op, ghost stores: map<nat, Plain>) returns (r: Result)
      requires Valid() && params.Positive() && PositiveOp(op) && Holds(stores)
      modifies this`owned, mem, params, devices, owned
      ensures Valid() && params.Positive() && fresh(owned - old(owned)) && unchanged(`list) && unchanged(`devices)
      ensures Allowed(stores, Event.Use(key, op), r) && Holds(Seen(stores, Event.Use(key, op), r))
      ensures forall k: nat :: k != key ==> Spared(k)
    {
      hide ScullDev.Intact, ScullDev.Valid;
      var dev := Lookup(list, key);
      r := NoDevice;
      if dev != null {
        forall k: nat | k != key && Lookup(list, k) != null
          ensures Lookup(list, k) != dev
        {
          if Lookup(list, k) == dev {
            LookupApart(list, key, k);
          }
        }
        var out := Through(dev, params, op);
        r := UseGave(out);
      }
    }

    // An open, likewise.
    method OpenSeen(params: Params, tty: Option<nat>, wronly: bool, memory: bool, ghost stores: map<nat, Plain>)
        returns (r: Result)
      requires Valid() && params.Positive() && Holds(stores)
      modifies this, mem, params, devices, owned
      ensures Valid() && params.Positive()
      ensures Allowed(stores, Event.Open(tty, wronly, memory), r)
      ensures Holds(Seen(stores, Event.Open(tty, wronly, memory), r))
      ensures forall k: nat :: tty != Some(k) ==> Spared(k)
      ensures old(devices) <= devices && fresh(devices - old(devices)) && fresh(owned - old(owned))
    {
      hide ScullDev.Intact, ScullDev.Valid;
      var result, dev := ScullCOpen(params, tty, wronly, memory);
      r := OpenGave(result);
      if result == 0 {
        forall k: nat | k != tty.value && Lookup(list, k) != null
          ensures Lookup(list, k) != dev
        {
          if Lookup(list, k) == dev {
            LookupApart(list, tty.value, k);
          }
        }
      }
    }

    method OneEvent(params: Params, e: Event, ghost stores: map<nat, Plain>) returns (r: Result)
      requires Valid() && params.Positive() && Holds(stores) && (e.Use? ==> PositiveOp(e.op))
      modifies this, mem, params, devices, owned
      ensures Valid() && params.Positive()
      ensures Allowed(stores, e, r) && Holds(Seen(stores, e, r))
      ensures forall k: nat :: !e.Concerns(k) ==> Spared(k)
      ensures old(devices) <= devices && fresh(devices - old(devices)) && fresh(owned - old(owned))
    {
      match e {
        case Open(tty, wronly, memory) => r := OpenSeen(params, tty, wronly, memory, stores);
        case Use(key, op) => r := Use(params, key, op, stores);
      }
    }

    // Any run of opens and calls from any terminals: each terminal sees the store that its own events make, as
    // if there were no others; and a terminal without events keeps its device with nothing about it changed.
    method PerformAll(params: Params, events: seq<Event>, ghost stores: map<nat, Plain>,
                      ghost mine: nat, ghost d: ScullDev?) returns (rs: seq<Result>)
      requires Valid() && params.Positive() && Holds(stores) && d == Lookup(list, mine)
      requires forall e <- events :: e.Use? ==> PositiveOp(e.op)
      modifies this, mem, params, devices, owned
      ensures Valid() && params.Positive() && |rs| == |events| && AllAllowed(stores, events, rs)
      ensures Holds(SeenAll(stores, events, rs))
      ensures d != null && (forall e <- events :: !e.Concerns(mine)) ==> Lookup(list, mine) == d && unchanged(d)
    {
      hide Listed, Apart, Holds, Seen, Allowed;
      rs := [];
      for i := 0 to |events|
        invariant Valid() && params.Positive() && |rs| == i && AllAllowed(stores, events[..i], rs)
        invariant Holds(SeenAll(stores, events[..i], rs))
        invariant d != null && (forall e <- events :: !e.Concerns(mine)) ==> Lookup(list, mine) == d && unchanged(d)
        invariant fresh(devices - old(devices)) && fresh(owned - old(owned))
      {
        assert events[i] in events;
        var r := OneEvent(params, events[i], SeenAll(stores, events[..i], rs));
        SeenExtends(stores, events[..i], rs, events[i], r);
        assert events[..i + 1] == events[..i] + [events[i]];
        rs := rs + [r];
      }
      assert events[..|events|] == events;
    }
  }

  // What an event answers.
  datatype Result = OpenGave(result: int) | UseGave(out: Outcome) | NoDevice

  predicate Opens(stores: map<nat, Plain>, e: Event) {
    e.Open? && e.tty.Some? && (e.tty.value in stores || e.memory)
  }

  // What an event does to the stores that the terminals see: to the one it concerns.
  function Seen(stores: map<nat, Plain>, e: Event, r: Result): map<nat, Plain> {
    match e
    case Open(tty, wronly, memory) =>
      if Opens(stores, e) && (wronly || tty.value !in stores) then stores[tty.value := Plain(map[], 0)] else stores
    case Use(key, op) =>
      if key in stores && r.UseGave? then stores[key := ScullRuns.After(stores[key], op, r.out)] else stores
  }

  ghost function SeenAll(stores: map<nat, Plain>, events: seq<Event>, rs: seq<Result>): map<nat, Plain>
    requires |events| == |rs|
  {
    if |events| == 0 then stores
    else
      var n := |events| - 1;
      Seen(SeenAll(stores, events[..n], rs[..n]), events[n], rs[n])
  }

  ghost predicate AllAllowed(stores: map<nat, Plain>, events: seq<Event>, rs: seq<Result>)
    requires |events| == |rs|
  {
    forall i :: 0 <= i < |events| ==> Allowed(SeenAll(stores, events[..i], rs[..i]), events[i], rs[i])
  }

  lemma SeenExtends(stores: map<nat, Plain>, events: seq<Event>, rs: seq<Result>, e: Event, r: Result)
    requires |events| == |rs| && AllAllowed(stores, events, rs) && Allowed(SeenAll(stores, events, rs), e, r)
    ensures AllAllowed(stores, events + [e], rs + [r])
    ensures SeenAll(stores, events + [e], rs + [r]) == Seen(SeenAll(stores, events, rs), e, r)
  {
    hide Allowed, Seen;
    assert (events + [e])[..|events|] == events && (rs + [r])[..|rs|] == rs;
    forall i | 0 <= i < |events| + 1
      ensures Allowed(SeenAll(stores, (events + [e])[..i], (rs + [r])[..i]), (events + [e])[i], (rs + [r])[i])
    {
      if i < |events| {
        assert (events + [e])[..i] == events[..i] && (rs + [r])[..i] == rs[..i];
      }
    }
  }

  // A terminal sees nothing of what does not concern it.
  lemma {:induction false} SeenSpares(stores: map<nat, Plain>, events: seq<Event>, rs: seq<Result>, k: nat)
    requires |events| == |rs| && forall e <- events :: !e.Concerns(k)
    ensures k in SeenAll(stores, events, rs) <==> k in stores
    ensures k in stores ==> SeenAll(stores, events, rs)[k] == stores[k]
  {
    if |events| > 0 {
      SeenSpares(stores, events[..|events| - 1], rs[..|rs| - 1], k);
      assert events[|events| - 1] in events;
    }
  }

  // The answer is the one that the terminal's own store allows.
  ghost predicate Allowed(stores: map<nat, Plain>, e: Event, r: Result) {
    match e
    case Open(tty, _, _) => r == OpenGave(if Opens(stores, e) then 0 else if tty.None? then EINVAL else ENOMEM)
    case Use(key, op) => if key in stores then r.UseGave? && Fits(stores[key], op, r.out) else r == NoDevice
  }
}
