/**
 The packets of the two snull devices, linked in place into free pools and receive queues.  Each
 routine here is one section under a device's lock, so what holds after every one of them holds
 in every interleaving of the handlers.
 */
module SnullLists {
  import opened Ring

  type Frame = seq<byte>

  class Packet {
    var next: Packet?
    const dev: nat          // the number of the device whose pool it comes from
    var data: Frame         // as many bytes as datalen says

    constructor (dev: nat)
      ensures this.dev == dev && next == null && data == []
    {
      this.dev, next, data := dev, null, [];
    }
  }

  // struct net_device_stats, as far as it is used
  datatype Stats = Stats(txPackets: nat, txBytes: nat, rxPackets: nat, rxBytes: nat, rxDropped: nat)

  // The frames behind the counters, those that the receive queue holds, and how many socket buffers have been
  // refused to the device.
  datatype Log = Log(sent: seq<Frame>, delivered: seq<Frame>, dropped: seq<Frame>, queued: seq<Frame>, refused: nat)

  // struct snull_priv, with the flags that the network layer keeps for the device.
  class NetDevice {
    var stats: Stats
    var rxIntr: bool          // the two bits of the status word
    var txIntr: bool
    var ppool: Packet?
    var rxQueue: Packet?
    var rxIntEnabled: bool
    var txPacketlen: nat
    var txPacketdata: Frame
    var stopped: bool         // the transmit queue
    var scheduled: bool       // a poll is due
    ghost var log: Log

    ghost predicate Fresh()
      reads `rxIntr, `txIntr, `rxIntEnabled, `stopped, `scheduled, `stats, `log
    {
      && !rxIntr && !txIntr && rxIntEnabled && !stopped && !scheduled
      && stats == Stats(0, 0, 0, 0, 0) && log == Log([], [], [], [], 0)
    }

    // snull_init, without the pool, and snull_open
    constructor ()
      ensures ppool == null && rxQueue == null && Fresh()
    {
      ppool, rxQueue, rxIntr, txIntr, rxIntEnabled, stopped, scheduled := null, null, false, false, true, false, false;
      stats, log, txPacketlen, txPacketdata := Stats(0, 0, 0, 0, 0), Log([], [], [], [], 0), 0, [];
    }
  }

  // Four lists: the pools of device 0 and 1, then the receive queues of device 0 and 1.
  // Lists are written bottom first: their last element is the one that the list head points to.
  type Lists = seq<seq<Packet>>

  datatype Spot = On(list: nat, i: nat) | InHand

  // Whose packets a list holds: a pool its own device's, a receive queue the twin's.
  function Home(k: nat): nat
    requires k < 4
  {
    if k < 2 then k else 3 - k
  }

  function Top(s: seq<Packet>): Packet? {
    if s == [] then null else s[|s| - 1]
  }

  function Below(s: seq<Packet>, i: nat): Packet?
    requires i < |s|
  {
    if i > 0 then s[i - 1] else null
  }

  // Packets and places determine each other; so every packet is in one place only, no list
  // meets itself or another one, and each list holds what it should.
  ghost predicate Placed(spot: map<Packet, Spot>, lists: Lists) {
    && |lists| == 4
    && (forall k, i :: 0 <= k < 4 && 0 <= i < |lists[k]| ==>
          lists[k][i] in spot && spot[lists[k][i]] == On(k, i) && lists[k][i].dev == Home(k))
    && (forall p <- spot :: p.dev < 2)
    && (forall p <- spot :: spot[p].On? ==>
          spot[p].list < 4 && spot[p].i < |lists[spot[p].list]| && lists[spot[p].list][spot[p].i] == p)
  }

  ghost predicate Linked(spot: map<Packet, Spot>, lists: Lists)
    requires Placed(spot, lists)
    reads spot.Keys`next
  {
    forall k, i {:trigger lists[k][i].next} :: 0 <= k < 4 && 0 <= i < |lists[k]| ==>
      lists[k][i].next == Below(lists[k], i)
  }

  function Popped(lists: Lists, k: nat): Lists
    requires k < |lists| && lists[k] != []
  {
    lists[k := lists[k][..|lists[k]| - 1]]
  }

  function Pushed(lists: Lists, k: nat, p: Packet): Lists
    requires k < |lists|
  {
    lists[k := lists[k] + [p]]
  }

  lemma PopKeepsPlaces(spot: map<Packet, Spot>, lists: Lists, k: nat)
    requires Placed(spot, lists) && k < 4 && lists[k] != []
    ensures Placed(spot[Top(lists[k]) := InHand], Popped(lists, k))
  {
  }

  lemma PushKeepsPlaces(spot: map<Packet, Spot>, lists: Lists, k: nat, p: Packet)
    requires Placed(spot, lists) && k < 4 && p in spot && spot[p] == InHand && p.dev == Home(k)
    ensures Placed(spot[p := On(k, |lists[k]|)], Pushed(lists, k, p))
  {
  }

  lemma PopKeepsLinks(spot: map<Packet, Spot>, lists: Lists, k: nat)
    requires Placed(spot, lists) && Linked(spot, lists) && k < 4 && lists[k] != []
    ensures var top: Packet := Top(lists[k]);
            top in spot && spot[top].On? && top.dev == Home(k) && top.next == Top(Popped(lists, k)[k])
    ensures Placed(spot[Top(lists[k]) := InHand], Popped(lists, k))
    ensures Linked(spot[Top(lists[k]) := InHand], Popped(lists, k))
  {
    assert spot[lists[k][|lists[k]| - 1]] == On(k, |lists[k]| - 1);
    PopKeepsPlaces(spot, lists, k);
    var less: Lists := Popped(lists, k);
    forall l: nat, i: nat | l < 4 && i < |less[l]|
      ensures less[l][i].next == Below(less[l], i)
    {
      assert less[l][i] == lists[l][i];
    }
  }

  lemma PushKeepsLinks(spot: map<Packet, Spot>, lists: Lists, k: nat, p: Packet)
    requires Placed(spot, lists) && k < 4 && p in spot && spot[p] == InHand && p.dev == Home(k)
    requires Linked(spot, lists) && p.next == Top(lists[k])
    ensures Placed(spot[p := On(k, |lists[k]|)], Pushed(lists, k, p))
    ensures Linked(spot[p := On(k, |lists[k]|)], Pushed(lists, k, p))
  {
    PushKeepsPlaces(spot, lists, k, p);
    var more: Lists := Pushed(lists, k, p);
    forall l: nat, i: nat | l < 4 && i < |more[l]|
      ensures more[l][i].next == Below(more[l], i)
    {
      if l != k || i < |lists[k]| {
        assert more[l][i] == lists[l][i];
      }
    }
  }

  lemma NewKeepsLinks(spot: map<Packet, Spot>, lists: Lists, p: Packet)
    requires Placed(spot, lists) && Linked(spot, lists) && p !in spot && p.dev < 2
    ensures Placed(spot[p := InHand], lists) && Linked(spot[p := InHand], lists)
  {
  }

  lemma NoPackets()
    ensures Placed(map[], [[], [], [], []]) && Linked(map[], [[], [], [], []])
  {
  }

  function Least(a: nat, b: nat): nat {
    if a < b then a else b
  }

  class Twins {
    const devs: seq<NetDevice>
    ghost var lists: Lists
    ghost var spot: map<Packet, Spot>    // where every packet is that the setup has allocated

    // Packets, links and list heads agree.
    ghost predicate Consistent()
      requires |devs| == 2 && |lists| == 4
      reads `lists, `spot, devs`ppool, devs`rxQueue, spot.Keys`next
    {
      && Placed(spot, lists) && Linked(spot, lists)
      && devs[0].ppool == Top(lists[0]) && devs[1].ppool == Top(lists[1])
      && devs[0].rxQueue == Top(lists[2]) && devs[1].rxQueue == Top(lists[3])
    }

    ghost predicate Valid()
      reads `lists, `spot, devs`ppool, devs`rxQueue, spot.Keys`next
    {
      |devs| == 2 && devs[0] != devs[1] && |lists| == 4 && Consistent()
    }

    constructor ()
      ensures Valid() && fresh(devs) && lists == [[], [], [], []] && spot == map[]
      ensures devs[0].Fresh() && devs[1].Fresh()
    {
      NoPackets();
      var sn0 := new NetDevice();
      var sn1 := new NetDevice();
      devs, lists, spot := [sn0, sn1], [[], [], [], []], map[];
    }

    // memory0 and memory1: how many packets there is memory for.
    method SetupPools(poolSize: nat, memory0: nat, memory1: nat)
      requires Valid() && lists == [[], [], [], []] && spot == map[]
      modifies this`lists, this`spot, Dev(0)`ppool, Dev(1)`ppool
      ensures Valid() && fresh(spot.Keys)
      ensures |lists[0]| == Least(poolSize, memory0) && |lists[1]| == Least(poolSize, memory1)
      ensures lists[2] == lists[3] == []
      ensures forall p <- spot :: spot[p].On?
    {
      hide Consistent;
      SnullSetupPool(0, poolSize, memory0);
      SnullSetupPool(1, poolSize, memory1);
    }

    // The loop that fills a pool, until memory runs out.
    method SnullSetupPool(d: nat, poolSize: nat, memory: nat)
      requires Valid() && d < 2 && lists[d] == []
      modifies this`lists, this`spot, Dev(d)`ppool
      ensures Valid() && |lists[d]| == Least(poolSize, memory) && lists == old(lists)[d := lists[d]]
      ensures forall p <- spot :: p !in old(spot) ==> fresh(p) && spot[p].On?
      ensures forall p <- old(spot) :: p in spot && spot[p] == old(spot)[p]
    {
      hide Consistent;
      for i := 0 to poolSize
        invariant Valid() && |lists[d]| == i <= memory && lists == old(lists)[d := lists[d]]
        invariant forall p <- spot :: p !in old(spot) ==> fresh(p) && spot[p].On?
        invariant forall p <- old(spot) :: p in spot && spot[p] == old(spot)[p]
      {
        if i == memory {
          return;
        }
        var pkt := AddToPool(d);
      }
    }

    method AddToPool(d: nat) returns (pkt: Packet)
      requires Valid() && d < 2
      modifies this`lists, this`spot, Dev(d)`ppool
      ensures Valid() && fresh(pkt)
      ensures lists == Pushed(old(lists), d, pkt) && spot == old(spot)[pkt := On(d, |old(lists)[d]|)]
    {
      hide Placed, Linked;
      pkt := new Packet(d);
      pkt.next := devs[d].ppool;
      NewKeepsLinks(spot, lists, pkt);
      spot := spot[pkt := InHand];
      PushKeepsLinks(spot, lists, d, pkt);
      devs[d].ppool := pkt;
      spot := spot[pkt := On(d, |lists[d]|)];
      lists := Pushed(lists, d, pkt);
    }

    function Dev(d: nat): NetDevice
      requires d < |devs|
    {
      devs[d]
    }

    // A device and its twin.
    predicate Pair(d: nat, e: nat) {
      |devs| == 2 && d + e == 1 && devs[d] != devs[e]
    }

    // Taken by a handler and not put on a list yet.
    ghost predicate Hand(p: Packet)
      reads this
    {
      p in spot && spot[p] == InHand && p.dev < 2
    }

    lemma Heads(d: nat)
      requires Valid() && d < 2
      ensures devs[d].ppool == Top(lists[d]) && devs[d].rxQueue == Top(lists[2 + d])
    {
    }

    lemma Bottom(k: nat)
      requires Valid() && k < 4 && lists[k] != []
      ensures lists[k][0].next == null && lists[k][0].dev == Home(k)
    {
    }

    lemma Known(p: Packet)
      requires Valid() && p in spot
      ensures p.dev < 2
    {
    }

    lemma HeldIsOnNoList(p: Packet)
      requires Valid() && Hand(p)
      ensures forall k, i {:trigger lists[k][i]} :: 0 <= k < 4 && 0 <= i < |lists[k]| ==> lists[k][i] != p
    {
    }

    // The link of a packet that is on no list can be set freely.
    method PutBefore(pkt: Packet, head: Packet?)
      requires Placed(spot, lists) && Linked(spot, lists) && Hand(pkt)
      modifies pkt`next
      ensures Linked(spot, lists) && pkt.next == head
      ensures pkt.dev < 2
    {
      pkt.next := head;
    }

    // snull_get_tx_buffer, which takes for granted that the pool is not empty
    method SnullGetTxBuffer(d: nat) returns (pkt: Packet)
      requires Valid() && d < 2 && devs[d].ppool != null
      modifies this`lists, this`spot, Dev(d)`ppool, Dev(d)`stopped
      ensures Valid() && pkt.dev == d && pkt == old(Top(lists[d])) && old(lists[d]) != []
      ensures pkt in old(spot) && old(spot)[pkt].On?
      ensures lists == Popped(old(lists), d) && spot == old(spot)[pkt := InHand]
      ensures devs[d].stopped == (old(devs[d].stopped) || lists[d] == [])
    {
      hide Placed, Linked;
      PopKeepsLinks(spot, lists, d);
      pkt := devs[d].ppool;
      devs[d].ppool := pkt.next;
      if devs[d].ppool == null {
        devs[d].stopped := true;
      }
      lists, spot := Popped(lists, d), spot[pkt := InHand];
    }

    // The locked section of snull_release_buffer: a packet goes back to the pool that it came from.
    method ReleaseSection(pkt: Packet)
      requires Valid() && Hand(pkt)
      modifies this`lists, this`spot, Dev(pkt.dev)`ppool, pkt`next
      ensures Valid() && pkt.dev < 2
      ensures lists == Pushed(old(lists), pkt.dev, pkt) && spot == old(spot)[pkt := On(pkt.dev, |old(lists)[pkt.dev]|)]
      ensures pkt.next == old(Dev(pkt.dev).ppool)
    {
      hide Placed, Linked;
      var priv := devs[pkt.dev];
      PutBefore(pkt, priv.ppool);
      PushKeepsLinks(spot, lists, pkt.dev, pkt);
      priv.ppool := pkt;
      spot := spot[pkt := On(pkt.dev, |lists[pkt.dev]|)];
      lists := Pushed(lists, pkt.dev, pkt);
    }

    // snull_enqueue_buf, on the twin of the packet's own device
    method SnullEnqueueBuf(dest: nat, pkt: Packet)
      requires Valid() && Hand(pkt) && dest < 2 && dest == 1 - pkt.dev
      modifies this`lists, this`spot, Dev(dest)`rxQueue, pkt`next
      ensures Valid()
      ensures lists == Pushed(old(lists), 2 + dest, pkt)
      ensures spot == old(spot)[pkt := On(2 + dest, |old(lists)[2 + dest]|)]
      ensures pkt.next == old(Dev(dest).rxQueue)
    {
      hide Placed, Linked;
      var priv := devs[dest];
      PutBefore(pkt, priv.rxQueue);
      PushKeepsLinks(spot, lists, 2 + dest, pkt);
      priv.rxQueue := pkt;
      spot := spot[pkt := On(2 + dest, |lists[2 + dest]|)];
      lists := Pushed(lists, 2 + dest, pkt);
    }

    // snull_dequeue_buf, and what the regular interrupt handler does under its own lock
    method SnullDequeueBuf(d: nat) returns (pkt: Packet?)
      requires Valid() && d < 2
      modifies this`lists, this`spot, Dev(d)`rxQueue
      ensures Valid() && pkt == old(Top(lists[2 + d]))
      ensures pkt == null <==> old(lists)[2 + d] == []
      ensures pkt != null ==> pkt in old(spot) && old(spot)[pkt].On?
      ensures if pkt == null then lists == old(lists) && spot == old(spot)
              else pkt.dev == 1 - d && lists == Popped(old(lists), 2 + d) && spot == old(spot)[pkt := InHand]
    {
      hide Placed, Linked;
      var priv := devs[d];
      pkt := priv.rxQueue;
      if pkt != null {
        PopKeepsLinks(spot, lists, 2 + d);
        priv.rxQueue := pkt.next;
        lists, spot := Popped(lists, 2 + d), spot[pkt := InHand];
      }
    }
  }
}
