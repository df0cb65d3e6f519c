/**
 Whole calls on the two snull devices: transmit, interrupt and poll, in the regular and in the
 polling (NAPI) mode, with flow control and counters.
 */
module SnullCalls {
  import opened Ring
  import opened SnullHeader
  import opened SnullLists

  const ETH_ZLEN: nat := 60

  // ---- frames ----

  ghost function Total(s: seq<Frame>): nat {
    if s == [] then 0 else Total(s[..|s| - 1]) + |s[|s| - 1]|
  }

  // How often a frame occurs.
  ghost function Times(s: seq<Frame>, f: Frame): nat {
    if s == [] then 0 else Times(s[..|s| - 1], f) + if s[|s| - 1] == f then 1 else 0
  }

  // What one device has sent, the other has delivered, or dropped, or has in its receive queue:
  // every frame as often, and the same number of bytes.
  ghost predicate Balance(sent: seq<Frame>, delivered: seq<Frame>, dropped: seq<Frame>, queued: seq<Frame>) {
    && (forall f :: Times(sent, f) == Times(delivered, f) + Times(dropped, f) + Times(queued, f))
    && |sent| == |delivered| + |dropped| + |queued|
    && Total(sent) == Total(delivered) + Total(dropped) + Total(queued)
  }

  lemma TotalAppend(s: seq<Frame>, f: Frame)
    ensures Total(s + [f]) == Total(s) + |f|
    ensures forall g :: Times(s + [f], g) == Times(s, g) + if g == f then 1 else 0
  {
    assert (s + [f])[..|s|] == s;
  }

  lemma FrameQueued(sent: seq<Frame>, delivered: seq<Frame>, dropped: seq<Frame>, queued: seq<Frame>, f: Frame)
    requires Balance(sent, delivered, dropped, queued)
    ensures Balance(sent + [f], delivered, dropped, queued + [f])
  {
    TotalAppend(sent, f);
    TotalAppend(queued, f);
  }

  lemma FrameLeavesQueue(sent: seq<Frame>, delivered: seq<Frame>, dropped: seq<Frame>, queued: seq<Frame>, f: Frame)
    requires Balance(sent, delivered, dropped, queued + [f])
    ensures Balance(sent, delivered + [f], dropped, queued) && Balance(sent, delivered, dropped + [f], queued)
  {
    TotalAppend(queued, f);
    TotalAppend(delivered, f);
    TotalAppend(dropped, f);
  }

  // ---- what holds between two calls ----

  // The counters are those of the frames.
  ghost predicate Counters(stats: Stats, log: Log) {
    && stats.txPackets == |log.sent| && stats.txBytes == Total(log.sent)
    && stats.rxPackets == |log.delivered| && stats.rxBytes == Total(log.delivered)
    && stats.rxDropped == |log.dropped| == log.refused
  }

  // The device accounts for what its twin has sent.
  ghost predicate Even(log: Log, sent: seq<Frame>) {
    Balance(sent, log.delivered, log.dropped, log.queued)
  }

  ghost predicate QueueHolds(t: Twins, d: nat)
    requires d < 2 && |t.devs| == 2 && |t.lists| == 4
    reads t`lists, t.Dev(d)`log, t.lists[2 + d]`data
  {
    && |t.devs[d].log.queued| == |t.lists[2 + d]|
    && forall i {:trigger t.lists[2 + d][i]} :: 0 <= i < |t.lists[2 + d]| ==>
         t.lists[2 + d][i].data == t.devs[d].log.queued[i]
  }

  // Interrupts and polling: a queue with frames is always being polled.
  ghost predicate Attended(t: Twins, d: nat, napi: bool)
    requires d < 2 && |t.devs| == 2 && |t.lists| == 4
    reads t`lists, t.Dev(d)`rxIntr, t.Dev(d)`txIntr, t.Dev(d)`rxIntEnabled, t.Dev(d)`scheduled
  {
    && !t.devs[d].rxIntr && !t.devs[d].txIntr
    && (napi ==> (t.devs[d].rxIntEnabled <==> !t.devs[d].scheduled) && (t.lists[2 + d] != [] ==> t.devs[d].scheduled))
    && (!napi ==> t.devs[d].rxIntEnabled && t.lists[2 + d] == [])
  }

  // The transmit queue is stopped exactly when there is nothing to put a frame into.
  ghost predicate FlowOk(t: Twins, d: nat)
    requires d < 2 && |t.devs| == 2 && |t.lists| == 4
    reads t`lists, t.Dev(d)`stopped
  {
    t.devs[d].stopped <==> t.lists[d] == []
  }

  ghost predicate AllOnLists(t: Twins)
    reads t`spot
  {
    forall p <- t.spot :: t.spot[p].On?
  }

  ghost predicate DeviceQuiet(t: Twins, d: nat, e: nat, napi: bool)
    requires t.Valid() && d < 2 && e < 2
    reads t, t.devs, t.spot.Keys
  {
    && Attended(t, d, napi) && FlowOk(t, d) && QueueHolds(t, d)
    && Counters(t.devs[d].stats, t.devs[d].log) && Even(t.devs[d].log, t.devs[e].log.sent)
  }

  ghost predicate Quiet(t: Twins, napi: bool)
    reads t, t.devs, t.spot.Keys
  {
    t.Valid() && AllOnLists(t) && DeviceQuiet(t, 0, 1, napi) && DeviceQuiet(t, 1, 0, napi)
  }

  // A device as the setup leaves it.
  lemma FreshIsQuiet(t: Twins, d: nat, e: nat, napi: bool)
    requires t.Valid() && d < 2 && e < 2 && t.devs[d].Fresh() && t.devs[e].Fresh() && t.lists[2 + d] == []
    ensures DeviceQuiet(t, d, e, napi) <==> t.lists[d] != []
  {
  }

  // After the setup the devices are in order exactly if each pool can get a packet.
  method SnullInit(napi: bool, poolSize: nat, memory0: nat, memory1: nat) returns (t: Twins)
    ensures t.Valid() && fresh(t) && fresh(t.devs) && fresh(t.spot.Keys)
    ensures Quiet(t, napi) <==> poolSize > 0 && memory0 > 0 && memory1 > 0
    ensures |t.lists[0]| == Least(poolSize, memory0) && |t.lists[1]| == Least(poolSize, memory1)
    ensures t.lists[2] == t.lists[3] == [] && t.devs[0].Fresh() && t.devs[1].Fresh()
    ensures forall p <- t.spot :: t.spot[p].On?
  {
    hide Twins.Consistent, DeviceQuiet;
    t := new Twins();
    t.SetupPools(poolSize, memory0, memory1);
    FreshIsQuiet(t, 0, 1, napi);
    FreshIsQuiet(t, 1, 0, napi);
  }

  // ---- the parts of the calls ----

  // snull_release_buffer as one step: the test for waking the queue follows the locked section.
  method SnullReleaseBuffer(t: Twins, pkt: Packet)
    requires t.Valid() && t.Hand(pkt) && FlowOk(t, pkt.dev)
    modifies t`lists, t`spot, t.Dev(pkt.dev)`ppool, t.Dev(pkt.dev)`stopped, pkt`next
    ensures t.Valid() && FlowOk(t, pkt.dev)
    ensures t.lists == Pushed(old(t.lists), pkt.dev, pkt)
    ensures t.spot == old(t.spot)[pkt := On(pkt.dev, |old(t.lists)[pkt.dev]|)]
  {
    t.ReleaseSection(pkt);
    if t.devs[pkt.dev].stopped && pkt.next == null {
      t.devs[pkt.dev].stopped := false;
    }
  }

  // Without the newest one.
  function Rest<T>(s: seq<T>): seq<T>
    requires s != []
  {
    s[..|s| - 1]
  }

  // dev_alloc_skb, which may be refused.
  method DevAllocSkb(dev: NetDevice) returns (memory: bool)
    modifies dev`log
    ensures dev.log == old(dev.log).(refused := old(dev.log.refused) + if memory then 0 else 1)
  {
    memory := *;
    if !memory {
      dev.log := dev.log.(refused := dev.log.refused + 1);
    }
  }

  // The newest frame of the queue is delivered, or dropped because it was refused a buffer.
  ghost predicate HandedUp(before: Log, after: Log, memory: bool) {
    && before.queued != []
    && var f := before.queued[|before.queued| - 1];
       after == if memory then before.(delivered := before.delivered + [f], queued := Rest(before.queued))
                else before.(dropped := before.dropped + [f], queued := Rest(before.queued),
                             refused := before.refused + 1)
  }

  lemma QueueingKeepsEven(log: Log, sent: seq<Frame>, f: Frame)
    requires Even(log, sent)
    ensures Even(log.(queued := log.queued + [f]), sent + [f])
  {
    FrameQueued(sent, log.delivered, log.dropped, log.queued, f);
  }

  lemma HandingUpKeepsEven(before: Log, after: Log, sent: seq<Frame>, memory: bool)
    requires Even(before, sent) && HandedUp(before, after, memory)
    ensures Even(after, sent)
  {
    var f := before.queued[|before.queued| - 1];
    assert before.queued == Rest(before.queued) + [f];
    FrameLeavesQueue(sent, before.delivered, before.dropped, Rest(before.queued), f);
  }

  // snull_rx, and the same steps in snull_poll.
  method SnullRx(dev: NetDevice, pkt: Packet) returns (memory: bool)
    requires Counters(dev.stats, dev.log)
    requires dev.log.queued != [] && dev.log.queued[|dev.log.queued| - 1] == pkt.data
    modifies dev`stats, dev`log
    ensures Counters(dev.stats, dev.log) && HandedUp(old(dev.log), dev.log, memory)
  {
    memory := DevAllocSkb(dev);
    if !memory {
      dev.stats := dev.stats.(rxDropped := dev.stats.rxDropped + 1);
      dev.log := dev.log.(dropped := dev.log.dropped + [pkt.data], queued := Rest(dev.log.queued));
    } else {
      TotalAppend(dev.log.delivered, pkt.data);
      dev.stats := dev.stats.(rxPackets := dev.stats.rxPackets + 1, rxBytes := dev.stats.rxBytes + |pkt.data|);
      dev.log := dev.log.(delivered := dev.log.delivered + [pkt.data], queued := Rest(dev.log.queued));
    }
  }

  // A transmission is over.
  method TxDone(dev: NetDevice)
    requires Counters(dev.stats, dev.log) && dev.txPacketlen == |dev.txPacketdata|
    modifies dev`stats, dev`log
    ensures Counters(dev.stats, dev.log) && dev.log == old(dev.log).(sent := old(dev.log.sent) + [dev.txPacketdata])
  {
    TotalAppend(dev.log.sent, dev.txPacketdata);
    dev.stats := dev.stats.(txPackets := dev.stats.txPackets + 1, txBytes := dev.stats.txBytes + dev.txPacketlen);
    dev.log := dev.log.(sent := dev.log.sent + [dev.txPacketdata]);
  }

  // The newest frame of a receive queue is taken off and handed up.
  method TakeFrame(t: Twins, d: nat, ghost e: nat) returns (pkt: Packet?, memory: bool)
    requires t.Valid() && t.Pair(d, e) && QueueHolds(t, d) && Counters(t.devs[d].stats, t.devs[d].log)
    modifies t`lists, t`spot, t.Dev(d)`rxQueue, t.Dev(d)`stats, t.Dev(d)`log
    ensures t.Valid() && QueueHolds(t, d) && Counters(t.devs[d].stats, t.devs[d].log)
    ensures pkt == null <==> old(t.lists)[2 + d] == []
    ensures pkt == null ==> t.lists == old(t.lists) && t.spot == old(t.spot) && t.devs[d].log == old(t.devs[d].log)
    ensures pkt != null ==>
      && pkt == old(Top(t.lists[2 + d])) && pkt.dev == e && pkt in old(t.spot) && t.Hand(pkt)
      && t.lists == Popped(old(t.lists), 2 + d) && t.spot == old(t.spot)[pkt := InHand]
      && HandedUp(old(t.devs[d].log), t.devs[d].log, memory)
  {
    hide Twins.Consistent;
    memory := true;
    pkt := t.SnullDequeueBuf(d);
    if pkt != null {
      memory := SnullRx(t.devs[d], pkt);
    }
  }

  // ---- interrupts ----

  function WithSent(log: Log, tx: bool, f: Frame): Log {
    if tx then log.(sent := log.sent + [f]) else log
  }

  // The locked section of the regular handler.
  method RegularSection(t: Twins, d: nat, ghost e: nat) returns (pkt: Packet?, ghost middle: Log, ghost memory: bool)
    requires t.Valid() && t.Pair(d, e) && QueueHolds(t, d) && Counters(t.devs[d].stats, t.devs[d].log)
    requires t.devs[d].txIntr ==> t.devs[d].txPacketlen == |t.devs[d].txPacketdata|
    modifies t`lists, t`spot, t.Dev(d)`rxQueue, t.Dev(d)`stats, t.Dev(d)`log, t.Dev(d)`rxIntr, t.Dev(d)`txIntr
    ensures t.Valid() && QueueHolds(t, d) && Counters(t.devs[d].stats, t.devs[d].log)
    ensures !t.devs[d].rxIntr && !t.devs[d].txIntr
    ensures t.devs[d].log == WithSent(middle, old(t.devs[d].txIntr), t.devs[d].txPacketdata)
    ensures pkt == null <==> !old(t.devs[d].rxIntr) || old(t.lists)[2 + d] == []
    ensures pkt == null ==> t.lists == old(t.lists) && t.spot == old(t.spot) && middle == old(t.devs[d].log)
    ensures pkt != null ==>
      && pkt == old(Top(t.lists[2 + d])) && pkt.dev == e && pkt in old(t.spot) && t.Hand(pkt)
      && t.lists == Popped(old(t.lists), 2 + d) && t.spot == old(t.spot)[pkt := InHand]
      && HandedUp(old(t.devs[d].log), middle, memory)
  {
    hide Twins.Consistent;
    var dev := t.devs[d];
    var rx, tx := dev.rxIntr, dev.txIntr;
    dev.rxIntr, dev.txIntr := false, false;
    pkt, memory := null, true;
    if rx {
      pkt, memory := TakeFrame(t, d, e);
    }
    middle := dev.log;
    if tx {
      TxDone(dev);
    }
  }

  // The packet is released outside the lock.
  method SnullRegularInterrupt(t: Twins, d: nat, ghost e: nat) returns (ghost middle: Log, ghost memory: bool)
    requires t.Valid() && t.Pair(d, e) && FlowOk(t, e) && QueueHolds(t, d) && Counters(t.devs[d].stats, t.devs[d].log)
    requires t.devs[d].txIntr ==> t.devs[d].txPacketlen == |t.devs[d].txPacketdata|
    modifies t`lists, t`spot, t.Dev(d)`rxQueue, t.Dev(d)`stats, t.Dev(d)`log, t.Dev(d)`rxIntr, t.Dev(d)`txIntr
    modifies t.Dev(e)`ppool, t.Dev(e)`stopped, t.spot.Keys`next
    ensures t.Valid() && FlowOk(t, e) && QueueHolds(t, d) && Counters(t.devs[d].stats, t.devs[d].log)
    ensures !t.devs[d].rxIntr && !t.devs[d].txIntr
    ensures t.devs[d].log == WithSent(middle, old(t.devs[d].txIntr), t.devs[d].txPacketdata)
    ensures var queue := old(t.lists)[2 + d];
      if !old(t.devs[d].rxIntr) || queue == [] then
        t.lists == old(t.lists) && t.spot == old(t.spot) && middle == old(t.devs[d].log)
      else
        && queue[|queue| - 1] in old(t.spot)
        && t.lists == Pushed(Popped(old(t.lists), 2 + d), e, queue[|queue| - 1])
        && t.spot == old(t.spot)[queue[|queue| - 1] := On(e, |old(t.lists)[e]|)]
        && HandedUp(old(t.devs[d].log), middle, memory)
  {
    hide Twins.Consistent;
    var pkt;
    pkt, middle, memory := RegularSection(t, d, e);
    if pkt != null {
      SnullReleaseBuffer(t, pkt);
    }
  }

  method SnullNapiInterrupt(t: Twins, d: nat)
    requires t.Valid() && d < 2 && Counters(t.devs[d].stats, t.devs[d].log)
    requires t.devs[d].txIntr ==> t.devs[d].txPacketlen == |t.devs[d].txPacketdata|
    modifies t.Dev(d)`rxIntr, t.Dev(d)`txIntr, t.Dev(d)`rxIntEnabled, t.Dev(d)`scheduled, t.Dev(d)`stats, t.Dev(d)`log
    ensures t.Valid() && Counters(t.devs[d].stats, t.devs[d].log)
    ensures !t.devs[d].rxIntr && !t.devs[d].txIntr
    ensures t.devs[d].log == WithSent(old(t.devs[d].log), old(t.devs[d].txIntr), t.devs[d].txPacketdata)
    ensures t.devs[d].scheduled == (old(t.devs[d].scheduled) || old(t.devs[d].rxIntr))
    ensures t.devs[d].rxIntEnabled == (old(t.devs[d].rxIntEnabled) && !old(t.devs[d].rxIntr))
  {
    hide Twins.Consistent;
    var dev := t.devs[d];
    var rx, tx := dev.rxIntr, dev.txIntr;
    dev.rxIntr, dev.txIntr := false, false;
    if rx {
      dev.rxIntEnabled := false;
      dev.scheduled := true;
    }
    if tx {
      TxDone(dev);
    }
  }

  // The frames that have come out of the device's receive queue.
  twostate predicate NothingReceived(dev: NetDevice)
    reads dev
  {
    dev.log.delivered == old(dev.log.delivered) && dev.log.dropped == old(dev.log.dropped)
  }

  // The device has sent these frames, and its twin none; in the polling mode neither has received any.
  twostate predicate HasSent(dev: NetDevice, twin: NetDevice, napi: bool, frames: seq<Frame>)
    reads dev, twin
  {
    && dev.log.sent == old(dev.log.sent) + frames && twin.log.sent == old(twin.log.sent)
    && NothingReceived(dev) && (napi ==> NothingReceived(twin))
  }

  // ---- transmit ----

  // A packet from the device's pool is filled.
  method FillBuffer(t: Twins, d: nat, ghost e: nat, buf: Frame) returns (pkt: Packet)
    requires t.Valid() && AllOnLists(t) && t.Pair(d, e) && FlowOk(t, d) && !t.devs[d].stopped
    requires QueueHolds(t, d) && QueueHolds(t, e)
    modifies t`lists, t`spot, t.Dev(d)`ppool, t.Dev(d)`stopped, t.spot.Keys`data
    ensures t.Valid() && FlowOk(t, d) && QueueHolds(t, d) && QueueHolds(t, e)
    ensures pkt in old(t.spot) && pkt.dev == d && pkt.data == buf
    ensures old(t.lists)[d] != [] && t.lists == Popped(old(t.lists), d) && t.spot == old(t.spot)[pkt := InHand]
  {
    hide Twins.Consistent;
    t.Heads(d);
    pkt := t.SnullGetTxBuffer(d);
    t.HeldIsOnNoList(pkt);
    pkt.data := buf;
  }

  // It is put into the twin's receive queue.
  method PassOn(t: Twins, d: nat, e: nat, pkt: Packet)
    requires t.Valid() && t.Pair(d, e) && t.Hand(pkt) && pkt.dev == d && QueueHolds(t, e)
    modifies t`lists, t`spot, t.Dev(e)`rxQueue, t.Dev(e)`log, pkt`next
    ensures t.Valid() && QueueHolds(t, e)
    ensures t.devs[e].log == old(t.devs[e].log).(queued := old(t.devs[e].log.queued) + [pkt.data])
    ensures t.lists == Pushed(old(t.lists), 2 + e, pkt)
    ensures t.spot == old(t.spot)[pkt := On(2 + e, |old(t.lists)[2 + e]|)]
  {
    hide Twins.Consistent;
    var twin := t.devs[e];
    t.SnullEnqueueBuf(e, pkt);
    twin.log := twin.log.(queued := twin.log.queued + [pkt.data]);
  }

  method PutOnWire(t: Twins, d: nat, e: nat, buf: Frame)
    requires t.Valid() && AllOnLists(t) && t.Pair(d, e) && FlowOk(t, d) && !t.devs[d].stopped
    requires QueueHolds(t, d) && QueueHolds(t, e)
    modifies t`lists, t`spot, t.Dev(d)`ppool, t.Dev(d)`stopped, t.Dev(e)`rxQueue, t.Dev(e)`log
    modifies t.spot.Keys`next, t.spot.Keys`data
    ensures t.Valid() && AllOnLists(t) && FlowOk(t, d) && QueueHolds(t, d) && QueueHolds(t, e)
    ensures t.spot.Keys == old(t.spot.Keys)
    ensures t.devs[e].log == old(t.devs[e].log).(queued := old(t.devs[e].log.queued) + [buf])
    ensures t.lists[e] == old(t.lists)[e] && t.lists[2 + d] == old(t.lists)[2 + d]
    ensures |t.lists[2 + e]| == |old(t.lists)[2 + e]| + 1
  {
    hide Twins.Consistent;
    var pkt := FillBuffer(t, d, e, buf);
    PassOn(t, d, e, pkt);
  }

  // The receive interrupt of the twin in the regular mode: its one frame is handled at once.
  method RaiseRxRegular(t: Twins, d: nat, ghost e: nat, ghost sent: seq<Frame>)
    requires t.Valid() && AllOnLists(t) && t.Pair(d, e) && FlowOk(t, e) && QueueHolds(t, d)
    requires Counters(t.devs[d].stats, t.devs[d].log) && Even(t.devs[d].log, sent)
    requires !t.devs[d].rxIntr && !t.devs[d].txIntr && |t.lists[2 + d]| == 1
    modifies t`lists, t`spot, t.Dev(d)`rxQueue, t.Dev(d)`stats, t.Dev(d)`log, t.Dev(d)`rxIntr, t.Dev(d)`txIntr
    modifies t.Dev(e)`ppool, t.Dev(e)`stopped, t.spot.Keys`next
    ensures t.Valid() && AllOnLists(t) && t.spot.Keys == old(t.spot.Keys) && FlowOk(t, e) && QueueHolds(t, d)
    ensures Counters(t.devs[d].stats, t.devs[d].log) && Even(t.devs[d].log, sent)
    ensures !t.devs[d].rxIntr && !t.devs[d].txIntr && t.devs[d].log.sent == old(t.devs[d].log.sent)
    ensures t.lists[2 + d] == [] && t.lists[d] == old(t.lists)[d] && t.lists[2 + e] == old(t.lists)[2 + e]
  {
    hide Twins.Consistent;
    ghost var before := t.devs[d].log;
    t.devs[d].rxIntr := true;
    ghost var middle, memory := SnullRegularInterrupt(t, d, e);
    HandingUpKeepsEven(before, middle, sent, memory);
  }

  // In the polling mode it schedules a poll.
  method RaiseRxNapi(t: Twins, d: nat)
    requires t.Valid() && d < 2 && Counters(t.devs[d].stats, t.devs[d].log) && !t.devs[d].rxIntr && !t.devs[d].txIntr
    modifies t.Dev(d)`rxIntr, t.Dev(d)`txIntr, t.Dev(d)`rxIntEnabled, t.Dev(d)`scheduled, t.Dev(d)`stats, t.Dev(d)`log
    ensures t.Valid() && Counters(t.devs[d].stats, t.devs[d].log) && t.devs[d].log == old(t.devs[d].log)
    ensures !t.devs[d].rxIntr && !t.devs[d].txIntr && t.devs[d].scheduled && !t.devs[d].rxIntEnabled
  {
    hide Twins.Consistent;
    t.devs[d].rxIntr := true;
    SnullNapiInterrupt(t, d);
  }

  // The receive interrupt of the twin, if it is enabled: after it the twin's queue is attended to.
  method RaiseRx(t: Twins, napi: bool, d: nat, ghost e: nat, ghost sent: seq<Frame>)
    requires t.Valid() && AllOnLists(t) && t.Pair(d, e) && FlowOk(t, d) && FlowOk(t, e)
    requires QueueHolds(t, d) && QueueHolds(t, e)
    requires Counters(t.devs[d].stats, t.devs[d].log) && Even(t.devs[d].log, sent)
    requires !t.devs[d].rxIntr && !t.devs[d].txIntr && t.lists[2 + d] != []
    requires if napi then t.devs[d].rxIntEnabled <==> !t.devs[d].scheduled
             else t.devs[d].rxIntEnabled && |t.lists[2 + d]| == 1
    modifies t`lists, t`spot, t.Dev(d)`rxQueue, t.Dev(d)`stats, t.Dev(d)`log, t.Dev(d)`rxIntr, t.Dev(d)`txIntr
    modifies t.Dev(d)`rxIntEnabled, t.Dev(d)`scheduled, t.Dev(e)`ppool, t.Dev(e)`stopped, t.spot.Keys`next
    ensures t.Valid() && AllOnLists(t) && t.spot.Keys == old(t.spot.Keys)
    ensures FlowOk(t, d) && FlowOk(t, e) && QueueHolds(t, d) && QueueHolds(t, e) && Attended(t, d, napi)
    ensures Counters(t.devs[d].stats, t.devs[d].log) && Even(t.devs[d].log, sent)
    ensures t.lists[2 + e] == old(t.lists)[2 + e] && t.devs[d].log.sent == old(t.devs[d].log.sent)
    ensures napi ==> NothingReceived(t.devs[d])
  {
    hide Twins.Consistent;
    if t.devs[d].rxIntEnabled {
      if napi {
        RaiseRxNapi(t, d);
      } else {
        RaiseRxRegular(t, d, e, sent);
      }
    }
  }

  // The transmit-done interrupt of the sender.
  method RaiseTx(t: Twins, napi: bool, d: nat, ghost e: nat, buf: Frame)
    requires t.Valid() && t.Pair(d, e) && FlowOk(t, e) && QueueHolds(t, d)
    requires Counters(t.devs[d].stats, t.devs[d].log) && !t.devs[d].rxIntr
    modifies t`lists, t`spot, t.Dev(d)`rxQueue, t.Dev(d)`stats, t.Dev(d)`log, t.Dev(d)`rxIntr, t.Dev(d)`txIntr
    modifies t.Dev(d)`rxIntEnabled, t.Dev(d)`scheduled, t.Dev(d)`txPacketlen, t.Dev(d)`txPacketdata
    modifies t.Dev(e)`ppool, t.Dev(e)`stopped, t.spot.Keys`next
    ensures t.Valid() && t.lists == old(t.lists) && t.spot == old(t.spot) && FlowOk(t, e) && QueueHolds(t, d)
    ensures Counters(t.devs[d].stats, t.devs[d].log) && !t.devs[d].rxIntr && !t.devs[d].txIntr
    ensures t.devs[d].rxIntEnabled == old(t.devs[d].rxIntEnabled) && t.devs[d].scheduled == old(t.devs[d].scheduled)
    ensures t.devs[d].log == old(t.devs[d].log).(sent := old(t.devs[d].log.sent) + [buf])
  {
    hide Twins.Consistent;
    var priv := t.devs[d];
    priv.txPacketlen, priv.txPacketdata, priv.txIntr := |buf|, buf, true;
    if napi {
      SnullNapiInterrupt(t, d);
    } else {
      ghost var middle, memory := SnullRegularInterrupt(t, d, e);
    }
  }

  lemma BothQuiet(t: Twins, napi: bool, d: nat, e: nat)
    requires t.Valid() && d + e == 1
    ensures Quiet(t, napi) <==> AllOnLists(t) && DeviceQuiet(t, d, e, napi) && DeviceQuiet(t, e, d, napi)
  {
    if d == 0 {
      assert e == 1;
    } else {
      assert e == 0 && d == 1;
    }
  }

  // While device d sends a frame to device e: d has not counted it yet.
  ghost predicate Sending(t: Twins, d: nat, e: nat, buf: Frame)
    requires t.Valid() && t.Pair(d, e)
    reads t, t.devs, t.spot.Keys
  {
    && AllOnLists(t) && FlowOk(t, d) && FlowOk(t, e) && QueueHolds(t, d) && QueueHolds(t, e)
    && Counters(t.devs[d].stats, t.devs[d].log) && Counters(t.devs[e].stats, t.devs[e].log)
    && Even(t.devs[d].log, t.devs[e].log.sent) && Even(t.devs[e].log, t.devs[d].log.sent + [buf])
  }

  // The frame is in the queue of device e, and no interrupt has told of it.
  ghost predicate Unannounced(t: Twins, napi: bool, e: nat)
    requires t.Valid() && e < 2
    reads t, t.devs, t.spot.Keys
  {
    && !t.devs[e].rxIntr && !t.devs[e].txIntr && t.lists[2 + e] != []
    && if napi then t.devs[e].rxIntEnabled <==> !t.devs[e].scheduled
       else t.devs[e].rxIntEnabled && |t.lists[2 + e]| == 1
  }

  method StartTx(t: Twins, napi: bool, d: nat, e: nat, buf: Frame)
    requires t.Valid() && AllOnLists(t) && t.Pair(d, e) && !t.devs[d].stopped
    requires DeviceQuiet(t, d, e, napi) && DeviceQuiet(t, e, d, napi)
    modifies t`lists, t`spot, t.Dev(d)`ppool, t.Dev(d)`stopped, t.Dev(e)`rxQueue, t.Dev(e)`log
    modifies t.spot.Keys`next, t.spot.Keys`data
    ensures t.Valid() && t.spot.Keys == old(t.spot.Keys)
    ensures Sending(t, d, e, buf) && Unannounced(t, napi, e) && Attended(t, d, napi)
    ensures t.devs[e].log.sent == old(t.devs[e].log.sent)
    ensures NothingReceived(t.devs[e])
  {
    hide Twins.Consistent, Even;
    QueueingKeepsEven(t.devs[e].log, t.devs[d].log.sent, buf);
    PutOnWire(t, d, e, buf);
  }

  method Announce(t: Twins, napi: bool, d: nat, ghost e: nat, ghost buf: Frame)
    requires t.Valid() && t.Pair(d, e) && Sending(t, e, d, buf) && Unannounced(t, napi, d) && Attended(t, e, napi)
    modifies t`lists, t`spot, t.Dev(d)`rxQueue, t.Dev(d)`stats, t.Dev(d)`log, t.Dev(d)`rxIntr, t.Dev(d)`txIntr
    modifies t.Dev(d)`rxIntEnabled, t.Dev(d)`scheduled, t.Dev(e)`ppool, t.Dev(e)`stopped, t.spot.Keys`next
    ensures t.Valid() && t.spot.Keys == old(t.spot.Keys)
    ensures Sending(t, e, d, buf) && Attended(t, d, napi) && Attended(t, e, napi)
    ensures t.devs[d].log.sent == old(t.devs[d].log.sent)
    ensures napi ==> NothingReceived(t.devs[d])
  {
    hide Twins.Consistent;
    RaiseRx(t, napi, d, e, t.devs[e].log.sent + [buf]);
  }

  method FinishTx(t: Twins, napi: bool, d: nat, ghost e: nat, buf: Frame)
    requires t.Valid() && t.Pair(d, e) && Sending(t, d, e, buf) && Attended(t, d, napi) && Attended(t, e, napi)
    modifies t`lists, t`spot, t.Dev(d)`rxQueue, t.Dev(d)`stats, t.Dev(d)`log, t.Dev(d)`rxIntr, t.Dev(d)`txIntr
    modifies t.Dev(d)`rxIntEnabled, t.Dev(d)`scheduled, t.Dev(d)`txPacketlen, t.Dev(d)`txPacketdata
    modifies t.Dev(e)`ppool, t.Dev(e)`stopped, t.spot.Keys`next
    ensures t.Valid() && t.spot.Keys == old(t.spot.Keys) && AllOnLists(t)
    ensures DeviceQuiet(t, d, e, napi) && DeviceQuiet(t, e, d, napi)
    ensures t.devs[d].log.sent == old(t.devs[d].log.sent) + [buf]
    ensures NothingReceived(t.devs[d])
  {
    hide Twins.Consistent;
    RaiseTx(t, napi, d, e, buf);
  }

  // snull_hw_tx; junk is what the checksum comes out as for a header length that makes no sense.
  method SnullHwTx(t: Twins, napi: bool, d: nat, dest: nat, data: Frame, junk: nat)
    requires Quiet(t, napi) && t.Pair(d, dest) && !t.devs[d].stopped
    modifies t`lists, t`spot, t.devs, t.spot.Keys
    ensures Quiet(t, napi) && t.spot.Keys == old(t.spot.Keys)
    ensures HasSent(t.devs[d], t.devs[dest], napi, if |data| < HEADERS then [] else [Rewritten(data, junk)])
  {
    hide Twins.Consistent, Sending, Unannounced, Attended, DeviceQuiet;
    if |data| < HEADERS {
      return;
    }
    var buf := Rewritten(data, junk);
    BothQuiet(t, napi, d, dest);
    StartTx(t, napi, d, dest, buf);
    Announce(t, napi, dest, d, buf);
    FinishTx(t, napi, d, dest, buf);
    BothQuiet(t, napi, d, dest);
  }

  // snull_tx fills short frames up with zeros.
  function Padded(skb: Frame): (buf: Frame)
    ensures |buf| >= ETH_ZLEN && skb <= buf && (|skb| >= ETH_ZLEN ==> buf == skb)
  {
    if |skb| < ETH_ZLEN then skb + seq(ETH_ZLEN - |skb|, _ => 0) else skb
  }

  // An octet of a frame that is filled up with zeros.
  function Octet(skb: Frame, i: nat): byte {
    if i < |skb| then skb[i] else 0
  }

  // What goes out for a frame: it has 60 octets or more, the third octets of both addresses differ in the lowest
  // bit, the header adds up, and all other octets but the checksum's are those of the frame.
  ghost predicate OnWire(skb: Frame, out: Frame) {
    && |out| == (if |skb| < 60 then 60 else |skb|)
    && OtherOctet(Octet(skb, 28), out[28]) && OtherOctet(Octet(skb, 32), out[32]) && AddsUp(out)
    && forall i :: 0 <= i < |out| && i !in {24, 25, 28, 32} ==> out[i] == Octet(skb, i)
  }

  lemma RewrittenIsOnWire(skb: Frame, junk: nat)
    ensures OnWire(skb, Rewritten(Padded(skb), junk))
  {
    hide Rewritten, AddsUp;
    RewrittenIsAccepted(Padded(skb), junk);
  }

  // snull_tx.  The network layer calls it only while the queue is not stopped; that is enough for a
  // packet to be there, and the frame is sent, once, with the headers of the other side.
  method SnullTx(t: Twins, napi: bool, d: nat, ghost e: nat, skb: Frame, junk: nat) returns (ghost sent: Frame)
    requires Quiet(t, napi) && t.Pair(d, e) && !t.devs[d].stopped
    modifies t`lists, t`spot, t.devs, t.spot.Keys
    ensures Quiet(t, napi) && t.spot.Keys == old(t.spot.Keys)
    ensures HasSent(t.devs[d], t.devs[e], napi, [sent])
    ensures sent == Rewritten(Padded(skb), junk) && OnWire(skb, sent)
  {
    RewrittenIsOnWire(skb, junk);
    hide Quiet, OnWire, Rewritten, HasSent, Padded;
    SnullHwTx(t, napi, d, if d == 0 then 1 else 0, Padded(skb), junk);
    sent := Rewritten(Padded(skb), junk);
  }

  // ---- poll ----

  ghost predicate PollingOwn(t: Twins, d: nat, e: nat)
    requires t.Valid() && t.Pair(d, e)
    reads t, t.devs, t.spot.Keys
  {
    && FlowOk(t, d) && QueueHolds(t, d)
    && Counters(t.devs[d].stats, t.devs[d].log) && Even(t.devs[d].log, t.devs[e].log.sent)
  }

  ghost predicate Polling(t: Twins, d: nat, e: nat)
    requires t.Valid() && t.Pair(d, e)
    reads t, t.devs, t.spot.Keys
  {
    AllOnLists(t) && PollingOwn(t, d, e) && DeviceQuiet(t, e, d, true)
  }

  method PollTake(t: Twins, d: nat, ghost e: nat) returns (pkt: Packet, memory: bool)
    requires t.Valid() && t.Pair(d, e) && Polling(t, d, e) && t.lists[2 + d] != []
    modifies t`lists, t`spot, t.Dev(d)`rxQueue, t.Dev(d)`stats, t.Dev(d)`log
    ensures t.Valid() && PollingOwn(t, d, e) && DeviceQuiet(t, e, d, true)
    ensures pkt in old(t.spot) && pkt.dev == e && t.spot == old(t.spot)[pkt := InHand]
    ensures t.lists == Popped(old(t.lists), 2 + d) && HandedUp(old(t.devs[d].log), t.devs[d].log, memory)
  {
    hide Twins.Consistent;
    ghost var before, sent := t.devs[d].log, t.devs[e].log.sent;
    var taken;
    taken, memory := TakeFrame(t, d, e);
    pkt := taken;
    HandingUpKeepsEven(before, t.devs[d].log, sent, memory);
  }

  method PollRelease(t: Twins, d: nat, ghost e: nat, pkt: Packet)
    requires t.Valid() && t.Pair(d, e) && t.Hand(pkt) && pkt.dev == e
    requires PollingOwn(t, d, e) && DeviceQuiet(t, e, d, true)
    modifies t`lists, t`spot, t.Dev(e)`ppool, t.Dev(e)`stopped, pkt`next
    ensures t.Valid() && PollingOwn(t, d, e) && DeviceQuiet(t, e, d, true)
    ensures t.spot == old(t.spot)[pkt := On(e, |old(t.lists)[e]|)] && t.lists[2 + d] == old(t.lists)[2 + d]
  {
    hide Twins.Consistent;
    SnullReleaseBuffer(t, pkt);
  }

  // One turn of the loop in snull_poll; a frame that finds no memory is dropped and does not count.
  method PollOne(t: Twins, d: nat, ghost e: nat) returns (memory: bool)
    requires t.Valid() && t.Pair(d, e) && Polling(t, d, e) && t.lists[2 + d] != []
    modifies t`lists, t`spot, t.Dev(d)`rxQueue, t.Dev(d)`stats, t.Dev(d)`log
    modifies t.Dev(e)`ppool, t.Dev(e)`stopped, t.spot.Keys`next
    ensures t.Valid() && Polling(t, d, e) && t.spot.Keys == old(t.spot.Keys)
    ensures |t.lists[2 + d]| == |old(t.lists)[2 + d]| - 1 && HandedUp(old(t.devs[d].log), t.devs[d].log, memory)
  {
    hide Twins.Consistent, PollingOwn, DeviceQuiet;
    var pkt;
    pkt, memory := PollTake(t, d, e);
    PollRelease(t, d, e, pkt);
  }

  // The loop ends even if no frame finds memory.
  method PollLoop(t: Twins, d: nat, ghost e: nat, limit: int) returns (npackets: nat)
    requires t.Valid() && t.Pair(d, e) && Polling(t, d, e)
    modifies t`lists, t`spot, t.Dev(d)`rxQueue, t.Dev(d)`stats, t.Dev(d)`log
    modifies t.Dev(e)`ppool, t.Dev(e)`stopped, t.spot.Keys`next
    ensures t.Valid() && Polling(t, d, e) && t.spot.Keys == old(t.spot.Keys)
    ensures (npackets == 0 || npackets <= limit) && (npackets < limit ==> t.lists[2 + d] == [])
    ensures |t.devs[d].log.delivered| == |old(t.devs[d].log.delivered)| + npackets
    ensures t.devs[d].log.sent == old(t.devs[d].log.sent)
    ensures |t.devs[d].log.dropped| >= |old(t.devs[d].log.dropped)|
  {
    hide Twins.Consistent;
    npackets := 0;
    while npackets < limit && t.devs[d].rxQueue != null
      invariant t.Valid() && Polling(t, d, e) && t.spot.Keys == old(t.spot.Keys)
      invariant npackets == 0 || npackets <= limit
      invariant |t.devs[d].log.delivered| == |old(t.devs[d].log.delivered)| + npackets
      invariant t.devs[d].log.sent == old(t.devs[d].log.sent)
      invariant |t.devs[d].log.dropped| >= |old(t.devs[d].log.dropped)|
      decreases |t.lists[2 + d]|
    {
      t.Heads(d);
      var memory := PollOne(t, d, e);
      if memory {
        npackets := npackets + 1;
      }
    }
    t.Heads(d);
  }

  // With an empty queue the poll is complete and interrupts are enabled again.
  method PollDone(t: Twins, d: nat, ghost e: nat) returns (result: int)
    requires t.Valid() && t.Pair(d, e) && Polling(t, d, e)
    requires !t.devs[d].rxIntr && !t.devs[d].txIntr && t.devs[d].scheduled && !t.devs[d].rxIntEnabled
    modifies t.Dev(d)`scheduled, t.Dev(d)`rxIntEnabled
    ensures t.Valid() && AllOnLists(t) && DeviceQuiet(t, d, e, true) && DeviceQuiet(t, e, d, true)
    ensures result == if t.lists[2 + d] == [] then 0 else 1
    ensures t.devs[d].rxIntEnabled == (result == 0) && t.devs[d].scheduled == (result == 1)
  {
    hide Twins.Consistent;
    t.Heads(d);
    result := 1;
    if t.devs[d].rxQueue == null {
      t.devs[d].scheduled := false;
      t.devs[d].rxIntEnabled := true;
      result := 0;
    }
  }

  method PollBetween(t: Twins, d: nat, ghost e: nat, limit: int) returns (result: int, npackets: nat)
    requires t.Valid() && AllOnLists(t) && t.Pair(d, e) && t.devs[d].scheduled
    requires DeviceQuiet(t, d, e, true) && DeviceQuiet(t, e, d, true)
    modifies t`lists, t`spot, t.Dev(d)`rxQueue, t.Dev(d)`stats, t.Dev(d)`log, t.Dev(d)`scheduled, t.Dev(d)`rxIntEnabled
    modifies t.Dev(e)`ppool, t.Dev(e)`stopped, t.spot.Keys`next
    ensures t.Valid() && AllOnLists(t) && DeviceQuiet(t, d, e, true) && DeviceQuiet(t, e, d, true)
    ensures t.spot.Keys == old(t.spot.Keys) && t.devs[d].log.sent == old(t.devs[d].log.sent)
    ensures (npackets == 0 || npackets <= limit) && (npackets < limit ==> result == 0)
    ensures |t.devs[d].log.delivered| == |old(t.devs[d].log.delivered)| + npackets
    ensures |t.devs[d].log.dropped| >= |old(t.devs[d].log.dropped)|
    ensures result == if t.lists[2 + d] == [] then 0 else 1
    ensures t.devs[d].rxIntEnabled == (result == 0) && t.devs[d].scheduled == (result == 1)
  {
    hide Twins.Consistent;
    npackets := PollLoop(t, d, e, limit);
    result := PollDone(t, d, e);
  }

  // snull_poll, which the network layer calls while a poll is scheduled.  It delivers no more than
  // it may, and leaves either an empty queue with interrupts on, or a poll that is still scheduled.
  method SnullPoll(t: Twins, d: nat, quota: int, budget: int) returns (result: int, npackets: nat)
    requires Quiet(t, true) && d < 2 && t.devs[d].scheduled
    modifies t`lists, t`spot, t.devs, t.spot.Keys`next
    ensures Quiet(t, true) && t.spot.Keys == old(t.spot.Keys)
    ensures npackets == 0 || (npackets <= quota && npackets <= budget)
    ensures npackets < quota && npackets < budget ==> result == 0
    ensures |t.devs[d].log.delivered| == |old(t.devs[d].log.delivered)| + npackets
    ensures result == if t.lists[2 + d] == [] then 0 else 1
    ensures t.devs[d].rxIntEnabled == (result == 0) && t.devs[d].scheduled == (result == 1)
    ensures t.devs[d].log.sent == old(t.devs[d].log.sent)
    ensures |t.devs[d].log.dropped| >= |old(t.devs[d].log.dropped)| && t.devs[1 - d].log == old(t.devs[1 - d].log)
  {
    hide Twins.Consistent, DeviceQuiet;
    ghost var e := 1 - d;
    BothQuiet(t, true, d, e);
    result, npackets := PollBetween(t, d, e, if quota < budget then quota else budget);
    BothQuiet(t, true, d, e);
  }
}
