/** Runs of whole calls on the two snull devices, each taken as one step. */
module SnullCallRuns {
  import opened SnullHeader
  import opened SnullLists
  import opened SnullCalls

  datatype Call = Transmit(d: nat, skb: Frame, junk: nat) | Poll(d: nat, quota: int, budget: int)

  // What the counters of the two sides say about each other between two calls.
  lemma QuietMeans(t: Twins, napi: bool, d: nat, e: nat)
    requires Quiet(t, napi) && t.Pair(d, e)
    ensures var s, r := t.devs[d].stats, t.devs[e].stats;
            && s.txPackets == r.rxPackets + r.rxDropped + |t.lists[2 + e]|
            && s.txBytes == r.rxBytes + Total(t.devs[e].log.dropped) + Total(t.devs[e].log.queued)
            && (!napi ==> s.txPackets == r.rxPackets + r.rxDropped) && r.rxDropped == t.devs[e].log.refused
    ensures t.devs[d].stopped <==> t.lists[d] == []
    ensures napi && t.lists[2 + d] != [] ==> t.devs[d].scheduled && !t.devs[d].rxIntEnabled
  {
    BothQuiet(t, napi, d, e);
  }

  // ---- runs of calls, by what has gone in and come out ----

  // How many frames a device has sent, and how many have come out of its receive queue, delivered or dropped.
  datatype Tally = Tally(sent: nat, delivered: nat, dropped: nat)

  // One for each device.
  datatype Tallies = Tallies(first: Tally, second: Tally) {
    function Of(d: nat): Tally {
      if d == 0 then first else second
    }
  }

  // How many frames of one device wait for the other.
  function Waiting(from: Tally, to: Tally): int {
    from.sent - to.delivered - to.dropped
  }

  // A transmission is made exactly if fewer frames of the device wait on the other side than it has packets; in the
  // regular mode the frame comes out at once.
  predicate Transmitted(napi: bool, packets: nat, from: Tally, to: Tally, from1: Tally, to1: Tally) {
    if Waiting(from, to) < packets then
      && from1 == from.(sent := from.sent + 1) && to1.sent == to.sent
      && if napi then to1 == to else Waiting(from1, to1) == Waiting(from, to) == 0
    else from1 == from && to1 == to
  }

  // A poll takes frames off until the queue is empty or it has delivered as many as it may.
  predicate Polled(napi: bool, quota: int, budget: int, from: Tally, to: Tally, from1: Tally, to1: Tally) {
    if napi && Waiting(from, to) > 0 then
      var more := to1.delivered - to.delivered;
      && from1 == from && to1.sent == to.sent && to1.dropped >= to.dropped && Waiting(from1, to1) >= 0
      && more >= 0 && (more == 0 || (more <= quota && more <= budget))
      && (more < quota && more < budget ==> Waiting(from1, to1) == 0)
    else from1 == from && to1 == to
  }

  // The packets of a device, among all of them.
  ghost function Packets(all: set<Packet>, d: nat): set<Packet> {
    set p | p in all && p.dev == d
  }

  // One call.
  ghost predicate CallDone(napi: bool, all: set<Packet>, a: Tallies, call: Call, b: Tallies) {
    if call.d >= 2 then
      b == a
    else
      var d := call.d;
      match call
      case Transmit(_, _, _) => Transmitted(napi, |Packets(all, d)|, a.Of(d), a.Of(1 - d), b.Of(d), b.Of(1 - d))
      case Poll(_, quota, budget) => Polled(napi, quota, budget, a.Of(1 - d), a.Of(d), b.Of(1 - d), b.Of(d))
  }

  ghost function TallyOf(t: Twins, d: nat): Tally
    reads t.devs
  {
    if d >= |t.devs| then Tally(0, 0, 0)
    else var log := t.devs[d].log; Tally(|log.sent|, |log.delivered|, |log.dropped|)
  }

  ghost function TalliesOf(t: Twins): Tallies
    reads t.devs
  {
    Tallies(TallyOf(t, 0), TallyOf(t, 1))
  }

  lemma {:induction false} AsManyElements(s: seq<Packet>)
    requires forall i, j :: 0 <= i < j < |s| ==> s[i] != s[j]
    ensures |set p | p in s| == |s|
  {
    if s != [] {
      var rest := s[..|s| - 1];
      AsManyElements(rest);
      assert (set p | p in s) == (set p | p in rest) + {s[|s| - 1]};
    }
  }

  lemma OnTwoLists(spot: map<Packet, Spot>, lists: Lists, d: nat, e: nat)
    requires Placed(spot, lists) && d + e == 1 && forall p <- spot :: spot[p].On?
    ensures forall p: Packet :: p in spot && p.dev == d <==> p in lists[d] || p in lists[2 + e]
    ensures forall p: Packet :: !(p in lists[d] && p in lists[2 + e])
    ensures forall k, i, j :: 0 <= k < 4 && 0 <= i < j < |lists[k]| ==> lists[k][i] != lists[k][j]
  {
  }

  lemma PacketsAre(t: Twins, d: nat, e: nat)
    requires t.Valid() && AllOnLists(t) && t.Pair(d, e)
    ensures |Packets(t.spot.Keys, d)| == |t.lists[d]| + |t.lists[2 + e]|
  {
    var pool, queue := t.lists[d], t.lists[2 + e];
    OnTwoLists(t.spot, t.lists, d, e);
    hide Placed, Twins.Consistent;
    assert Packets(t.spot.Keys, d) == (set p | p in pool) + (set p | p in queue);
    assert (set p | p in pool) !! (set p | p in queue);
    AsManyElements(pool);
    AsManyElements(queue);
  }

  // Between two calls the packets of a device are in its pool and in the twin's queue; so the transmit queue is
  // stopped exactly if as many of its frames wait there as it has packets, and waiting frames are being polled.
  predicate Settled(napi: bool, packets: nat, stopped: bool, scheduled: bool, from: Tally, to: Tally) {
    && 0 <= Waiting(from, to) <= packets && (stopped <==> Waiting(from, to) == packets)
    && (!napi ==> Waiting(from, to) == 0) && (napi && Waiting(from, to) > 0 ==> scheduled)
  }

  lemma PoolAndQueue(t: Twins, napi: bool, d: nat, e: nat)
    requires Quiet(t, napi) && t.Pair(d, e)
    ensures Waiting(TallyOf(t, d), TallyOf(t, e)) == |t.lists[2 + e]|
    ensures Settled(napi, |Packets(t.spot.Keys, d)|, t.devs[d].stopped, t.devs[e].scheduled,
                    TallyOf(t, d), TallyOf(t, e))
  {
    BothQuiet(t, napi, d, e);
    PacketsAre(t, d, e);
    hide Twins.Consistent, Packets, Times, Placed;
  }

  // A frame has gone in; in the polling mode it has not come out.
  predicate FrameIn(napi: bool, from: Tally, to: Tally, from1: Tally, to1: Tally) {
    from1 == from.(sent := from.sent + 1) && to1.sent == to.sent && (napi ==> to1 == to)
  }

  // So many frames have been delivered, and perhaps others dropped.
  predicate FramesOut(from: Tally, to: Tally, from1: Tally, to1: Tally, n: nat) {
    from1 == from && to1.sent == to.sent && to1.delivered == to.delivered + n && to1.dropped >= to.dropped
  }

  method CountedTx(t: Twins, napi: bool, d: nat, ghost e: nat, skb: Frame, junk: nat)
    requires Quiet(t, napi) && t.Pair(d, e) && !t.devs[d].stopped
    modifies t`lists, t`spot, t.devs, t.spot.Keys
    ensures Quiet(t, napi) && t.spot.Keys == old(t.spot.Keys)
    ensures FrameIn(napi, old(TallyOf(t, d)), old(TallyOf(t, e)), TallyOf(t, d), TallyOf(t, e))
  {
    hide Quiet, OnWire, Padded, Rewritten;
    ghost var sent := SnullTx(t, napi, d, e, skb, junk);
  }

  method CountedPoll(t: Twins, d: nat, ghost e: nat, quota: int, budget: int) returns (npackets: nat)
    requires Quiet(t, true) && t.Pair(d, e) && t.devs[d].scheduled
    modifies t`lists, t`spot, t.devs, t.spot.Keys
    ensures Quiet(t, true) && t.spot.Keys == old(t.spot.Keys)
    ensures FramesOut(old(TallyOf(t, e)), old(TallyOf(t, d)), TallyOf(t, e), TallyOf(t, d), npackets)
    ensures npackets == 0 || (npackets <= quota && npackets <= budget)
    ensures npackets < quota && npackets < budget ==> t.lists[2 + d] == []
  {
    hide Quiet;
    var result;
    result, npackets := SnullPoll(t, d, quota, budget);
  }

  method OneTransmit(t: Twins, napi: bool, d: nat, ghost e: nat, skb: Frame, junk: nat)
    requires Quiet(t, napi) && t.Pair(d, e)
    modifies t`lists, t`spot, t.devs, t.spot.Keys
    ensures Quiet(t, napi) && t.spot.Keys == old(t.spot.Keys)
    ensures Transmitted(napi, |Packets(t.spot.Keys, d)|, old(TallyOf(t, d)), old(TallyOf(t, e)),
                        TallyOf(t, d), TallyOf(t, e))
  {
    PoolAndQueue(t, napi, d, e);
    hide Quiet, Packets, TallyOf;
    if !t.devs[d].stopped {
      CountedTx(t, napi, d, e, skb, junk);
      PoolAndQueue(t, napi, d, e);
    }
  }

  method OnePoll(t: Twins, napi: bool, d: nat, ghost e: nat, quota: int, budget: int)
    requires Quiet(t, napi) && t.Pair(d, e)
    modifies t`lists, t`spot, t.devs, t.spot.Keys
    ensures Quiet(t, napi) && t.spot.Keys == old(t.spot.Keys)
    ensures Polled(napi, quota, budget, old(TallyOf(t, e)), old(TallyOf(t, d)), TallyOf(t, e), TallyOf(t, d))
  {
    PoolAndQueue(t, napi, e, d);
    hide Quiet, Packets, TallyOf;
    if napi && t.devs[d].scheduled {
      var npackets := CountedPoll(t, d, e, quota, budget);
      PoolAndQueue(t, true, e, d);
    }
  }

  method OneCall(t: Twins, napi: bool, call: Call)
    requires Quiet(t, napi)
    modifies t`lists, t`spot, t.devs, t.spot.Keys
    ensures Quiet(t, napi) && t.spot.Keys == old(t.spot.Keys)
    ensures CallDone(napi, t.spot.Keys, old(TalliesOf(t)), call, TalliesOf(t))
  {
    assert t.Pair(0, 1) && t.Pair(1, 0);
    hide Quiet, Transmitted, Polled, Packets, TallyOf;
    if call.d < 2 {
      match call {
        case Transmit(d, skb, junk) => OneTransmit(t, napi, d, 1 - d, skb, junk);
        case Poll(d, quota, budget) => OnePoll(t, napi, d, 1 - d, quota, budget);
      }
    }
  }

  // The calls are done one after the other.
  ghost predicate Follows(napi: bool, all: set<Packet>, calls: seq<Call>, trace: seq<Tallies>) {
    && |trace| == |calls| + 1
    && forall i :: 0 <= i < |calls| ==> CallDone(napi, all, trace[i], calls[i], trace[i + 1])
  }

  lemma FollowsOn(napi: bool, all: set<Packet>, calls: seq<Call>, trace: seq<Tallies>, call: Call, b: Tallies)
    requires Follows(napi, all, calls, trace) && CallDone(napi, all, trace[|calls|], call, b)
    ensures Follows(napi, all, calls + [call], trace + [b])
  {
    hide CallDone;
  }

  // Any run of transmissions and polls, as the network layer makes them: no transmission while the
  // queue is stopped, no poll that is not scheduled.  The trace says what has gone in and come out before each
  // of the calls and at the end.
  method RunCalls(t: Twins, napi: bool, calls: seq<Call>) returns (ghost trace: seq<Tallies>)
    requires Quiet(t, napi)
    modifies t`lists, t`spot, t.devs, t.spot.Keys
    ensures Quiet(t, napi) && t.spot.Keys == old(t.spot.Keys)
    ensures Follows(napi, t.spot.Keys, calls, trace)
    ensures trace[0] == old(TalliesOf(t)) && trace[|calls|] == TalliesOf(t)
  {
    hide Quiet, CallDone, TalliesOf;
    trace := [TalliesOf(t)];
    for i := 0 to |calls|
      invariant Quiet(t, napi) && t.spot.Keys == old(t.spot.Keys)
      invariant |trace| == i + 1 && trace[0] == old(TalliesOf(t)) && trace[i] == TalliesOf(t)
      invariant Follows(napi, t.spot.Keys, calls[..i], trace)
    {
      OneCall(t, napi, calls[i]);
      FollowsOn(napi, t.spot.Keys, calls[..i], trace, calls[i], TalliesOf(t));
      assert calls[..i + 1] == calls[..i] + [calls[i]];
      trace := trace + [TalliesOf(t)];
    }
    assert calls[..|calls|] == calls;
  }
}
