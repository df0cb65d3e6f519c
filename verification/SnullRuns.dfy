/** Any number of handlers working on the two devices, one section at a time, in any order. */
module SnullRuns {
  import opened Ring
  import opened SnullLists
  import opened SnullSections
  import opened SnullSafety

  lemma {:induction false} RunKeepsInv(s: State, steps: Steps)
    requires Inv(s)
    ensures Inv(After(s, steps))
    decreases |steps|
  {
    if steps != [] {
      StepKeepsInv(s, steps[0].0, steps[0].1);
      RunKeepsInv(Step(s, steps[0].0, steps[0].1), steps[1..]);
    }
  }

  lemma {:induction false} AfterBoth(s: State, first: Steps, second: Steps)
    ensures After(s, first + second) == After(After(s, first), second)
    decreases |first|
  {
    if first == [] {
      assert first + second == second;
    } else {
      assert (first + second)[1..] == first[1..] + second;
      AfterBoth(Step(s, first[0].0, first[0].1), first[1..], second);
    }
  }

  // ---- where the packets are ----

  // How often a packet is in a list, or in a hand.
  ghost function Occurs(list: seq<Packet>, p: Packet): nat {
    multiset(list)[p]
  }

  ghost function Held(tasks: seq<Task>, p: Packet): nat {
    multiset(tasks)[Carry(p, Sending)] + multiset(tasks)[Carry(p, Handling)] + multiset(tasks)[Carry(p, Polling)]
  }

  // The packet occurs once in all, and where it belongs.
  ghost predicate OnePlace(s: State, p: Packet) {
    && |s.lists| == 4 && p.dev < 2
    && Occurs(s.lists[p.dev], p) + Occurs(s.lists[3 - p.dev], p) + Held(s.tasks, p) == 1
    && Occurs(s.lists[1 - p.dev], p) == 0 && Occurs(s.lists[2 + p.dev], p) == 0
  }

  lemma Once<T>(s: seq<T>, x: T, i: nat)
    requires i < |s| && s[i] == x && forall j :: 0 <= j < |s| && s[j] == x ==> j == i
    ensures multiset(s)[x] == 1
  {
    assert s == s[..i] + [x] + s[i + 1..];
    assert x !in s[..i] && x !in s[i + 1..];
  }

  lemma HeldOnce(spot: map<Packet, Spot>, tasks: seq<Task>, p: Packet)
    requires Hands(spot, tasks) && p in spot
    ensures Held(tasks, p) == if spot[p].InHand? then 1 else 0
  {
    if spot[p].InHand? {
      var h: nat :| h < |tasks| && Holds(tasks[h], p);
      Once(tasks, tasks[h], h);
      forall route: Route | route != tasks[h].route
        ensures Carry(p, route) !in tasks
      {
      }
    } else {
      assert forall route: Route :: Carry(p, route) !in tasks;
    }
  }

  lemma OccursWhere(spot: map<Packet, Spot>, lists: Lists, p: Packet, k: nat)
    requires Placed(spot, lists) && p in spot && k < 4
    ensures p.dev < 2 && (spot[p].On? ==> spot[p].list < 4 && p.dev == Home(spot[p].list))
    ensures Occurs(lists[k], p) == if spot[p].On? && spot[p].list == k then 1 else 0
  {
    if spot[p].On? && spot[p].list == k {
      Once(lists[k], p, spot[p].i);
    } else {
      assert p !in lists[k];
    }
  }

  lemma CountsWhere(spot: map<Packet, Spot>, lists: Lists, p: Packet) returns (n: seq<nat>)
    requires Placed(spot, lists) && p in spot
    ensures |n| == 4 && forall k: nat :: k < 4 ==> n[k] == if spot[p].On? && spot[p].list == k then 1 else 0
    ensures p.dev < 2 && n[p.dev] == Occurs(lists[p.dev], p) && n[3 - p.dev] == Occurs(lists[3 - p.dev], p)
    ensures n[1 - p.dev] == Occurs(lists[1 - p.dev], p) && n[2 + p.dev] == Occurs(lists[2 + p.dev], p)
    ensures spot[p].On? ==> spot[p].list < 4 && p.dev == Home(spot[p].list)
  {
    OccursWhere(spot, lists, p, 0);
    OccursWhere(spot, lists, p, 1);
    OccursWhere(spot, lists, p, 2);
    OccursWhere(spot, lists, p, 3);
    hide Placed;
    n := [Occurs(lists[0], p), Occurs(lists[1], p), Occurs(lists[2], p), Occurs(lists[3], p)];
  }

  // Counted over the four lists and all hands, a packet occurs once, and never in the twin's pool or its
  // own device's queue.
  lemma IsInOnePlace(s: State, p: Packet)
    requires Inv(s) && p in s.spot
    ensures OnePlace(s, p)
  {
    hide DeviceOk, Placed, NextOk, Hands, Occurs, Held;
    var n := CountsWhere(s.spot, s.lists, p);
    HeldOnce(s.spot, s.tasks, p);
    OnceInAll(n, Held(s.tasks, p), s.spot[p], p.dev);
  }

  lemma OnceInAll(n: seq<nat>, held: nat, spot: Spot, dev: nat)
    requires |n| == 4 && dev < 2 && held == (if spot.InHand? then 1 else 0)
    requires spot.On? ==> spot.list < 4 && dev == Home(spot.list)
    requires forall k: nat :: k < 4 ==> n[k] == if spot.On? && spot.list == k then 1 else 0
    ensures n[dev] + n[3 - dev] + held == 1 && n[1 - dev] == n[2 + dev] == 0
  {
  }

  // ---- what can go wrong, and in which steps ----

  // The queue is running and there is nothing to put a frame into.
  predicate RunsOnEmpty(s: State, d: nat)
    requires Sized(s) && d < 2
  {
    s.lists[d] == [] && !s.flags[d].stopped
  }

  // The one step that starts a queue on an empty pool: a late test that finds the pool empty, the queue
  // stopped, and nothing behind the packet, which somebody has reused by now.
  predicate WakesEmpty(s: State, h: nat, section: Section, d: nat)
    requires Sized(s) && d < 2 && h < |s.tasks|
  {
    section.GoOn? && s.tasks[h].Late? && s.tasks[h].pkt.dev == d && s.lists[d] == [] && Wakes(s, s.tasks[h].pkt)
  }

  // ---- what a step does to one device ----

  lemma GetEffect(s: State, h: nat, d: nat, k: nat)
    requires Sized(s) && h < |s.tasks| && d < 2 && s.lists[d] != [] && k < 2
    ensures var t := GetStep(s, h, d);
            && Sized(t) && t.napi == s.napi && t.lists[2 + k] == s.lists[2 + k]
            && t.tasks == s.tasks[h := Carry(Top(s.lists[d]), Sending)]
            && t.lists[k] == (if k == d then s.lists[k][..|s.lists[k]| - 1] else s.lists[k])
            && t.flags[k] == s.flags[k].(stopped := s.flags[k].stopped || (k == d && t.lists[k] == []))
  {
  }

  lemma CarryEffect(s: State, h: nat, pkt: Packet, route: Route, k: nat)
    requires Sized(s) && h < |s.tasks| && pkt.dev < 2 && k < 2
    ensures var t := CarryStep(s, h, pkt, route);
            && Sized(t) && t.napi == s.napi && t.flags == s.flags
            && t.tasks == s.tasks[h := if route.Sending? then Tell(1 - pkt.dev) else Late(pkt, route.Polling?)]
            && t.lists[k] == s.lists[k] + (if !route.Sending? && pkt.dev == k then [pkt] else [])
            && t.lists[2 + k] == s.lists[2 + k] + (if route.Sending? && pkt.dev + k == 1 then [pkt] else [])
  {
  }

  lemma LateEffect(s: State, h: nat, pkt: Packet, polling: bool, k: nat)
    requires Sized(s) && h < |s.tasks| && pkt.dev < 2 && k < 2
    ensures var t := LateStep(s, h, pkt, polling);
            && Sized(t) && t.napi == s.napi && t.lists == s.lists
            && t.tasks == s.tasks[h := if polling then AtPoll(1 - pkt.dev) else Idle]
            && t.flags[k] == s.flags[k].(stopped := s.flags[k].stopped && !(k == pkt.dev && Wakes(s, pkt)))
  {
  }

  // The other steps of a handler leave the pools and the stopped flags alone.
  predicate Elsewhere(task: Task) {
    !task.Idle? && !task.Carry? && !task.Late?
  }

  lemma OtherLists(s: State, h: nat, stop: bool, k: nat)
    requires Sized(s) && h < |s.tasks| && Elsewhere(s.tasks[h]) && Named(s.tasks[h]) && k < 2
    ensures var task, t := s.tasks[h], GoStep(s, h, stop);
            && |t.lists| == 4 && t.napi == s.napi && t.lists[k] == s.lists[k]
            && (t.lists[2 + k] == s.lists[2 + k] || task == Taking(k) || (task == Raise(k) && !s.napi))
  {
  }

  lemma OtherTasks(s: State, h: nat, stop: bool)
    requires Sized(s) && h < |s.tasks| && Elsewhere(s.tasks[h]) && Named(s.tasks[h])
    ensures var t := GoStep(s, h, stop);
            && |t.flags| == 2 && |t.tasks| == |s.tasks| && t.tasks == s.tasks[h := t.tasks[h]]
  {
  }

  // The flags after such a step; the queue stays as it is, stopped or not.
  function FlagsAfter(napi: bool, flags: Flags, task: Task, d: nat): Flags {
    flags.(scheduled := task != Ending(d) && (flags.scheduled || (napi && task == Raise(d))),
           enabled := task == Enabling(d) || (flags.enabled && !(napi && task == Raise(d))))
  }

  lemma OtherFlags(s: State, h: nat, stop: bool, k: nat)
    requires Sized(s) && h < |s.tasks| && Elsewhere(s.tasks[h]) && Named(s.tasks[h]) && k < 2
    ensures var t := GoStep(s, h, stop);
            |t.flags| == 2 && t.flags[k] == FlagsAfter(s.napi, s.flags[k], s.tasks[h], k)
  {
  }

  lemma QueueStartsOnEmptyExactly(s: State, h: nat, section: Section, d: nat)
    requires Inv(s) && h < |s.tasks| && d < 2
    ensures var t := Step(s, h, section);
            Sized(t) && (RunsOnEmpty(t, d) && !RunsOnEmpty(s, d) <==> WakesEmpty(s, h, section, d))
  {
    Mine(s, h);
    hide Shape, Hands, DeviceOk, GetStep, GoStep, CarryStep, LateStep, RaiseStep, Wakes, NobodyPolls;
    match s.tasks[h] {
      case Idle =>
        if section.GetTx? && section.d < 2 && s.lists[section.d] != [] { GetEffect(s, h, section.d, d); }
      case _ =>
        GoStarts(s, h, section.StopPoll?, d);
    }
  }

  lemma GoStarts(s: State, h: nat, stop: bool, d: nat)
    requires Sized(s) && h < |s.tasks| && !s.tasks[h].Idle? && Named(s.tasks[h]) && d < 2
    ensures var t := GoStep(s, h, stop);
            Sized(t) && (RunsOnEmpty(t, d) && !RunsOnEmpty(s, d) <==> WakesEmpty(s, h, GoOn, d))
  {
    match s.tasks[h] {
      case Carry(pkt, route) => CarryEffect(s, h, pkt, route, d);
      case Late(pkt, polling) => LateEffect(s, h, pkt, polling, d);
      case _ =>
        OtherLists(s, h, stop, d);
        OtherTasks(s, h, stop);
        OtherFlags(s, h, stop, d);
    }
    hide GetStep, CarryStep, LateStep, RaiseStep, Wakes;
  }

  // In the polling mode: a frame that waits is being polled, or somebody is about to see to it.
  predicate Served(s: State, d: nat)
    requires Sized(s) && d < 2
  {
    s.napi && s.lists[2 + d] != [] && !s.flags[d].scheduled ==> Tell(d) in s.tasks || Raise(d) in s.tasks
  }

  predicate NobodyElseTells(s: State, h: nat, d: nat) {
    forall g :: 0 <= g < |s.tasks| && g != h ==> s.tasks[g] != Tell(d) && s.tasks[g] != Raise(d)
  }

  // The two steps that leave a frame without a poll: the end of a poll, if a frame has come in since its
  // test and no sender is going to look at the interrupts any more; and the last look of a sender, if it
  // falls between the end of the poll and the interrupts' coming on.
  predicate LosesPoll(s: State, h: nat, section: Section, d: nat)
    requires Sized(s) && d < 2 && h < |s.tasks|
  {
    && s.napi && section.GoOn? && s.lists[2 + d] != [] && NobodyElseTells(s, h, d)
    && (s.tasks[h] == Ending(d) || (s.tasks[h] == Tell(d) && !s.flags[d].enabled && !s.flags[d].scheduled))
  }

  lemma TellsAfter(s: State, h: nat, d: nat, next: Task)
    requires h < |s.tasks|
    ensures var after := s.tasks[h := next];
            Tell(d) in after || Raise(d) in after <==> next == Tell(d) || next == Raise(d) || !NobodyElseTells(s, h, d)
  {
    var after := s.tasks[h := next];
    assert after[h] == next;
    if !NobodyElseTells(s, h, d) {
      var g :| 0 <= g < |s.tasks| && g != h && (s.tasks[g] == Tell(d) || s.tasks[g] == Raise(d));
      assert after[g] == s.tasks[g];
    }
    if NobodyElseTells(s, h, d) && (Tell(d) in after || Raise(d) in after) {
      var g: nat :| g < |after| && (after[g] == Tell(d) || after[g] == Raise(d));
      assert g == h;
    }
  }

  lemma PollIsLostExactly(s: State, h: nat, section: Section, d: nat)
    requires Inv(s) && h < |s.tasks| && d < 2 && Served(s, d)
    ensures var t := Step(s, h, section); Sized(t) && (!Served(t, d) <==> LosesPoll(s, h, section, d))
  {
    Mine(s, h);
    EndingIsScheduled(s, h, d);
    hide Shape, Hands, DeviceOk, BeginStep, GoStep, NobodyElseTells, Served;
    if s.tasks[h].Idle? {
      BeginServes(s, h, section, d);
    } else {
      GoLoses(s, h, section.StopPoll?, d);
    }
  }

  lemma BeginServes(s: State, h: nat, section: Section, d: nat)
    requires Sized(s) && h < |s.tasks| && s.tasks[h].Idle? && d < 2 && Served(s, d)
    ensures var t := BeginStep(s, h, section); Sized(t) && Served(t, d)
  {
    hide GetStep, NobodyPolls;
    match section {
      case GetTx(e) =>
        if e < 2 && s.lists[e] != [] {
          GetEffect(s, h, e, d);
          OneMoves(s.tasks, h, Carry(Top(s.lists[e]), Sending));
        }
      case StartPoll(e) => OneMoves(s.tasks, h, AtPoll(e));
      case _ =>
    }
  }

  lemma GoLoses(s: State, h: nat, stop: bool, d: nat)
    requires Sized(s) && h < |s.tasks| && !s.tasks[h].Idle? && Named(s.tasks[h]) && d < 2 && Served(s, d)
    requires Polls(s.tasks[h], d) ==> s.flags[d].scheduled
    requires s.tasks[h] == Taking(d) ==> s.lists[2 + d] != []
    ensures var t := GoStep(s, h, stop);
            Sized(t) && (!Served(t, d) <==> LosesPoll(s, h, GoOn, d))
  {
    var t := GoStep(s, h, stop);
    match s.tasks[h] {
      case Carry(pkt, route) => CarryEffect(s, h, pkt, route, d);
      case Late(pkt, polling) => LateEffect(s, h, pkt, polling, d);
      case _ =>
        OtherLists(s, h, stop, d);
        OtherTasks(s, h, stop);
        OtherFlags(s, h, stop, d);
    }
    TellsAfter(s, h, d, s.tasks[h]);
    TellsAfter(s, h, d, t.tasks[h]);
    assert s.tasks[h := s.tasks[h]] == s.tasks;
    hide GetStep, CarryStep, LateStep, RaiseStep, NobodyElseTells;
  }

  lemma EndingIsScheduled(s: State, h: nat, d: nat)
    requires Inv(s) && h < |s.tasks| && d < 2
    ensures Polls(s.tasks[h], d) ==> s.flags[d].scheduled
    ensures s.tasks[h] == Taking(d) ==> s.lists[2 + d] != []
  {
    if s.tasks[h] == Taking(d) {
      assert Taking(d) in s.tasks;
    }
  }

  // ---- any interleaving ----

  predicate SamePackets(s: State, t: State) {
    t.spot.Keys == s.spot.Keys && |t.tasks| == |s.tasks| && t.napi == s.napi
  }

  lemma TakeKeepsPackets(s: State, h: nat, k: nat, route: Route)
    requires Shape(s) && h < |s.tasks| && k < 4 && s.lists[k] != []
    ensures SamePackets(s, Take(s, h, k, route))
  {
    TopIsKnown(s.spot, s.lists, k);
  }

  lemma GetKeepsPackets(s: State, h: nat, d: nat)
    requires Shape(s) && h < |s.tasks| && d < 2 && s.lists[d] != []
    ensures SamePackets(s, GetStep(s, h, d))
  {
    TakeKeepsPackets(s, h, d, Sending);
    hide Take;
  }

  lemma CarryKeepsPackets(s: State, h: nat, pkt: Packet, route: Route)
    requires Sized(s) && h < |s.tasks| && pkt.dev < 2 && pkt in s.spot
    ensures SamePackets(s, CarryStep(s, h, pkt, route))
  {
  }

  lemma RaiseKeepsPackets(s: State, h: nat, d: nat)
    requires Shape(s) && h < |s.tasks| && d < 2
    ensures SamePackets(s, RaiseStep(s, h, d))
  {
    if s.lists[2 + d] != [] { TakeKeepsPackets(s, h, 2 + d, Handling); }
    hide Take;
  }

  lemma GoKeepsPackets(s: State, h: nat, stop: bool)
    requires Shape(s) && h < |s.tasks| && !s.tasks[h].Idle? && Named(s.tasks[h])
    requires s.tasks[h].Carry? ==> s.tasks[h].pkt in s.spot
    ensures SamePackets(s, GoStep(s, h, stop))
  {
    match s.tasks[h] {
      case Carry(pkt, route) => CarryKeepsPackets(s, h, pkt, route);
      case Raise(d) => RaiseKeepsPackets(s, h, d);
      case Taking(d) => if s.lists[2 + d] != [] { TakeKeepsPackets(s, h, 2 + d, Polling); }
      case _ =>
    }
    hide Placed, NextOk, Take, CarryStep, RaiseStep, Wakes;
  }

  lemma StepKeepsPackets(s: State, h: nat, section: Section)
    requires Inv(s)
    ensures SamePackets(s, Step(s, h, section))
  {
    if h < |s.tasks| {
      Mine(s, h);
      hide Shape, Hands, DeviceOk, GetStep, GoStep, NobodyPolls;
      if !s.tasks[h].Idle? {
        GoKeepsPackets(s, h, section.StopPoll?);
      } else if section.GetTx? && section.d < 2 && s.lists[section.d] != [] {
        GetKeepsPackets(s, h, section.d);
      }
    }
  }

  lemma TopIsKnown(spot: map<Packet, Spot>, lists: Lists, k: nat)
    requires Placed(spot, lists) && k < 4 && lists[k] != []
    ensures Top(lists[k]) in spot
  {
    assert lists[k][|lists[k]| - 1] in spot;
  }

  lemma {:induction false} RunKeepsPackets(s: State, steps: Steps)
    requires Inv(s)
    ensures SamePackets(s, After(s, steps))
    decreases |steps|
  {
    if steps != [] {
      StepKeepsInv(s, steps[0].0, steps[0].1);
      StepKeepsPackets(s, steps[0].0, steps[0].1);
      RunKeepsPackets(Step(s, steps[0].0, steps[0].1), steps[1..]);
    }
  }

  lemma RegularMeans(waiting: nat, tasks: seq<Task>, d: nat)
    requires RegularOk(false, waiting, tasks, d) && waiting > 0
    ensures Tell(d) in tasks || Raise(d) in tasks
  {
    assert Tell(d) in multiset(tasks) || Raise(d) in multiset(tasks);
  }

  // What the invariant says of one device: a poll never takes from an empty queue; no queue is left
  // stopped beside a packet once no release is half done; and in the regular mode a frame that waits has
  // an interrupt to come.
  ghost predicate KeepsGoing(s: State, d: nat)
    requires Sized(s) && d < 2
  {
    && (Taking(d) in s.tasks ==> s.lists[2 + d] != [])
    && ((forall task <- s.tasks :: !task.Late?) && s.flags[d].stopped ==> s.lists[d] == [])
    && (!s.napi && s.lists[2 + d] != [] ==> Tell(d) in s.tasks || Raise(d) in s.tasks)
  }

  lemma DeviceMeans(s: State, d: nat)
    requires Sized(s) && d < 2 && DeviceOk(s, d)
    ensures KeepsGoing(s, d)
  {
    if !s.napi && s.lists[2 + d] != [] {
      RegularMeans(|s.lists[2 + d]|, s.tasks, d);
    }
    hide RegularOk;
  }

  // Whatever the handlers do in whatever order, from the setup on: the packets are those of the setup,
  // and each is in exactly one place, once; and every device keeps going.
  lemma Interleave(start: State, steps: Steps, d: nat)
    requires Init(start) && d < 2
    ensures var s := After(start, steps);
      && Inv(s) && s.spot.Keys == start.spot.Keys && |s.tasks| == |start.tasks| && s.napi == start.napi
      && (forall p <- s.spot :: OnePlace(s, p))
      && KeepsGoing(s, d)
  {
    InitHasInv(start);
    RunKeepsInv(start, steps);
    RunKeepsPackets(start, steps);
    var s := After(start, steps);
    forall p <- s.spot
      ensures OnePlace(s, p)
    {
      IsInOnePlace(s, p);
    }
    hide Init, Shape, Hands, OnePlace, DeviceOk, KeepsGoing;
    DeviceMeans(s, d);
  }
}
