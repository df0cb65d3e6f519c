/**
 The two snull devices as a step machine for any number of handlers.  A step is one section under a
 device's lock, or one look or store outside it; a handler does its steps in the order of the routine
 it is in, and the handlers' steps mix in any order.
 */
module SnullSections {
  import opened Ring
  import opened SnullLists

  // Whether the transmit queue is stopped, a poll is due, and receive interrupts are on.
  datatype Flags = Flags(stopped: bool, scheduled: bool, enabled: bool)

  // What a handler does with the packet in its hand.
  datatype Route = Sending | Handling | Polling

  // Where a handler is.
  datatype Task =
    | Idle
    | Carry(pkt: Packet, route: Route)
    | Tell(d: nat)                       // a frame is queued for the device; are its interrupts on?
    | Raise(d: nat)                      // they were: the interrupt
    | Late(pkt: Packet, polling: bool)   // a packet is released; has the queue to be woken?
    | AtPoll(d: nat)                     // at the head of the poll's loop
    | Taking(d: nat)                     // it has found a frame
    | Leaving(d: nat)                    // out of the loop
    | Ending(d: nat)                     // the queue was empty: the poll is complete
    | Enabling(d: nat)                   // and interrupts come on again

  // The lists bottom first, where every packet is, and the link in each.
  datatype State = State(
    napi: bool,
    lists: Lists,
    spot: map<Packet, Spot>,
    next: map<Packet, Packet?>,
    flags: seq<Flags>,
    tasks: seq<Task>)

  // An idle handler sends on a device or polls one; the others go on, or leave a poll for its quota.
  datatype Section = GetTx(d: nat) | StartPoll(d: nat) | GoOn | StopPoll

  // In the poll of a device, up to its completion.
  predicate Polls(task: Task, d: nat) {
    match task
    case AtPoll(e) => e == d
    case Taking(e) => e == d
    case Leaving(e) => e == d
    case Ending(e) => e == d
    case Carry(pkt, route) => route.Polling? && pkt.dev + d == 1
    case Late(pkt, polling) => polling && pkt.dev + d == 1
    case _ => false
  }

  predicate NobodyPolls(tasks: seq<Task>, d: nat) {
    forall task <- tasks :: !Polls(task, d)
  }

  // ---- the steps ----

  predicate Sized(s: State) {
    |s.lists| == 4 && |s.flags| == 2
  }

  function Now(s: State, h: nat, task: Task): State
    requires h < |s.tasks|
  {
    s.(tasks := s.tasks[h := task])
  }

  function Flagged(s: State, d: nat, flags: Flags): State
    requires d < |s.flags|
  {
    s.(flags := s.flags[d := flags])
  }

  // The packet at the head of a list goes into the handler's hand.
  function Take(s: State, h: nat, k: nat, route: Route): State
    requires h < |s.tasks| && k < |s.lists| && s.lists[k] != []
  {
    var pkt: Packet := Top(s.lists[k]);
    Now(s, h, Carry(pkt, route)).(lists := Popped(s.lists, k), spot := s.spot[pkt := InHand])
  }

  // The packet in its hand goes to the head of a list.
  function Put(s: State, h: nat, pkt: Packet, k: nat, task: Task): State
    requires h < |s.tasks| && k < |s.lists|
  {
    Now(s, h, task).(lists := Pushed(s.lists, k, pkt), spot := s.spot[pkt := On(k, |s.lists[k]|)],
                     next := s.next[pkt := Top(s.lists[k])])
  }

  // snull_get_tx_buffer, which stops the queue with the last packet
  function GetStep(s: State, h: nat, d: nat): State
    requires Sized(s) && h < |s.tasks| && d < 2 && s.lists[d] != []
  {
    var t := Take(s, h, d, Sending);
    if t.lists[d] == [] then Flagged(t, d, t.flags[d].(stopped := true)) else t
  }

  // The interrupt: in the polling mode it turns interrupts off and schedules a poll, in the regular one
  // it takes the newest frame.
  function RaiseStep(s: State, h: nat, d: nat): State
    requires Sized(s) && h < |s.tasks| && d < 2
  {
    if s.napi then Flagged(Now(s, h, Idle), d, s.flags[d].(enabled := false, scheduled := true))
    else if s.lists[2 + d] == [] then Now(s, h, Idle)
    else Take(s, h, 2 + d, Handling)
  }

  // The late test finds the queue stopped and nothing behind its packet.
  predicate Wakes(s: State, pkt: Packet)
    requires Sized(s)
  {
    pkt.dev < 2 && pkt in s.next && s.flags[pkt.dev].stopped && s.next[pkt] == null
  }

  function LateStep(s: State, h: nat, pkt: Packet, polling: bool): State
    requires Sized(s) && h < |s.tasks| && pkt.dev < 2
  {
    var t := Now(s, h, if polling then AtPoll(1 - pkt.dev) else Idle);
    if Wakes(s, pkt) then Flagged(t, pkt.dev, s.flags[pkt.dev].(stopped := false)) else t
  }

  function CarryStep(s: State, h: nat, pkt: Packet, route: Route): State
    requires Sized(s) && h < |s.tasks| && pkt.dev < 2
  {
    match route
    case Sending => Put(s, h, pkt, 3 - pkt.dev, Tell(1 - pkt.dev))
    case Handling => Put(s, h, pkt, pkt.dev, Late(pkt, false))
    case Polling => Put(s, h, pkt, pkt.dev, Late(pkt, true))
  }

  // An idle handler.
  function BeginStep(s: State, h: nat, section: Section): State
    requires Sized(s) && h < |s.tasks|
  {
    match section
    case GetTx(d) =>
      if d < 2 && !s.flags[d].stopped && s.lists[d] != [] then GetStep(s, h, d) else s
    case StartPoll(d) =>
      if d < 2 && s.napi && s.flags[d].scheduled && NobodyPolls(s.tasks, d) then Now(s, h, AtPoll(d)) else s
    case _ => s
  }

  // What the handler is about to do names a device.
  predicate Named(task: Task) {
    match task
    case Idle => true
    case Carry(pkt, _) => pkt.dev < 2
    case Late(pkt, _) => pkt.dev < 2
    case _ => task.d < 2
  }

  // A handler goes on; at the head of a poll's loop it may also have used up its quota.
  function GoStep(s: State, h: nat, stop: bool): State
    requires Sized(s) && h < |s.tasks| && !s.tasks[h].Idle? && Named(s.tasks[h])
  {
    match s.tasks[h]
    case Idle => s
    case Carry(pkt, route) => CarryStep(s, h, pkt, route)
    case Tell(d) => Now(s, h, if s.flags[d].enabled then Raise(d) else Idle)
    case Raise(d) => RaiseStep(s, h, d)
    case Late(pkt, polling) => LateStep(s, h, pkt, polling)
    case AtPoll(d) => Now(s, h, if stop || s.lists[2 + d] == [] then Leaving(d) else Taking(d))
    case Taking(d) => if s.lists[2 + d] == [] then s else Take(s, h, 2 + d, Polling)
    case Leaving(d) => Now(s, h, if s.lists[2 + d] == [] then Ending(d) else Idle)
    case Ending(d) => Flagged(Now(s, h, Enabling(d)), d, s.flags[d].(scheduled := false))
    case Enabling(d) => Flagged(Now(s, h, Idle), d, s.flags[d].(enabled := true))
  }

  // One section of one handler; nothing happens if the handler cannot do it.
  function Step(s: State, h: nat, section: Section): State {
    if !Sized(s) || h >= |s.tasks| || !Named(s.tasks[h]) then s
    else if s.tasks[h].Idle? then BeginStep(s, h, section)
    else if section.GoOn? || (section.StopPoll? && s.tasks[h].AtPoll?) then GoStep(s, h, section.StopPoll?)
    else s
  }

  type Steps = seq<(nat, Section)>

  function After(s: State, steps: Steps): State
    decreases |steps|
  {
    if steps == [] then s else After(Step(s, steps[0].0, steps[0].1), steps[1..])
  }

  // ---- the invariant ----

  ghost predicate NextOk(next: map<Packet, Packet?>, lists: Lists) {
    |lists| == 4 &&
    forall k, i {:trigger lists[k][i]} :: 0 <= k < 4 && 0 <= i < |lists[k]| ==>
      lists[k][i] in next && next[lists[k][i]] == Below(lists[k], i)
  }

  ghost predicate Shape(s: State) {
    |s.flags| == 2 && Placed(s.spot, s.lists) && s.next.Keys == s.spot.Keys && NextOk(s.next, s.lists)
  }

  predicate Holds(task: Task, p: Packet) {
    task.Carry? && task.pkt == p
  }

  // The packets in hand are in one hand each.
  ghost predicate Hands(spot: map<Packet, Spot>, tasks: seq<Task>) {
    && (forall h, g :: 0 <= h < g < |tasks| && tasks[h].Carry? && tasks[g].Carry? ==> tasks[h].pkt != tasks[g].pkt)
    && (forall h :: 0 <= h < |tasks| && tasks[h].Carry? ==> tasks[h].pkt in spot && spot[tasks[h].pkt] == InHand)
    && (forall p <- spot :: spot[p] == InHand ==> exists h :: 0 <= h < |tasks| && Holds(tasks[h], p))
    && (forall h :: 0 <= h < |tasks| && tasks[h].Late? ==> tasks[h].pkt in spot)
    && (forall h :: 0 <= h < |tasks| ==> Named(tasks[h]))
  }

  predicate LateComes(tasks: seq<Task>, p: Packet) {
    Late(p, true) in tasks || Late(p, false) in tasks
  }

  // A queue that is stopped beside a packet will be woken: whoever released the packet at the
  // bottom of the pool has not made its test yet.
  ghost predicate WakeComes(pool: seq<Packet>, stopped: bool, tasks: seq<Task>) {
    stopped && pool != [] ==> LateComes(tasks, pool[0])
  }

  // One poll of a device at a time, which is scheduled as long as it lasts; it takes a frame only if
  // one waits; and interrupts that are off will come on.
  ghost predicate PollOk(napi: bool, waits: bool, flags: Flags, tasks: seq<Task>, d: nat) {
    && (forall h, g :: 0 <= h < g < |tasks| && Polls(tasks[h], d) ==> !Polls(tasks[g], d))
    && (forall h :: 0 <= h < |tasks| && Polls(tasks[h], d) ==> flags.scheduled)
    && (Taking(d) in tasks ==> waits)
    && (!flags.enabled ==> flags.scheduled || Enabling(d) in tasks)
    && (!napi ==> flags.enabled && !flags.scheduled && Enabling(d) !in tasks)
  }

  // Looks and interrupts that are due.
  ghost function Tellers(tasks: seq<Task>, d: nat): nat {
    multiset(tasks)[Tell(d)] + multiset(tasks)[Raise(d)]
  }

  // In the regular mode there is an interrupt to come for every frame that waits.
  ghost predicate RegularOk(napi: bool, waiting: nat, tasks: seq<Task>, d: nat) {
    !napi ==> waiting <= Tellers(tasks, d)
  }

  ghost predicate DeviceOk(s: State, d: nat)
    requires Sized(s) && d < 2
  {
    && WakeComes(s.lists[d], s.flags[d].stopped, s.tasks)
    && PollOk(s.napi, s.lists[2 + d] != [], s.flags[d], s.tasks, d)
    && RegularOk(s.napi, |s.lists[2 + d]|, s.tasks, d)
  }

  ghost predicate Inv(s: State) {
    && Sized(s) && Shape(s) && Hands(s.spot, s.tasks) && DeviceOk(s, 0) && DeviceOk(s, 1)
    && (s.lists[2] != [] || s.lists[3] != [] ==> s.tasks != [])
  }

  // The devices as the setup leaves them, with as many idle handlers as one likes.
  ghost predicate Init(s: State) {
    && Shape(s) && (forall p <- s.spot :: s.spot[p].On?) && s.lists[2] == s.lists[3] == []
    && (forall d :: 0 <= d < 2 ==> s.flags[d] == Flags(false, false, true))
    && (forall task <- s.tasks :: task.Idle?)
  }
}
