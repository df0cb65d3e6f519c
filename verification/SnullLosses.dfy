/** A frame that has lost its poll: when that lasts, and runs from the setup that end badly. */
module SnullLosses {
  import opened Ring
  import opened SnullLists
  import opened SnullSections
  import opened SnullSafety
  import opened SnullRuns

  // ---- when a loss lasts ----

  predicate WaitsFor(spot: Spot, d: nat) {
    spot.On? && spot.list == 2 + d
  }

  // Not every packet of the sender sits in the device's queue; so a frame can still come.
  ghost predicate FrameCanCome(s: State, d: nat) {
    exists p <- s.spot :: p.dev + d == 1 && !WaitsFor(s.spot[p], d)
  }

  // Frames wait, and neither is a poll due nor is anybody going to ask for one.
  ghost predicate Lost(s: State, d: nat) {
    Inv(s) && d < 2 && s.napi && !Served(s, d)
  }

  lemma PoolFeeds(s: State, d: nat)
    requires Shape(s) && d < 2 && s.lists[1 - d] != []
    ensures FrameCanCome(s, d)
  {
    var p := s.lists[1 - d][0];
    assert p in s.spot && s.spot[p] == On(1 - d, 0) && p.dev == Home(1 - d);
  }

  lemma HandFeeds(s: State, h: nat, d: nat)
    requires Hands(s.spot, s.tasks) && d < 2 && h < |s.tasks| && s.tasks[h].Carry? && s.tasks[h].pkt.dev == 1 - d
    ensures FrameCanCome(s, d)
  {
    assert s.spot[s.tasks[h].pkt].InHand?;
  }

  // What stays as it is while the loss lasts.
  ghost predicate SameLoss(s: State, t: State, d: nat) {
    && Sized(s) && Sized(t) && d < 2
    && t.lists[2 + d] == s.lists[2 + d] && t.flags[d].scheduled == s.flags[d].scheduled && t.napi == s.napi
    && (Tell(d) in t.tasks || Raise(d) in t.tasks ==> Tell(d) in s.tasks || Raise(d) in s.tasks)
    && t.spot.Keys == s.spot.Keys
    && forall p <- s.spot :: p.dev + d == 1 ==> t.spot[p] == s.spot[p]
  }

  lemma TakeSparesLoss(s: State, h: nat, k: nat, route: Route, d: nat)
    requires Shape(s) && d < 2 && h < |s.tasks| && k < 4 && s.lists[k] != [] && Home(k) == d
    ensures SameLoss(s, Take(s, h, k, route), d)
  {
    TopIsHome(s.spot, s.lists, k);
    TakenElsewhere(s, h, k, route, d);
  }

  lemma TopIsHome(spot: map<Packet, Spot>, lists: Lists, k: nat)
    requires Placed(spot, lists) && k < 4 && lists[k] != []
    ensures var top: Packet := Top(lists[k]); top in spot && top.dev == Home(k)
  {
    assert lists[k][|lists[k]| - 1] in spot;
  }

  lemma TakenElsewhere(s: State, h: nat, k: nat, route: Route, d: nat)
    requires Sized(s) && d < 2 && h < |s.tasks| && k < 4 && s.lists[k] != [] && k != 2 + d
    requires var top: Packet := Top(s.lists[k]); top in s.spot && top.dev == d
    ensures SameLoss(s, Take(s, h, k, route), d)
  {
    OneMoves(s.tasks, h, Carry(Top(s.lists[k]), route));
  }

  lemma GetSparesLoss(s: State, h: nat, d: nat)
    requires Shape(s) && d < 2 && h < |s.tasks| && s.lists[d] != []
    ensures SameLoss(s, GetStep(s, h, d), d)
  {
    TakeSparesLoss(s, h, d, Sending, d);
    hide Placed, NextOk, Take;
  }

  lemma CarrySparesLoss(s: State, h: nat, pkt: Packet, route: Route, d: nat)
    requires Sized(s) && d < 2 && h < |s.tasks| && pkt.dev == d && pkt in s.spot
    ensures SameLoss(s, CarryStep(s, h, pkt, route), d)
  {
    CarryEffect(s, h, pkt, route, d);
    OneMoves(s.tasks, h, if route.Sending? then Tell(1 - pkt.dev) else Late(pkt, route.Polling?));
  }

  lemma LateSparesLoss(s: State, h: nat, pkt: Packet, polling: bool, d: nat)
    requires Sized(s) && d < 2 && h < |s.tasks| && pkt.dev < 2
    ensures SameLoss(s, LateStep(s, h, pkt, polling), d)
  {
    LateEffect(s, h, pkt, polling, d);
    OneMoves(s.tasks, h, if polling then AtPoll(1 - pkt.dev) else Idle);
    hide Wakes;
  }

  // The handler is in none of the steps that concern the device's queue.
  predicate Aside(task: Task, d: nat) {
    Elsewhere(task) && task != Tell(d) && task != Raise(d) && !Polls(task, d)
  }

  lemma OtherSparesLoss(s: State, h: nat, stop: bool, d: nat)
    requires Shape(s) && d < 2 && h < |s.tasks| && s.napi && Named(s.tasks[h]) && Aside(s.tasks[h], d)
    ensures SameLoss(s, GoStep(s, h, stop), d)
  {
    OtherLists(s, h, stop, d);
    OtherTasks(s, h, stop);
    OtherFlags(s, h, stop, d);
    OneMoves(s.tasks, h, GoStep(s, h, stop).tasks[h]);
    if s.tasks[h].Taking? && s.lists[2 + s.tasks[h].d] != [] {
      TakeSparesLoss(s, h, 2 + s.tasks[h].d, Polling, d);
    }
    hide Placed, NextOk, Take;
  }

  // A step while no frame can come changes nothing about a loss.
  lemma StepSparesLoss(s: State, h: nat, section: Section, d: nat)
    requires Lost(s, d) && !FrameCanCome(s, d)
    ensures SameLoss(s, Step(s, h, section), d)
  {
    if h < |s.tasks| {
      Mine(s, h);
      EndingIsScheduled(s, h, d);
      if s.lists[1 - d] != [] { PoolFeeds(s, d); }
      if s.tasks[h].Carry? && s.tasks[h].pkt.dev == 1 - d { HandFeeds(s, h, d); }
      StepOf(s, h, section, d);
    }
  }

  lemma StepOf(s: State, h: nat, section: Section, d: nat)
    requires Shape(s) && d < 2 && s.napi && !Served(s, d) && h < |s.tasks| && Named(s.tasks[h])
    requires s.lists[1 - d] == [] && !Polls(s.tasks[h], d)
    requires s.tasks[h].Carry? ==> s.tasks[h].pkt in s.spot && s.tasks[h].pkt.dev == d
    ensures SameLoss(s, Step(s, h, section), d)
  {
    assert |s.lists| == 4 && s.tasks[h] in s.tasks;
    hide BeginStep, GoStep;
    if s.tasks[h].Idle? {
      BeginOf(s, h, section, d);
    } else {
      GoOf(s, h, section.StopPoll?, d);
    }
    hide Shape, SameLoss;
  }

  lemma StartSparesLoss(s: State, h: nat, e: nat, d: nat)
    requires Sized(s) && d < 2 && h < |s.tasks|
    ensures SameLoss(s, s, d) && SameLoss(s, Now(s, h, AtPoll(e)), d)
  {
    OneMoves(s.tasks, h, AtPoll(e));
  }

  lemma BeginOf(s: State, h: nat, section: Section, d: nat)
    requires Shape(s) && Sized(s) && d < 2 && h < |s.tasks| && s.tasks[h].Idle? && s.lists[1 - d] == []
    ensures SameLoss(s, BeginStep(s, h, section), d)
  {
    if section.GetTx? && section.d == d && s.lists[d] != [] { GetSparesLoss(s, h, d); }
    StartSparesLoss(s, h, if section.StartPoll? then section.d else d, d);
    hide Shape, GetStep, NobodyPolls, SameLoss;
  }

  lemma GoOf(s: State, h: nat, stop: bool, d: nat)
    requires Shape(s) && Sized(s) && d < 2 && s.napi && h < |s.tasks| && Named(s.tasks[h]) && !s.tasks[h].Idle?
    requires Tell(d) !in s.tasks && Raise(d) !in s.tasks && !Polls(s.tasks[h], d)
    requires s.tasks[h].Carry? ==> s.tasks[h].pkt in s.spot && s.tasks[h].pkt.dev == d
    ensures SameLoss(s, GoStep(s, h, stop), d)
  {
    assert s.tasks[h] in s.tasks;
    match s.tasks[h] {
      case Carry(pkt, route) => CarrySparesLoss(s, h, pkt, route, d);
      case Late(pkt, polling) => LateSparesLoss(s, h, pkt, polling, d);
      case _ => OtherSparesLoss(s, h, stop, d);
    }
    hide Shape, CarryStep, LateStep, SameLoss;
  }

  lemma SameLossLasts(s: State, t: State, d: nat)
    requires Lost(s, d) && !FrameCanCome(s, d) && SameLoss(s, t, d) && Inv(t)
    ensures Lost(t, d) && !FrameCanCome(t, d)
  {
    hide Inv;
  }

  // Once every packet of the sender sits in the queue, the frames wait through every further run.
  lemma {:induction false} LossLasts(s: State, steps: Steps, d: nat)
    requires Lost(s, d) && !FrameCanCome(s, d)
    ensures var t := After(s, steps); Lost(t, d) && t.lists[2 + d] == s.lists[2 + d]
    decreases |steps|
  {
    if steps != [] {
      var t := Step(s, steps[0].0, steps[0].1);
      StepKeepsInv(s, steps[0].0, steps[0].1);
      StepSparesLoss(s, steps[0].0, steps[0].1, d);
      SameLossLasts(s, t, d);
      LossLasts(t, steps[1..], d);
    }
  }

  // ---- when it can be made good ----

  // The interrupts of the device are on, and nothing that would ask for a poll is under way.
  ghost predicate Ready(s: State, d: nat) {
    Lost(s, d) && s.flags[d].enabled
  }

  lemma LostMeans(s: State, d: nat)
    requires Lost(s, d)
    ensures Sized(s) && !s.flags[d].scheduled && Tell(d) !in s.tasks && Raise(d) !in s.tasks && s.lists[2 + d] != []
    ensures s.tasks != [] && (s.flags[d].enabled || Enabling(d) in s.tasks)
    ensures forall h :: 0 <= h < |s.tasks| ==> !Polls(s.tasks[h], d)
  {
  }

  lemma OneStep(s: State, h: nat, section: Section)
    ensures After(s, [(h, section)]) == Step(s, h, section)
  {
    assert [(h, section)][1..] == [];
  }

  lemma FirstStep(s: State, h: nat, section: Section, rest: Steps)
    ensures After(s, [(h, section)] + rest) == After(Step(s, h, section), rest)
  {
    assert ([(h, section)] + rest)[1..] == rest;
  }

  lemma GoOnIs(s: State, h: nat)
    requires Sized(s) && h < |s.tasks| && !s.tasks[h].Idle? && Named(s.tasks[h])
    ensures Step(s, h, GoOn) == GoStep(s, h, false)
  {
    hide GoStep;
  }

  // A step that brings the device no frame, and nobody who asks for a poll.
  lemma ReadyAgain(s: State, t: State, d: nat, h: nat, next: Task)
    requires Lost(s, d) && Inv(t) && t.napi && t.flags[d].enabled && !t.flags[d].scheduled
    requires t.lists[2 + d] == s.lists[2 + d] && h < |s.tasks| && t.tasks == s.tasks[h := next]
    requires next != Tell(d) && next != Raise(d)
    ensures Ready(t, d)
  {
    LostMeans(s, d);
    OneMoves(s.tasks, h, next);
    hide Inv;
  }

  // A handler with a frame for the device brings it in, sees that interrupts are on, and a poll is due.
  lemma FromHand(s: State, h: nat, pkt: Packet, d: nat) returns (steps: Steps)
    requires Sized(s) && s.napi && d < 2 && s.flags[d].enabled
    requires h < |s.tasks| && s.tasks[h] == Carry(pkt, Sending) && pkt.dev == 1 - d
    ensures Sized(After(s, steps)) && After(s, steps).flags[d].scheduled
  {
    CarryEffect(s, h, pkt, Sending, d);
    var t := Step(s, h, GoOn);
    steps := FromTell(t, h, d);
    FirstStep(s, h, GoOn, steps);
    steps := [(h, GoOn)] + steps;
    hide CarryStep;
  }

  lemma FromTell(s: State, h: nat, d: nat) returns (steps: Steps)
    requires Sized(s) && s.napi && d < 2 && s.flags[d].enabled && h < |s.tasks| && s.tasks[h] == Tell(d)
    ensures Sized(After(s, steps)) && After(s, steps).flags[d].scheduled
  {
    var t := Step(s, h, GoOn);
    FirstStep(s, h, GoOn, [(h, GoOn)]);
    OneStep(t, h, GoOn);
    steps := [(h, GoOn)] + [(h, GoOn)];
  }

  // How many more steps a handler takes at most before it is idle, if it leaves its poll.
  function StepsLeft(task: Task): nat {
    match task
    case Idle => 0
    case Enabling(_) => 1
    case Raise(_) => 1
    case Ending(_) => 2
    case Tell(_) => 2
    case Leaving(_) => 3
    case AtPoll(_) => 4
    case Late(_, _) => 5
    case Carry(_, _) => 6
    case Taking(_) => 7
  }

  // The pool has a packet and its queue runs.
  predicate CanSend(s: State, e: nat) {
    Sized(s) && e < 2 && s.lists[e] != [] && !s.flags[e].stopped
  }

  // A handler that goes on towards being idle leaves all this as it is, unless it has a frame to bring.
  lemma GoesIdle(s: State, h: nat, d: nat, e: nat)
    requires Ready(s, d) && d + e == 1 && CanSend(s, e) && h < |s.tasks| && !s.tasks[h].Idle?
    requires !(s.tasks[h].Carry? && s.tasks[h].route.Sending? && s.tasks[h].pkt.dev == e)
    ensures var t := GoStep(s, h, true);
            Named(s.tasks[h]) && Ready(t, d) && CanSend(t, e) && |t.tasks| == |s.tasks|
            && StepsLeft(t.tasks[h]) < StepsLeft(s.tasks[h])
  {
    Mine(s, h);
    LostMeans(s, d);
    GoKeepsInv(s, h, true);
    assert s.tasks[h] in s.tasks;
    if s.tasks[h].Taking? { EndingIsScheduled(s, h, s.tasks[h].d); }
    hide Inv, GoStep;
    GoesOn(s, h, d, e);
  }

  lemma GoesOn(s: State, h: nat, d: nat, e: nat)
    requires Sized(s) && s.napi && d + e == 1 && h < |s.tasks| && !s.tasks[h].Idle? && Named(s.tasks[h])
    requires !(s.tasks[h].Carry? && s.tasks[h].route.Sending? && s.tasks[h].pkt.dev == e)
    requires !s.flags[d].scheduled && Tell(d) !in s.tasks && Raise(d) !in s.tasks && s.lists[2 + d] != []
    requires s.flags[d].enabled && CanSend(s, e) && !Polls(s.tasks[h], d) && s.tasks[h] in s.tasks
    requires s.tasks[h].Taking? ==> s.lists[2 + s.tasks[h].d] != []
    ensures var t := GoStep(s, h, true);
            && Sized(t) && |t.tasks| == |s.tasks| && t.napi && !Served(t, d) && t.flags[d].enabled && CanSend(t, e)
            && StepsLeft(t.tasks[h]) < StepsLeft(s.tasks[h])
  {
    var t := GoStep(s, h, true);
    match s.tasks[h] {
      case Carry(pkt, route) =>
        CarryEffect(s, h, pkt, route, d);
        CarryEffect(s, h, pkt, route, e);
      case Late(pkt, polling) =>
        LateEffect(s, h, pkt, polling, d);
        LateEffect(s, h, pkt, polling, e);
      case _ =>
        OtherLists(s, h, true, d);
        OtherLists(s, h, true, e);
        OtherTasks(s, h, true);
        OtherFlags(s, h, true, d);
        OtherFlags(s, h, true, e);
        OtherGoesOn(s, h);
    }
    OneMoves(s.tasks, h, t.tasks[h]);
    hide CarryStep, LateStep, Wakes, GoStep;
  }

  lemma OtherGoesOn(s: State, h: nat)
    requires Sized(s) && s.napi && h < |s.tasks| && Elsewhere(s.tasks[h]) && Named(s.tasks[h])
    requires s.tasks[h].Taking? ==> s.lists[2 + s.tasks[h].d] != []
    ensures var t := GoStep(s, h, true);
            && |t.tasks| == |s.tasks| && StepsLeft(t.tasks[h]) < StepsLeft(s.tasks[h]) && !t.tasks[h].Tell?
            && (t.tasks[h].Raise? ==> s.tasks[h].Tell? && s.tasks[h].d == t.tasks[h].d)
  {
  }

  // With a packet in the pool and the queue running, a handler sends a frame.
  lemma {:induction false} FromRunning(s: State, d: nat, e: nat) returns (steps: Steps)
    requires Ready(s, d) && d + e == 1 && CanSend(s, e)
    ensures Sized(After(s, steps)) && After(s, steps).flags[d].scheduled
    decreases StepsLeft(if s.tasks == [] then Idle else s.tasks[0])
  {
    LostMeans(s, d);
    Mine(s, 0);
    hide Inv;
    if s.tasks[0].Idle? {
      steps := FromIdle(s, 0, d, e);
    } else if s.tasks[0].Carry? && s.tasks[0].route.Sending? && s.tasks[0].pkt.dev == e {
      steps := FromHand(s, 0, s.tasks[0].pkt, d);
    } else {
      GoesIdle(s, 0, d, e);
      var section := if s.tasks[0].AtPoll? then StopPoll else GoOn;
      assert Step(s, 0, section) == GoStep(s, 0, true);
      steps := FromRunning(GoStep(s, 0, true), d, e);
      FirstStep(s, 0, section, steps);
      steps := [(0, section)] + steps;
    }
  }

  lemma FromIdle(s: State, h: nat, d: nat, e: nat) returns (steps: Steps)
    requires Ready(s, d) && d + e == 1 && CanSend(s, e) && h < |s.tasks| && s.tasks[h].Idle?
    ensures Sized(After(s, steps)) && After(s, steps).flags[d].scheduled
  {
    var top: Packet := Top(s.lists[e]);
    TopIsHome(s.spot, s.lists, e);
    GetEffect(s, h, e, d);
    var t := Step(s, h, GetTx(e));
    hide Inv, GetStep;
    assert t == GetStep(s, h, e);
    steps := FromHand(t, h, top, d);
    FirstStep(s, h, GetTx(e), steps);
    steps := [(h, GetTx(e))] + steps;
  }

  // A stopped queue beside a packet is started first, by the handler that still has to test.
  lemma WhoStarts(s: State, d: nat, e: nat) returns (g: nat, p: Packet)
    requires Ready(s, d) && d + e == 1 && s.lists[e] != [] && s.flags[e].stopped
    ensures g < |s.tasks| && s.tasks[g] == Late(p, false) && p.dev == e && Wakes(s, p)
  {
    LostMeans(s, d);
    Bottom(s, e);
    p := s.lists[e][0];
    assert LateComes(s.tasks, p) by { assert DeviceOk(s, e); }
    hide Inv;
    g :| g < |s.tasks| && (s.tasks[g] == Late(p, true) || s.tasks[g] == Late(p, false));
    assert !Polls(s.tasks[g], d);
  }

  lemma StartQueue(s: State, d: nat, e: nat) returns (g: nat)
    requires Ready(s, d) && d + e == 1 && s.lists[e] != [] && s.flags[e].stopped
    ensures var t := Step(s, g, GoOn); Ready(t, d) && CanSend(t, e)
  {
    LostMeans(s, d);
    hide Inv, Wakes;
    var p;
    g, p := WhoStarts(s, d, e);
    LateEffect(s, g, p, false, d);
    LateEffect(s, g, p, false, e);
    StepKeepsInv(s, g, GoOn);
    GoOnIs(s, g);
    hide LateStep, Step;
    ReadyAgain(s, LateStep(s, g, p, false), d, g, Idle);
  }

  lemma FromPool(s: State, d: nat, e: nat) returns (steps: Steps)
    requires Ready(s, d) && d + e == 1 && s.lists[e] != []
    ensures Sized(After(s, steps)) && After(s, steps).flags[d].scheduled
  {
    if s.flags[e].stopped {
      var g := StartQueue(s, d, e);
      steps := FromRunning(Step(s, g, GoOn), d, e);
      FirstStep(s, g, GoOn, steps);
      steps := [(g, GoOn)] + steps;
    } else {
      steps := FromRunning(s, d, e);
    }
  }

  // A handler that holds a packet of the sender without sending puts it back.
  lemma PutBack(s: State, h: nat, d: nat, e: nat)
    requires Ready(s, d) && d + e == 1 && h < |s.tasks| && s.tasks[h].Carry? && s.tasks[h].pkt.dev == e
    requires !s.tasks[h].route.Sending?
    ensures var t := Step(s, h, GoOn); Ready(t, d) && t.lists[e] != []
  {
    LostMeans(s, d);
    hide Inv;
    var pkt, route := s.tasks[h].pkt, s.tasks[h].route;
    CarryEffect(s, h, pkt, route, d);
    CarryEffect(s, h, pkt, route, e);
    StepKeepsInv(s, h, GoOn);
    GoOnIs(s, h);
    hide CarryStep, Step;
    ReadyAgain(s, CarryStep(s, h, pkt, route), d, h, Late(pkt, route.Polling?));
  }

  lemma FromReady(s: State, d: nat, e: nat) returns (steps: Steps)
    requires Ready(s, d) && d + e == 1 && FrameCanCome(s, d)
    ensures Sized(After(s, steps)) && After(s, steps).flags[d].scheduled
  {
    if s.lists[e] != [] {
      steps := FromPool(s, d, e);
      return;
    }
    var p :| p in s.spot && p.dev + d == 1 && !WaitsFor(s.spot[p], d);
    var h := InSomeHand(s, p, d);
    if s.tasks[h].route.Sending? {
      steps := FromHand(s, h, p, d);
    } else {
      PutBack(s, h, d, e);
      steps := FromPool(Step(s, h, GoOn), d, e);
      FirstStep(s, h, GoOn, steps);
      steps := [(h, GoOn)] + steps;
    }
  }

  lemma PlaceIsHome(spot: map<Packet, Spot>, lists: Lists, p: Packet)
    requires Placed(spot, lists) && p in spot && spot[p].On?
    ensures spot[p].list < 4 && lists[spot[p].list] != [] && p.dev == Home(spot[p].list)
  {
    assert lists[spot[p].list][spot[p].i] == p;
  }

  lemma InSomeHand(s: State, p: Packet, d: nat) returns (h: nat)
    requires Inv(s) && d < 2 && s.lists[1 - d] == [] && p in s.spot && p.dev + d == 1 && !WaitsFor(s.spot[p], d)
    ensures h < |s.tasks| && Holds(s.tasks[h], p)
  {
    assert s.spot[p].InHand? || s.spot[p].On?;
    if s.spot[p].On? { PlaceIsHome(s.spot, s.lists, p); }
    h :| h < |s.tasks| && Holds(s.tasks[h], p);
  }

  lemma SamePlacesFeed(s: State, t: State, d: nat)
    requires FrameCanCome(s, d) && t.spot == s.spot
    ensures FrameCanCome(t, d)
  {
  }

  lemma MadeGood(s: State, d: nat) returns (steps: Steps)
    requires Lost(s, d) && FrameCanCome(s, d)
    ensures Sized(After(s, steps)) && After(s, steps).flags[d].scheduled
  {
    if s.flags[d].enabled {
      steps := FromReady(s, d, 1 - d);
      return;
    }
    LostMeans(s, d);
    hide Inv;
    var g: nat :| g < |s.tasks| && s.tasks[g] == Enabling(d);
    var t := Step(s, g, GoOn);
    StepKeepsInv(s, g, GoOn);
    GoOnIs(s, g);
    hide Step, FrameCanCome;
    ReadyAgain(s, t, d, g, Idle);
    SamePlacesFeed(s, t, d);
    steps := FromReady(t, d, 1 - d);
    FirstStep(s, g, GoOn, steps);
    steps := [(g, GoOn)] + steps;
  }

  predicate PollDue(s: State, d: nat) {
    Sized(s) && d < 2 && s.flags[d].scheduled
  }

  // A loss can be made good, by a run after which a poll is due again, exactly if some packet of the
  // sender is not in the queue; otherwise the frames wait for ever.
  lemma LastsExactly(s: State, d: nat)
    requires Lost(s, d)
    ensures (exists steps: Steps :: PollDue(After(s, steps), d)) <==> FrameCanCome(s, d)
    ensures (forall steps: Steps :: Lost(After(s, steps), d)) <==> !FrameCanCome(s, d)
  {
    if FrameCanCome(s, d) {
      var steps := MadeGood(s, d);
      assert PollDue(After(s, steps), d) && !Lost(After(s, steps), d);
    } else {
      forall steps: Steps
        ensures Lost(After(s, steps), d) && !PollDue(After(s, steps), d)
      {
        LossLasts(s, steps, d);
        LostMeans(After(s, steps), d);
      }
    }
  }

  // ---- a poll that others interrupt ----

  // A frame comes in for the device.
  predicate Arrives(s: State, h: nat, section: Section, d: nat) {
    h < |s.tasks| && section.GoOn? && s.tasks[h].Carry? && s.tasks[h].route.Sending? && s.tasks[h].pkt.dev + d == 1
  }

  function Arrivals(s: State, steps: Steps, d: nat): nat
    decreases |steps|
  {
    if steps == [] then 0
    else (if Arrives(s, steps[0].0, steps[0].1, d) then 1 else 0)
         + Arrivals(Step(s, steps[0].0, steps[0].1), steps[1..], d)
  }

  // While one handler is in the poll of the device, nobody else takes from the queue.
  lemma OthersOnlyBring(s: State, h: nat, section: Section, d: nat, g: nat)
    requires Inv(s) && d < 2 && g < |s.tasks| && Polls(s.tasks[g], d) && h != g
    ensures var t := Step(s, h, section);
            && Inv(t) && |t.tasks| == |s.tasks| && t.tasks[g] == s.tasks[g]
            && |t.lists[2 + d]| == |s.lists[2 + d]| + if Arrives(s, h, section, d) then 1 else 0
  {
    StepKeepsInv(s, h, section);
    if h < |s.tasks| {
      Mine(s, h);
      assert !Polls(s.tasks[h], d) && s.napi;
      hide Inv;
      BringsOf(s, h, section, d);
    }
  }

  lemma BringsOf(s: State, h: nat, section: Section, d: nat)
    requires Sized(s) && s.napi && d < 2 && h < |s.tasks| && Named(s.tasks[h]) && !Polls(s.tasks[h], d)
    ensures Brings(s, Step(s, h, section), h, d, Arrives(s, h, section, d))
  {
    hide BeginStep, GoStep, Brings;
    if s.tasks[h].Idle? {
      BeginBrings(s, h, section, d);
    } else {
      GoBrings(s, h, section.StopPoll?, d);
    }
    NothingBrings(s, h, d);
  }

  // Only this handler has moved, and a frame has come in or not.
  predicate Brings(s: State, t: State, h: nat, d: nat, arrives: bool)
    requires Sized(s) && h < |s.tasks| && d < 2
  {
    && Sized(t) && |t.tasks| == |s.tasks| && t.tasks == s.tasks[h := t.tasks[h]]
    && |t.lists[2 + d]| == |s.lists[2 + d]| + if arrives then 1 else 0
  }

  lemma NothingBrings(s: State, h: nat, d: nat)
    requires Sized(s) && h < |s.tasks| && d < 2
    ensures Brings(s, s, h, d, false)
  {
  }

  lemma BeginBrings(s: State, h: nat, section: Section, d: nat)
    requires Sized(s) && d < 2 && h < |s.tasks| && s.tasks[h].Idle?
    ensures Brings(s, BeginStep(s, h, section), h, d, false)
  {
    if section.GetTx? && section.d < 2 && s.lists[section.d] != [] { GetEffect(s, h, section.d, d); }
    hide GetStep, NobodyPolls;
  }

  lemma GoBrings(s: State, h: nat, stop: bool, d: nat)
    requires Sized(s) && s.napi && d < 2 && h < |s.tasks| && !s.tasks[h].Idle?
    requires Named(s.tasks[h]) && !Polls(s.tasks[h], d)
    ensures Brings(s, GoStep(s, h, stop), h, d, Arrives(s, h, GoOn, d))
  {
    match s.tasks[h] {
      case Carry(pkt, route) => CarryEffect(s, h, pkt, route, d);
      case Late(pkt, polling) => LateEffect(s, h, pkt, polling, d);
      case _ =>
        OtherLists(s, h, stop, d);
        OtherTasks(s, h, stop);
        OtherFlags(s, h, stop, d);
    }
    hide CarryStep, LateStep, RaiseStep;
  }

  lemma {:induction false} OthersAllBring(s: State, steps: Steps, d: nat, g: nat)
    requires Inv(s) && d < 2 && g < |s.tasks| && Polls(s.tasks[g], d) && forall step <- steps :: step.0 != g
    ensures var t := After(s, steps);
            && Inv(t) && |t.tasks| == |s.tasks| && t.tasks[g] == s.tasks[g]
            && |t.lists[2 + d]| == |s.lists[2 + d]| + Arrivals(s, steps, d)
    decreases |steps|
  {
    if steps != [] {
      OthersOnlyBring(s, steps[0].0, steps[0].1, d, g);
      OthersAllBring(Step(s, steps[0].0, steps[0].1), steps[1..], d, g);
    }
  }

  // The poll is complete, and so many frames are in the queue.
  ghost predicate Completed(s: State, d: nat, g: nat, waiting: nat) {
    Inv(s) && d < 2 && g < |s.tasks| && s.tasks[g] == Enabling(d) && |s.lists[2 + d]| == waiting
  }

  // A poll that has found the queue empty, any sections of the others, and its end: frames are then
  // without a poll exactly if one has come in meanwhile and every sender has looked at the interrupts.
  lemma PollAcross(s: State, steps: Steps, d: nat, g: nat)
    requires Inv(s) && d < 2 && g < |s.tasks| && s.tasks[g] == Ending(d) && s.lists[2 + d] == []
    requires forall step <- steps :: step.0 != g
    ensures var u := After(s, steps);
            var t := Step(u, g, GoOn);
            && Completed(t, d, g, Arrivals(s, steps, d))
            && (Lost(t, d) <==> Arrivals(s, steps, d) > 0 && Tell(d) !in u.tasks && Raise(d) !in u.tasks)
  {
    OthersAllBring(s, steps, d, g);
    var u := After(s, steps);
    var t := Step(u, g, GoOn);
    StepKeepsInv(u, g, GoOn);
    EndingIsNapi(u, d, g);
    hide Inv;
    GoOnIs(u, g);
    OneMoves(u.tasks, g, Enabling(d));
    hide Step;
  }

  lemma EndingIsNapi(s: State, d: nat, g: nat)
    requires Inv(s) && d < 2 && g < |s.tasks| && s.tasks[g] == Ending(d)
    ensures s.napi && s.flags[d].scheduled
  {
    assert Polls(s.tasks[g], d);
  }
}
