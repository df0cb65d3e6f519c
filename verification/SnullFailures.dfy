/** Runs from the setup of the polling mode in which a queue or a frame is left in the wrong state. */
module SnullFailures {
  import opened Ring
  import opened SnullLists
  import opened SnullSections
  import opened SnullSafety
  import opened SnullRuns
  import opened SnullLosses

  function Rest<T>(s: seq<T>): seq<T>
    requires s != []
  {
    s[..|s| - 1]
  }

  // Handler h is idle, device 0 can send, and a look at device 1 finds its interrupts on or off.
  ghost predicate Sender(s: State, h: nat, on: bool) {
    Inv(s) && s.napi && h < |s.tasks| && s.tasks[h].Idle? && CanSend(s, 0) && s.flags[1].enabled == on
  }

  // What one frame from device 0 to device 1 changes, with the sender idle again: a poll is due now,
  // or interrupts were off.
  ghost predicate FrameSent(s: State, t: State, on: bool)
    requires Sized(s) && s.lists[0] != []
  {
    && Inv(t) && Sized(t) && t.napi == s.napi && t.tasks == s.tasks
    && t.lists[0] == Rest(s.lists[0]) && t.lists[3] == s.lists[3] + [Top(s.lists[0])]
    && t.flags[0].stopped == (t.lists[0] == [])
    && t.flags[1] == s.flags[1].(scheduled := on || s.flags[1].scheduled, enabled := false)
  }

  // Taking a packet, and queueing it.
  lemma FrameTaken(s: State, h: nat) returns (t: State, top: Packet)
    requires Inv(s) && s.napi && h < |s.tasks| && s.tasks[h].Idle? && CanSend(s, 0)
    ensures Inv(t) && Sized(t) && t == Step(s, h, GetTx(0)) && t.napi && t.tasks == s.tasks[h := Carry(top, Sending)]
    ensures top == Top(s.lists[0]) && top.dev == 0 && t.lists[0] == Rest(s.lists[0]) && t.lists[3] == s.lists[3]
    ensures t.flags[0].stopped == (t.lists[0] == []) && t.flags[1] == s.flags[1]
  {
    top := Top(s.lists[0]);
    TopIsHome(s.spot, s.lists, 0);
    StepKeepsInv(s, h, GetTx(0));
    hide Inv;
    t := GetStep(s, h, 0);
    assert Step(s, h, GetTx(0)) == t;
    GetEffect(s, h, 0, 0);
    GetEffect(s, h, 0, 1);
    hide GetStep;
  }

  lemma FrameQueued(s: State, h: nat, top: Packet) returns (t: State)
    requires Inv(s) && s.napi && h < |s.tasks| && s.tasks[h] == Carry(top, Sending) && top.dev == 0
    ensures Inv(t) && Sized(t) && t == Step(s, h, GoOn) && t.napi && t.tasks == s.tasks[h := Tell(1)]
    ensures t.lists[0] == s.lists[0] && t.lists[3] == s.lists[3] + [top] && t.flags == s.flags
  {
    StepKeepsInv(s, h, GoOn);
    hide Inv;
    GoOnIs(s, h);
    t := CarryStep(s, h, top, Sending);
    CarryEffect(s, h, top, Sending, 0);
    CarryEffect(s, h, top, Sending, 1);
    hide CarryStep, Step;
  }

  lemma Told(s: State, h: nat) returns (t: State)
    requires Inv(s) && s.napi && h < |s.tasks| && s.tasks[h] == Tell(1)
    ensures Inv(t) && Sized(t) && t == Step(s, h, GoOn) && t == Now(s, h, if s.flags[1].enabled then Raise(1) else Idle)
  {
    StepKeepsInv(s, h, GoOn);
    hide Inv;
    t := Step(s, h, GoOn);
  }

  lemma Raised(s: State, h: nat) returns (t: State)
    requires Inv(s) && s.napi && h < |s.tasks| && s.tasks[h] == Raise(1)
    ensures Inv(t) && Sized(t) && t == Step(s, h, GoOn)
    ensures t == Flagged(Now(s, h, Idle), 1, s.flags[1].(enabled := false, scheduled := true))
  {
    StepKeepsInv(s, h, GoOn);
    hide Inv;
    t := Step(s, h, GoOn);
  }

  // With interrupts off the sender is done after its look.
  lemma SendUnheard(s: State, h: nat) returns (steps: Steps)
    requires Sender(s, h, false)
    ensures FrameSent(s, After(s, steps), false)
  {
    hide Inv, Step;
    var t, top := FrameTaken(s, h);
    var u := FrameQueued(t, h, top);
    var v := Told(u, h);
    assert v.tasks == s.tasks;
    steps := [(h, GetTx(0))] + ([(h, GoOn)] + [(h, GoOn)]);
    FirstStep(s, h, GetTx(0), [(h, GoOn)] + [(h, GoOn)]);
    FirstStep(t, h, GoOn, [(h, GoOn)]);
    OneStep(u, h, GoOn);
    hide After;
  }

  // With interrupts on it raises one, and a poll is due.
  lemma SendHeard(s: State, h: nat) returns (steps: Steps)
    requires Sender(s, h, true)
    ensures FrameSent(s, After(s, steps), true)
  {
    hide Inv, Step;
    var t, top := FrameTaken(s, h);
    var u := FrameQueued(t, h, top);
    var v := Told(u, h);
    var w := Raised(v, h);
    assert w.tasks == s.tasks;
    steps := [(h, GetTx(0))] + ([(h, GoOn)] + ([(h, GoOn)] + [(h, GoOn)]));
    FirstStep(s, h, GetTx(0), [(h, GoOn)] + ([(h, GoOn)] + [(h, GoOn)]));
    FirstStep(t, h, GoOn, [(h, GoOn)] + [(h, GoOn)]);
    FirstStep(u, h, GoOn, [(h, GoOn)]);
    OneStep(v, h, GoOn);
    hide After;
  }

  // Device 0 sends until its pool is empty; the packet that it takes first ends up right behind what
  // was in the queue.
  lemma {:induction false} SendRest(s: State, h: nat) returns (steps: Steps)
    requires Sender(s, h, false)
    ensures var t := After(s, steps);
            && Inv(t) && Sized(t) && t.napi && t.tasks == s.tasks && t.lists[0] == [] && t.flags[0].stopped
            && t.flags[1] == s.flags[1]
            && |t.lists[3]| == |s.lists[3]| + |s.lists[0]| && s.lists[3] + [Top(s.lists[0])] <= t.lists[3]
    decreases |s.lists[0]|
  {
    hide Inv, After;
    steps := SendUnheard(s, h);
    var t := After(s, steps);
    if t.lists[0] != [] {
      var more := SendRest(t, h);
      AfterBoth(s, steps, more);
      steps := steps + more;
    }
  }

  // Handler g can start a poll of device 1, in whose queue there is one frame.
  ghost predicate Poller(s: State, g: nat, pkt: Packet) {
    && Inv(s) && Sized(s) && s.napi && g < |s.tasks| && s.tasks[g].Idle? && NobodyPolls(s.tasks, 1)
    && s.flags[1].scheduled && s.lists[3] == [pkt]
  }

  lemma StartIs(s: State, g: nat)
    requires Sized(s) && s.napi && g < |s.tasks| && s.tasks[g].Idle? && NobodyPolls(s.tasks, 1) && s.flags[1].scheduled
    ensures Step(s, g, StartPoll(1)) == Now(s, g, AtPoll(1))
  {
    hide NobodyPolls, GetStep, GoStep;
  }

  lemma PollStarts(s: State, g: nat, pkt: Packet) returns (t: State)
    requires Poller(s, g, pkt)
    ensures Inv(t) && Sized(t) && t == Step(Step(s, g, StartPoll(1)), g, GoOn) && t == Now(s, g, Taking(1))
  {
    StepKeepsInv(s, g, StartPoll(1));
    StepKeepsInv(Step(s, g, StartPoll(1)), g, GoOn);
    StartIs(s, g);
    hide Inv, NobodyPolls, Step;
    var u := Now(s, g, AtPoll(1));
    GoOnIs(u, g);
    t := GoStep(u, g, false);
    assert s.tasks[g := AtPoll(1)][g := Taking(1)] == s.tasks[g := Taking(1)];
  }

  lemma PollTakes(s: State, g: nat, pkt: Packet) returns (t: State)
    requires Inv(s) && Sized(s) && s.napi && g < |s.tasks| && s.tasks[g] == Taking(1) && s.lists[3] == [pkt]
    ensures Inv(t) && Sized(t) && t == Step(s, g, GoOn) && t.napi && t.tasks == s.tasks[g := Carry(pkt, Polling)]
    ensures t.lists[0] == s.lists[0] && t.lists[3] == [] && t.flags == s.flags && pkt.dev == 0
  {
    TopIsHome(s.spot, s.lists, 3);
    StepKeepsInv(s, g, GoOn);
    hide Inv;
    t := Step(s, g, GoOn);
  }

  lemma PollReleases(s: State, g: nat, pkt: Packet) returns (t: State)
    requires Inv(s) && Sized(s) && s.napi && g < |s.tasks| && s.tasks[g] == Carry(pkt, Polling) && pkt.dev == 0
    ensures Inv(t) && Sized(t) && t == Step(s, g, GoOn) && t.napi && t.tasks == s.tasks[g := Late(pkt, true)]
    ensures t.lists[0] == s.lists[0] + [pkt] && t.lists[3] == s.lists[3] && t.flags == s.flags
  {
    StepKeepsInv(s, g, GoOn);
    hide Inv;
    GoOnIs(s, g);
    t := CarryStep(s, g, pkt, Polling);
    CarryEffect(s, g, pkt, Polling, 0);
    CarryEffect(s, g, pkt, Polling, 1);
    hide CarryStep, Step;
  }

  // The poll has taken the frame and released its packet; the late test is still to come.
  lemma PollOne(s: State, g: nat, pkt: Packet) returns (steps: Steps)
    requires Poller(s, g, pkt)
    ensures var t := After(s, steps);
            && Inv(t) && Sized(t) && t.napi && t.tasks == s.tasks[g := Late(pkt, true)] && pkt.dev == 0
            && t.lists[0] == s.lists[0] + [pkt] && t.lists[3] == [] && t.flags == s.flags
  {
    hide Inv, Step, NobodyPolls;
    var t := PollStarts(s, g, pkt);
    var u := PollTakes(t, g, pkt);
    var v := PollReleases(u, g, pkt);
    assert v.tasks == s.tasks[g := Late(pkt, true)];
    steps := [(g, StartPoll(1)), (g, GoOn)] + [(g, GoOn), (g, GoOn)];
    TwoSteps(s, g, StartPoll(1), GoOn);
    TwoSteps(t, g, GoOn, GoOn);
    AfterBoth(s, [(g, StartPoll(1)), (g, GoOn)], [(g, GoOn), (g, GoOn)]);
    hide After;
  }

  lemma TwoSteps(s: State, h: nat, first: Section, second: Section)
    ensures After(s, [(h, first), (h, second)]) == Step(Step(s, h, first), h, second)
  {
    OneStep(Step(s, h, first), h, second);
    FirstStep(s, h, first, [(h, second)]);
    assert [(h, first), (h, second)] == [(h, first)] + [(h, second)];
  }

  // The devices after the setup, with two handlers at hand.
  ghost predicate Start(s: State) {
    Init(s) && s.napi && |s.tasks| >= 2
  }

  lemma StartMeans(s: State)
    requires Start(s)
    ensures Inv(s) && Sized(s) && s.lists[3] == [] && s.flags == [Flags(false, false, true), Flags(false, false, true)]
    ensures forall h :: 0 <= h < |s.tasks| ==> s.tasks[h].Idle?
    ensures forall d: nat :: NobodyPolls(s.tasks, d)
  {
    InitHasInv(s);
    forall h | 0 <= h < |s.tasks|
      ensures s.tasks[h].Idle?
    {
      assert s.tasks[h] in s.tasks;
    }
  }

  // Handler 0 sends a frame, and handler 1 polls it up to the late test.
  lemma SentAndPolled(s: State) returns (steps: Steps, pkt: Packet)
    requires Start(s) && s.lists[0] != []
    ensures var t := After(s, steps);
            && Inv(t) && Sized(t) && t.napi && t.tasks == s.tasks[1 := Late(pkt, true)] && pkt.dev == 0
            && t.lists[0] == s.lists[0] && pkt == Top(s.lists[0]) && t.lists[3] == []
            && t.flags[0].stopped == (|s.lists[0]| == 1) && t.flags[1] == Flags(false, true, false)
  {
    StartMeans(s);
    assert |s.tasks| >= 2;
    hide Start, Inv, Step, NobodyPolls, After;
    steps := SendHeard(s, 0);
    var t := After(s, steps);
    pkt := Top(s.lists[0]);
    assert t.lists[3] == [pkt];
    var more := PollOne(t, 1, pkt);
    AfterBoth(s, steps, more);
    steps := steps + more;
    assert Rest(s.lists[0]) + [pkt] == s.lists[0];
  }

  // With two packets or more, a handler that is delayed between releasing a packet and its test can find
  // the packet reused, and start the queue of a pool whose packets are all in the twin's queue.
  lemma DelayedWake(start: State) returns (steps: Steps)
    requires Start(start) && |start.lists[0]| >= 2
    ensures var s := After(start, steps);
            && Inv(s) && Sized(s) && RunsOnEmpty(s, 0) && |s.lists[3]| == |start.lists[0]|
  {
    StartMeans(start);
    assert |start.tasks| >= 2;
    hide Start, Step, Inv, After;
    var pkt;
    steps, pkt := SentAndPolled(start);
    var s := After(start, steps);
    assert s.tasks[0] == start.tasks[0];
    var more := SendRest(s, 0);
    AfterBoth(start, steps, more);
    var t := After(s, more);
    assert t.lists[3][0] == pkt;
    StartsOnEmpty(t, 1, pkt);
    OneStep(t, 1, GoOn);
    AfterBoth(start, steps + more, [(1, GoOn)]);
    steps := steps + more + [(1, GoOn)];
  }

  lemma StartsOnEmpty(s: State, g: nat, pkt: Packet)
    requires Inv(s) && Sized(s) && g < |s.tasks| && s.tasks[g] == Late(pkt, true) && pkt.dev == 0
    requires s.lists[0] == [] && s.flags[0].stopped && s.lists[3] != [] && s.lists[3][0] == pkt
    ensures var t := Step(s, g, GoOn);
            Inv(t) && Sized(t) && RunsOnEmpty(t, 0) && t.lists[3] == s.lists[3]
  {
    assert s.next[s.lists[3][0]] == Below(s.lists[3], 0);
    StepKeepsInv(s, g, GoOn);
    LateEffect(s, g, pkt, true, 0);
    LateEffect(s, g, pkt, true, 1);
    hide Inv;
  }

  // The late test starts the queue if the packet is alone in its pool.
  lemma TestedInTime(s: State, g: nat, pkt: Packet) returns (t: State)
    requires Inv(s) && Sized(s) && s.napi && g < |s.tasks| && s.tasks[g] == Late(pkt, true) && pkt.dev == 0
    requires s.lists[0] != [] && Top(s.lists[0]) == pkt && s.flags[0].stopped == (|s.lists[0]| == 1)
    ensures Inv(t) && Sized(t) && t == Step(s, g, GoOn) && t.napi && t.tasks == s.tasks[g := AtPoll(1)]
    ensures t.lists == s.lists && CanSend(t, 0) && t.flags[1] == s.flags[1]
  {
    assert s.next[s.lists[0][|s.lists[0]| - 1]] == Below(s.lists[0], |s.lists[0]| - 1);
    StepKeepsInv(s, g, GoOn);
    LateEffect(s, g, pkt, true, 0);
    LateEffect(s, g, pkt, true, 1);
    hide Inv;
    GoOnIs(s, g);
    t := LateStep(s, g, pkt, true);
    hide LateStep, Step;
  }

  lemma FoundEmpty(s: State, g: nat) returns (t: State)
    requires Inv(s) && Sized(s) && g < |s.tasks| && s.tasks[g] == AtPoll(1) && s.lists[3] == []
    ensures Inv(t) && t == Step(Step(s, g, GoOn), g, GoOn) && t == Now(s, g, Ending(1))
  {
    StepKeepsInv(s, g, GoOn);
    StepKeepsInv(Step(s, g, GoOn), g, GoOn);
    hide Inv;
    var u := Now(s, g, Leaving(1));
    GoOnIs(s, g);
    GoOnIs(u, g);
    hide Step;
    t := Now(u, g, Ending(1));
    assert s.tasks[g := Leaving(1)][g := Ending(1)] == s.tasks[g := Ending(1)];
  }

  lemma PollEnds(s: State, g: nat) returns (t: State)
    requires Inv(s) && Sized(s) && s.napi && g < |s.tasks| && s.tasks[g] == Ending(1)
    ensures Inv(t) && t == Step(Step(s, g, GoOn), g, GoOn)
    ensures t == Flagged(Now(s, g, Idle), 1, s.flags[1].(scheduled := false, enabled := true))
  {
    StepKeepsInv(s, g, GoOn);
    StepKeepsInv(Step(s, g, GoOn), g, GoOn);
    hide Inv;
    var u := Flagged(Now(s, g, Enabling(1)), 1, s.flags[1].(scheduled := false));
    GoOnIs(s, g);
    GoOnIs(u, g);
    hide Step;
    t := GoStep(u, g, false);
    assert s.tasks[g := Enabling(1)][g := Idle] == s.tasks[g := Idle];
  }

  // From the late test to the last test of the poll.
  lemma PollComesToEnd(s: State, g: nat, pkt: Packet) returns (steps: Steps)
    requires Inv(s) && Sized(s) && s.napi && g < |s.tasks| && s.tasks[g] == Late(pkt, true) && pkt.dev == 0
    requires s.lists[0] != [] && Top(s.lists[0]) == pkt && s.flags[0].stopped == (|s.lists[0]| == 1) && s.lists[3] == []
    ensures var t := After(s, steps);
            && Inv(t) && Sized(t) && t.napi && t.tasks == s.tasks[g := Ending(1)]
            && t.lists == s.lists && CanSend(t, 0) && t.flags[1] == s.flags[1]
  {
    hide Inv, Step, After;
    var t := TestedInTime(s, g, pkt);
    OneStep(s, g, GoOn);
    var u := FoundEmpty(t, g);
    TwoSteps(t, g, GoOn, GoOn);
    AfterBoth(s, [(g, GoOn)], [(g, GoOn), (g, GoOn)]);
    assert u.tasks == s.tasks[g := Ending(1)];
    steps := [(g, GoOn)] + [(g, GoOn), (g, GoOn)];
  }

  // A poll that is about to end, with the queue empty and the sender able to send.
  lemma PollAboutToEnd(start: State) returns (steps: Steps)
    requires Start(start) && start.lists[0] != []
    ensures var s := After(start, steps);
            && Inv(s) && Sized(s) && s.napi && s.tasks == start.tasks[1 := Ending(1)]
            && s.lists[0] == start.lists[0] && s.lists[3] == [] && CanSend(s, 0)
            && s.flags[1] == Flags(false, true, false)
  {
    assert |start.tasks| >= 2;
    hide Start, Inv, Step, After, CanSend;
    var pkt;
    steps, pkt := SentAndPolled(start);
    var s := After(start, steps);
    var more := PollComesToEnd(s, 1, pkt);
    AfterBoth(start, steps, more);
    assert start.tasks[1 := Late(pkt, true)][1 := Ending(1)] == start.tasks[1 := Ending(1)];
    steps := steps + more;
  }

  // A frame comes in before the end, and its sender finds interrupts off.
  lemma FrameBeforeEnd(s: State, h: nat, g: nat) returns (steps: Steps)
    requires Sender(s, h, false) && Sized(s) && g < |s.tasks| && s.tasks[g] == Ending(1) && s.lists[3] == []
    ensures var t := After(s, steps);
            && Inv(t) && Sized(t) && t.napi && t.tasks == s.tasks[g := Idle]
            && t.lists[0] == Rest(s.lists[0]) && t.lists[3] == [Top(s.lists[0])]
            && !t.flags[1].scheduled && t.flags[1].enabled
  {
    hide Inv, Step, After;
    steps := SendUnheard(s, h);
    var t := After(s, steps);
    var u := PollEnds(t, g);
    TwoSteps(t, g, GoOn, GoOn);
    AfterBoth(s, steps, [(g, GoOn), (g, GoOn)]);
    steps := steps + [(g, GoOn), (g, GoOn)];
  }

  lemma RunToMiss(start: State) returns (steps: Steps)
    requires Start(start) && start.lists[0] != []
    ensures var s := After(start, steps);
            && Inv(s) && Sized(s) && s.napi && (forall h :: 0 <= h < |s.tasks| ==> s.tasks[h].Idle?)
            && s.lists[0] == Rest(start.lists[0]) && s.lists[3] == [Top(start.lists[0])]
            && !s.flags[1].scheduled && s.flags[1].enabled
  {
    StartMeans(start);
    assert |start.tasks| >= 2;
    hide Start, Init, Inv, Step, After, NobodyPolls;
    steps := PollAboutToEnd(start);
    var s := After(start, steps);
    assert s.tasks[0] == start.tasks[0];
    var more := FrameBeforeEnd(s, 0, 1);
    AfterBoth(start, steps, more);
    steps := steps + more;
  }

  // A frame that is sent between a poll's last test and its end is left in the queue: no poll is due, no
  // sender is going to look, and the interrupts are on.
  lemma MissedPoll(start: State) returns (steps: Steps)
    requires Start(start) && start.lists[0] != []
    ensures var s := After(start, steps);
            Lost(s, 1) && s.flags[1].enabled && (FrameCanCome(s, 1) <==> |start.lists[0]| > 1)
  {
    hide Start, Init, Inv, After, FrameCanCome, Lost;
    steps := RunToMiss(start);
    PacketsStay(start, steps);
    WhatItMeans(start, After(start, steps));
  }

  lemma PacketsStay(start: State, steps: Steps)
    requires Start(start)
    ensures After(start, steps).spot.Keys == start.spot.Keys && Init(start)
  {
    StartMeans(start);
    RunKeepsPackets(start, steps);
  }

  lemma WhatItMeans(start: State, s: State)
    requires Init(start) && start.lists[0] != [] && Inv(s) && Sized(s) && s.napi && s.spot.Keys == start.spot.Keys
    requires s.lists[0] == Rest(start.lists[0]) && s.lists[3] == [Top(start.lists[0])] && !s.flags[1].scheduled
    requires forall h :: 0 <= h < |s.tasks| ==> s.tasks[h].Idle?
    ensures Lost(s, 1) && (FrameCanCome(s, 1) <==> |start.lists[0]| > 1)
  {
    IdleLoses(s);
    if |start.lists[0]| > 1 {
      AnotherPacket(s);
    } else {
      TheOnlyPacket(start, s);
    }
    hide Init, Inv;
  }

  lemma IdleLoses(s: State)
    requires Inv(s) && Sized(s) && s.napi && s.lists[3] != [] && !s.flags[1].scheduled
    requires forall h :: 0 <= h < |s.tasks| ==> s.tasks[h].Idle?
    ensures Lost(s, 1)
  {
    hide Inv;
  }

  lemma AnotherPacket(s: State)
    requires Inv(s) && s.lists[0] != []
    ensures FrameCanCome(s, 1)
  {
    PoolFeeds(s, 1);
  }

  lemma OnlyOne(start: State, p: Packet)
    requires Init(start) && |start.lists[0]| == 1 && p in start.spot && p.dev == 0
    ensures p == start.lists[0][0]
  {
    var spot := start.spot[p];
    PlaceIsHome(start.spot, start.lists, p);
    assert spot.list == 0;
    assert start.lists[spot.list][spot.i] == p;
  }

  lemma TheOnlyPacket(start: State, s: State)
    requires Init(start) && |start.lists[0]| == 1 && Inv(s) && Sized(s) && s.spot.Keys == start.spot.Keys
    requires s.lists[3] == [start.lists[0][0]]
    ensures !FrameCanCome(s, 1)
  {
    assert s.spot[s.lists[3][0]] == On(3, 0);
    hide Init, Inv;
    forall p <- s.spot | p.dev == 0
      ensures WaitsFor(s.spot[p], 1)
    {
      OnlyOne(start, p);
    }
  }
}
