/** Every section of every handler keeps the invariant of the two devices. */
module SnullSafety {
  import opened SnullLists
  import opened SnullSections

  // ---- one handler goes on, the others stay where they are ----

  lemma OneMoves(tasks: seq<Task>, h: nat, next: Task)
    requires h < |tasks|
    ensures next in tasks[h := next]
    ensures forall x {:trigger x in tasks} :: x in tasks && x != tasks[h] ==> x in tasks[h := next]
    ensures forall x {:trigger x in tasks[h := next]} :: x in tasks[h := next] && x != next ==> x in tasks
  {
    var after := tasks[h := next];
    assert after[h] == next;
    forall x | x in tasks && x != tasks[h]
      ensures x in after
    {
      var g: nat :| g < |tasks| && tasks[g] == x;
      assert after[g] == x;
    }
    forall x | x in after && x != next
      ensures x in tasks
    {
      var g: nat :| g < |after| && after[g] == x;
      assert tasks[g] == x;
    }
  }

  lemma HandsTake(spot: map<Packet, Spot>, tasks: seq<Task>, h: nat, p: Packet, route: Route)
    requires Hands(spot, tasks) && h < |tasks| && !tasks[h].Carry? && p in spot && spot[p].On? && p.dev < 2
    ensures Hands(spot[p := InHand], tasks[h := Carry(p, route)])
  {
    var after := tasks[h := Carry(p, route)];
    forall q <- spot | q != p && spot[q] == InHand
      ensures exists g :: 0 <= g < |after| && Holds(after[g], q)
    {
      var g :| 0 <= g < |tasks| && Holds(tasks[g], q);
      assert Holds(after[g], q);
    }
    assert Holds(after[h], p);
  }

  lemma HandsPut(spot: map<Packet, Spot>, tasks: seq<Task>, h: nat, p: Packet, place: Spot, next: Task)
    requires Hands(spot, tasks) && h < |tasks| && Holds(tasks[h], p) && place.On? && !next.Carry?
    requires Named(next) && (next.Late? ==> next.pkt == p)
    ensures Hands(spot[p := place], tasks[h := next])
  {
    var after := tasks[h := next];
    forall q <- spot | q != p && spot[q] == InHand
      ensures exists g :: 0 <= g < |after| && Holds(after[g], q)
    {
      var g :| 0 <= g < |tasks| && Holds(tasks[g], q);
      assert Holds(after[g], q);
    }
  }

  lemma HandsOther(spot: map<Packet, Spot>, tasks: seq<Task>, h: nat, next: Task)
    requires Hands(spot, tasks) && h < |tasks| && !tasks[h].Carry? && !next.Carry? && !next.Late? && Named(next)
    ensures Hands(spot, tasks[h := next])
  {
    var after := tasks[h := next];
    forall q <- spot | spot[q] == InHand
      ensures exists g :: 0 <= g < |after| && Holds(after[g], q)
    {
      var g :| 0 <= g < |tasks| && Holds(tasks[g], q);
      assert Holds(after[g], q);
    }
  }

  // ---- lists and links ----

  lemma TakeKeepsShape(s: State, h: nat, k: nat, route: Route)
    requires Shape(s) && h < |s.tasks| && k < 4 && s.lists[k] != []
    ensures Shape(Take(s, h, k, route))
    ensures var top: Packet := Top(s.lists[k]); top in s.spot && s.spot[top].On? && top.dev == Home(k)
  {
    var pkt: Packet := Top(s.lists[k]);
    assert s.spot[s.lists[k][|s.lists[k]| - 1]] == On(k, |s.lists[k]| - 1);
    PopKeepsPlaces(s.spot, s.lists, k);
    var less: Lists := Popped(s.lists, k);
    forall l, i | 0 <= l < 4 && 0 <= i < |less[l]|
      ensures less[l][i] in s.next && s.next[less[l][i]] == Below(less[l], i)
    {
      assert less[l][i] == s.lists[l][i];
    }
  }

  lemma PutKeepsShape(s: State, h: nat, pkt: Packet, k: nat, task: Task)
    requires Shape(s) && h < |s.tasks| && k < 4 && pkt in s.spot && s.spot[pkt] == InHand && pkt.dev == Home(k)
    ensures Shape(Put(s, h, pkt, k, task))
  {
    var t := Put(s, h, pkt, k, task);
    PushKeepsPlaces(s.spot, s.lists, k, pkt);
    assert forall l, i {:trigger s.lists[l][i]} :: 0 <= l < 4 && 0 <= i < |s.lists[l]| ==> s.lists[l][i] != pkt;
    hide Placed;
    forall l, i | 0 <= l < 4 && 0 <= i < |t.lists[l]|
      ensures t.lists[l][i] in t.next && t.next[t.lists[l][i]] == Below(t.lists[l], i)
    {
      if l != k || i < |s.lists[k]| {
        assert t.lists[l][i] == s.lists[l][i];
      }
    }
  }

  // The packet at the bottom of a pool is the device's own, and has nothing behind it.
  lemma Bottom(s: State, d: nat)
    requires Shape(s) && d < 2 && s.lists[d] != []
    ensures var p := s.lists[d][0]; p in s.next && s.next[p] == null && p.dev == d
  {
    assert s.next[s.lists[d][0]] == Below(s.lists[d], 0);
  }

  // ---- wake-ups, polls and interrupts that are due ----

  lemma WakeKept(pool: seq<Packet>, stopped: bool, tasks: seq<Task>, h: nat, next: Task)
    requires WakeComes(pool, stopped, tasks) && h < |tasks| && !tasks[h].Late?
    ensures WakeComes(pool, stopped, tasks[h := next])
  {
    OneMoves(tasks, h, next);
  }

  // A step that does not enter a poll of the device, nor take up or finish one of the moves inside it
  // that the others rely on.
  lemma PollKept(napi: bool, waits: bool, more: bool, flags: Flags, tasks: seq<Task>, d: nat, h: nat, next: Task)
    requires PollOk(napi, waits, flags, tasks, d) && h < |tasks| && (waits ==> more)
    requires Polls(next, d) ==> Polls(tasks[h], d)
    requires tasks[h] != Enabling(d) && next != Enabling(d) && (next == Taking(d) ==> more)
    ensures PollOk(napi, more, flags, tasks[h := next], d)
  {
    OneMoves(tasks, h, next);
  }

  lemma TellersCount(tasks: seq<Task>, h: nat, next: Task)
    requires h < |tasks|
    ensures multiset(tasks[h := next]) == multiset(tasks) - multiset{tasks[h]} + multiset{next}
    ensures multiset(tasks)[tasks[h]] >= 1
  {
    assert tasks[h] in multiset(tasks);
  }

  lemma RegularKept(napi: bool, waiting: nat, tasks: seq<Task>, d: nat, h: nat, next: Task)
    requires RegularOk(napi, waiting, tasks, d) && h < |tasks| && tasks[h] != Tell(d) && tasks[h] != Raise(d)
    ensures RegularOk(napi, waiting, tasks[h := next], d)
  {
    TellersCount(tasks, h, next);
  }

  // ---- the steps ----

  lemma GetKeepsInv(s: State, h: nat, d: nat)
    requires Inv(s) && h < |s.tasks| && s.tasks[h].Idle? && d < 2 && s.lists[d] != []
    ensures Inv(GetStep(s, h, d))
  {
    hide Shape, Hands, PollOk, RegularOk;
    var t := GetStep(s, h, d);
    var pkt: Packet := Top(s.lists[d]);
    GetKeepsPlaces(s, h, d);
    forall k: nat | k < 2
      ensures DeviceOk(t, k)
    {
      WakeKept(s.lists[k], s.flags[k].stopped, s.tasks, h, Carry(pkt, Sending));
      PollKept(s.napi, s.lists[2 + k] != [], s.lists[2 + k] != [], s.flags[k], s.tasks, k, h, Carry(pkt, Sending));
      StoppedDoesNotPoll(s.napi, s.lists[2 + k] != [], s.flags[k], t.flags[k], t.tasks, k);
      RegularKept(s.napi, |s.lists[2 + k]|, s.tasks, k, h, Carry(pkt, Sending));
    }
  }

  lemma GetKeepsPlaces(s: State, h: nat, d: nat)
    requires Shape(s) && Hands(s.spot, s.tasks) && h < |s.tasks| && s.tasks[h].Idle? && d < 2 && s.lists[d] != []
    ensures var t := GetStep(s, h, d); Shape(t) && Hands(t.spot, t.tasks)
  {
    TakeKeepsShape(s, h, d, Sending);
    HandsTake(s.spot, s.tasks, h, Top(s.lists[d]), Sending);
  }

  // Polling does not look at whether the transmit queue is stopped.
  lemma StoppedDoesNotPoll(napi: bool, waits: bool, flags: Flags, other: Flags, tasks: seq<Task>, d: nat)
    requires PollOk(napi, waits, flags, tasks, d)
    requires flags.scheduled == other.scheduled && flags.enabled == other.enabled
    ensures PollOk(napi, waits, other, tasks, d)
  {
  }

  // What a step needs to know about the handler that takes it.
  lemma Mine(s: State, h: nat)
    requires Hands(s.spot, s.tasks) && h < |s.tasks|
    ensures Named(s.tasks[h])
    ensures s.tasks[h].Carry? ==> s.tasks[h].pkt in s.spot && s.spot[s.tasks[h].pkt] == InHand
    ensures s.tasks[h].Late? ==> s.tasks[h].pkt in s.spot
  {
  }

  lemma PutKeepsPlaces(s: State, h: nat, k: nat, next: Task)
    requires Shape(s) && Hands(s.spot, s.tasks) && h < |s.tasks| && s.tasks[h].Carry?
    requires k < 4 && s.tasks[h].pkt.dev == Home(k) && !next.Carry? && Named(next)
    requires next.Late? ==> next.pkt == s.tasks[h].pkt
    ensures var t := Put(s, h, s.tasks[h].pkt, k, next); Shape(t) && Hands(t.spot, t.tasks)
  {
    var pkt := s.tasks[h].pkt;
    PutKeepsShape(s, h, pkt, k, next);
    HandsPut(s.spot, s.tasks, h, pkt, On(k, |s.lists[k]|), next);
  }

  // A frame is put into the queue of the sender's twin.
  lemma SendingKeepsInv(s: State, h: nat)
    requires Inv(s) && h < |s.tasks| && s.tasks[h].Carry? && s.tasks[h].route.Sending? && s.tasks[h].pkt.dev < 2
    ensures Inv(CarryStep(s, h, s.tasks[h].pkt, Sending))
  {
    hide Shape, Hands, PollOk;
    var pkt := s.tasks[h].pkt;
    var e := 1 - pkt.dev;
    var t := CarryStep(s, h, pkt, Sending);
    PutKeepsPlaces(s, h, 2 + e, Tell(e));
    TellersCount(s.tasks, h, Tell(e));
    forall k: nat | k < 2
      ensures DeviceOk(t, k)
    {
      WakeKept(s.lists[k], s.flags[k].stopped, s.tasks, h, Tell(e));
      PollKept(s.napi, s.lists[2 + k] != [], t.lists[2 + k] != [], s.flags[k], s.tasks, k, h, Tell(e));
    }
  }

  lemma WakeReleased(pool: seq<Packet>, pkt: Packet, stopped: bool, tasks: seq<Task>, h: nat, polling: bool)
    requires WakeComes(pool, stopped, tasks) && h < |tasks| && !tasks[h].Late?
    ensures WakeComes(pool + [pkt], stopped, tasks[h := Late(pkt, polling)])
  {
    OneMoves(tasks, h, Late(pkt, polling));
  }

  // A packet is released to its pool.
  lemma ReleaseKeepsInv(s: State, h: nat, polling: bool)
    requires Inv(s) && h < |s.tasks| && s.tasks[h].Carry? && s.tasks[h].pkt.dev < 2
    requires s.tasks[h].route == if polling then Polling else Handling
    ensures Inv(CarryStep(s, h, s.tasks[h].pkt, s.tasks[h].route))
  {
    hide Shape, Hands, PollOk, RegularOk;
    var pkt := s.tasks[h].pkt;
    var next := Late(pkt, polling);
    var t := CarryStep(s, h, pkt, s.tasks[h].route);
    PutKeepsPlaces(s, h, pkt.dev, next);
    forall k: nat | k < 2
      ensures DeviceOk(t, k)
    {
      WakeKept(s.lists[k], s.flags[k].stopped, s.tasks, h, next);
      WakeReleased(s.lists[k], pkt, s.flags[k].stopped, s.tasks, h, polling);
      PollKept(s.napi, s.lists[2 + k] != [], t.lists[2 + k] != [], s.flags[k], s.tasks, k, h, next);
      RegularKept(s.napi, |s.lists[2 + k]|, s.tasks, k, h, next);
    }
  }

  // The late test: a queue that it does not wake is not one that needs it.
  lemma WakeTested(s: State, h: nat, k: nat, next: Task)
    requires Sized(s) && h < |s.tasks| && s.tasks[h].Late? && k < 2 && s.tasks[h].pkt.dev < 2
    requires WakeComes(s.lists[k], s.flags[k].stopped, s.tasks)
    requires s.lists[k] != [] ==> var p := s.lists[k][0]; p in s.next && s.next[p] == null && p.dev == k
    ensures WakeComes(s.lists[k], s.flags[k].stopped && !(s.tasks[h].pkt.dev == k && Wakes(s, s.tasks[h].pkt)),
                      s.tasks[h := next])
  {
    OneMoves(s.tasks, h, next);
  }

  lemma LateKeepsInv(s: State, h: nat, pkt: Packet, polling: bool)
    requires Inv(s) && h < |s.tasks| && s.tasks[h] == Late(pkt, polling) && pkt.dev < 2
    ensures Inv(LateStep(s, h, pkt, polling))
  {
    hide Shape, Hands, PollOk, RegularOk, WakeComes, Wakes;
    var next := if polling then AtPoll(1 - pkt.dev) else Idle;
    var t := LateStep(s, h, pkt, polling);
    ShapeLooksAtLists(s, t);
    HandsOther(s.spot, s.tasks, h, next);
    forall k: nat | k < 2
      ensures DeviceOk(t, k)
    {
      if s.lists[k] != [] { Bottom(s, k); }
      WakeTested(s, h, k, next);
      PollKept(s.napi, s.lists[2 + k] != [], s.lists[2 + k] != [], s.flags[k], s.tasks, k, h, next);
      StoppedDoesNotPoll(s.napi, s.lists[2 + k] != [], s.flags[k], t.flags[k], t.tasks, k);
      RegularKept(s.napi, |s.lists[2 + k]|, s.tasks, k, h, next);
    }
  }

  // A handler that only looks, outside the lists.
  lemma LookKeepsInv(s: State, h: nat, next: Task)
    requires Inv(s) && h < |s.tasks| && Named(next)
    requires !s.tasks[h].Carry? && !s.tasks[h].Late? && !next.Carry? && !next.Late?
    requires forall k: nat :: k < 2 ==>
      (Polls(next, k) ==> Polls(s.tasks[h], k)) && (next == Taking(k) ==> s.lists[2 + k] != [])
    requires !s.tasks[h].Enabling? && !next.Enabling? && !s.tasks[h].Raise?
    requires s.tasks[h].Tell? ==> next == Raise(s.tasks[h].d) || s.flags[s.tasks[h].d].enabled == false
    ensures Inv(Now(s, h, next))
  {
    hide Shape, Hands, PollOk;
    var t := Now(s, h, next);
    ShapeLooksAtLists(s, t);
    HandsOther(s.spot, s.tasks, h, next);
    TellersCount(s.tasks, h, next);
    forall k: nat | k < 2
      ensures DeviceOk(t, k)
    {
      WakeKept(s.lists[k], s.flags[k].stopped, s.tasks, h, next);
      PollKept(s.napi, s.lists[2 + k] != [], s.lists[2 + k] != [], s.flags[k], s.tasks, k, h, next);
      if !s.napi {
        RegularIsOn(s, k);
      }
    }
  }

  lemma RegularIsOn(s: State, k: nat)
    requires Sized(s) && k < 2 && PollOk(s.napi, s.lists[2 + k] != [], s.flags[k], s.tasks, k) && !s.napi
    ensures s.flags[k].enabled && !s.flags[k].scheduled
  {
  }

  lemma ShapeLooksAtLists(s: State, t: State)
    requires Shape(s) && |t.flags| == 2 && t.lists == s.lists && t.spot == s.spot && t.next == s.next
    ensures Shape(t)
  {
  }

  // A poll starts when one is due and none is under way.
  lemma PollStarted(napi: bool, waits: bool, flags: Flags, tasks: seq<Task>, d: nat, h: nat)
    requires PollOk(napi, waits, flags, tasks, d) && h < |tasks| && tasks[h].Idle?
    requires NobodyPolls(tasks, d) && flags.scheduled
    ensures PollOk(napi, waits, flags, tasks[h := AtPoll(d)], d)
  {
    OneMoves(tasks, h, AtPoll(d));
    forall g | 0 <= g < |tasks|
      ensures !Polls(tasks[g], d)
    {
      assert tasks[g] in tasks;
    }
  }

  lemma StartKeepsInv(s: State, h: nat, d: nat)
    requires Inv(s) && h < |s.tasks| && s.tasks[h].Idle? && d < 2
    requires s.flags[d].scheduled && NobodyPolls(s.tasks, d)
    ensures Inv(Now(s, h, AtPoll(d)))
  {
    hide Shape, Hands, PollOk, RegularOk, NobodyPolls;
    var t := Now(s, h, AtPoll(d));
    ShapeLooksAtLists(s, t);
    HandsOther(s.spot, s.tasks, h, AtPoll(d));
    forall k: nat | k < 2
      ensures DeviceOk(t, k)
    {
      WakeKept(s.lists[k], s.flags[k].stopped, s.tasks, h, AtPoll(d));
      if k == d {
        PollStarted(s.napi, s.lists[2 + k] != [], s.flags[k], s.tasks, d, h);
      } else {
        PollKept(s.napi, s.lists[2 + k] != [], s.lists[2 + k] != [], s.flags[k], s.tasks, k, h, AtPoll(d));
      }
      RegularKept(s.napi, |s.lists[2 + k]|, s.tasks, k, h, AtPoll(d));
    }
  }

  // The interrupt in the polling mode.
  lemma PollRaised(waits: bool, flags: Flags, other: Flags, tasks: seq<Task>, d: nat)
    requires PollOk(true, waits, flags, tasks, d) && other.scheduled
    ensures PollOk(true, waits, other, tasks, d)
  {
  }

  lemma NapiRaiseKeepsInv(s: State, h: nat, d: nat)
    requires Inv(s) && h < |s.tasks| && s.tasks[h] == Raise(d) && d < 2 && s.napi
    ensures Inv(RaiseStep(s, h, d))
  {
    hide Shape, Hands, PollOk;
    var t := RaiseStep(s, h, d);
    ShapeLooksAtLists(s, t);
    HandsOther(s.spot, s.tasks, h, Idle);
    forall k: nat | k < 2
      ensures DeviceOk(t, k)
    {
      WakeKept(s.lists[k], s.flags[k].stopped, s.tasks, h, Idle);
      PollKept(s.napi, s.lists[2 + k] != [], s.lists[2 + k] != [], s.flags[k], s.tasks, k, h, Idle);
      if k == d {
        PollRaised(s.lists[2 + k] != [], s.flags[k], t.flags[k], t.tasks, k);
      }
    }
  }

  // A frame is taken off a receive queue: by a poll, or by the interrupt of the regular mode.
  lemma PollTook(napi: bool, waits: bool, more: bool, flags: Flags, tasks: seq<Task>, d: nat, h: nat, next: Task)
    requires PollOk(napi, waits, flags, tasks, d) && h < |tasks| && next.Carry?
    requires tasks[h] == Taking(d) || (tasks[h] == Raise(d) && !napi)
    requires Polls(next, d) ==> tasks[h] == Taking(d)
    ensures PollOk(napi, more, flags, tasks[h := next], d)
  {
    OneMoves(tasks, h, next);
    assert Polls(Taking(d), d);
  }

  lemma TakeKeepsPlaces(s: State, h: nat, d: nat, route: Route)
    requires Shape(s) && Hands(s.spot, s.tasks) && h < |s.tasks| && !s.tasks[h].Carry? && d < 2 && s.lists[2 + d] != []
    ensures var t := Take(s, h, 2 + d, route); Shape(t) && Hands(t.spot, t.tasks)
    ensures var top: Packet := Top(s.lists[2 + d]); top.dev + d == 1
  {
    TakeKeepsShape(s, h, 2 + d, route);
    HandsTake(s.spot, s.tasks, h, Top(s.lists[2 + d]), route);
  }

  lemma RegularTook(napi: bool, waiting: nat, tasks: seq<Task>, d: nat, h: nat, next: Task)
    requires RegularOk(napi, waiting, tasks, d) && h < |tasks| && next.Carry? && waiting > 0
    requires !napi ==> tasks[h] == Raise(d)
    ensures RegularOk(napi, waiting - 1, tasks[h := next], d)
  {
    TellersCount(tasks, h, next);
  }

  // Polls are made in the polling mode only.
  lemma PollsAreNapi(napi: bool, waits: bool, flags: Flags, tasks: seq<Task>, d: nat, h: nat)
    requires PollOk(napi, waits, flags, tasks, d) && h < |tasks| && Polls(tasks[h], d)
    ensures napi
  {
  }

  predicate TakesFor(s: State, h: nat, d: nat, route: Route)
    requires h < |s.tasks|
  {
    if s.tasks[h] == Taking(d) then route.Polling? else s.tasks[h] == Raise(d) && !s.napi && route.Handling?
  }

  lemma TakeKeepsOwnDevice(s: State, h: nat, d: nat, route: Route)
    requires Shape(s) && Sized(s) && h < |s.tasks| && d < 2 && s.lists[2 + d] != []
    requires DeviceOk(s, d) && TakesFor(s, h, d, route)
    ensures DeviceOk(Take(s, h, 2 + d, route), d)
  {
    hide Shape, PollOk, WakeComes, RegularOk;
    var next := Carry(Top(s.lists[2 + d]), route);
    WakeKept(s.lists[d], s.flags[d].stopped, s.tasks, h, next);
    if s.tasks[h].Taking? {
      PollsAreNapi(s.napi, true, s.flags[d], s.tasks, d, h);
    }
    PollTook(s.napi, true, |s.lists[2 + d]| > 1, s.flags[d], s.tasks, d, h, next);
    RegularTook(s.napi, |s.lists[2 + d]|, s.tasks, d, h, next);
  }

  lemma TakeKeepsDevice(s: State, h: nat, d: nat, route: Route, k: nat)
    requires Shape(s) && Sized(s) && h < |s.tasks| && d < 2 && s.lists[2 + d] != [] && k < 2
    requires DeviceOk(s, d) && DeviceOk(s, k) && TakesFor(s, h, d, route)
    ensures DeviceOk(Take(s, h, 2 + d, route), k)
  {
    if k == d {
      TakeKeepsOwnDevice(s, h, d, route);
    } else {
      hide Shape, PollOk, WakeComes, RegularOk;
      var next := Carry(Top(s.lists[2 + d]), route);
      WakeKept(s.lists[k], s.flags[k].stopped, s.tasks, h, next);
      PollKept(s.napi, s.lists[2 + k] != [], s.lists[2 + k] != [], s.flags[k], s.tasks, k, h, next);
      RegularKept(s.napi, |s.lists[2 + k]|, s.tasks, k, h, next);
    }
  }

  lemma TakeKeepsInv(s: State, h: nat, d: nat, route: Route)
    requires Inv(s) && h < |s.tasks| && d < 2 && s.lists[2 + d] != [] && TakesFor(s, h, d, route)
    ensures Inv(Take(s, h, 2 + d, route))
  {
    hide Shape, Hands, DeviceOk;
    TakeKeepsPlaces(s, h, d, route);
    TakeKeepsDevice(s, h, d, route, 0);
    TakeKeepsDevice(s, h, d, route, 1);
  }

  lemma EmptyRaiseKeepsInv(s: State, h: nat, d: nat)
    requires Inv(s) && h < |s.tasks| && s.tasks[h] == Raise(d) && d < 2 && !s.napi && s.lists[2 + d] == []
    ensures Inv(RaiseStep(s, h, d))
  {
    hide Shape, Hands, PollOk;
    var t := RaiseStep(s, h, d);
    ShapeLooksAtLists(s, t);
    HandsOther(s.spot, s.tasks, h, Idle);
    TellersCount(s.tasks, h, Idle);
    forall k: nat | k < 2
      ensures DeviceOk(t, k)
    {
      WakeKept(s.lists[k], s.flags[k].stopped, s.tasks, h, Idle);
      PollKept(s.napi, s.lists[2 + k] != [], s.lists[2 + k] != [], s.flags[k], s.tasks, k, h, Idle);
    }
  }

  // The poll is complete, and then interrupts come on.
  lemma PollCompleted(napi: bool, waits: bool, flags: Flags, tasks: seq<Task>, d: nat, h: nat)
    requires PollOk(napi, waits, flags, tasks, d) && h < |tasks| && tasks[h] == Ending(d)
    ensures PollOk(napi, waits, flags.(scheduled := false), tasks[h := Enabling(d)], d)
  {
    OneMoves(tasks, h, Enabling(d));
    assert Polls(Ending(d), d);
    assert tasks[h] in tasks;
  }

  lemma PollEnabled(napi: bool, waits: bool, flags: Flags, tasks: seq<Task>, d: nat, h: nat)
    requires PollOk(napi, waits, flags, tasks, d) && h < |tasks| && tasks[h] == Enabling(d)
    ensures PollOk(napi, waits, flags.(enabled := true), tasks[h := Idle], d)
  {
    OneMoves(tasks, h, Idle);
    assert tasks[h] in tasks;
  }

  lemma EndKeepsInv(s: State, h: nat, d: nat)
    requires Inv(s) && h < |s.tasks| && (s.tasks[h] == Ending(d) || s.tasks[h] == Enabling(d)) && d < 2
    ensures Inv(GoStep(s, h, false))
  {
    hide Shape, Hands, PollOk, RegularOk;
    var t := GoStep(s, h, false);
    var next := t.tasks[h];
    ShapeLooksAtLists(s, t);
    HandsOther(s.spot, s.tasks, h, next);
    forall k: nat | k < 2
      ensures DeviceOk(t, k)
    {
      WakeKept(s.lists[k], s.flags[k].stopped, s.tasks, h, next);
      if k == d {
        if s.tasks[h].Ending? {
          PollCompleted(s.napi, s.lists[2 + k] != [], s.flags[k], s.tasks, k, h);
        } else {
          PollEnabled(s.napi, s.lists[2 + k] != [], s.flags[k], s.tasks, k, h);
        }
      } else {
        OtherEnd(s.napi, s.lists[2 + k] != [], s.flags[k], s.tasks, k, h, next);
      }
      RegularKept(s.napi, |s.lists[2 + k]|, s.tasks, k, h, next);
    }
  }

  lemma OtherEnd(napi: bool, waits: bool, flags: Flags, tasks: seq<Task>, d: nat, h: nat, next: Task)
    requires PollOk(napi, waits, flags, tasks, d) && h < |tasks|
    requires !Polls(next, d) && tasks[h] != Enabling(d) && next != Enabling(d)
    ensures PollOk(napi, waits, flags, tasks[h := next], d)
  {
    OneMoves(tasks, h, next);
  }

  lemma GoKeepsInv(s: State, h: nat, stop: bool)
    requires Inv(s) && h < |s.tasks| && !s.tasks[h].Idle? && Named(s.tasks[h])
    ensures Inv(GoStep(s, h, stop))
  {
    hide Shape, Hands, DeviceOk;
    match s.tasks[h] {
      case Carry(pkt, route) =>
        if route.Sending? { SendingKeepsInv(s, h); } else { ReleaseKeepsInv(s, h, route.Polling?); }
      case Tell(d) => LookKeepsInv(s, h, if s.flags[d].enabled then Raise(d) else Idle);
      case Raise(d) =>
        if s.napi { NapiRaiseKeepsInv(s, h, d); }
        else if s.lists[2 + d] == [] { EmptyRaiseKeepsInv(s, h, d); }
        else { TakeKeepsInv(s, h, d, Handling); }
      case Late(pkt, polling) => LateKeepsInv(s, h, pkt, polling);
      case AtPoll(d) => LookKeepsInv(s, h, if stop || s.lists[2 + d] == [] then Leaving(d) else Taking(d));
      case Taking(d) => if s.lists[2 + d] != [] { TakeKeepsInv(s, h, d, Polling); }
      case Leaving(d) => LookKeepsInv(s, h, if s.lists[2 + d] == [] then Ending(d) else Idle);
      case Ending(d) => EndKeepsInv(s, h, d);
      case Enabling(d) => EndKeepsInv(s, h, d);
    }
  }

  // Every section of every handler keeps the invariant.
  lemma StepKeepsInv(s: State, h: nat, section: Section)
    requires Inv(s)
    ensures Inv(Step(s, h, section))
  {
    hide Shape, Hands, DeviceOk;
    if Sized(s) && h < |s.tasks| && Named(s.tasks[h]) {
      if !s.tasks[h].Idle? {
        GoKeepsInv(s, h, section.StopPoll?);
      } else if section.GetTx? && section.d < 2 && s.lists[section.d] != [] {
        GetKeepsInv(s, h, section.d);
      } else if section.StartPoll? && section.d < 2 && s.flags[section.d].scheduled && NobodyPolls(s.tasks, section.d) {
        StartKeepsInv(s, h, section.d);
      }
    }
  }

  lemma InitHasInv(s: State)
    requires Init(s)
    ensures Inv(s)
  {
    assert forall d: nat ::
      Tell(d) !in s.tasks && Raise(d) !in s.tasks && Taking(d) !in s.tasks && Enabling(d) !in s.tasks;
    forall p <- s.spot
      ensures s.spot[p] != InHand
    {
    }
    forall h | 0 <= h < |s.tasks|
      ensures s.tasks[h] == Idle
    {
      assert s.tasks[h] in s.tasks;
    }
  }
}
