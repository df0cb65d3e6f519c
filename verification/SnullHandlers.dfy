/** The handlers' sections on the devices themselves: each is the machine's step. */
module SnullHandlers {
  import opened Ring
  import opened SnullLists
  import opened SnullSections
  import opened SnullSafety
  import opened SnullRuns
  import opened SnullCalls

  ghost function FlagsOf(dev: NetDevice): Flags
    reads dev`stopped, dev`scheduled, dev`rxIntEnabled
  {
    Flags(dev.stopped, dev.scheduled, dev.rxIntEnabled)
  }

  // The machine's state: the lists and links on the heap, and where each handler is.
  ghost function View(t: Twins, napi: bool, tasks: seq<Task>): State
    requires |t.devs| == 2
    reads t`lists, t`spot, t.devs, t.spot.Keys`next
  {
    State(napi, t.lists, t.spot, map p | p in t.spot :: p.next, [FlagsOf(t.devs[0]), FlagsOf(t.devs[1])], tasks)
  }

  // An idle handler takes a packet to send.
  method GetSection(t: Twins, napi: bool, tasks: seq<Task>, h: nat, d: nat) returns (after: seq<Task>)
    requires t.Valid() && h < |tasks| && d < 2 && t.lists[d] != []
    modifies t`lists, t`spot, t.Dev(d)`ppool, t.Dev(d)`stopped
    ensures t.Valid() && View(t, napi, after) == GetStep(old(View(t, napi, tasks)), h, d)
  {
    hide Twins.Consistent;
    t.Heads(d);
    var pkt := t.SnullGetTxBuffer(d);
    after := tasks[h := Carry(pkt, Sending)];
  }

  // A poll, or the interrupt of the regular mode, takes a frame off the receive queue.
  method DequeueSection(t: Twins, napi: bool, tasks: seq<Task>, h: nat, d: nat, route: Route)
    returns (after: seq<Task>)
    requires t.Valid() && h < |tasks| && d < 2 && t.lists[2 + d] != []
    modifies t`lists, t`spot, t.Dev(d)`rxQueue
    ensures t.Valid() && View(t, napi, after) == Take(old(View(t, napi, tasks)), h, 2 + d, route)
  {
    hide Twins.Consistent;
    var pkt := t.SnullDequeueBuf(d);
    after := tasks[h := Carry(pkt, route)];
  }

  // The packet in hand is queued for the twin of its device.
  method EnqueueSection(t: Twins, napi: bool, tasks: seq<Task>, h: nat, pkt: Packet) returns (after: seq<Task>)
    requires t.Valid() && h < |tasks| && t.Hand(pkt)
    modifies t`lists, t`spot, t.Dev(1 - pkt.dev)`rxQueue, pkt`next
    ensures t.Valid() && View(t, napi, after) == CarryStep(old(View(t, napi, tasks)), h, pkt, Sending)
  {
    hide Twins.Consistent;
    t.Heads(1 - pkt.dev);
    t.SnullEnqueueBuf(1 - pkt.dev, pkt);
    after := tasks[h := Tell(1 - pkt.dev)];
  }

  // Or it is released to its pool.
  method ReleaseSection(t: Twins, napi: bool, tasks: seq<Task>, h: nat, pkt: Packet, route: Route)
    returns (after: seq<Task>)
    requires t.Valid() && h < |tasks| && t.Hand(pkt) && !route.Sending?
    modifies t`lists, t`spot, t.Dev(pkt.dev)`ppool, pkt`next
    ensures t.Valid() && View(t, napi, after) == CarryStep(old(View(t, napi, tasks)), h, pkt, route)
  {
    hide Twins.Consistent;
    t.Heads(pkt.dev);
    t.ReleaseSection(pkt);
    after := tasks[h := Late(pkt, route.Polling?)];
  }

  // The test at the end of snull_release_buffer, outside the lock.
  method LateSection(t: Twins, napi: bool, tasks: seq<Task>, h: nat, pkt: Packet, polling: bool)
    returns (after: seq<Task>)
    requires t.Valid() && h < |tasks| && pkt in t.spot && pkt.dev < 2
    modifies t.Dev(pkt.dev)`stopped
    ensures t.Valid() && View(t, napi, after) == LateStep(old(View(t, napi, tasks)), h, pkt, polling)
  {
    hide Twins.Consistent;
    if t.devs[pkt.dev].stopped && pkt.next == null {
      t.devs[pkt.dev].stopped := false;
    }
    after := tasks[h := if polling then AtPoll(1 - pkt.dev) else Idle];
  }

  // The interrupt handler, as far as receiving goes.
  method RaiseSection(t: Twins, napi: bool, tasks: seq<Task>, h: nat, d: nat) returns (after: seq<Task>)
    requires t.Valid() && h < |tasks| && d < 2
    modifies t`lists, t`spot, t.Dev(d)`rxQueue, t.Dev(d)`rxIntEnabled, t.Dev(d)`scheduled
    ensures t.Valid() && View(t, napi, after) == RaiseStep(old(View(t, napi, tasks)), h, d)
  {
    hide Twins.Consistent;
    t.Heads(d);
    if napi {
      t.devs[d].rxIntEnabled, t.devs[d].scheduled := false, true;
      after := tasks[h := Idle];
    } else if t.devs[d].rxQueue == null {
      after := tasks[h := Idle];
    } else {
      after := DequeueSection(t, napi, tasks, h, d, Handling);
    }
  }

  // A look, or a store into one of the device's flags.
  method LookSection(t: Twins, napi: bool, tasks: seq<Task>, h: nat, stop: bool) returns (after: seq<Task>)
    requires t.Valid() && h < |tasks| && Named(tasks[h])
    requires !tasks[h].Idle? && !tasks[h].Carry? && !tasks[h].Late? && !tasks[h].Raise? && !tasks[h].Taking?
    modifies t.Dev(tasks[h].d)`rxIntEnabled, t.Dev(tasks[h].d)`scheduled
    ensures t.Valid() && View(t, napi, after) == GoStep(old(View(t, napi, tasks)), h, stop)
  {
    hide Twins.Consistent;
    var d := tasks[h].d;
    var dev := t.devs[d];
    t.Heads(d);
    match tasks[h] {
      case Tell(_) => after := tasks[h := if dev.rxIntEnabled then Raise(d) else Idle];
      case AtPoll(_) => after := tasks[h := if stop || dev.rxQueue == null then Leaving(d) else Taking(d)];
      case Leaving(_) => after := tasks[h := if dev.rxQueue == null then Ending(d) else Idle];
      case Ending(_) =>
        dev.scheduled := false;
        after := tasks[h := Enabling(d)];
      case Enabling(_) =>
        dev.rxIntEnabled := true;
        after := tasks[h := Idle];
    }
  }

  // A handler that is not idle goes on; a poll that has found a frame takes it without another test.
  method GoSection(t: Twins, napi: bool, tasks: seq<Task>, h: nat, stop: bool) returns (after: seq<Task>)
    requires t.Valid() && Inv(View(t, napi, tasks)) && h < |tasks| && !tasks[h].Idle?
    modifies t`lists, t`spot, t.devs, t.spot.Keys`next
    ensures t.Valid() && Named(tasks[h]) && View(t, napi, after) == GoStep(old(View(t, napi, tasks)), h, stop)
  {
    hide Twins.Consistent, Shape, Hands, DeviceOk, CarryStep, RaiseStep, LateStep, Take;
    Mine(View(t, napi, tasks), h);
    var task := tasks[h];
    if task.Carry? && task.route.Sending? {
      after := EnqueueSection(t, napi, tasks, h, task.pkt);
    } else if task.Carry? {
      after := ReleaseSection(t, napi, tasks, h, task.pkt, task.route);
    } else if task.Late? {
      after := LateSection(t, napi, tasks, h, task.pkt, task.polling);
    } else if task.Raise? {
      after := RaiseSection(t, napi, tasks, h, task.d);
    } else if task.Taking? {
      EndingIsScheduled(View(t, napi, tasks), h, task.d);
      after := DequeueSection(t, napi, tasks, h, task.d, Polling);
    } else {
      after := LookSection(t, napi, tasks, h, stop);
    }
  }

  // An idle handler begins: with a frame to send if the queue is running, or with a poll that is due.
  method BeginSection(t: Twins, napi: bool, tasks: seq<Task>, h: nat, section: Section) returns (after: seq<Task>)
    requires t.Valid() && h < |tasks| && tasks[h].Idle?
    modifies t`lists, t`spot, t.devs
    ensures t.Valid() && View(t, napi, after) == BeginStep(old(View(t, napi, tasks)), h, section)
  {
    hide Twins.Consistent;
    after := tasks;
    match section {
      case GetTx(d) =>
        if d < 2 {
          t.Heads(d);
          if !t.devs[d].stopped && t.devs[d].ppool != null {
            after := GetSection(t, napi, tasks, h, d);
          }
        }
      case StartPoll(d) =>
        if d < 2 && napi && t.devs[d].scheduled && NobodyPolls(tasks, d) {
          after := tasks[h := AtPoll(d)];
        }
      case _ =>
    }
  }

  method OneSection(t: Twins, napi: bool, tasks: seq<Task>, h: nat, section: Section) returns (after: seq<Task>)
    requires t.Valid() && Inv(View(t, napi, tasks))
    modifies t`lists, t`spot, t.devs, t.spot.Keys`next
    ensures t.Valid() && Inv(View(t, napi, after))
    ensures View(t, napi, after) == Step(old(View(t, napi, tasks)), h, section)
    ensures t.spot.Keys == old(t.spot.Keys)
  {
    StepKeepsInv(View(t, napi, tasks), h, section);
    StepKeepsPackets(View(t, napi, tasks), h, section);
    after := tasks;
    if h < |tasks| {
      Mine(View(t, napi, tasks), h);
      if tasks[h].Idle? {
        after := BeginSection(t, napi, tasks, h, section);
      } else if section.GoOn? || (section.StopPoll? && tasks[h].AtPoll?) {
        after := GoSection(t, napi, tasks, h, section.StopPoll?);
      }
    }
  }

  // Any number of sections in any order: what the machine says of its runs holds of the devices.
  method Sections(t: Twins, napi: bool, tasks: seq<Task>, steps: Steps) returns (after: seq<Task>)
    requires t.Valid() && Inv(View(t, napi, tasks))
    modifies t`lists, t`spot, t.devs, t.spot.Keys`next
    ensures t.Valid() && View(t, napi, after) == After(old(View(t, napi, tasks)), steps)
  {
    after := tasks;
    ghost var start := View(t, napi, tasks);
    for i := 0 to |steps|
      invariant t.Valid() && Inv(View(t, napi, after)) && t.spot.Keys == old(t.spot.Keys)
      invariant View(t, napi, after) == After(start, steps[..i])
    {
      ghost var before := View(t, napi, after);
      after := OneSection(t, napi, after, steps[i].0, steps[i].1);
      OneMore(start, steps, i);
    }
    assert steps[..|steps|] == steps;
  }

  lemma OneMore(s: State, steps: Steps, i: nat)
    requires i < |steps|
    ensures After(s, steps[..i + 1]) == Step(After(s, steps[..i]), steps[i].0, steps[i].1)
  {
    assert steps[..i + 1] == steps[..i] + [steps[i]];
    AfterBoth(s, steps[..i], [steps[i]]);
    var last: Steps := [steps[i]];
    assert last[1..] == [];
  }

  lemma LinksAre(t: Twins)
    requires t.Valid()
    ensures Placed(t.spot, t.lists) && NextOk(map p | p in t.spot :: p.next, t.lists)
  {
  }

  // The setup gives a state that the machine can start in.
  method Setup(napi: bool, poolSize: nat, memory0: nat, memory1: nat, handlers: nat)
    returns (t: Twins, tasks: seq<Task>)
    ensures t.Valid() && fresh(t) && fresh(t.devs) && fresh(t.spot.Keys) && |tasks| == handlers
    ensures Init(View(t, napi, tasks))
    ensures |t.lists[0]| == Least(poolSize, memory0) && |t.lists[1]| == Least(poolSize, memory1)
  {
    hide Placed;
    t := SnullInit(napi, poolSize, memory0, memory1);
    tasks := seq(handlers, _ => Idle);
    LinksAre(t);
  }
}
