/**
 The two devices that belong to one user at a time, for any number of processes: one refuses the
 others, one makes them wait.  The sections under the spin lock are single steps; the test made from
 inside the wait queue is outside the lock, and each of its reads is a step.
 */
module UidDevice {
  const EBUSY: int := -16
  const EAGAIN: int := -11
  const ERESTARTSYS: int := -512

  type Pid = nat

  // Who asks, and how: privileged is CAP_DAC_OVERRIDE.
  datatype Caller = Caller(uid: nat, euid: nat, privileged: bool, nonblock: bool)

  datatype Pc =
    | Outside(result: int)
    | Opening       // about to take the lock
    | Refused       // has found the device taken, and released the lock
    | Enqueue
    | QueuedTest    // about to read the count from inside the wait queue
    | QueuedUid     // has seen a count, about to compare the owner with its uid
    | QueuedEuid    // has seen another owner, about to compare the owner with its euid
    | Asleep
    | Holder
    | WakeUp        // has brought the count to zero

  // Each process stands for one handle and what is done to get it and to give it back.
  datatype Proc = Proc(caller: Caller, pc: Pc, woken: bool)

  datatype State = State(waits: bool, count: int, owner: nat, procs: map<Pid, Proc>)

  datatype Event =
    | Call(pid: Pid, caller: Caller)
    | Release(pid: Pid)
    | Go(pid: Pid, signal: bool)

  // scull_w_available, which scull_u_open spells out
  predicate Available(s: State, c: Caller) {
    s.count == 0 || s.owner == c.uid || s.owner == c.euid || c.privileged
  }

  predicate Enabled(s: State, e: Event) {
    && e.pid in s.procs
    && var pc := s.procs[e.pid].pc;
       match e
       case Call(_, _) => pc.Outside?
       case Release(_) => pc.Holder?
       case Go(pid, signal) =>
         && !pc.Outside? && !pc.Holder?
         && (pc.Asleep? ==> s.procs[pid].woken || signal)
  }

  predicate OnQueue(p: Proc) {
    p.pc.QueuedTest? || p.pc.QueuedUid? || p.pc.QueuedEuid? || p.pc.Asleep?
  }

  function WakeAll(procs: map<Pid, Proc>): (woken: map<Pid, Proc>)
    ensures woken.Keys == procs.Keys
  {
    map q | q in procs :: if OnQueue(procs[q]) then procs[q].(woken := true) else procs[q]
  }

  // The pc after a step of an opener that does not get the device, or of the waker.
  function NextPc(s: State, p: Proc, signal: bool): Pc {
    match p.pc
    case Opening => Refused
    case Refused => if !s.waits then Outside(EBUSY) else if p.caller.nonblock then Outside(EAGAIN) else Enqueue
    case Enqueue => QueuedTest
    case QueuedTest => if s.count == 0 then Opening else QueuedUid
    case QueuedUid => if s.owner == p.caller.uid then Opening else QueuedEuid
    case QueuedEuid =>
      if s.owner == p.caller.euid || p.caller.privileged then Opening
      else if signal then Outside(ERESTARTSYS)
      else Asleep
    case Asleep => Enqueue
    case WakeUp => Outside(0)
    case Holder => Holder
    case Outside(result) => Outside(result)
  }

  function Step(s: State, e: Event): State
    requires Enabled(s, e)
  {
    var p := s.procs[e.pid];
    match e
    case Call(pid, caller) => s.(procs := s.procs[pid := Proc(caller, Opening, false)])
    case Release(pid) =>
      // only the blocking device wakes anybody
      var next := if s.count - 1 == 0 && s.waits then WakeUp else Outside(0);
      s.(count := s.count - 1, procs := s.procs[pid := p.(pc := next)])
    case Go(pid, signal) =>
      if p.pc.Opening? && Available(s, p.caller) then
        s.(owner := if s.count == 0 then p.caller.uid else s.owner, count := s.count + 1,
           procs := s.procs[pid := p.(pc := Holder)])
      else
        var procs := if p.pc.WakeUp? then WakeAll(s.procs) else s.procs;
        s.(procs := procs[pid := p.(pc := NextPc(s, p, signal), woken := p.woken && !p.pc.Enqueue?)])
  }

  // ---- the invariant ----

  ghost function Holders(s: State): set<Pid> {
    set p | p in s.procs && s.procs[p].pc.Holder?
  }

  predicate Matches(owner: nat, c: Caller) {
    owner == c.uid || owner == c.euid || c.privileged
  }

  ghost predicate HoldersMatch(s: State) {
    forall p <- s.procs :: s.procs[p].pc.Holder? ==> Matches(s.owner, s.procs[p].caller)
  }

  predicate SleepsUnwoken(p: Proc) {
    p.pc.Asleep? && !p.woken
  }

  ghost predicate WakeUpPending(s: State) {
    exists q <- s.procs :: s.procs[q].pc.WakeUp?
  }

  // An unwoken process on the wait queue that sleeps, or will, on an answer that is no longer true.
  predicate Misled(s: State, p: Proc) {
    && !p.woken
    && match p.pc
       case QueuedUid => s.count == 0
       case QueuedEuid => s.count == 0 || s.owner == p.caller.uid
       case Asleep => Available(s, p.caller)
       case _ => false
  }

  ghost predicate NoLostWakeup(s: State) {
    forall p <- s.procs :: Misled(s, s.procs[p]) ==> WakeUpPending(s)
  }

  ghost predicate OnlyWaitersSleep(s: State) {
    !s.waits ==> forall p <- s.procs :: !OnQueue(s.procs[p]) && !s.procs[p].pc.Enqueue?
  }

  ghost predicate Inv(s: State) {
    s.count == |Holders(s)| && HoldersMatch(s) && NoLostWakeup(s) && OnlyWaitersSleep(s)
  }

  ghost predicate Init(s: State) {
    s.count == 0 && forall p <- s.procs :: s.procs[p].pc.Outside?
  }

  lemma StepKeepsCount(s: State, e: Event)
    requires s.count == |Holders(s)| && Enabled(s, e)
    ensures Step(s, e).count == |Holders(Step(s, e))|
  {
    var t, p := Step(s, e), e.pid;
    assert forall q <- s.procs :: q != p ==> t.procs[q].pc == s.procs[q].pc;
    OneMoves(s, t, p);
  }

  lemma OneMoves(s: State, t: State, p: Pid)
    requires p in s.procs && t.procs.Keys == s.procs.Keys
    requires forall q <- s.procs :: q != p ==> t.procs[q].pc == s.procs[q].pc
    ensures |Holders(t)| ==
      |Holders(s)| - (if s.procs[p].pc.Holder? then 1 else 0) + (if t.procs[p].pc.Holder? then 1 else 0)
  {
    assert p in Holders(s) <==> s.procs[p].pc.Holder?;
    assert Holders(t) == if t.procs[p].pc.Holder? then Holders(s) + {p} else Holders(s) - {p};
  }

  lemma NobodyHolds(s: State, p: Pid)
    requires s.count == |Holders(s)| && s.count == 0 && p in s.procs
    ensures !s.procs[p].pc.Holder?
  {
    assert p !in Holders(s);
  }

  lemma StepKeepsMatch(s: State, e: Event)
    requires s.count == |Holders(s)| && HoldersMatch(s) && Enabled(s, e)
    ensures HoldersMatch(Step(s, e))
  {
    var t := Step(s, e);
    forall p <- t.procs | t.procs[p].pc.Holder?
      ensures Matches(t.owner, t.procs[p].caller)
    {
      if p != e.pid {
        assert t.procs[p].pc == s.procs[p].pc && t.procs[p].caller == s.procs[p].caller;
        if s.count == 0 {
          NobodyHolds(s, p);
        }
      }
    }
  }

  lemma StepKeepsWakeups(s: State, e: Event)
    requires s.count >= 0 && NoLostWakeup(s) && OnlyWaitersSleep(s) && Enabled(s, e)
    ensures NoLostWakeup(Step(s, e)) && OnlyWaitersSleep(Step(s, e))
  {
    var t, me := Step(s, e), e.pid;
    assert forall q <- s.procs :: q != me ==> t.procs[q].pc == s.procs[q].pc && t.procs[q].caller == s.procs[q].caller;
    forall p <- t.procs | Misled(t, t.procs[p])
      ensures WakeUpPending(t)
    {
      if p == me {
        assert WakeUpPending(s) by { assert !Misled(t, t.procs[p]) || Misled(s, s.procs[p]); }
        var q :| q in s.procs && s.procs[q].pc.WakeUp?;
        assert t.procs[q].pc.WakeUp?;
      } else if !s.procs[me].pc.WakeUp? {
        if t.procs[me].pc.WakeUp? {
          assert me in t.procs;
        } else {
          assert OnQueue(s.procs[p]) && s.waits;
          assert Misled(s, s.procs[p]);
          var q :| q in s.procs && s.procs[q].pc.WakeUp?;
          assert t.procs[q].pc.WakeUp?;
        }
      }
    }
  }

  lemma StepKeepsInv(s: State, e: Event)
    requires Inv(s) && Enabled(s, e)
    ensures Inv(Step(s, e))
  {
    StepKeepsCount(s, e);
    StepKeepsMatch(s, e);
    StepKeepsWakeups(s, e);
  }

  // ---- runs ----

  ghost predicate Run(s: State, events: seq<Event>, t: State)
    decreases |events|
  {
    if events == [] then t == s
    else Enabled(s, events[0]) && Run(Step(s, events[0]), events[1..], t)
  }

  ghost predicate Reachable(t: State) {
    exists s: State, events: seq<Event> :: Init(s) && Run(s, events, t)
  }

  lemma {:induction false} RunKeepsInv(s: State, events: seq<Event>, t: State)
    requires Inv(s) && Run(s, events, t)
    ensures Inv(t)
    decreases |events|
  {
    if events != [] {
      StepKeepsInv(s, events[0]);
      RunKeepsInv(Step(s, events[0]), events[1..], t);
    }
  }

  lemma {:induction false} RunExtends(s: State, events: seq<Event>, t: State, e: Event)
    requires Run(s, events, t) && Enabled(t, e)
    ensures Run(s, events + [e], Step(t, e))
    decreases |events|
  {
    if events != [] {
      RunExtends(Step(s, events[0]), events[1..], t, e);
      assert (events + [e])[1..] == events[1..] + [e];
    }
  }

  lemma ReachableStep(t: State, e: Event)
    requires Reachable(t) && Enabled(t, e)
    ensures Reachable(Step(t, e))
  {
    var s, events :| Init(s) && Run(s, events, t);
    RunExtends(s, events, t, e);
  }

  lemma ReachableHasInv(t: State)
    requires Reachable(t)
    ensures Inv(t)
  {
    var s, events :| Init(s) && Run(s, events, t);
    assert Holders(s) == {};
    RunKeepsInv(s, events, t);
  }

  // The count is the number of open handles, and whoever has one is the owner by uid or by euid,
  // or privileged.
  lemma CountIsHandles(s: State)
    requires Reachable(s)
    ensures s.count == |Holders(s)|
    ensures forall p <- Holders(s) :: Matches(s.owner, s.procs[p].caller)
  {
    ReachableHasInv(s);
  }

  // The device is open to a caller: nobody holds it, or its owner is the caller by uid or by euid, or the caller has
  // the privilege.
  ghost predicate OpenTo(s: State, c: Caller) {
    Holders(s) == {} || s.owner == c.uid || s.owner == c.euid || c.privileged
  }

  // Under the lock an opener gets the device, on either of them, exactly if it is open to it; then it holds it,
  // the owner is the one before or, if nobody held it, the opener.  Otherwise nothing changes but that it is
  // refused: for good with -EBUSY on the one device, and with -EAGAIN on the other if it does not want to wait.
  lemma OpenEntersExactly(s: State, p: Pid, signal: bool)
    requires Reachable(s) && p in s.procs && s.procs[p].pc.Opening?
    ensures var t, c := Step(s, Go(p, signal)), s.procs[p].caller;
            && (p in Holders(t) <==> OpenTo(s, c))
            && (OpenTo(s, c) ==>
                  && Holders(t) == Holders(s) + {p} && t.count == s.count + 1
                  && t.owner == (if Holders(s) == {} then c.uid else s.owner))
            && (!OpenTo(s, c) ==> t == s.(procs := s.procs[p := s.procs[p].(pc := Refused)]))
  {
    CountIsHandles(s);
    assert s.count == 0 <==> Holders(s) == {};
    hide Reachable;
    var t := Step(s, Go(p, signal));
    assert forall q <- s.procs :: q != p ==> t.procs[q] == s.procs[q];
    assert Holders(t) == if t.procs[p].pc.Holder? then Holders(s) + {p} else Holders(s);
  }

  lemma RefusalIs(s: State, p: Pid, signal: bool)
    requires Reachable(s) && p in s.procs && s.procs[p].pc.Refused?
    ensures var t, c := Step(s, Go(p, signal)), s.procs[p].caller;
            && t.count == s.count && t.owner == s.owner && Holders(t) == Holders(s)
            && (!s.waits ==> t.procs[p].pc == Outside(-16))
            && (s.waits && c.nonblock ==> t.procs[p].pc == Outside(-11))
            && (s.waits && !c.nonblock ==> !t.procs[p].pc.Outside?)
  {
  }

  // The owner stays the owner as long as a handle is open: it changes at most by an opener that
  // finds the count at zero, and then to that opener.
  lemma OwnerIsFixed(s: State, e: Event)
    requires Reachable(s) && Enabled(s, e)
    ensures Step(s, e).owner != s.owner ==>
      Holders(s) == {} && Holders(Step(s, e)) == {e.pid} && Step(s, e).owner == s.procs[e.pid].caller.uid
  {
    ReachableHasInv(s);
    ReachableStep(s, e);
    var t := Step(s, e);
    if t.owner != s.owner {
      forall q <- s.procs
        ensures !s.procs[q].pc.Holder?
      {
        NobodyHolds(s, q);
      }
      assert forall q <- s.procs :: q != e.pid ==> t.procs[q] == s.procs[q];
    }
  }

  // Who sleeps although the device is there for the taking is owed a wake-up by a process that has
  // brought the count to zero.
  lemma SleepersAreOwedWakeups(s: State, p: Pid)
    requires Reachable(s) && p in s.procs && SleepsUnwoken(s.procs[p]) && Available(s, s.procs[p].caller)
    ensures WakeUpPending(s)
  {
    ReachableHasInv(s);
  }

  // No process can take a step of its own; only a new call, a release or a signal changes anything.
  ghost predicate Stuck(s: State) {
    forall e: Event :: e.Go? && Enabled(s, e) ==> e.signal
  }

  // When nothing moves, whoever is left inside an open is asleep, and somebody else's handle is the
  // reason; so a device that nobody holds leaves nobody waiting.
  lemma StuckMeansTaken(s: State, p: Pid)
    requires Reachable(s) && Stuck(s) && p in s.procs && !s.procs[p].pc.Outside? && !s.procs[p].pc.Holder?
    ensures SleepsUnwoken(s.procs[p]) && Holders(s) != {}
    ensures forall q <- Holders(s) :: !Matches(s.owner, s.procs[p].caller)
  {
    ReachableHasInv(s);
    assert !Enabled(s, Go(p, false));
    forall q <- s.procs
      ensures !s.procs[q].pc.WakeUp?
    {
      assert !Enabled(s, Go(q, false));
    }
  }

  // ---- how a call goes, with nobody in between ----

  // So many steps of one process.
  function Steps(p: Pid, n: nat): seq<Event> {
    seq(n, _ => Go(p, false))
  }

  lemma {:induction false} OneStepFirst(s: State, p: Pid, n: nat, t: State)
    requires Enabled(s, Go(p, false)) && Run(Step(s, Go(p, false)), Steps(p, n), t)
    ensures Run(s, Steps(p, n + 1), t)
  {
    assert Steps(p, n + 1)[1..] == Steps(p, n);
  }

  // A call begins at the lock.
  lemma CallBegins(s: State, p: Pid, c: Caller)
    requires Enabled(s, Call(p, c))
    ensures Step(s, Call(p, c)) == s.(procs := s.procs[p := Proc(c, Opening, false)])
  {
  }

  // An opener that may wait, and to whom the device is not open, is asleep after six steps, and nothing else has
  // changed.
  lemma FallsAsleep(s: State, p: Pid)
    requires Reachable(s) && s.waits && p in s.procs && s.procs[p].pc.Opening?
    requires !s.procs[p].caller.nonblock && !OpenTo(s, s.procs[p].caller)
    ensures Run(s, Steps(p, 6), s.(procs := s.procs[p := Proc(s.procs[p].caller, Asleep, false)]))
  {
    var c := s.procs[p].caller;
    OpenEntersExactly(s, p, false);
    assert s.count != 0 by { CountIsHandles(s); }
    hide Reachable, OpenTo;
    var s1 := Step(s, Go(p, false));
    var s2 := Step(s1, Go(p, false));
    var s3 := Step(s2, Go(p, false));
    var s4 := Step(s3, Go(p, false));
    var s5 := Step(s4, Go(p, false));
    var s6 := Step(s5, Go(p, false));
    assert s6 == s.(procs := s.procs[p := Proc(c, Asleep, false)]);
    assert Run(s6, Steps(p, 0), s6);
    OneStepFirst(s5, p, 0, s6);
    OneStepFirst(s4, p, 1, s6);
    OneStepFirst(s3, p, 2, s6);
    OneStepFirst(s2, p, 3, s6);
    OneStepFirst(s1, p, 4, s6);
    OneStepFirst(s, p, 5, s6);
  }

  // The test from inside the wait queue, of a process to whom the device is open.
  lemma TestLetsGo(s: State, p: Pid) returns (n: nat, t: State)
    requires Reachable(s) && p in s.procs && s.procs[p].pc.QueuedTest? && OpenTo(s, s.procs[p].caller)
    ensures Run(s, Steps(p, n), t) && t == s.(procs := s.procs[p := s.procs[p].(pc := Opening)])
  {
    assert s.count == 0 <==> Holders(s) == {} by { CountIsHandles(s); }
    hide Reachable;
    var c := s.procs[p].caller;
    n := if s.count == 0 then 1 else if s.owner == c.uid then 2 else 3;
    t := s.(procs := s.procs[p := s.procs[p].(pc := Opening)]);
    assert Run(t, Steps(p, 0), t);
    var s1 := Step(s, Go(p, false));
    if n > 1 {
      var s2 := Step(s1, Go(p, false));
      if n > 2 {
        assert Step(s2, Go(p, false)) == t;
        OneStepFirst(s2, p, 0, t);
      }
      OneStepFirst(s1, p, n - 2, t);
    }
    OneStepFirst(s, p, n - 1, t);
  }

  // A woken sleeper comes back to the test.
  lemma WokenTests(s: State, p: Pid) returns (t: State)
    requires Reachable(s) && p in s.procs && s.procs[p].pc.Asleep? && s.procs[p].woken
    ensures Reachable(t) && t == s.(procs := s.procs[p := s.procs[p].(pc := QueuedTest, woken := false)])
    ensures Holders(t) == Holders(s)
    ensures forall n: nat, u: State :: Run(t, Steps(p, n), u) ==> Run(s, Steps(p, n + 2), u)
  {
    var s1 := Step(s, Go(p, false));
    ReachableStep(s, Go(p, false));
    t := Step(s1, Go(p, false));
    ReachableStep(s1, Go(p, false));
    hide Reachable;
    forall n: nat, u: State | Run(t, Steps(p, n), u)
      ensures Run(s, Steps(p, n + 2), u)
    {
      OneStepFirst(s1, p, n, u);
      OneStepFirst(s, p, n + 1, u);
    }
  }

  // A sleeper that has been woken while the device is open to it gets it.
  lemma WokenGetsIn(s: State, p: Pid) returns (n: nat, t: State)
    requires Reachable(s) && p in s.procs && s.procs[p].pc.Asleep? && s.procs[p].woken && OpenTo(s, s.procs[p].caller)
    ensures Run(s, Steps(p, n), t) && p in Holders(t) && t.count == s.count + 1
  {
    var s2 := WokenTests(s, p);
    var m, s3 := TestLetsGo(s2, p);
    ReachableRun(s2, Steps(p, m), s3);
    assert Holders(s3) == Holders(s);
    OpenEntersExactly(s3, p, false);
    hide Reachable, OpenTo, Step;
    t := Step(s3, Go(p, false));
    RunExtends(s2, Steps(p, m), s3, Go(p, false));
    assert Steps(p, m) + [Go(p, false)] == Steps(p, m + 1);
    n := m + 3;
  }

  lemma {:induction false} ReachableRun(s: State, events: seq<Event>, t: State)
    requires Reachable(s) && Run(s, events, t)
    ensures Reachable(t)
    decreases |events|
  {
    if events != [] {
      ReachableStep(s, events[0]);
      ReachableRun(Step(s, events[0]), events[1..], t);
    }
  }

  // Whatever comes in between, a signal ends an open at the end of the test from inside the wait queue, when that
  // finds no match, and nowhere else; without one such a process goes to sleep, and with a match back to the lock.
  lemma SignalEndsOnly(s: State, p: Pid, signal: bool)
    requires Enabled(s, Go(p, signal)) && !s.procs[p].pc.Asleep?
    ensures var c, next := s.procs[p].caller, Step(s, Go(p, signal)).procs[p].pc;
            var misses := s.procs[p].pc.QueuedEuid? && s.owner != c.euid && !c.privileged;
            && (next == Outside(-512) <==> misses && signal)
            && (next == Asleep <==> misses && !signal)
            && (OnQueue(s.procs[p]) && (next.Outside? || next.Asleep?) ==> misses)
  {
  }

  // ---- the devices ----

  class UidDevice {
    const waits: bool     // scull_w, not scull_u
    var count: int
    var owner: nat
    var procs: map<Pid, Proc>

    function View(): State
      reads this
    {
      State(waits, count, owner, procs)
    }

    ghost predicate Valid()
      reads this
    {
      Reachable(View())
    }

    method Do(e: Event)
      requires Valid() && Enabled(View(), e)
      modifies this
      ensures Valid() && View() == Step(old(View()), e)
    {
      ReachableStep(View(), e);
      var p := procs[e.pid];
      match e {
        case Call(pid, caller) =>
          procs := procs[pid := Proc(caller, Opening, false)];
        case Release(pid) =>
          count := count - 1;
          procs := procs[pid := p.(pc := if count == 0 && waits then WakeUp else Outside(0))];
        case Go(pid, signal) =>
          if p.pc.Opening? && Available(View(), p.caller) {
            if count == 0 {
              owner := p.caller.uid;
            }
            count := count + 1;
            procs := procs[pid := p.(pc := Holder)];
          } else {
            var next := NextPc(View(), p, signal);
            if p.pc.WakeUp? {
              procs := WakeAll(procs);
            }
            procs := procs[pid := p.(pc := next, woken := p.woken && !p.pc.Enqueue?)];
          }
      }
    }

    // Any finite number of steps of the other processes.
    method Others(me: Pid)
      requires Valid() && me in procs
      modifies this
      ensures Valid() && me in procs && SameProc(old(procs[me]), procs[me])
    {
      var steps: nat := *;
      while steps > 0
        invariant Valid() && me in procs && SameProc(old(procs[me]), procs[me])
      {
        var e: Event := *;
        if e.pid != me && Enabled(View(), e) {
          Do(e);
        }
        steps := steps - 1;
      }
    }

    predicate At(me: Pid, caller: Caller, pc: Pc)
      reads this
    {
      me in procs && procs[me].caller == caller && procs[me].pc == pc
    }

    // One step of this process, after any number of the others'.
    method Next(me: Pid, signal: bool)
      requires Valid() && me in procs && !procs[me].pc.Outside? && !procs[me].pc.Holder?
      requires procs[me].pc.Asleep? ==> signal
      modifies this
      ensures Valid() && me in procs && procs[me].caller == old(procs[me].caller)
      ensures NextPcs(waits, old(procs[me]), signal, procs[me].pc)
      ensures old(OnQueue(procs[me])) && procs[me].pc.Opening? ==> Available(View(), procs[me].caller)
      ensures old(procs[me].pc.WakeUp?) ==> NobodyUnwoken(procs)
    {
      Others(me);
      Do(Go(me, signal));
    }

    // scull_w_available() from inside the wait queue, with the others running between its reads
    method TestFromQueue(me: Pid, caller: Caller, signal: bool)
      requires Valid() && At(me, caller, QueuedTest)
      modifies this
      ensures Valid()
      ensures At(me, caller, Opening) || At(me, caller, if signal then Outside(ERESTARTSYS) else Asleep)
      ensures procs[me].pc.Opening? ==> Available(View(), caller)
    {
      Next(me, signal);
      if procs[me].pc.QueuedUid? {
        Next(me, signal);
      }
      if procs[me].pc.QueuedEuid? {
        Next(me, signal);
      }
    }

    // wait_event_interruptible(scull_w_wait, scull_w_available()); a signal is what ends a wait
    // that goes on for too long.
    method WaitForDevice(me: Pid, caller: Caller)
      requires Valid() && At(me, caller, Enqueue) && waits
      modifies this
      ensures Valid() && (At(me, caller, Opening) || At(me, caller, Outside(ERESTARTSYS)))
      ensures procs[me].pc.Opening? ==> Available(View(), caller)
    {
      var patience: nat := *;
      while procs[me].pc.Enqueue?
        invariant Valid()
        invariant At(me, caller, Enqueue) || At(me, caller, Opening) || At(me, caller, Outside(ERESTARTSYS))
        invariant procs[me].pc.Opening? ==> Available(View(), caller)
        decreases procs[me].pc.Enqueue?, patience
      {
        Next(me, false);
        TestFromQueue(me, caller, patience == 0);
        if procs[me].pc.Asleep? {
          Next(me, true);
        }
        patience := if patience > 0 then patience - 1 else 0;
      }
    }

    // What an open ends with if it does not get the device.
    function Refusal(caller: Caller): int {
      if !waits then EBUSY else if caller.nonblock then EAGAIN else ERESTARTSYS
    }

    ghost predicate JustEntered(seen: State, me: Pid, caller: Caller)
      reads this
    {
      && me in seen.procs && seen.procs[me].pc.Opening? && seen.procs[me].caller == caller
      && View() == Step(seen, Go(me, false))
    }

    // One test under the lock, and the wait if it fails.  seen is the state in which the test was made.
    method TryOnce(me: Pid, caller: Caller, mayRun: bool) returns (ghost seen: State)
      requires Valid() && At(me, caller, Opening)
      modifies this
      ensures Valid() && Reachable(seen)
      ensures At(me, caller, Opening) || At(me, caller, Holder) || At(me, caller, Outside(Refusal(caller)))
      ensures !procs[me].pc.Opening? ==> (procs[me].pc.Holder? <==> OpenTo(seen, caller))
      ensures procs[me].pc.Holder? ==> JustEntered(seen, me, caller)
      ensures procs[me].pc.Opening? ==> Available(View(), caller) && (mayRun || !Available(old(View()), caller))
    {
      if mayRun {
        Others(me);
      }
      seen := View();
      OpenEntersExactly(seen, me, false);
      hide OpenTo, Reachable;
      Do(Go(me, false));
      if procs[me].pc.Refused? {
        Next(me, false);
        if procs[me].pc.Enqueue? {
          WaitForDevice(me, caller);
        }
      }
    }

    // scull_u_open and scull_w_open, with the others running in between.  They cannot take the
    // device away between its being free and the lock for ever.  The open succeeds exactly if the device was open
    // to the caller at its last test under the lock.
    method Open(me: Pid, caller: Caller) returns (result: int, ghost seen: State)
      requires Valid() && me in procs && procs[me].pc.Outside?
      modifies this
      ensures Valid() && (if result == 0 then At(me, caller, Holder) else At(me, caller, Outside(result)))
      ensures Reachable(seen) && (result == 0 <==> OpenTo(seen, caller))
      ensures result == 0 ==> me in Holders(View()) && count == seen.count + 1 && Matches(owner, caller)
      ensures result == 0 ==> owner == if Holders(seen) == {} then caller.uid else seen.owner
      ensures result != 0 ==> result == if !waits then EBUSY else if caller.nonblock then EAGAIN else ERESTARTSYS
    {
      Do(Call(me, caller));
      var patience: nat := *;
      seen := TryOnce(me, caller, patience > 0);
      while procs[me].pc.Opening?
        invariant Valid() && me in procs && Reachable(seen)
        invariant At(me, caller, Opening) || At(me, caller, Holder) || At(me, caller, Outside(Refusal(caller)))
        invariant !procs[me].pc.Opening? ==> (procs[me].pc.Holder? <==> OpenTo(seen, caller))
        invariant procs[me].pc.Holder? ==> JustEntered(seen, me, caller)
        decreases procs[me].pc.Opening?, patience, !Available(View(), caller)
      {
        patience := if patience > 0 then patience - 1 else 0;
        seen := TryOnce(me, caller, patience > 0);
      }
      result := if procs[me].pc.Holder? then 0 else procs[me].pc.result;
      if result == 0 {
        OpenEntersExactly(seen, me, false);
      }
      CountIsHandles(View());
    }

    // scull_u_release and scull_w_release.  On the device that makes others wait, the last handle to go wakes
    // everybody who is then on the wait queue; in every other case the handle is all that changes.
    method Close(me: Pid)
      requires Valid() && me in procs && procs[me].pc.Holder?
      modifies this
      ensures Valid() && At(me, old(procs[me].caller), Outside(0))
      ensures waits && old(count) == 1 ==> NobodyUnwoken(procs)
      ensures !(waits && old(count) == 1) ==>
        && count == old(count) - 1 && owner == old(owner)
        && procs == old(procs)[me := old(procs[me]).(pc := Outside(0))]
    {
      Do(Release(me));
      if procs[me].pc.WakeUp? {
        Next(me, false);
      }
    }
  }

  predicate NobodyUnwoken(procs: map<Pid, Proc>) {
    forall q <- procs :: OnQueue(procs[q]) ==> procs[q].woken
  }

  // The others can change nothing about a process but its being woken.
  predicate SameProc(before: Proc, after: Proc) {
    after == before || after == before.(woken := true)
  }

  // Where one step can take a process, whatever the others have done to the device.
  predicate NextPcs(waits: bool, p: Proc, signal: bool, next: Pc) {
    match p.pc
    case Opening => next.Holder? || next.Refused?
    case Refused => next == if !waits then Outside(EBUSY) else if p.caller.nonblock then Outside(EAGAIN) else Enqueue
    case Enqueue => next.QueuedTest?
    case QueuedTest => next.Opening? || next.QueuedUid?
    case QueuedUid => next.Opening? || next.QueuedEuid?
    case QueuedEuid => next.Opening? || (if signal then next == Outside(ERESTARTSYS) else next.Asleep?)
    case Asleep => next.Enqueue?
    case WakeUp => next == Outside(0)
    case Holder => next == Holder
    case Outside(_) => next == p.pc
  }
}
