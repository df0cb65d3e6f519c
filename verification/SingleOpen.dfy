/**
 The single-open device: an atomic counter that starts at one.  Taking it and testing it is one
 step of an opener, putting it back after a failure another.
 */
module SingleOpen {
  const EBUSY: int := -16

  type Pid = nat

  // Outside has no handle; Undo has failed and not put the counter back yet.
  datatype Pc = Outside(result: int) | Holder | Undo

  datatype State = State(available: int, pcs: map<Pid, Pc>)

  datatype Event = Open(pid: Pid) | PutBack(pid: Pid) | Release(pid: Pid)

  predicate Enabled(s: State, e: Event) {
    && e.pid in s.pcs
    && match e
       case Open(pid) => s.pcs[pid].Outside?
       case PutBack(pid) => s.pcs[pid].Undo?
       case Release(pid) => s.pcs[pid].Holder?
  }

  function Step(s: State, e: Event): State
    requires Enabled(s, e)
  {
    match e
    case Open(pid) =>   // atomic_dec_and_test
      State(s.available - 1, s.pcs[pid := if s.available - 1 == 0 then Holder else Undo])
    case PutBack(pid) =>
      State(s.available + 1, s.pcs[pid := Outside(EBUSY)])
    case Release(pid) =>
      State(s.available + 1, s.pcs[pid := Outside(0)])
  }

  ghost function Holders(s: State): set<Pid> {
    set p | p in s.pcs && s.pcs[p].Holder?
  }

  ghost function Failed(s: State): set<Pid> {
    set p | p in s.pcs && s.pcs[p].Undo?
  }

  ghost predicate Init(s: State) {
    s.available == 1 && forall p <- s.pcs :: s.pcs[p].Outside?
  }

  ghost predicate Inv(s: State) {
    s.available == 1 - |Holders(s)| - |Failed(s)| && |Holders(s)| <= 1
  }

  lemma StepMoves(s: State, e: Event)
    requires Enabled(s, e)
    ensures var t, p := Step(s, e), e.pid;
            && Holders(t) == (if t.pcs[p].Holder? then Holders(s) + {p} else Holders(s) - {p})
            && Failed(t) == (if t.pcs[p].Undo? then Failed(s) + {p} else Failed(s) - {p})
    ensures e.pid in Holders(s) <==> e.Release?
    ensures e.pid in Failed(s) <==> e.PutBack?
  {
  }

  lemma StepKeepsInv(s: State, e: Event)
    requires Inv(s) && Enabled(s, e)
    ensures Inv(Step(s, e))
  {
    hide Holders, Failed;
    StepMoves(s, e);
  }

  ghost predicate Run(s: State, events: seq<Event>, t: State)
    decreases |events|
  {
    if events == [] then t == s
    else Enabled(s, events[0]) && Run(Step(s, events[0]), events[1..], t)
  }

  ghost predicate Reachable(t: State) {
    exists s: State, events: seq<Event> :: Init(s) && Run(s, events, t)
  }

  lemma {:induction false} RunKeepsInv(s: State, events: seq<Event>, t: State)
    requires Inv(s) && Run(s, events, t)
    ensures Inv(t)
    decreases |events|
  {
    if events != [] {
      StepKeepsInv(s, events[0]);
      RunKeepsInv(Step(s, events[0]), events[1..], t);
    }
  }

  // In every state of every run the counter is one less the holders and the openers that still
  // have to put it back; so never are there two holders.
  lemma CounterIsExact(s: State)
    requires Reachable(s)
    ensures s.available == 1 - |Holders(s)| - |Failed(s)| && |Holders(s)| <= 1
    ensures forall p, q :: p in Holders(s) && q in Holders(s) ==> p == q
  {
    var start, events :| Init(start) && Run(start, events, s);
    assert Holders(start) == {} && Failed(start) == {};
    RunKeepsInv(start, events, s);
    forall p, q | p in Holders(s) && q in Holders(s)
      ensures p == q
    {
      if p != q {
        assert Holders(s) >= {p, q};
        SubsetSize({p, q}, Holders(s));
      }
    }
  }

  lemma SubsetSize<T>(a: set<T>, b: set<T>)
    requires a <= b
    ensures |a| <= |b|
  {
    assert b == a + (b - a);
  }

  // An open succeeds exactly if nobody holds the device and no failed opener is still about to
  // put the counter back; a device that nobody holds can refuse.
  lemma OpenSucceedsExactly(s: State, pid: Pid)
    requires Reachable(s) && Enabled(s, Open(pid))
    ensures pid in Holders(Step(s, Open(pid))) <==> Holders(s) == {} && Failed(s) == {}
  {
    CounterIsExact(s);
  }

  lemma FreeDeviceRefuses() returns (s: State, pid: Pid)
    ensures Reachable(s) && Holders(s) == {} && Enabled(s, Open(pid)) && Step(s, Open(pid)).pcs[pid].Undo?
  {
    var start := State(1, map[0 := Outside(0), 1 := Outside(0), 2 := Outside(0)]);
    var events := [Open(0), Open(1), Release(0)];
    var s1 := Step(start, events[0]);
    var s2 := Step(s1, events[1]);
    s, pid := Step(s2, events[2]), 2;
    assert events[1..][1..] == [Release(0)];
    assert Init(start) && Run(s2, [Release(0)], s) && Run(start, events, s);
    assert s.pcs == map[0 := Outside(0), 1 := Undo, 2 := Outside(0)];
  }

  // With no failed opener under way, the counter says whether the device is held.
  lemma QuietCounter(s: State)
    requires Reachable(s) && Failed(s) == {}
    ensures s.available == if Holders(s) == {} then 1 else 0
  {
    CounterIsExact(s);
  }

  lemma {:induction false} RunExtends(s: State, events: seq<Event>, t: State, e: Event)
    requires Run(s, events, t) && Enabled(t, e)
    ensures Run(s, events + [e], Step(t, e))
    decreases |events|
  {
    if events != [] {
      RunExtends(Step(s, events[0]), events[1..], t, e);
      assert (events + [e])[1..] == events[1..] + [e];
    }
  }

  lemma ReachableStep(t: State, e: Event)
    requires Reachable(t) && Enabled(t, e)
    ensures Reachable(Step(t, e))
  {
    var s, events :| Init(s) && Run(s, events, t);
    RunExtends(s, events, t, e);
  }

  class SingleDevice {
    var available: int
    var pcs: map<Pid, Pc>

    function View(): State
      reads this
    {
      State(available, pcs)
    }

    ghost predicate Valid()
      reads this
    {
      Reachable(View())
    }

    method Do(e: Event)
      requires Valid() && Enabled(View(), e)
      modifies this
      ensures Valid() && View() == Step(old(View()), e)
    {
      ReachableStep(View(), e);
      match e {
        case Open(pid) =>
          available := available - 1;
          pcs := pcs[pid := if available == 0 then Holder else Undo];
        case PutBack(pid) =>
          available := available + 1;
          pcs := pcs[pid := Outside(EBUSY)];
        case Release(pid) =>
          available := available + 1;
          pcs := pcs[pid := Outside(0)];
      }
    }

    // Any finite number of steps of the other processes.
    method Others(me: Pid)
      requires Valid() && me in pcs
      modifies this
      ensures Valid() && me in pcs && pcs[me] == old(pcs[me])
    {
      var steps: nat := *;
      while steps > 0
        invariant Valid() && me in pcs && pcs[me] == old(pcs[me])
      {
        var e: Event := *;
        if e.pid != me && Enabled(View(), e) {
          Do(e);
        }
        steps := steps - 1;
      }
    }

    // scull_s_open, with the others running in between: who gets the device is alone in having it.  seen is the
    // state in which the counter was taken down.
    method ScullSOpen(me: Pid) returns (result: int, ghost seen: State)
      requires Valid() && me in pcs && pcs[me].Outside?
      modifies this
      ensures Valid() && me in pcs && (result == 0 || result == EBUSY)
      ensures Reachable(seen) && (result == 0 <==> Holders(seen) == {} && Failed(seen) == {})
      ensures result == 0 ==> Holders(View()) == {me} && (Failed(View()) == {} ==> available == 0)
      ensures result == EBUSY ==> pcs[me] == Outside(EBUSY)
    {
      Others(me);
      seen := View();
      OpenSucceedsExactly(seen, me);
      Do(Open(me));
      if pcs[me].Undo? {
        assert me !in Holders(View());
        Others(me);
        Do(PutBack(me));
        result := EBUSY;
        return;
      }
      assert me in Holders(View());
      Others(me);
      CounterIsExact(View());
      assert me in Holders(View());
      if Failed(View()) == {} {
        QuietCounter(View());
      }
      result := 0;
    }

    // scull_s_release
    method ScullSRelease(me: Pid)
      requires Valid() && me in pcs && pcs[me].Holder?
      modifies this
      ensures Valid() && me in pcs && pcs[me] == Outside(0)
      ensures Holders(View()) == {} && Failed(View()) == {} ==> available == 1
    {
      Others(me);
      Do(Release(me));
      if Failed(View()) == {} {
        QuietCounter(View());
      }
    }
  }
}
