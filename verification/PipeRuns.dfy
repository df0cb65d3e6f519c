/** Runs of the pipe, opens included, and what holds in every state they reach. */
module PipeRuns {
  import opened Ring
  import opened Pipe
  import opened PipeSafety

  ghost predicate Run(s: State, events: seq<Event>, t: State)
    decreases |events|
  {
    if events == [] then t == s
    else WellFormed(s) && Enabled(s, events[0]) && Run(Step(s, events[0]), events[1..], t)
  }

  ghost predicate Reachable(t: State) {
    exists s: State, events: seq<Event> :: Init(s) && Run(s, events, t)
  }

  lemma {:induction false} RunKeepsInv(s: State, events: seq<Event>, t: State)
    requires Inv(s) && Run(s, events, t)
    ensures Inv(t)
    decreases |events|
  {
    if events != [] {
      StepKeepsInv(s, events[0]);
      RunKeepsInv(Step(s, events[0]), events[1..], t);
    }
  }

  lemma {:induction false} RunExtends(s: State, events: seq<Event>, t: State, e: Event)
    requires Run(s, events, t) && WellFormed(t) && Enabled(t, e)
    ensures Run(s, events + [e], Step(t, e))
    decreases |events|
  {
    if events != [] {
      RunExtends(Step(s, events[0]), events[1..], t, e);
      assert (events + [e])[1..] == events[1..] + [e];
    }
  }

  lemma ReachableHasInv(t: State)
    requires Reachable(t)
    ensures Inv(t)
  {
    var s, events :| Init(s) && Run(s, events, t);
    InitHasInv(s);
    RunKeepsInv(s, events, t);
  }

  lemma ReachableStep(t: State, e: Event)
    requires Reachable(t)
    ensures WellFormed(t)
    ensures Enabled(t, e) ==> Reachable(Step(t, e))
  {
    ReachableHasInv(t);
    var s, events :| Init(s) && Run(s, events, t);
    if Enabled(t, e) {
      RunExtends(s, events, t, e);
    }
  }

  // Never two processes inside; and the semaphore is free exactly when nobody is, so every
  // path out of a call has given back what it took, once.
  lemma SemaphoreExcludes(s: State, p: Pid, q: Pid)
    requires Reachable(s)
    ensures InsideAt(s, p) && InsideAt(s, q) ==> p == q
    ensures s.sem == 0 || s.sem == 1
    ensures s.sem == 1 <==> forall r: Pid :: !InsideAt(s, r)
  {
    ReachableHasInv(s);
  }

  // Bytes delivered since the last open, followed by the bytes in the ring, are the bytes accepted
  // since then; and the writer never catches up with the reader.
  lemma PipeIsFifo(s: State)
    requires Reachable(s)
    ensures PointersOk(s) && s.outMark <= |s.delivered| && s.inMark <= |s.accepted|
    ensures s.delivered[s.outMark..] + Stored(s) == s.accepted[s.inMark..] && |Stored(s)| <= |s.buf| - 1
  {
    ReachableHasInv(s);
    ContentsLength(s.buf, Norm(|s.buf|, s.wp), Norm(|s.buf|, s.rp));
  }

  // A reader asleep beside data, or a writer asleep beside space, is owed a wake-up by a process
  // of the other role that is on its way to issue it, whatever came between the reads of its test.  The one
  // exception is a writer that an open has left asleep, or about to fall asleep on what it had read.
  lemma SleepersAreOwedWakeups(s: State, p: Pid)
    requires Reachable(s) && p in s.procs && SleepsUnwoken(s.procs[p])
    ensures PointersOk(s)
    ensures s.procs[p].role.Reader? && Stored(s) != [] ==> WriterWillWake(s)
    ensures s.procs[p].role.Writer? && |Stored(s)| < |s.buf| - 1 ==> p in s.left || ReaderWillWake(s)
  {
    ReachableHasInv(s);
    ContentsLength(s.buf, Norm(|s.buf|, s.wp), Norm(|s.buf|, s.rp));
  }

  // ---- who waits, and how a wait ends ----

  predicate MayWait(p: Proc) {
    p.role.nonblock ==> !OnQueue(p) && !p.pc.Enqueue?
  }

  lemma MayWaitStays(s: State, e: Event, p: Pid)
    requires WellFormed(s) && Enabled(s, e) && p in s.procs && MayWait(s.procs[p])
    ensures p in Step(s, e).procs && MayWait(Step(s, e).procs[p])
  {
    hide SpaceFree, Amount, SaysFull;
  }

  lemma {:induction false} MayWaitAllAlong(s: State, events: seq<Event>, t: State, p: Pid)
    requires Run(s, events, t) && p in s.procs && MayWait(s.procs[p])
    ensures p in t.procs && MayWait(t.procs[p])
    decreases |events|
  {
    if events != [] {
      MayWaitStays(s, events[0], p);
      MayWaitAllAlong(Step(s, events[0]), events[1..], t, p);
    }
  }

  lemma {:induction false} SameProcesses(s: State, events: seq<Event>, t: State)
    requires Run(s, events, t)
    ensures t.procs.Keys == s.procs.Keys
    decreases |events|
  {
    if events != [] {
      SameProcesses(Step(s, events[0]), events[1..], t);
    }
  }

  // A call that asks not to wait never joins a wait queue.
  lemma NonblockNeverWaits(s: State, p: Pid)
    requires Reachable(s) && p in s.procs && s.procs[p].role.nonblock
    ensures !OnQueue(s.procs[p]) && !s.procs[p].pc.Enqueue?
  {
    var start, events :| Init(start) && Run(start, events, s);
    SameProcesses(start, events, s);
    MayWaitAllAlong(start, events, s, p);
  }

  // The test of a process on the wait queue ends with the next read, and says that it need not wait.
  predicate TestSaysGo(s: State, p: Proc)
    requires 0 < |s.buf| && s.wp <= |s.buf|
  {
    match p.pc
    case QueuedWp(seen) => if p.role.Reader? then seen != s.wp else seen == s.wp && |s.buf| > 1
    case QueuedLast(seen) => !SaysFull(|s.buf|, seen, s.wp)
    case _ => false
  }

  // A signal ends a call in three places: at the semaphore; for a reader, when its test from the wait queue finds
  // nothing; for a writer, when it leaves the queue, whether its test has found space or it has slept.
  lemma SignalEndsOnly(s: State, pid: Pid, signal: bool)
    requires Reachable(s) && Enabled(s, Go(pid, signal, true))
    ensures PointersIn(s)
    ensures var p, next := s.procs[pid], Advance1(s, pid, signal).procs[pid].pc;
            next == Outside(-512) <==>
              && signal
              && (|| p.pc.WantSem?
                  || (p.role.Reader? && p.pc.QueuedWp? && p.pc.seen == s.wp)
                  || (p.role.Writer? && (p.pc.Asleep? || TestSaysGo(s, p))))
  {
    ReachableHasInv(s);
    assert TesterOwed(s, pid);
    hide Inv, Used, SpaceFree;
  }

  // ---- deadlock ----

  // No process can take a step of its own; only an open, a new call or a signal could change anything.
  ghost predicate Stuck(s: State) {
    forall e: Event :: e.Go? && Enabled(s, e) ==> e.signal
  }

  ghost predicate SomeoneSleeps(s: State, readers: bool) {
    exists p <- s.procs :: SleepsUnwoken(s.procs[p]) && s.procs[p].role.Reader? == readers
  }

  // When the pipe is stuck, everybody inside a call is asleep with good reason: the readers on
  // an empty buffer; the writers on a full one, or left behind by an open.
  lemma StuckMeansAllAsleep(s: State)
    requires Reachable(s) && Stuck(s)
    ensures PointersOk(s) && s.sem == 1
    ensures forall p <- s.procs :: s.procs[p].pc.Outside? || SleepsUnwoken(s.procs[p])
    ensures SomeoneSleeps(s, true) ==> Stored(s) == []
    ensures SleepingWriters(s) != s.left ==> |Stored(s)| == |s.buf| - 1
  {
    ReachableHasInv(s);
    StuckInside(s);
    ContentsLength(s.buf, Norm(|s.buf|, s.wp), Norm(|s.buf|, s.rp));
  }

  lemma StuckInside(s: State)
    requires Inv(s) && Stuck(s)
    ensures s.sem == 1 && !ReaderWillWake(s) && !WriterWillWake(s)
    ensures forall p <- s.procs :: s.procs[p].pc.Outside? || SleepsUnwoken(s.procs[p])
  {
    forall p: Pid
      ensures !InsideAt(s, p)
    {
      assert InsideAt(s, p) ==> Enabled(s, Go(p, false, false));
    }
    forall p <- s.procs
      ensures s.procs[p].pc.Outside? || SleepsUnwoken(s.procs[p])
    {
      assert !Enabled(s, Go(p, false, false));
      assert !InsideAt(s, p);
    }
  }

  // Readers and writers all asleep on each other.
  ghost predicate Deadlocked(s: State) {
    Stuck(s) && SomeoneSleeps(s, true) && SomeoneSleeps(s, false)
  }

  predicate Undisturbed(events: seq<Event>) {
    forall e <- events :: !e.Open?
  }

  // A run without an open leads from one state to the other.
  ghost predicate Leads(s: State, t: State) {
    exists events: seq<Event> :: Undisturbed(events) && Run(s, events, t)
  }

  lemma LeadsByStep(s: State, e: Event)
    requires WellFormed(s) && Enabled(s, e) && !e.Open?
    ensures Leads(s, Step(s, e))
  {
    var t := Step(s, e);
    assert Run(t, [e][1..], t);
    assert Undisturbed([e]) && Run(s, [e], t);
  }

  lemma LeadsToItself(s: State)
    ensures Leads(s, s)
  {
    assert Undisturbed([]) && Run(s, [], s);
  }

  lemma {:induction false} RunsCompose(s: State, first: seq<Event>, t: State, second: seq<Event>, u: State)
    requires Run(s, first, t) && Run(t, second, u)
    ensures Run(s, first + second, u)
    decreases |first|
  {
    if first == [] {
      assert first + second == second;
    } else {
      RunsCompose(Step(s, first[0]), first[1..], t, second, u);
      assert (first + second)[1..] == first[1..] + second;
    }
  }

  lemma LeadsCompose(s: State, t: State, u: State)
    requires Leads(s, t) && Leads(t, u)
    ensures Leads(s, u)
  {
    var first: seq<Event> :| Undisturbed(first) && Run(s, first, t);
    var second: seq<Event> :| Undisturbed(second) && Run(t, second, u);
    RunsCompose(s, first, t, second, u);
    assert Undisturbed(first + second);
  }

  // A writer that sleeps, or will after the one read that is left of its test.
  predicate SleepsSoon(p: Proc, size: nat, wp: nat)
    requires 0 < size && wp <= size
  {
    p.role.Writer? && !p.woken && (p.pc.Asleep? || (p.pc.QueuedLast? && SaysFull(size, p.pc.seen, wp)))
  }

  // An open has left such a writer, nothing is stored, and no reader is about to wake anybody.
  ghost predicate Doomed(s: State)
    requires PointersIn(s)
  {
    Used(s) == 0 && !ReaderWillWake(s) && exists w <- s.left :: IsLeft(s, w)
  }

  predicate IsLeft(s: State, w: Pid)
    requires PointersIn(s)
  {
    w in s.procs && SleepsSoon(s.procs[w], |s.buf|, s.wp)
  }

  // Without an open, a state becomes doomed only from a doomed one: a reader that could have made
  // the buffer empty, or taken a wake-up back, wakes all writers first.
  lemma DoomedBefore(s: State, e: Event)
    requires Inv(s) && Enabled(s, e) && !e.Open?
    requires Inv(Step(s, e)) && Doomed(Step(s, e))
    ensures Doomed(s)
  {
    if e.Call? {
      var t := Step(s, e);
      assert forall q <- s.procs :: WillWake(s.procs[q]) ==> t.procs[q] == s.procs[q];
    } else if Transfers(s.procs[e.pid], e.fault) {
      DoomedBeforeTransfer(s, e.pid);
    } else {
      DoomedBeforeAdvance(s, e.pid, e.signal);
    }
  }

  lemma DoomedBeforeTransfer(s: State, pid: Pid)
    requires Inv(s) && pid in s.procs && s.procs[pid].pc.Copy? && CanTransfer(s, s.procs[pid].role)
    requires PointersOk(Transfer(s, pid)) && Doomed(Transfer(s, pid))
    ensures Doomed(s)
  {
    var t := Transfer(s, pid);
    assert forall q <- s.procs :: q != pid ==> t.procs[q] == s.procs[q];
    assert WillWake(t.procs[pid]);
    WriterAdds(s, pid);
    var w :| w in t.left && IsLeft(t, w);
    assert IsLeft(s, w);
  }

  lemma DoomedBeforeAdvance(s: State, pid: Pid, signal: bool)
    requires Inv(s) && Enabled(s, Go(pid, signal, true))
    requires PointersOk(Advance1(s, pid, signal)) && Doomed(Advance1(s, pid, signal))
    ensures Doomed(s)
  {
    var t := Advance1(s, pid, signal);
    AdvanceKeepsPointers(s, pid, signal);
    forall q <- s.procs | s.procs[q].role.Reader? && WillWake(s.procs[q])
      ensures t.procs[q].role.Reader? && WillWake(t.procs[q])
    {
    }
    var w :| w in t.left && IsLeft(t, w);
    LeftBefore(s, pid, signal, w);
  }

  // Whoever is left was so before; wrapping wp makes no difference to what its test will say.
  lemma LeftBefore(s: State, pid: Pid, signal: bool, w: Pid)
    requires Inv(s) && Enabled(s, Go(pid, signal, true)) && PointersOk(Advance1(s, pid, signal))
    requires w in Advance1(s, pid, signal).left && IsLeft(Advance1(s, pid, signal), w)
    ensures w in s.left && IsLeft(s, w)
  {
    var t := Advance1(s, pid, signal);
    if w == pid {
      assert TesterOwed(s, pid);
    } else if s.procs[w].pc.QueuedLast? && s.wp == |s.buf| {
      WholeLap(s.procs[w].pc.seen, |s.buf|);
    }
  }

  lemma WholeLap(x: nat, size: nat)
    requires 0 < size
    ensures (x + size) % size == x % size
  {
    var q := (x + size) / size - x / size - 1;
    assert size * q == x % size - (x + size) % size;
    assert q == 0;
  }

  lemma {:induction false} DoomedAllAlong(s: State, events: seq<Event>, t: State)
    requires Inv(s) && Run(s, events, t) && Undisturbed(events)
    requires Inv(t) && Doomed(t)
    ensures Doomed(s)
    decreases |events|
  {
    if events != [] {
      StepKeepsInv(s, events[0]);
      DoomedAllAlong(Step(s, events[0]), events[1..], t);
      DoomedBefore(s, events[0]);
    }
  }

  // Two processes are needed, and a buffer of one byte or a writer that an open has left behind.
  lemma DeadlockedMeans(t: State)
    requires Inv(t) && Deadlocked(t)
    ensures |t.procs| >= 2 && (|t.buf| == 1 || Doomed(t))
  {
    StuckInside(t);
    var p :| p in t.procs && SleepsUnwoken(t.procs[p]) && t.procs[p].role.Reader?;
    var q :| q in t.procs && SleepsUnwoken(t.procs[q]) && t.procs[q].role.Writer?;
    TwoOf(t.procs.Keys, p, q);
  }

  lemma TwoOf<T>(a: set<T>, p: T, q: T)
    requires p in a && q in a && p != q
    ensures |a| >= 2
  {
    assert a == {p, q} + (a - {p, q});
  }

  // ---- how a deadlock comes about ----

  // How many more steps a process takes at most if signals arrive and copies fault.
  function StepsLeft(p: Proc): nat {
    match p.pc
    case Outside(_) => 0
    case WantSem | UpFault | WakeOthers(_) => 1
    case QueuedLast(_) | Copy | Up(_) => 2
    case QueuedRp | Wrap(_) => 3
    case QueuedWp(_) => 4
    case QueuedTest => 5
    case Enqueue => 6
    case Asleep => if p.role.Reader? then 7 else 1
    case UpToWait => 7
    case Test => 8
  }

  // Between the two states one process has left its call without moving data or, unless it was
  // about to, waking anybody.
  ghost predicate LeftCall(s: State, t: State, pid: Pid)
    requires PointersOk(s) && PointersOk(t)
  {
    && |t.buf| == |s.buf| && Used(t) == Used(s) && t.procs.Keys == s.procs.Keys
    && (forall q <- s.procs :: q != pid ==> t.procs[q].pc == s.procs[q].pc && t.procs[q].role == s.procs[q].role)
    && (!ReaderWillWake(s) ==> !ReaderWillWake(t) && s.left - {pid} <= t.left)
  }

  lemma GiveUpOnce(s: State, pid: Pid) returns (t: State)
    requires Inv(s) && pid in s.procs && !s.procs[pid].pc.Outside?
    ensures Leads(s, t) && Inv(t) && LeftCall(s, t, pid) && StepsLeft(t.procs[pid]) < StepsLeft(s.procs[pid])
  {
    t := Step(s, Go(pid, true, true));
    LeadsByStep(s, Go(pid, true, true));
    StepKeepsInv(s, Go(pid, true, true));
    AdvanceKeepsPointers(s, pid, true);
    GivingUp(s, t, pid);
  }

  lemma GivingUp(s: State, t: State, pid: Pid)
    requires WellFormed(s) && pid in s.procs && !s.procs[pid].pc.Outside? && t == Advance1(s, pid, true)
    requires PointersOk(t) && Used(t) == Used(s)
    ensures LeftCall(s, t, pid) && StepsLeft(t.procs[pid]) < StepsLeft(s.procs[pid])
  {
  }

  lemma {:induction false} GiveUp(s: State, pid: Pid) returns (t: State)
    requires Inv(s) && pid in s.procs
    ensures Leads(s, t) && Inv(t) && LeftCall(s, t, pid) && t.procs[pid].pc.Outside?
    decreases StepsLeft(s.procs[pid])
  {
    if s.procs[pid].pc.Outside? {
      t := s;
      LeadsToItself(s);
    } else {
      var u := GiveUpOnce(s, pid);
      t := GiveUp(u, pid);
      LeadsCompose(s, u, t);
    }
  }

  lemma {:induction false} AllGiveUp(s: State, pids: set<Pid>) returns (t: State)
    requires Inv(s) && pids <= s.procs.Keys
    ensures Leads(s, t) && Inv(t) && |t.buf| == |s.buf| && Used(t) == Used(s) && t.procs.Keys == s.procs.Keys
    ensures forall q <- pids :: t.procs[q].pc.Outside?
    ensures forall q <- s.procs :: q !in pids ==> t.procs[q].pc == s.procs[q].pc
    ensures !ReaderWillWake(s) ==> !ReaderWillWake(t) && s.left - pids <= t.left
    decreases |pids|
  {
    hide Exclusive, StreamOk, LeftOk, NoLostWakeup, Leads;
    if pids == {} {
      t := s;
      LeadsToItself(s);
    } else {
      var pid :| pid in pids;
      var u := AllGiveUp(s, pids - {pid});
      t := GiveUp(u, pid);
      LeadsCompose(s, u, t);
    }
  }

  // One undisturbed step of a process that neither moves data nor wakes anyone.
  lemma Moves(s: State, pid: Pid) returns (t: State)
    requires Inv(s) && Enabled(s, Go(pid, false, false)) && pid !in s.left
    requires !s.procs[pid].pc.Copy? && !s.procs[pid].pc.Wrap? && !s.procs[pid].pc.WakeOthers?
    ensures var p := s.procs[pid];
            && Leads(s, t) && Inv(t)
            && t == s.(sem := s.sem + SemChange(p.pc, false),
                       procs := s.procs[pid := p.(pc := NextPc(s, p, false), woken := p.woken && !p.pc.Enqueue?)])
  {
    LeadsByStep(s, Go(pid, false, false));
    StepKeepsInv(s, Go(pid, false, false));
    t := Step(s, Go(pid, false, false));
    assert s.left - {pid} == s.left;
  }

  // A call that has to wait, undisturbed, ends up asleep.
  lemma CallFallsAsleep(s: State, pid: Pid, role: Role) returns (t: State)
    requires Inv(s) && s.sem == 1 && pid in s.procs && s.procs[pid].pc.Outside?
    requires Blocked(|s.buf|, s.rp, s.wp, role) && !role.nonblock
    ensures Leads(s, t) && Inv(t) && t == s.(procs := s.procs[pid := Proc(role, Asleep, false)])
  {
    LeadsByStep(s, Call(pid, role));
    StepKeepsInv(s, Call(pid, role));
    var t0 := s.(procs := s.procs[pid := Proc(role, WantSem, false)]);
    var t1 := Moves(t0, pid);
    LeadsCompose(s, t0, t1);
    var t2 := Moves(t1, pid);
    LeadsCompose(s, t1, t2);
    t := WaiterFallsAsleep(t2, pid);
    LeadsCompose(s, t2, t);
  }

  lemma WaiterFallsAsleep(s: State, pid: Pid) returns (t: State)
    requires Inv(s) && s.sem == 0 && pid in s.procs && s.procs[pid].pc.UpToWait? && pid !in s.left
    requires Blocked(|s.buf|, s.rp, s.wp, s.procs[pid].role) && !s.procs[pid].role.nonblock
    ensures Leads(s, t) && Inv(t)
    ensures t == s.(sem := 1, procs := s.procs[pid := s.procs[pid].(pc := Asleep, woken := false)])
  {
    hide Exclusive, StreamOk, LeftOk, NoLostWakeup, Leads, CanTransfer;
    var t1 := Moves(s, pid);
    var t2 := Moves(t1, pid);
    LeadsCompose(s, t1, t2);
    t := TestSaysWait(t2, pid);
    LeadsCompose(s, t2, t);
  }

  // The test from inside the wait queue, undisturbed.
  lemma TestSaysWait(s: State, pid: Pid) returns (t: State)
    requires Inv(s) && pid in s.procs && s.procs[pid].pc.QueuedTest? && pid !in s.left
    requires Blocked(|s.buf|, s.rp, s.wp, s.procs[pid].role)
    ensures Leads(s, t) && Inv(t) && t == s.(procs := s.procs[pid := s.procs[pid].(pc := Asleep)])
  {
    hide Exclusive, StreamOk, LeftOk, NoLostWakeup, Leads, CanTransfer;
    var t1 := Moves(s, pid);
    t := Moves(t1, pid);
    LeadsCompose(s, t1, t);
    if s.procs[pid].role.Writer? && s.rp != s.wp {
      var t2 := t;
      t := SecondTestSaysWait(t2, pid);
      LeadsCompose(s, t2, t);
    }
  }

  lemma SecondTestSaysWait(s: State, pid: Pid) returns (t: State)
    requires Inv(s) && pid in s.procs && s.procs[pid].pc.QueuedRp? && pid !in s.left && s.procs[pid].role.Writer?
    requires s.rp != s.wp && Blocked(|s.buf|, s.rp, s.wp, s.procs[pid].role)
    ensures Leads(s, t) && Inv(t) && t == s.(procs := s.procs[pid := s.procs[pid].(pc := Asleep)])
  {
    hide Exclusive, StreamOk, LeftOk, NoLostWakeup, Leads, CanTransfer;
    var t3 := Moves(s, pid);
    t := Moves(t3, pid);
    LeadsCompose(s, t3, t);
  }

  // A woken process that finds the semaphore free and can go on does so: a reader tests again from the queue
  // before it takes the semaphore, a writer takes it at once.
  lemma WokenGoesOn(s: State, pid: Pid) returns (t: State)
    requires Inv(s) && s.sem == 1 && pid in s.procs && s.procs[pid].pc.Asleep? && s.procs[pid].woken
    requires CanGoOn(s, s.procs[pid].role)
    ensures Leads(s, t) && Inv(t)
    ensures t == s.(sem := 0, procs := s.procs[pid := Proc(s.procs[pid].role, Copy, s.procs[pid].role.Writer?)])
  {
    assert pid !in s.left;
    assert PointersIn(s);
    hide WellFormed, Exclusive, StreamOk, LeftOk, NoLostWakeup, Leads, CanTransfer, Contents, CanGoOn;
    var t1 := Moves(s, pid);
    SameRing(s, t1, s.procs[pid].role);
    if s.procs[pid].role.Writer? {
      t := TakesSemaphore(t1, pid);
    } else {
      t := ReaderComesBack(t1, pid);
    }
    LeadsCompose(s, t1, t);
  }

  lemma SameRing(s: State, t: State, role: Role)
    requires PointersIn(s) && t.buf == s.buf && t.rp == s.rp && t.wp == s.wp
    ensures CanGoOn(t, role) == CanGoOn(s, role)
  {
  }

  lemma Overwritten<K, V>(m: map<K, V>, k: K, first: V, second: V)
    ensures m[k := first][k := second] == m[k := second]
  {
  }

  lemma ReaderComesBack(s: State, pid: Pid) returns (t: State)
    requires Inv(s) && s.sem == 1 && pid in s.procs && s.procs[pid].pc.Enqueue? && s.procs[pid].role.Reader?
    requires pid !in s.left && CanGoOn(s, s.procs[pid].role)
    ensures Leads(s, t) && Inv(t)
    ensures t == s.(sem := 0, procs := s.procs[pid := s.procs[pid].(pc := Copy, woken := false)])
  {
    assert PointersIn(s);
    hide WellFormed, Exclusive, StreamOk, LeftOk, NoLostWakeup, Leads, CanTransfer, Contents, CanGoOn;
    var t1 := Moves(s, pid);
    SameRing(s, t1, s.procs[pid].role);
    t := ReaderTestsAgain(t1, pid);
    LeadsCompose(s, t1, t);
  }

  lemma ReaderTestsAgain(s: State, pid: Pid) returns (t: State)
    requires Inv(s) && s.sem == 1 && pid in s.procs && s.procs[pid].pc.QueuedTest? && s.procs[pid].role.Reader?
    requires pid !in s.left && CanGoOn(s, s.procs[pid].role)
    ensures Leads(s, t) && Inv(t) && t == s.(sem := 0, procs := s.procs[pid := s.procs[pid].(pc := Copy)])
  {
    assert s.rp != s.wp;
    assert PointersIn(s);
    hide WellFormed, Exclusive, StreamOk, LeftOk, NoLostWakeup, CanTransfer;
    hide SpaceFree, SaysFull, Occupancy, Leads, Contents, CanGoOn;
    var t1 := Moves(s, pid);
    var t2 := Moves(t1, pid);
    Overwritten(s.procs, pid, t1.procs[pid], t2.procs[pid]);
    LeadsCompose(s, t1, t2);
    SameRing(s, t2, s.procs[pid].role);
    t := TakesSemaphore(t2, pid);
    Overwritten(s.procs, pid, t2.procs[pid], t.procs[pid]);
    LeadsCompose(s, t2, t);
  }

  lemma TakesSemaphore(s: State, pid: Pid) returns (t: State)
    requires Inv(s) && s.sem == 1 && pid in s.procs && s.procs[pid].pc.WantSem? && pid !in s.left
    requires CanGoOn(s, s.procs[pid].role)
    ensures Leads(s, t) && Inv(t) && t == s.(sem := 0, procs := s.procs[pid := s.procs[pid].(pc := Copy)])
  {
    assert PointersIn(s);
    hide WellFormed, Exclusive, StreamOk, LeftOk, NoLostWakeup, Leads, CanTransfer, Contents, CanGoOn;
    var t1 := Moves(s, pid);
    SameRing(s, t1, s.procs[pid].role);
    TestDecides(t1, pid, false);
    t := Moves(t1, pid);
    Overwritten(s.procs, pid, t1.procs[pid], t.procs[pid]);
    LeadsCompose(s, t1, t);
  }

  ghost predicate CanDeadlock(s: State) {
    exists t: State :: Leads(s, t) && Deadlocked(t)
  }

  // With everybody else out of the way, a process reads from the empty buffer for ever.
  lemma ReaderJoins(s: State, pid: Pid) returns (t: State)
    requires Inv(s) && Used(s) == 0 && pid in s.procs && s.procs[pid].pc.Outside?
    requires forall q <- s.procs :: s.procs[q].pc.Outside? || SleepsUnwoken(s.procs[q])
    ensures Leads(s, t) && Inv(t) && t == s.(procs := s.procs[pid := Proc(Reader(1, false), Asleep, false)])
    ensures s.sem == 1
  {
    assert s.sem == 1 by {
      forall q: Pid
        ensures !InsideAt(s, q)
      {
      }
    }
    t := CallFallsAsleep(s, pid, Reader(1, false));
  }

  lemma SleepersAreStuck(s: State, r: Pid, w: Pid)
    requires forall q <- s.procs :: s.procs[q].pc.Outside? || SleepsUnwoken(s.procs[q])
    requires r in s.procs && SleepsUnwoken(s.procs[r]) && s.procs[r].role.Reader?
    requires w in s.procs && SleepsUnwoken(s.procs[w]) && s.procs[w].role.Writer?
    ensures Deadlocked(s)
  {
  }

  lemma SomeoneElse<T>(a: set<T>, w: T) returns (r: T)
    requires w in a && |a| >= 2
    ensures r in a && r != w
  {
    assert |a - {w}| >= 1;
    r :| r in a - {w};
  }

  lemma AllCanGiveUp(s: State) returns (t: State)
    requires Inv(s)
    ensures Leads(s, t) && Inv(t) && |t.buf| == |s.buf| && Used(t) == Used(s) && t.procs.Keys == s.procs.Keys
    ensures forall q <- t.procs :: t.procs[q].pc.Outside?
  {
    t := AllGiveUp(s, s.procs.Keys);
  }

  // The writer that is left behind finishes its test, if it has to, and sleeps.
  lemma LeftFallsAsleep(s: State, w: Pid) returns (t: State)
    requires Inv(s) && w in s.left && IsLeft(s, w) && !ReaderWillWake(s)
    ensures Leads(s, t) && Inv(t) && w in t.left && t.procs.Keys == s.procs.Keys && t.procs[w].pc.Asleep?
    ensures Used(t) == Used(s) && !ReaderWillWake(t)
  {
    if s.procs[w].pc.Asleep? {
      t := s;
      LeadsToItself(s);
    } else {
      t := Step(s, Go(w, false, true));
      LeadsByStep(s, Go(w, false, true));
      StepKeepsInv(s, Go(w, false, true));
      assert forall q <- s.procs :: q != w ==> t.procs[q] == s.procs[q];
    }
  }

  lemma LeftOneIsAlone(s: State, w: Pid) returns (t: State)
    requires Inv(s) && w in s.left && w in s.procs && s.procs[w].pc.Asleep? && !ReaderWillWake(s)
    ensures Leads(s, t) && Inv(t) && Used(t) == Used(s) && t.procs.Keys == s.procs.Keys
    ensures SleepsUnwoken(t.procs[w]) && t.procs[w].role.Writer?
    ensures forall q <- t.procs :: q != w ==> t.procs[q].pc.Outside?
  {
    hide Exclusive, StreamOk, NoLostWakeup, Leads, CanTransfer, Used, ReaderWillWake;
    t := AllGiveUp(s, s.procs.Keys - {w});
    assert w in t.left && w in Exposed(t);
  }

  lemma DoomedCanDeadlock(s: State)
    requires Inv(s) && Doomed(s) && |s.procs| >= 2
    ensures CanDeadlock(s)
  {
    var w :| w in s.left && IsLeft(s, w);
    hide WellFormed, Exclusive, StreamOk, LeftOk, NoLostWakeup, Leads, Used, Stuck, ReaderWillWake;
    var s1 := LeftFallsAsleep(s, w);
    var t := LeftOneIsAlone(s1, w);
    LeadsCompose(s, s1, t);
    var r := SomeoneElse(t.procs.Keys, w);
    var u := ReaderJoins(t, r);
    LeadsCompose(s, t, u);
    SleepersAreStuck(u, r, w);
  }

  lemma OneByteCanDeadlock(s: State)
    requires Inv(s) && |s.buf| == 1 && |s.procs| >= 2
    ensures CanDeadlock(s)
  {
    hide Exclusive, StreamOk, LeftOk, NoLostWakeup, Leads, Stuck, ReaderWillWake;
    var w :| w in s.procs.Keys;
    var r := SomeoneElse(s.procs.Keys, w);
    var t := AllCanGiveUp(s);
    var u := ReaderJoins(t, r);
    LeadsCompose(s, t, u);
    var v := CallFallsAsleep(u, w, Writer([7], false));
    LeadsCompose(s, u, v);
    SleepersAreStuck(v, r, w);
  }

  // From a state that can be reached, with or without opens, readers and writers can end up all
  // asleep on each other before the next open exactly if there are two processes, and the buffer
  // has one byte or an open has left a writer, asleep or soon to be, that nobody is going to wake.
  lemma DeadlockExactly(s: State)
    requires Reachable(s)
    ensures PointersOk(s) && (CanDeadlock(s) <==> |s.procs| >= 2 && (|s.buf| == 1 || Doomed(s)))
  {
    ReachableHasInv(s);
    if CanDeadlock(s) {
      var t :| Leads(s, t) && Deadlocked(t);
      var events: seq<Event> :| Undisturbed(events) && Run(s, events, t);
      RunKeepsInv(s, events, t);
      RunKeepsShape(s, events, t);
      DeadlockedMeans(t);
      if Doomed(t) {
        DoomedAllAlong(s, events, t);
      }
    } else if |s.procs| >= 2 {
      if |s.buf| == 1 {
        OneByteCanDeadlock(s);
      } else if Doomed(s) {
        DoomedCanDeadlock(s);
      }
    }
  }

  lemma {:induction false} RunKeepsShape(s: State, events: seq<Event>, t: State)
    requires Run(s, events, t) && Undisturbed(events)
    ensures t.procs.Keys == s.procs.Keys && |t.buf| == |s.buf|
    decreases |events|
  {
    if events != [] {
      RunKeepsShape(Step(s, events[0]), events[1..], t);
    }
  }

  // What an open does to the promise that sleepers have, if no writer is exempt: it survives exactly
  // if no writer was left sleeping on the old contents, or a wake-up is on its way.
  lemma OpenKeepsWakeupsExactly(s: State, buf: seq<byte>)
    requires Inv(s) && s.sem == 1 && 0 < |buf|
    ensures WellFormed(Opened(s, buf)) && Exclusive(Opened(s, buf)) && StreamOk(Opened(s, buf))
    ensures SleepersOwed(Opened(s, buf).(left := {})) <==>
      |buf| == 1 || !SomeoneSleeps(s, false) || ReaderWillWake(s)
  {
    OpenKeepsInv(s, buf);
    var t := Opened(s, buf).(left := {});
    if SleepersOwed(t) && SomeoneSleeps(s, false) {
      var p :| p in s.procs && SleepsUnwoken(s.procs[p]) && s.procs[p].role.Reader? == false;
      assert SleeperOwed(t, p);
    }
  }

  // A writer sleeps at the open, or is about to read wp, which will be 0, for the last time.
  ghost predicate WriterWaits(s: State, size: nat)
    requires 0 < size
  {
    exists w <- s.procs :: SleepsSoon(s.procs[w], size, 0)
  }

  // So after an open it depends on the size that it sets and on the writers that wait at the open,
  // unless a reader is about to wake them.
  lemma DeadlockAfterOpen(s: State, buf: seq<byte>)
    requires Reachable(s) && s.sem == 1 && 0 < |buf|
    ensures CanDeadlock(Opened(s, buf)) <==>
      |s.procs| >= 2 && (|buf| == 1 || (WriterWaits(s, |buf|) && !ReaderWillWake(s)))
  {
    ReachableStep(s, Open(buf));
    var t := Opened(s, buf);
    DeadlockExactly(t);
    if WriterWaits(s, |buf|) {
      var w :| w in s.procs && SleepsSoon(s.procs[w], |buf|, 0);
      assert w in t.left && IsLeft(t, w);
    }
    if exists w <- t.left :: IsLeft(t, w) {
      var w :| w in t.left && IsLeft(t, w);
      assert SleepsSoon(s.procs[w], |buf|, 0);
    }
  }

  // With no writer left behind, only a buffer of one byte can deadlock.
  lemma DeadlockOnlyWithOneByte(s: State)
    requires Reachable(s) && s.left == {} && |s.procs| >= 2
    ensures CanDeadlock(s) <==> |s.buf| == 1
  {
    DeadlockExactly(s);
  }

  // ---- every size can deadlock, if an open comes at the wrong time ----

  // A first write fills the buffer.
  lemma WriteFills(s: State, pid: Pid, data: seq<byte>) returns (t: State)
    requires Inv(s) && s.sem == 1 && s.rp == s.wp == 0 && |s.buf| >= 2 && |data| == |s.buf| - 1 && s.left == {}
    requires pid in s.procs && forall q <- s.procs :: s.procs[q].pc.Outside?
    ensures Leads(s, t) && Inv(t) && |t.buf| == |s.buf| && Used(t) == |t.buf| - 1
    ensures t.procs.Keys == s.procs.Keys && forall q <- t.procs :: t.procs[q].pc.Outside?
  {
    hide Exclusive, StreamOk, LeftOk, NoLostWakeup, Leads;
    var role := Writer(data, false);
    var t0 := s.(procs := s.procs[pid := Proc(role, WantSem, false)]);
    LeadsByStep(s, Call(pid, role));
    StepKeepsInv(s, Call(pid, role));
    var t1 := Moves(t0, pid);
    LeadsCompose(s, t0, t1);
    var t2 := Moves(t1, pid);
    LeadsCompose(s, t1, t2);
    var t3 := Transfer(t2, pid);
    LeadsByStep(t2, Go(pid, false, false));
    StepKeepsInv(t2, Go(pid, false, false));
    LeadsCompose(s, t2, t3);
    t := GiveUp(t3, pid);
    LeadsCompose(s, t3, t);
  }

  // A call that has to wait for space.
  lemma FullMeansBlocked(s: State, role: Role)
    requires Inv(s) && Used(s) == |s.buf| - 1 && role.Writer? && forall q <- s.procs :: s.procs[q].pc.Outside?
    ensures s.sem == 1 && Blocked(|s.buf|, s.rp, s.wp, role)
  {
    assert forall q: Pid :: !InsideAt(s, q);
    SpaceFreeIsFreeSpace(|s.buf|, s.rp, s.wp);
  }

  lemma ReachableLeads(s: State, t: State)
    requires Reachable(s) && Leads(s, t)
    ensures Reachable(t)
  {
    var start, events :| Init(start) && Run(start, events, s);
    var more: seq<Event> :| Undisturbed(more) && Run(s, more, t);
    RunsCompose(start, events, s, more, t);
  }

  // A writer fills the buffer, writes again and falls asleep, and an open resets the pipe, to any size.
  lemma EverySizeDeadlocks(size: nat, buf: seq<byte>) returns (s: State)
    requires size >= 2 && 0 < |buf|
    ensures Reachable(s) && |s.buf| == size && s.sem == 1 && CanDeadlock(Opened(s, buf))
  {
    hide Inv, Opened;
    var idle := Proc(Reader(0, false), Outside(0), false);
    var start := State(seq(size, _ => 0), 0, 0, 1, map[0 := idle, 1 := idle], [], [], 0, 0, {});
    InitHasInv(start);
    assert Run(start, [], start);
    var full := WriteFills(start, 1, seq(size - 1, _ => 7));
    ReachableLeads(start, full);
    FullMeansBlocked(full, Writer([7], false));
    s := CallFallsAsleep(full, 1, Writer([7], false));
    ReachableLeads(full, s);
    assert SleepsSoon(s.procs[1], |buf|, 0);
    TwoOf(s.procs.Keys, 0, 1);
    DeadlockAfterOpen(s, buf);
  }
}
