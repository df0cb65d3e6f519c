/** Every step of the pipe machine keeps its invariant. */
module PipeSafety {
  import opened Ring
  import opened Pipe

  // For every position of the pointers, spacefree is the capacity minus what is stored.
  lemma SpaceFreeIsFreeSpace(size: nat, rp: nat, wp: nat)
    requires rp < size && wp < size
    ensures SpaceFree(size, rp, wp) == size - 1 - Occupancy(size, wp, rp)
  {
    RemainderIsFreeSpace(size, wp, rp);
  }

  // A test that says "wait" is right even if it catches a pointer before it wraps.
  lemma BlockedMeans(size: nat, rp: nat, wp: nat, role: Role)
    requires 0 < size && rp <= size && wp <= size
    requires Blocked(size, rp, wp, role)
    ensures var used := Occupancy(size, Norm(size, wp), Norm(size, rp));
            if role.Reader? then used == 0 else used == size - 1
  {
    if role.Writer? && rp != wp {
      SmallRemainder(size, rp + size - wp);
    }
  }

  // So is the last read of spacefree from a wait queue, if rp has not changed since it was read.
  lemma SaysFullMeans(size: nat, rp: nat, wp: nat)
    requires 0 < size && rp <= size && wp <= size && SaysFull(size, rp, wp)
    ensures Occupancy(size, Norm(size, wp), Norm(size, rp)) == size - 1
  {
    SmallRemainder(size, rp + size - wp);
  }

  // What one call moves is there, or fits; and it is all that was asked for, or all there is, or goes up
  // to the end of the buffer.
  lemma AmountFits(s: State, role: Role)
    requires s.rp < |s.buf| && s.wp < |s.buf| && !Blocked(|s.buf|, s.rp, s.wp, role)
    ensures CanTransfer(s, role)
    ensures var n, used := Amount(|s.buf|, s.rp, s.wp, role), Occupancy(|s.buf|, s.wp, s.rp);
            match role
            case Reader(count, _) => n <= used && n <= count && (n == count || n == used || s.rp + n == |s.buf|)
            case Writer(data, _) =>
              && n + used <= |s.buf| - 1 && n <= |data|
              && (n == |data| || n + used == |s.buf| - 1 || s.wp + n == |s.buf|)
  {
    SpaceFreeIsFreeSpace(|s.buf|, s.rp, s.wp);
  }

  // Inside the semaphore, a reader goes on exactly if something is stored, a writer if something fits.
  lemma TestDecides(s: State, pid: Pid, signal: bool)
    requires Inv(s) && pid in s.procs && s.procs[pid].pc.Test?
    ensures var pc := Advance1(s, pid, signal).procs[pid].pc;
            && pc == (if CanGoOn(s, s.procs[pid].role) then Copy else UpToWait)
  {
    assert InsideAt(s, pid);
    NobodyElseWraps(s, pid);
    SpaceFreeIsFreeSpace(|s.buf|, s.rp, s.wp);
    ContentsLength(s.buf, Norm(|s.buf|, s.wp), Norm(|s.buf|, s.rp));
  }

  predicate CanGoOn(s: State, role: Role)
    requires PointersIn(s)
  {
    if role.Reader? then Stored(s) != [] else |Stored(s)| < |s.buf| - 1
  }

  // ---- every step keeps the invariant ----

  // Whoever owes a wake-up still owes it after a step that is not a wake-up.
  lemma WakersStay(s: State, t: State, pid: Pid)
    requires pid in s.procs && t.procs.Keys == s.procs.Keys
    requires forall q <- s.procs :: q != pid ==> t.procs[q] == s.procs[q]
    requires WillWake(s.procs[pid]) ==> WillWake(t.procs[pid]) && t.procs[pid].role == s.procs[pid].role
    ensures WriterWillWake(s) ==> WriterWillWake(t)
    ensures ReaderWillWake(s) ==> ReaderWillWake(t)
  {
  }

  // A step of somebody else keeps the promise to a process, if whoever moves a pointer owes a wake-up.
  ghost predicate Spares(s: State, t: State)
    requires PointersIn(s) && PointersIn(t)
  {
    && |t.buf| == |s.buf|
    && (WriterWillWake(s) ==> WriterWillWake(t))
    && (ReaderWillWake(s) ==> ReaderWillWake(t))
    && (t.wp != s.wp || Used(t) > Used(s) ==> WriterWillWake(t))
    && (t.rp != s.rp || Used(t) < Used(s) ==> ReaderWillWake(t))
  }

  lemma SparedStaysOwed(s: State, t: State, q: Pid)
    requires PointersIn(s) && PointersIn(t) && Spares(s, t)
    requires q in s.procs && q in t.procs && t.procs[q] == s.procs[q] && (q in s.left ==> q in t.left)
    requires SleeperOwed(s, q) && TesterOwed(s, q)
    ensures SleeperOwed(t, q) && TesterOwed(t, q)
  {
    hide Used, WriterWillWake, ReaderWillWake;
  }

  lemma CallKeepsShape(s: State, pid: Pid, role: Role)
    requires WellFormed(s) && Exclusive(s) && LeftOk(s) && Enabled(s, Call(pid, role))
    ensures var t := Step(s, Call(pid, role));
            WellFormed(t) && Exclusive(t) && LeftOk(t)
  {
    var t := Step(s, Call(pid, role));
    assert forall q <- s.procs :: q != pid ==> t.procs[q] == s.procs[q];
    assert forall p :: InsideAt(t, p) <==> InsideAt(s, p);
  }

  lemma CallKeepsWakeups(s: State, pid: Pid, role: Role)
    requires WellFormed(s) && NoLostWakeup(s) && Enabled(s, Call(pid, role))
    requires PointersOk(Step(s, Call(pid, role)))
    ensures NoLostWakeup(Step(s, Call(pid, role)))
  {
    hide SleeperOwed, TesterOwed, CanTransfer, Blocked, Occupancy;
    var t := Step(s, Call(pid, role));
    assert forall q <- s.procs :: q != pid ==> t.procs[q] == s.procs[q];
    WakersStay(s, t, pid);
    hide WriterWillWake, ReaderWillWake;
    forall q <- t.procs
      ensures SleeperOwed(t, q) && TesterOwed(t, q)
    {
      if q == pid {
        OutsideIsOwedNothing(t, q);
      } else {
        SparedStaysOwed(s, t, q);
      }
    }
  }

  lemma OutsideIsOwedNothing(s: State, p: Pid)
    requires PointersIn(s) && p in s.procs && !OnQueue(s.procs[p])
    ensures SleeperOwed(s, p) && TesterOwed(s, p)
  {
  }

  lemma CallKeepsInv(s: State, pid: Pid, role: Role)
    requires Inv(s) && Enabled(s, Call(pid, role))
    ensures Inv(Step(s, Call(pid, role)))
  {
    hide NoLostWakeup, LeftOk, Exclusive;
    CallKeepsShape(s, pid, role);
    CallKeepsWakeups(s, pid, role);
  }

  lemma AdvanceKeepsExclusive(s: State, pid: Pid, signal: bool)
    requires WellFormed(s) && Exclusive(s) && Enabled(s, Go(pid, signal, true))
    ensures Exclusive(Advance1(s, pid, signal))
  {
    var t := Advance1(s, pid, signal);
    assert forall p :: p != pid ==> (InsideAt(t, p) <==> InsideAt(s, p));
    assert InsideAt(s, pid) == Inside(s.procs[pid].pc);
    assert InsideAt(t, pid) == Inside(t.procs[pid].pc);
  }

  lemma TransferKeepsExclusive(s: State, pid: Pid)
    requires WellFormed(s) && Exclusive(s) && Enabled(s, Go(pid, false, false)) && s.procs[pid].pc.Copy?
    ensures Exclusive(Transfer(s, pid))
  {
    var t := Transfer(s, pid);
    assert forall p :: InsideAt(t, p) <==> InsideAt(s, p);
  }

  // A process inside that is not wrapping sees both pointers in the buffer.
  lemma NobodyElseWraps(s: State, pid: Pid)
    requires PointersOk(s) && Exclusive(s) && InsideAt(s, pid)
    ensures s.rp == |s.buf| ==> s.procs[pid].pc.Wrap? && s.procs[pid].role.Reader?
    ensures s.wp == |s.buf| ==> s.procs[pid].pc.Wrap? && s.procs[pid].role.Writer?
  {
    forall p <- s.procs | s.procs[p].pc.Wrap?
      ensures p == pid
    {
      assert InsideAt(s, p);
    }
  }

  lemma AdvanceKeepsPointers(s: State, pid: Pid, signal: bool)
    requires WellFormed(s) && Exclusive(s) && Enabled(s, Go(pid, signal, true))
    ensures PointersOk(Advance1(s, pid, signal))
    ensures var t := Advance1(s, pid, signal); Stored(t) == Stored(s) && Used(t) == Used(s)
  {
    var t := Advance1(s, pid, signal);
    if s.procs[pid].pc.Wrap? {
      assert InsideAt(s, pid);
      NobodyElseWraps(s, pid);
    } else {
      assert forall q <- s.procs :: s.procs[q].pc.Wrap? ==>
        t.procs[q].pc == s.procs[q].pc && t.procs[q].role == s.procs[q].role;
    }
  }

  lemma AdvanceKeepsWellFormed(s: State, pid: Pid, signal: bool)
    requires WellFormed(s) && Exclusive(s) && Enabled(s, Go(pid, signal, true))
    ensures WellFormed(Advance1(s, pid, signal))
  {
    hide SaysFull, Amount, Blocked;
    var t := Advance1(s, pid, signal);
    AdvanceKeepsPointers(s, pid, signal);
    forall p <- t.procs | t.procs[p].pc.Copy?
      ensures CanTransfer(t, t.procs[p].role) && !Blocked(|t.buf|, t.rp, t.wp, t.procs[p].role)
    {
      if p == pid {
        assert InsideAt(s, pid);
        NobodyElseWraps(s, pid);
        AmountFits(s, s.procs[pid].role);
      } else {
        assert InsideAt(s, p);
        assert s.procs[pid].pc.Wrap? ==> InsideAt(s, pid);
      }
    }
  }

  lemma AdvanceKeepsWakeups(s: State, pid: Pid, signal: bool)
    requires PointersOk(s) && NoLostWakeup(s) && Enabled(s, Go(pid, signal, true))
    requires PointersOk(Advance1(s, pid, signal)) && !s.procs[pid].pc.WakeOthers?
    requires Used(Advance1(s, pid, signal)) == Used(s)
    ensures NoLostWakeup(Advance1(s, pid, signal))
  {
    hide Used, SleeperOwed, TesterOwed;
    var t := Advance1(s, pid, signal);
    AdvanceSpares(s, pid, signal);
    MoverStaysOwed(s, pid, signal);
    hide Advance1, Spares;
    forall q <- t.procs
      ensures SleeperOwed(t, q) && TesterOwed(t, q)
    {
      if q != pid {
        SparedStaysOwed(s, t, q);
      }
    }
  }

  lemma AdvanceSpares(s: State, pid: Pid, signal: bool)
    requires PointersOk(s) && Enabled(s, Go(pid, signal, true))
    requires PointersOk(Advance1(s, pid, signal)) && !s.procs[pid].pc.WakeOthers?
    requires Used(Advance1(s, pid, signal)) == Used(s)
    ensures var t := Advance1(s, pid, signal);
            && Spares(s, t) && t.procs.Keys == s.procs.Keys
            && forall q <- s.procs :: q != pid ==> t.procs[q] == s.procs[q] && (q in s.left ==> q in t.left)
  {
    hide Used, SaysFull, SpaceFree;
    var t := Advance1(s, pid, signal);
    assert forall q <- s.procs :: q != pid ==> t.procs[q] == s.procs[q];
    WakersStay(s, t, pid);
    assert s.procs[pid].pc.Wrap? ==> WillWake(t.procs[pid]) && t.procs[pid].role == s.procs[pid].role;
  }

  lemma MoverStaysOwed(s: State, pid: Pid, signal: bool)
    requires PointersOk(s) && NoLostWakeup(s) && Enabled(s, Go(pid, signal, true))
    requires PointersOk(Advance1(s, pid, signal)) && !s.procs[pid].pc.WakeOthers?
    requires Used(Advance1(s, pid, signal)) == Used(s)
    ensures SleeperOwed(Advance1(s, pid, signal), pid) && TesterOwed(Advance1(s, pid, signal), pid)
  {
    var t := Advance1(s, pid, signal);
    assert s.rp == s.wp ==> Used(s) == 0;
    hide Used, SleepersOwed, Spares;
    assert TesterOwed(s, pid);
    AdvanceSpares(s, pid, signal);
    assert Spares(s, t);
    if SleepsUnwoken(t.procs[pid]) {
      FallsAsleepRightly(s, pid, signal);
    }
  }

  // Whoever falls asleep has good reason, or is owed a wake-up.
  lemma FallsAsleepRightly(s: State, pid: Pid, signal: bool)
    requires PointersOk(s) && pid in s.procs && TesterOwed(s, pid) && !s.procs[pid].woken
    requires NextPc(s, s.procs[pid], signal).Asleep?
    ensures if s.procs[pid].role.Reader? then Used(s) == 0 || WriterWillWake(s)
            else Used(s) == |s.buf| - 1 || pid in s.left || ReaderWillWake(s)
  {
    var p := s.procs[pid];
    if p.pc.QueuedLast? {
      if !MisledWriter(s, p) {
        SaysFullMeans(|s.buf|, s.rp, s.wp);
      }
    } else if p.role.Reader? {
      assert Used(s) == 0 || MisledReader(s, p);
    }
  }

  // After a wake-up whoever is on the wait queue unwoken was there before, on the waker's own side.
  lemma WakingSpares(s: State, pid: Pid, signal: bool)
    requires PointersOk(s) && pid in s.procs && s.procs[pid].pc.WakeOthers?
    ensures var t := Advance1(s, pid, signal);
            && t.procs.Keys == s.procs.Keys && !OnQueue(t.procs[pid])
            && (forall q <- s.procs :: q != pid ==>
                  t.procs[q].pc == s.procs[q].pc && t.procs[q].role == s.procs[q].role)
            && (forall q <- s.procs :: OnQueue(t.procs[q]) && !t.procs[q].woken ==>
                  t.procs[q] == s.procs[q] && s.procs[q].role.Reader? == s.procs[pid].role.Reader?)
  {
  }

  lemma OtherSideStillWakes(s: State, t: State, pid: Pid)
    requires pid in s.procs && t.procs.Keys == s.procs.Keys
    requires forall q <- s.procs :: q != pid ==> t.procs[q].pc == s.procs[q].pc && t.procs[q].role == s.procs[q].role
    ensures s.procs[pid].role.Reader? ==> WriterWillWake(s) ==> WriterWillWake(t)
    ensures s.procs[pid].role.Writer? ==> ReaderWillWake(s) ==> ReaderWillWake(t)
  {
  }

  lemma SameSideStaysOwed(s: State, t: State, q: Pid, readers: bool)
    requires PointersIn(s) && PointersIn(t) && |t.buf| == |s.buf| && t.wp == s.wp && t.rp == s.rp && Used(t) == Used(s)
    requires readers ==> WriterWillWake(s) ==> WriterWillWake(t)
    requires !readers ==> (ReaderWillWake(s) ==> ReaderWillWake(t)) && (q in s.left ==> q in t.left)
    requires q in s.procs && q in t.procs && t.procs[q].pc == s.procs[q].pc && t.procs[q].role == s.procs[q].role
    requires OnQueue(t.procs[q]) && !t.procs[q].woken ==> t.procs[q] == s.procs[q] && t.procs[q].role.Reader? == readers
    requires SleeperOwed(s, q) && TesterOwed(s, q)
    ensures SleeperOwed(t, q) && TesterOwed(t, q)
  {
    hide Used, WriterWillWake, ReaderWillWake;
  }

  lemma WakingKeepsWakeups(s: State, pid: Pid, signal: bool)
    requires PointersOk(s) && NoLostWakeup(s) && Enabled(s, Go(pid, signal, true))
    requires PointersOk(Advance1(s, pid, signal)) && s.procs[pid].pc.WakeOthers?
    requires Used(Advance1(s, pid, signal)) == Used(s)
    ensures NoLostWakeup(Advance1(s, pid, signal))
  {
    hide Used, SleeperOwed, TesterOwed, NextPc, WakeAll;
    var t := Advance1(s, pid, signal);
    WakingSpares(s, pid, signal);
    OtherSideStillWakes(s, t, pid);
    hide WriterWillWake, ReaderWillWake, OnQueue;
    forall q <- t.procs
      ensures SleeperOwed(t, q) && TesterOwed(t, q)
    {
      if q == pid {
        OutsideIsOwedNothing(t, q);
      } else {
        SameSideStaysOwed(s, t, q, s.procs[pid].role.Reader?);
      }
    }
  }

  lemma ReaderTransfers(s: State, pid: Pid)
    requires WellFormed(s) && Exclusive(s) && StreamOk(s)
    requires pid in s.procs && s.procs[pid].pc.Copy? && s.procs[pid].role.Reader?
    ensures var t := Transfer(s, pid); PointersOk(t) && StreamOk(t) && t.wp < |t.buf|
  {
    var t := Transfer(s, pid);
    assert InsideAt(s, pid);
    NobodyElseWraps(s, pid);
    AmountFits(s, s.procs[pid].role);
    assert t.procs[pid].pc.Wrap? && t.procs[pid].role.Reader?;
    var moved := s.buf[s.rp..t.rp];
    assert (s.delivered + moved)[s.outMark..] == s.delivered[s.outMark..] + moved;
    ConsumingKeepsStream(s.buf, s.wp, s.rp, t.rp, s.delivered[s.outMark..], s.accepted[s.inMark..]);
  }

  lemma ConsumingKeepsStream(buf: seq<byte>, wp: nat, rp: nat, end: nat, delivered: seq<byte>, accepted: seq<byte>)
    requires wp < |buf| && rp < |buf| && rp <= end <= |buf| && end - rp <= Occupancy(|buf|, wp, rp)
    requires delivered + Contents(buf, wp, rp) == accepted
    ensures (delivered + buf[rp..end]) + Contents(buf, wp, Norm(|buf|, end)) == accepted
  {
    assert Advance(|buf|, rp, end - rp) == Norm(|buf|, end);
    AdvanceTailRemoves(buf, wp, rp, end - rp);
    Regroup(delivered, buf[rp..end], Contents(buf, wp, Norm(|buf|, end)));
  }

  lemma Regroup<T>(a: seq<T>, b: seq<T>, c: seq<T>)
    ensures (a + b) + c == a + (b + c)
  {
  }

  lemma WriterTransfers(s: State, pid: Pid)
    requires WellFormed(s) && Exclusive(s) && StreamOk(s)
    requires pid in s.procs && s.procs[pid].pc.Copy? && s.procs[pid].role.Writer?
    ensures var t := Transfer(s, pid); PointersOk(t) && StreamOk(t) && t.rp < |t.buf|
  {
    var t := Transfer(s, pid);
    assert InsideAt(s, pid);
    NobodyElseWraps(s, pid);
    AmountFits(s, s.procs[pid].role);
    assert t.procs[pid].pc.Wrap? && t.procs[pid].role.Writer?;
    var moved := s.procs[pid].role.data[..t.procs[pid].pc.n];
    assert (s.accepted + moved)[s.inMark..] == s.accepted[s.inMark..] + moved;
    StoringKeepsStream(s.buf, s.wp, s.rp, moved, s.delivered[s.outMark..], s.accepted[s.inMark..]);
  }

  lemma StoringKeepsStream(buf: seq<byte>, wp: nat, rp: nat, data: seq<byte>, delivered: seq<byte>, accepted: seq<byte>)
    requires wp < |buf| && rp < |buf| && wp + |data| <= |buf| && Occupancy(|buf|, wp, rp) + |data| <= |buf| - 1
    requires delivered + Contents(buf, wp, rp) == accepted
    ensures delivered + Contents(Fill(buf, wp, data), Norm(|buf|, wp + |data|), rp) == accepted + data
  {
    var filled := Fill(buf, wp, data);
    FillKeepsContents(buf, wp, rp, data);
    AdvanceHeadAppends(filled, wp, rp, |data|);
    assert Advance(|buf|, wp, |data|) == Norm(|buf|, wp + |data|);
    assert filled[wp..wp + |data|] == data;
    Regroup(delivered, Contents(buf, wp, rp), data);
  }

  lemma WriterAdds(s: State, pid: Pid)
    requires WellFormed(s) && Exclusive(s) && pid in s.procs && s.procs[pid].pc.Copy? && s.procs[pid].role.Writer?
    ensures var t := Transfer(s, pid);
            PointersIn(t) && |t.buf| == |s.buf| && Used(t) == Used(s) + t.wp - s.wp
  {
    assert InsideAt(s, pid);
    NobodyElseWraps(s, pid);
    AmountFits(s, s.procs[pid].role);
  }

  lemma TransferKeepsWellFormed(s: State, pid: Pid)
    requires Inv(s) && pid in s.procs && s.procs[pid].pc.Copy? && PointersOk(Transfer(s, pid))
    ensures WellFormed(Transfer(s, pid))
  {
    var t := Transfer(s, pid);
    forall p <- t.procs | t.procs[p].pc.Copy?
      ensures false
    {
      assert InsideAt(s, p) && InsideAt(s, pid);
    }
  }

  lemma TransferKeepsWakeups(s: State, pid: Pid)
    requires Inv(s) && pid in s.procs && s.procs[pid].pc.Copy? && PointersOk(Transfer(s, pid))
    requires var t := Transfer(s, pid); if s.procs[pid].role.Reader? then Used(t) <= Used(s) else Used(t) >= Used(s)
    ensures NoLostWakeup(Transfer(s, pid))
  {
    var t := Transfer(s, pid);
    WakersStay(s, t, pid);
    assert WillWake(t.procs[pid]);
  }

  lemma TransferKeepsInv(s: State, pid: Pid)
    requires Inv(s) && Enabled(s, Go(pid, false, false)) && s.procs[pid].pc.Copy?
    ensures Inv(Transfer(s, pid))
  {
    assert InsideAt(s, pid);
    NobodyElseWraps(s, pid);
    AmountFits(s, s.procs[pid].role);
    if s.procs[pid].role.Reader? {
      ReaderTransfers(s, pid);
    } else {
      WriterTransfers(s, pid);
    }
    TransferKeepsWellFormed(s, pid);
    TransferKeepsExclusive(s, pid);
    TransferKeepsWakeups(s, pid);
  }

  // An open leaves an empty buffer, so no reader misses data; a writer that it leaves asleep, or about
  // to answer its test with the old rp, is remembered as such.
  lemma OpenKeepsInv(s: State, buf: seq<byte>)
    requires Inv(s) && s.sem > 0 && 0 < |buf|
    ensures Inv(Opened(s, buf))
  {
    var t := Opened(s, buf);
    assert forall p: Pid :: InsideAt(t, p) <==> InsideAt(s, p);
    forall p <- s.procs
      ensures !s.procs[p].pc.Copy?
    {
      assert !InsideAt(s, p);
    }
  }

  lemma AdvanceKeepsInv(s: State, pid: Pid, signal: bool)
    requires Inv(s) && Enabled(s, Go(pid, signal, true))
    ensures Inv(Advance1(s, pid, signal))
  {
    AdvanceKeepsPointers(s, pid, signal);
    AdvanceKeepsWellFormed(s, pid, signal);
    AdvanceKeepsExclusive(s, pid, signal);
    AdvanceKeepsLeft(s, pid, signal);
    hide WellFormed, Exclusive, LeftOk, SleepersOwed, TestersOwed;
    if s.procs[pid].pc.WakeOthers? {
      WakingKeepsWakeups(s, pid, signal);
    } else {
      AdvanceKeepsWakeups(s, pid, signal);
    }
  }

  lemma AdvanceKeepsLeft(s: State, pid: Pid, signal: bool)
    requires PointersOk(s) && LeftOk(s) && Enabled(s, Go(pid, signal, true))
    ensures LeftOk(Advance1(s, pid, signal))
  {
  }

  lemma StepKeepsInv(s: State, e: Event)
    requires Inv(s) && Enabled(s, e)
    ensures Inv(Step(s, e))
  {
    hide Inv, Transfer, Advance1, Opened;
    match e {
      case Open(buf) => OpenKeepsInv(s, buf);
      case Call(pid, role) => CallKeepsInv(s, pid, role);
      case Go(pid, signal, fault) =>
        if Transfers(s.procs[pid], fault) {
          TransferKeepsInv(s, pid);
        } else {
          AdvanceKeepsInv(s, pid, signal);
        }
    }
  }

  lemma InitHasInv(s: State)
    requires Init(s)
    ensures Inv(s)
  {
  }
}
