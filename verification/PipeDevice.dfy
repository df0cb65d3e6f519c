/**
 The pipe driver's routines on the device's own fields.  Every access to a field that others
 can see is one step of the machine in module Pipe.
 */
module PipeDevice {
  import opened Ring
  import opened Pipe
  import opened PipeSafety
  import opened PipeRuns

  class ScullPipe {
    var buffer: array<byte>
    var hasBuffer: bool          // dev->buffer is not NULL
    var buffersize: nat          // what is in use of it
    var rp: nat
    var wp: nat
    var nreaders: int
    var nwriters: int
    var sem: int
    var procs: map<Pid, Proc>
    var delivered: seq<byte>
    var accepted: seq<byte>
    var outMark: nat
    var inMark: nat
    var left: set<Pid>

    function View(): State
      reads this, buffer
      requires buffersize <= buffer.Length
    {
      State(buffer[..buffersize], rp, wp, sem, procs, delivered, accepted, outMark, inMark, left)
    }

    // The state has been reached by a run, with opens and calls in any order.
    ghost predicate Valid()
      reads this, buffer
    {
      hasBuffer && buffersize <= buffer.Length && Reachable(View())
    }

    // copy_from_user
    method CopyFromUser(data: seq<byte>)
      requires wp + |data| <= buffersize <= buffer.Length
      modifies buffer
      ensures buffer[..buffersize] == Fill(old(buffer[..buffersize]), wp, data)
    {
      for i := 0 to |data|
        invariant forall k :: 0 <= k < buffersize ==>
          buffer[k] == if wp <= k < wp + i then data[k - wp] else old(buffer[k])
      {
        buffer[wp + i] := data[i];
      }
    }

    method ReaderTransfers(pid: Pid)
      requires Valid() && pid in procs && procs[pid].pc.Copy? && procs[pid].role.Reader?
      modifies this`rp, this`delivered, this`procs
      ensures old(CanTransfer(View(), procs[pid].role)) && View() == Transfer(old(View()), pid) && Valid()
    {
      ReachableStep(View(), Go(pid, false, false));
      var n := Amount(buffersize, rp, wp, procs[pid].role);
      delivered := delivered + buffer[rp..rp + n];
      rp := rp + n;
      procs := procs[pid := procs[pid].(pc := Wrap(n))];
    }

    method WriterTransfers(pid: Pid)
      requires Valid() && pid in procs && procs[pid].pc.Copy? && procs[pid].role.Writer?
      modifies this`wp, this`accepted, this`procs, buffer
      ensures old(CanTransfer(View(), procs[pid].role)) && View() == Transfer(old(View()), pid) && Valid()
    {
      ReachableStep(View(), Go(pid, false, false));
      var n := Amount(buffersize, rp, wp, procs[pid].role);
      var chunk := procs[pid].role.data[..n];
      CopyFromUser(chunk);
      wp := wp + n;
      accepted := accepted + chunk;
      procs := procs[pid := procs[pid].(pc := Wrap(n))];
    }

    // wake_up_interruptible on the other side's queue.
    method Wakes(pid: Pid, signal: bool)
      requires Valid() && pid in procs && procs[pid].pc.WakeOthers?
      modifies this`procs, this`left
      ensures 0 < buffersize && old(PointersIn(View())) && View() == Advance1(old(View()), pid, signal) && Valid()
    {
      ReachableStep(View(), Go(pid, signal, true));
      var p := procs[pid];
      procs := WakeAll(procs, p.role)[pid := p.(pc := Outside(p.pc.n))];
      left := if p.role.Reader? then {} else left - {pid};
    }

    // A pointer that has reached the end of the buffer goes back to its start.
    method Wraps(pid: Pid, signal: bool)
      requires Valid() && pid in procs && procs[pid].pc.Wrap?
      modifies this`rp, this`wp, this`procs, this`left
      ensures 0 < buffersize && old(PointersIn(View())) && View() == Advance1(old(View()), pid, signal) && Valid()
    {
      ReachableStep(View(), Go(pid, signal, true));
      var p := procs[pid];
      if p.role.Reader? {
        if rp == buffersize { rp := 0; }
      } else if wp == buffersize {
        wp := 0;
      }
      procs := procs[pid := p.(pc := Up(p.pc.n))];
      left := left - {pid};
    }

    // A step that concerns the semaphore or the process alone.
    method Waits(pid: Pid, signal: bool, fault: bool)
      requires Valid() && Enabled(View(), Go(pid, signal, fault)) && !Transfers(procs[pid], fault)
      requires !procs[pid].pc.WakeOthers? && !procs[pid].pc.Wrap?
      modifies this`sem, this`procs, this`left
      ensures 0 < buffersize && old(PointersIn(View())) && View() == Advance1(old(View()), pid, signal) && Valid()
    {
      ReachableStep(View(), Go(pid, signal, fault));
      hide NextPc, Reachable, CanTransfer, Blocked;
      var p := procs[pid];
      var next := NextPc(View(), p, signal);
      match p.pc {
        case WantSem => if !signal { sem := sem - 1; }
        case UpToWait | Up(_) | UpFault => sem := sem + 1;
        case _ =>
      }
      procs := procs[pid := p.(pc := next, woken := p.woken && !p.pc.Enqueue?)];
      if !next.Asleep? {
        left := left - {pid};
      }
    }

    method Advances(pid: Pid, signal: bool, fault: bool)
      requires Valid() && Enabled(View(), Go(pid, signal, fault)) && !Transfers(procs[pid], fault)
      modifies this`rp, this`wp, this`sem, this`procs, this`left
      ensures 0 < buffersize && old(PointersIn(View())) && View() == Advance1(old(View()), pid, signal) && Valid()
    {
      if procs[pid].pc.WakeOthers? {
        Wakes(pid, signal);
      } else if procs[pid].pc.Wrap? {
        Wraps(pid, signal);
      } else {
        Waits(pid, signal, fault);
      }
    }

    // What an open does to a buffer that is there: its size and two pointers; the rest is history.
    method ResetPointers(size: nat)
      requires Valid() && sem > 0 && 0 < size <= buffer.Length
      modifies this`buffersize, this`rp, this`wp, this`outMark, this`inMark, this`left
      ensures Valid() && View() == Opened(old(View()), old(buffer[..size]))
    {
      ReachableStep(View(), Open(buffer[..size]));
      left := Exposed(View());
      buffersize, rp, wp, outMark, inMark := size, 0, 0, |delivered|, |accepted|;
    }

    // An open uses the buffer that is there.
    predicate Fits(e: Event)
      reads this, buffer
    {
      e.Open? ==> e.buf <= buffer[..]
    }

    method Do(e: Event)
      requires Valid() && Enabled(View(), e) && Fits(e)
      modifies this, buffer
      ensures unchanged(`buffer) && unchanged(`hasBuffer) && unchanged(`nreaders) && unchanged(`nwriters)
      ensures Valid() && old(WellFormed(View())) && View() == Step(old(View()), e)
    {
      ReachableStep(View(), e);
      match e {
        case Open(buf) => ResetPointers(|buf|);
        case Call(pid, role) => procs := procs[pid := Proc(role, WantSem, false)];
        case Go(pid, signal, fault) =>
          if Transfers(procs[pid], fault) {
            if procs[pid].role.Reader? { ReaderTransfers(pid); } else { WriterTransfers(pid); }
          } else {
            Advances(pid, signal, fault);
          }
      }
    }

    // ---- open and release ----

    // The buffer is there exactly while somebody has the pipe open; calls need an open pipe.
    ghost predicate Usable()
      reads this, buffer
    {
      && nreaders >= 0 && nwriters >= 0 && (hasBuffer <==> nreaders + nwriters > 0)
      && if hasBuffer then Valid() else sem == 1 && forall p <- procs :: procs[p].pc.Outside?
    }

    constructor ()
      ensures Usable() && !hasBuffer && procs == map[] && nreaders == nwriters == 0
    {
      buffer := new byte[0];
      hasBuffer, buffersize, rp, wp, nreaders, nwriters, sem := false, 0, 0, 0, 0, 0, 1;
      procs, delivered, accepted, outMark, inMark, left := map[], [], [], 0, 0, {};
    }

    // The first open: a new buffer and a new history.
    method StartBuffer(size: nat)
      requires !hasBuffer && sem == 1 && 0 < size && forall p <- procs :: procs[p].pc.Outside?
      modifies this`buffer, this`hasBuffer, this`buffersize, this`rp, this`wp, this`delivered, this`accepted
      modifies this`outMark, this`inMark, this`left
      ensures Valid() && fresh(buffer) && buffer.Length == buffersize == size && Init(View())
    {
      buffer := new byte[size];
      hasBuffer, buffersize, rp, wp := true, size, 0, 0;
      delivered, accepted, outMark, inMark, left := [], [], 0, 0, {};
      assert Init(View()) && Run(View(), [], View());
    }

    // scull_p_open, once it has the semaphore.  A pipe in use is reset under the feet of whoever is
    // inside a call, to the size that is configured now; what was allocated must have room for it.
    method ScullPOpen(size: nat, reading: bool, writing: bool, memory: bool) returns (result: int)
      requires Usable() && sem == 1 && (reading || writing)
      requires 0 < size && (hasBuffer ==> size <= buffer.Length)
      modifies this
      ensures Usable() && result == if !old(hasBuffer) && !memory then -12 else 0
      ensures result != 0 ==> unchanged(this)
      ensures result == 0 ==> hasBuffer && buffersize == size && procs == old(procs)
      ensures result == 0 ==> nreaders == old(nreaders) + (if reading then 1 else 0)
      ensures result == 0 ==> nwriters == old(nwriters) + (if writing then 1 else 0)
      ensures result == 0 ==>
        if old(hasBuffer) then View() == Opened(old(View()), old(buffer[..size])) else Init(View())
    {
      if !hasBuffer {
        if !memory {
          return -12;
        }
        StartBuffer(size);
      } else {
        ResetPointers(size);
      }
      if reading { nreaders := nreaders + 1; }
      if writing { nwriters := nwriters + 1; }
      result := 0;
    }

    // scull_p_release, once it has the semaphore.  Nobody can be inside a call at the last one.
    method ScullPRelease(reading: bool, writing: bool)
      requires Usable() && hasBuffer && sem == 1 && (reading || writing)
      requires (reading ==> nreaders > 0) && (writing ==> nwriters > 0)
      requires nreaders - (if reading then 1 else 0) + nwriters - (if writing then 1 else 0) == 0 ==>
        forall p <- procs :: procs[p].pc.Outside?
      modifies this`nreaders, this`nwriters, this`hasBuffer
      ensures Usable() && (hasBuffer <==> nreaders + nwriters > 0)
      ensures nreaders == old(nreaders) - (if reading then 1 else 0)
      ensures nwriters == old(nwriters) - (if writing then 1 else 0)
    {
      if reading { nreaders := nreaders - 1; }
      if writing { nwriters := nwriters - 1; }
      if nreaders + nwriters == 0 {
        hasBuffer := false;
      }
    }

    // ---- whole calls, with the other processes running in between ----

    twostate predicate Onward(me: Pid)
      reads this
    {
      && unchanged(`buffer) && unchanged(`hasBuffer)
      && old(delivered) <= delivered && old(accepted) <= accepted
      && (old(me in procs) ==> me in procs)
    }

    method OneOfTheOthers(me: Pid)
      requires Valid() && me in procs
      modifies this, buffer
      ensures Valid() && Onward(me) && SameProc(old(procs[me]), procs[me])
    {
      var e: Event := *;
      if Foreign(e, me) && Enabled(View(), e) && Fits(e) {
        Do(e);
      }
    }

    // Any finite number of steps of the other processes.
    method Others(me: Pid)
      requires Valid() && me in procs
      modifies this, buffer
      ensures Valid() && Onward(me) && SameProc(old(procs[me]), procs[me])
    {
      var steps: nat := *;
      while steps > 0
        invariant Valid() && Onward(me) && SameProc(old(procs[me]), procs[me])
      {
        OneOfTheOthers(me);
        steps := steps - 1;
      }
    }

    predicate At(me: Pid, role: Role, pc: Pc)
      reads this
    {
      me in procs && procs[me].role == role && procs[me].pc == pc
    }

    // One step of this process, after any number of the others'.
    method Next(me: Pid, signal: bool)
      requires Valid() && me in procs && !procs[me].pc.Outside? && !procs[me].pc.Copy?
      requires (procs[me].pc.WantSem? || procs[me].pc.Asleep?) ==> signal
      modifies this, buffer
      ensures Valid() && Onward(me) && procs[me].role == old(procs[me].role)
      ensures NextPcs(old(procs[me]), signal, procs[me].pc)
    {
      Others(me);
      Do(Go(me, signal, true));
    }

    // down_interruptible: a signal is what ends a wait that goes on for too long.  seen is the state at its end.
    method DownInterruptible(me: Pid, role: Role) returns (ghost seen: State)
      requires Valid() && At(me, role, WantSem)
      modifies this, buffer
      ensures Valid() && Onward(me) && Consistent(seen)
      ensures At(me, role, if OutsideHeld(seen, me) then Outside(ERESTARTSYS) else Test)
    {
      Others(me);
      ReachableHasInv(View());
      seen := View();
      Do(Go(me, sem <= 0, true));
    }

    // Sleep until woken; a signal is what ends a sleep that goes on for too long.
    method Schedule(me: Pid, role: Role)
      requires Valid() && At(me, role, Asleep)
      modifies this, buffer
      ensures Valid() && Onward(me)
      ensures if role.Reader? then At(me, role, Enqueue)
              else At(me, role, WantSem) || At(me, role, Outside(ERESTARTSYS))
    {
      Others(me);
      Do(Go(me, !procs[me].woken, true));
    }

    // rp != wp, or spacefree(dev) == 0, from inside the wait queue, with the others running between the reads
    method TestFromQueue(me: Pid, role: Role, signal: bool)
      requires Valid() && At(me, role, QueuedTest)
      modifies this, buffer
      ensures Valid() && Onward(me) && me in procs && procs[me].role == role
      ensures SomeAnswer(role, signal, procs[me].pc)
    {
      Next(me, signal);
      Next(me, signal);
      if procs[me].pc.QueuedRp? {
        Next(me, signal);
        Next(me, signal);
      }
    }

    // wait_event_interruptible(dev->inq, rp != wp)
    method WaitForData(me: Pid, role: Role)
      requires Valid() && role.Reader? && At(me, role, Enqueue)
      modifies this, buffer
      ensures Valid() && Onward(me) && (At(me, role, WantSem) || At(me, role, Outside(ERESTARTSYS)))
    {
      var patience: nat := *;
      while procs[me].pc.Enqueue?
        invariant Valid() && Onward(me) && me in procs && procs[me].role == role
        invariant At(me, role, Enqueue) || At(me, role, WantSem) || At(me, role, Outside(ERESTARTSYS))
        decreases procs[me].pc.Enqueue?, patience
      {
        Next(me, false);
        TestFromQueue(me, role, patience == 0);
        if procs[me].pc.Asleep? {
          Schedule(me, role);
        }
        patience := if patience > 0 then patience - 1 else 0;
      }
    }

    // prepare_to_wait to signal_pending in scull_getwritespace
    method WaitForSpace(me: Pid, role: Role)
      requires Valid() && role.Writer? && At(me, role, Enqueue)
      modifies this, buffer
      ensures Valid() && Onward(me) && (At(me, role, WantSem) || At(me, role, Outside(ERESTARTSYS)))
    {
      Next(me, false);
      var signal: bool := *;
      TestFromQueue(me, role, signal);
      if procs[me].pc.Asleep? {
        Schedule(me, role);
      }
    }

    // The test of a process that holds the semaphore.
    method TestInside(me: Pid, role: Role) returns (ghost seen: State)
      requires Valid() && At(me, role, Test)
      modifies this, buffer
      ensures Valid() && Onward(me) && Consistent(seen)
      ensures At(me, role, if CanGoOn(seen, role) then Copy else UpToWait)
    {
      Others(me);
      seen := View();
      ReachableHasInv(seen);
      TestDecides(seen, me, false);
      Do(Go(me, false, true));
    }

    // From the first down to the point where the pipe is not blocked and the semaphore is held;
    // or out of the call, with the semaphore given back.  seen is what the last test saw, if there was one.
    method WaitUntilReady(me: Pid, role: Role) returns (error: int, ghost seen: State)
      requires Valid() && At(me, role, WantSem)
      modifies this, buffer
      ensures Valid() && Onward(me) && Consistent(seen)
      ensures error == 0 ==> At(me, role, Copy)
      ensures error != 0 ==> At(me, role, Outside(error))
      ensures error != 0 ==> (error == EAGAIN && role.nonblock) || error == ERESTARTSYS
      ensures error != 0 ==> !CanGoOn(seen, role) || (error == ERESTARTSYS && OutsideHeld(seen, me))
    {
      var patience: nat := *;
      seen := DownInterruptible(me, role);
      while procs[me].pc.Test?
        invariant Valid() && Onward(me) && me in procs && Consistent(seen)
        invariant At(me, role, Test) || At(me, role, Copy) || At(me, role, Outside(ERESTARTSYS))
               || (role.nonblock && At(me, role, Outside(EAGAIN)) && !CanGoOn(seen, role))
        invariant At(me, role, Outside(ERESTARTSYS)) ==> !CanGoOn(seen, role) || OutsideHeld(seen, me)
        decreases procs[me].pc.Test?, patience
      {
        seen := TestInside(me, role);
        if procs[me].pc.UpToWait? {
          WaitOutside(me, role, patience == 0);
          patience := if patience > 0 then patience - 1 else 0;
        }
      }
      error := if procs[me].pc.Copy? then 0 else procs[me].pc.result;
    }

    // Give the semaphore back, wait, and take it again.
    method WaitOutside(me: Pid, role: Role, giveUp: bool)
      requires Valid() && At(me, role, UpToWait)
      modifies this, buffer
      ensures Valid() && Onward(me)
      ensures (At(me, role, Test) && !giveUp) || At(me, role, Outside(ERESTARTSYS))
           || (role.nonblock && At(me, role, Outside(EAGAIN)))
    {
      Next(me, false);
      if !role.nonblock {
        if role.Reader? {
          WaitForData(me, role);
        } else {
          WaitForSpace(me, role);
        }
        if procs[me].pc.WantSem? {
          if giveUp {
            Next(me, true);
          } else {
            ghost var held := DownInterruptible(me, role);
          }
        }
      }
    }

    // Wrap the pointer, release the semaphore, wake the other side and return.
    method FinishCall(me: Pid, role: Role, n: nat)
      requires Valid() && At(me, role, Wrap(n))
      modifies this, buffer
      ensures Valid() && Onward(me) && At(me, role, Outside(n))
    {
      Next(me, false);
      Next(me, false);
      Next(me, false);
    }

    method FailCopy(me: Pid, role: Role)
      requires Valid() && At(me, role, Copy)
      modifies this, buffer
      ensures Valid() && Onward(me) && At(me, role, Outside(EFAULT))
    {
      Others(me);
      Do(Go(me, false, true));
      Next(me, false);
    }

    // copy_to_user and the move of rp.  seen is the pipe at the copy.
    method CopyOut(me: Pid, role: Role) returns (n: int, data: seq<byte>, ghost seen: State)
      requires Valid() && At(me, role, Copy) && role.Reader?
      modifies this, buffer
      ensures Valid() && Onward(me) && n == |data| && At(me, role, Wrap(n))
      ensures Consistent(seen) && seen.delivered == old(delivered) && delivered == old(delivered) + data
      ensures TakenFrom(seen, data, role.count)
      ensures role.count > 0 ==> n > 0
    {
      ReachableHasInv(View());
      assert InsideAt(View(), me);
      NobodyElseWraps(View(), me);
      AmountFits(View(), role);
      ContentsLength(View().buf, wp, rp);
      seen := View();
      n := Amount(buffersize, rp, wp, role);
      data := buffer[rp..rp + n];
      ReaderTransfers(me);
    }

    // copy_from_user and the move of wp, likewise.
    method CopyIn(me: Pid, role: Role) returns (n: int, ghost seen: State)
      requires Valid() && At(me, role, Copy) && role.Writer?
      modifies this, buffer
      ensures Valid() && Onward(me) && 0 <= n <= |role.data| && At(me, role, Wrap(n))
      ensures Consistent(seen) && seen.accepted == old(accepted) && accepted == old(accepted) + role.data[..n]
      ensures AddedTo(seen, role.data, n)
      ensures role.data != [] ==> n > 0
    {
      ReachableHasInv(View());
      assert InsideAt(View(), me);
      NobodyElseWraps(View(), me);
      AmountFits(View(), role);
      ContentsLength(View().buf, wp, rp);
      SpaceFreeIsFreeSpace(buffersize, rp, wp);
      seen := View();
      n := Amount(buffersize, rp, wp, role);
      WriterTransfers(me);
    }

    // The part of a read that holds the semaphore with data present.
    method ReadReady(me: Pid, role: Role, fault: bool) returns (result: int, data: seq<byte>, ghost seen: State)
      requires Valid() && At(me, role, Copy) && role.Reader?
      modifies this, buffer
      ensures Valid() && Onward(me) && At(me, role, Outside(result)) && Consistent(seen)
      ensures if fault then result == EFAULT && data == []
              else
                && result == |data| && TakenFrom(seen, data, role.count)
                && HandedOut(seen, data, old(delivered), delivered)
      ensures role.count > 0 ==> result != 0
    {
      hide Reachable;
      Others(me);
      if fault {
        ReachableHasInv(View());
        seen := View();
        FailCopy(me, role);
        result, data := EFAULT, [];
      } else {
        result, data, seen := CopyOut(me, role);
        FinishCall(me, role, result);
      }
    }

    // A successful read hands out the next bytes of the pipe's stream, in one piece: all that was asked for, or
    // all there is, or what stands before the end of the buffer.  Without data a caller that does not wait gets
    // -EAGAIN; a signal ends only a wait for data or for the semaphore.  fault: the caller's buffer is bad.
    // seen is the pipe at the copy, or at the test, or at the wait for the semaphore.
    method ScullPRead(me: Pid, count: nat, nonblock: bool, fault: bool)
        returns (result: int, data: seq<byte>, ghost seen: State)
      requires Valid() && me in procs && procs[me].pc.Outside?
      modifies this, buffer
      ensures Valid() && Onward(me) && At(me, Reader(count, nonblock), Outside(result)) && Consistent(seen)
      ensures result >= 0 ==>
        result == |data| && TakenFrom(seen, data, count) && HandedOut(seen, data, old(delivered), delivered)
      ensures result >= 0 ==> !fault
      ensures result < 0 ==> data == [] && (result == EAGAIN || result == EFAULT || result == ERESTARTSYS)
      ensures result == EFAULT ==> fault
      ensures result == EAGAIN ==> nonblock && Stored(seen) == []
      ensures result == ERESTARTSYS ==> Stored(seen) == [] || OutsideHeld(seen, me)
      ensures count > 0 ==> result != 0
    {
      var role := Reader(count, nonblock);
      Do(Call(me, role));
      result, seen := WaitUntilReady(me, role);
      data := [];
      if result == 0 {
        result, data, seen := ReadReady(me, role, fault);
      }
    }

    method WriteReady(me: Pid, role: Role, fault: bool) returns (result: int, ghost seen: State)
      requires Valid() && At(me, role, Copy) && role.Writer?
      modifies this, buffer
      ensures Valid() && Onward(me) && At(me, role, Outside(result)) && Consistent(seen)
      ensures if fault then result == EFAULT
              else
                && result >= 0 && AddedTo(seen, role.data, result)
                && TakenIn(seen, role.data[..result], old(accepted), accepted)
      ensures role.data != [] ==> result != 0
    {
      hide Reachable;
      Others(me);
      if fault {
        ReachableHasInv(View());
        seen := View();
        FailCopy(me, role);
        result := EFAULT;
      } else {
        result, seen := CopyIn(me, role);
        FinishCall(me, role, result);
      }
    }

    // A successful write puts a prefix of the data into the pipe's stream, in one piece: all of it, or as much
    // as fits, or what goes before the end of the buffer.  It fails as a read does.
    method ScullPWrite(me: Pid, data: seq<byte>, nonblock: bool, fault: bool) returns (result: int, ghost seen: State)
      requires Valid() && me in procs && procs[me].pc.Outside?
      modifies this, buffer
      ensures Valid() && Onward(me) && At(me, Writer(data, nonblock), Outside(result)) && Consistent(seen)
      ensures result >= 0 ==> AddedTo(seen, data, result) && TakenIn(seen, data[..result], old(accepted), accepted)
      ensures result >= 0 ==> !fault
      ensures result < 0 ==> result == EAGAIN || result == EFAULT || result == ERESTARTSYS
      ensures result == EFAULT ==> fault
      ensures result == EAGAIN ==> nonblock && |Stored(seen)| == |seen.buf| - 1
      ensures result == ERESTARTSYS ==> |Stored(seen)| == |seen.buf| - 1 || OutsideHeld(seen, me)
      ensures data != [] ==> result != 0
    {
      var role := Writer(data, nonblock);
      Do(Call(me, role));
      result, seen := WaitUntilReady(me, role);
      if result == 0 {
        result, seen := WriteReady(me, role, fault);
      } else {
        ContentsLength(seen.buf, Norm(|seen.buf|, seen.wp), Norm(|seen.buf|, seen.rp));
      }
    }
  }

  // A state that a run has reached.
  ghost predicate Consistent(s: State) {
    Reachable(s) && PointersIn(s)
  }

  // The process waits for the semaphore while somebody else has it.
  predicate OutsideHeld(s: State, me: Pid) {
    me in s.procs && s.procs[me].pc.WantSem? && s.sem <= 0
  }

  // The oldest of the bytes stored: so many, or all, or those before the end of the buffer.
  predicate TakenFrom(s: State, data: seq<byte>, count: nat)
    requires PointersIn(s)
  {
    && data <= Stored(s) && |data| <= count
    && (|data| == count || data == Stored(s) || s.rp + |data| == |s.buf|)
  }

  // Room for n of the bytes: for all, or no more than that, or no more before the end of the buffer.
  predicate AddedTo(s: State, data: seq<byte>, n: nat)
    requires PointersIn(s)
  {
    && n <= |data| && |Stored(s)| + n <= |s.buf| - 1
    && (n == |data| || |Stored(s)| + n == |s.buf| - 1 || s.wp + n == |s.buf|)
  }

  // The data follow what had been handed out by then.
  predicate HandedOut(s: State, data: seq<byte>, before: seq<byte>, after: seq<byte>) {
    before <= s.delivered && s.delivered + data <= after
  }

  // And so on the other side.
  predicate TakenIn(s: State, data: seq<byte>, before: seq<byte>, after: seq<byte>) {
    before <= s.accepted && s.accepted + data <= after
  }

  // A step that a process leaves to the others.
  predicate Foreign(e: Event, me: Pid) {
    match e
    case Open(_) => true
    case Call(pid, _) => pid != me
    case Go(pid, _, _) => pid != me
  }

  // The others can change nothing about a process but its being woken.
  predicate SameProc(before: Proc, after: Proc) {
    after == before || after == before.(woken := true)
  }

  // Where a test from inside the wait queue can lead.
  predicate SomeAnswer(role: Role, signal: bool, next: Pc) {
    (next.Asleep? && !(role.Reader? && signal)) || next.WantSem? || (signal && next == Outside(ERESTARTSYS))
  }

  // Where one step can take a process, whatever the others have done to the buffer.
  predicate NextPcs(p: Proc, signal: bool, next: Pc) {
    match p.pc
    case WantSem => if signal then next == Outside(ERESTARTSYS) else next.Test?
    case Test => next.UpToWait? || next.Copy?
    case UpToWait => next == if p.role.nonblock then Outside(EAGAIN) else Enqueue
    case Enqueue => next.QueuedTest?
    case QueuedTest => next.QueuedWp?
    case QueuedWp(_) => SomeAnswer(p.role, signal, next) || (p.role.Writer? && next.QueuedRp?)
    case QueuedRp => next.QueuedLast?
    case QueuedLast(_) => SomeAnswer(p.role, signal, next)
    case Asleep => next == if p.role.Reader? then Enqueue else if signal then Outside(ERESTARTSYS) else WantSem
    case Copy => next.UpFault?
    case Wrap(n) => next == Up(n)
    case Up(n) => next == WakeOthers(n)
    case WakeOthers(n) => next == Outside(n)
    case UpFault => next == Outside(EFAULT)
    case Outside(result) => next == Outside(result)
  }
}
