/**
 * The lifecycle code of the plugin package: closing a read side and a write
 * side as one stream, shutting a child process down (interrupt, wait up to a
 * grace period, then kill), and acquiring the child's pipes and starting it
 * all-or-nothing.
 *
 * Which of "the child exited" and "the one-second timer fired" happens first
 * is not decided here; it is the parameter `exitedBeforeTimeout`.
 */
module Plugin {
  import opened Errors
  import opened Resources

  // ---------------------------------------------------------------------
  // Specification of the shutdown sequence
  // ---------------------------------------------------------------------

  /** Shutdown has to kill the process: the interrupt was delivered, but the process did not exit in time. */
  predicate KillsOnShutdown(signalErr: Err, exitedBeforeTimeout: bool)
  {
    signalErr == Nil && !exitedBeforeTimeout
  }

  /** An error of the kind a resource returns, as opposed to one shutdown makes up. */
  predicate IsRaised(e: Err)
  {
    e == Nil || e.error.Raised?
  }

  /** One of the two errors that report a timeout. */
  predicate IsTimeoutError(e: Err)
  {
    e != Nil && (e.error.KillFailed? || e.error.StopTimedOut?)
  }

  /**
   * The Signal and Kill calls `closeProc` makes on process `p`, in order. The
   * Wait it runs concurrently on every path has no result on the process and
   * is not recorded.
   */
  function ShutdownEvents(p: Process, signalErr: Err, exitedBeforeTimeout: bool): (t: seq<Event>)
    // the interrupt comes first and is sent exactly once
    ensures |t| > 0 && t[0] == Signalled(p, Interrupt)
    ensures multiset(t)[Signalled(p, Interrupt)] == 1
    // Kill is called once if the timeout fired after a delivered interrupt, and never otherwise
    ensures multiset(t)[Killed(p)] == if KillsOnShutdown(signalErr, exitedBeforeTimeout) then 1 else 0
    // no other Signal or Kill call is made
    ensures forall e | e in t :: e == Signalled(p, Interrupt) || e == Killed(p)
  {
    [Signalled(p, Interrupt)] + if KillsOnShutdown(signalErr, exitedBeforeTimeout) then [Killed(p)] else []
  }

  /** What `closeProc` returns, from what the process calls returned. */
  function ShutdownError(signalErr: Err, exitedBeforeTimeout: bool, waitErr: Err, killErr: Err): (r: Err)
    // a failed interrupt is returned as it is, whatever the process then does
    ensures signalErr != Nil ==> r == signalErr
    // an exit within the grace period reports the process's own wait result
    ensures signalErr == Nil && exitedBeforeTimeout ==> r == waitErr
    // a timeout is never reported as nil: a failed kill wraps the kill error
    ensures KillsOnShutdown(signalErr, exitedBeforeTimeout) ==>
              r == NonNil(if killErr != Nil then KillFailed(killErr.error) else StopTimedOut)
    // nil means the interrupt was delivered and the process exited cleanly in time
    ensures r == Nil <==> signalErr == Nil && exitedBeforeTimeout && waitErr == Nil
    // when the process itself only raises its own errors, a timeout error is returned exactly when the timer fired
    ensures IsRaised(signalErr) && IsRaised(waitErr) ==>
              (IsTimeoutError(r) <==> KillsOnShutdown(signalErr, exitedBeforeTimeout))
  {
    if signalErr != Nil then signalErr
    else if exitedBeforeTimeout then waitErr
    else if killErr != Nil then NonNil(KillFailed(killErr.error))
    else NonNil(StopTimedOut)
  }

  /**
   * The calls `ioPipe.Close` makes, in order, are the two stream closes
   * followed by those of the process shutdown: the shutdown is always
   * attempted, after both closes, whatever they returned; each of two
   * distinct streams is closed exactly once, and Kill is called only when
   * the timer fired.
   */
  lemma PipeCloseCalls(reader: Closer, writer: Closer, p: Process, signalErr: Err, exitedBeforeTimeout: bool)
    ensures var t := [Closed(reader), Closed(writer)] + ShutdownEvents(p, signalErr, exitedBeforeTimeout);
      && t[0] == Closed(reader) && t[1] == Closed(writer) && t[2] == Signalled(p, Interrupt)
      && (reader != writer ==> multiset(t)[Closed(reader)] == 1 && multiset(t)[Closed(writer)] == 1)
      && multiset(t)[Signalled(p, Interrupt)] == 1
      && multiset(t)[Killed(p)] == if KillsOnShutdown(signalErr, exitedBeforeTimeout) then 1 else 0
  {
  }

  /**
   * `rwCloser.Close` reports the write-side error over the read-side error:
   * the step-by-step result is that of the precedence list [write, read].
   */
  lemma CloseBothPrecedence(readErr: Err, writeErr: Err)
    ensures Latest([readErr, writeErr]) == FirstNonNil([writeErr, readErr])
    ensures Latest([readErr, writeErr]) == Nil <==> readErr == Nil && writeErr == Nil
  {
  }

  /**
   * `ioPipe.Close` reports a process error over a write error over a read
   * error, and nil only when all three are nil.
   */
  lemma PipeClosePrecedence(readErr: Err, writeErr: Err, procErr: Err)
    ensures Latest([readErr, writeErr, procErr]) == FirstNonNil([procErr, writeErr, readErr])
    ensures procErr != Nil ==> Latest([readErr, writeErr, procErr]) == procErr
    ensures procErr == Nil && writeErr != Nil ==> Latest([readErr, writeErr, procErr]) == writeErr
    ensures procErr == Nil && writeErr == Nil ==> Latest([readErr, writeErr, procErr]) == readErr
  {
    LatestIsFirstOfReversed([readErr, writeErr, procErr]);
    assert [readErr, writeErr, procErr][..2] == [readErr, writeErr];
    assert [readErr, writeErr][..1] == [readErr];
    assert [readErr][..0] == [];
    assert Reversed([readErr]) == [readErr];
    assert Reversed([readErr, writeErr]) == [writeErr, readErr];
    assert Reversed([readErr, writeErr, procErr]) == [procErr, writeErr, readErr];
    if procErr == Nil {
      if writeErr != Nil {
        assert [procErr, writeErr, readErr][..1] == [Nil];
        FirstNonNilAt([procErr, writeErr, readErr], 1);
      } else if readErr != Nil {
        assert [procErr, writeErr, readErr][..2] == [Nil, Nil];
        FirstNonNilAt([procErr, writeErr, readErr], 2);
      }
    }
  }

  // ---------------------------------------------------------------------
  // The combined streams
  // ---------------------------------------------------------------------

  /** `rwCloser`: a read side and a write side used as one stream. */
  datatype RwCloser = RwCloser(reader: Closer, writer: Closer)
  {
    /** Closes both sides, the second even when the first fails. */
    method Close() returns (err: Err)
      requires reader.journal == writer.journal
      modifies reader, writer, reader.journal
      ensures reader.closed && writer.closed
      ensures reader.journal.events == old(reader.journal.events) + [Closed(reader), Closed(writer)]
      ensures err == Latest([reader.err, writer.err])
    {
      err := reader.Close();
      var writeErr := writer.Close();
      if writeErr != Nil {
        return writeErr;
      }
    }
  }

  /** `ioPipe`: the child's standard output and input, used as one stream, and the child itself. */
  datatype IoPipe = IoPipe(reader: Closer, writer: Closer, proc: Process)
  {
    /** All three resources record their calls in one journal. */
    predicate SharesJournal()
    {
      reader.journal == writer.journal == proc.journal
    }

    /** Closes both streams, then shuts the process down; reports the process error over the write error over the read error. */
    method Close(exitedBeforeTimeout: bool) returns (err: Err)
      requires SharesJournal()
      modifies reader, writer, proc, proc.journal
      ensures reader.closed && writer.closed
      ensures proc.sig == Some(Interrupt)
      ensures proc.killed == (old(proc.killed) || KillsOnShutdown(proc.signalErr, exitedBeforeTimeout))
      ensures proc.journal.events ==
                old(proc.journal.events) + [Closed(reader), Closed(writer)] + ShutdownEvents(proc, proc.signalErr, exitedBeforeTimeout)
      ensures err == Latest([reader.err, writer.err,
                             ShutdownError(proc.signalErr, exitedBeforeTimeout, proc.waitErr, proc.killErr)])
    {
      var readErr := reader.Close();
      err := readErr;
      var writeErr := writer.Close();
      if writeErr != Nil {
        err := writeErr;
      }
      label StreamsClosed:
      assert proc.journal.events == old(proc.journal.events) + [Closed(reader), Closed(writer)];
      var procErr := CloseProc(exitedBeforeTimeout);
      if procErr != Nil {
        err := procErr;
      }
      assert proc.journal.events == old@StreamsClosed(proc.journal.events) + ShutdownEvents(proc, proc.signalErr, exitedBeforeTimeout);
      assert err == Latest([readErr, writeErr, procErr]) by {
        PipeClosePrecedence(readErr, writeErr, procErr);
      }
    }

    /** Interrupts the process, then waits for it or, once the grace period is over, kills it. */
    method CloseProc(exitedBeforeTimeout: bool) returns (err: Err)
      modifies proc, proc.journal
      ensures proc.sig == Some(Interrupt)
      ensures proc.killed == (old(proc.killed) || KillsOnShutdown(proc.signalErr, exitedBeforeTimeout))
      ensures proc.journal.events == old(proc.journal.events) + ShutdownEvents(proc, proc.signalErr, exitedBeforeTimeout)
      ensures err == ShutdownError(proc.signalErr, exitedBeforeTimeout, proc.waitErr, proc.killErr)
    {
      // The wait is started before the interrupt, on every path; its result
      // is only taken when the process exits before the timer fires.
      var result := proc.Wait();
      var signalErr := proc.Signal(Interrupt);
      if signalErr != Nil {
        return signalErr;
      }
      if exitedBeforeTimeout {
        return result;
      }
      var killErr := proc.Kill();
      if killErr != Nil {
        return NonNil(KillFailed(killErr.error));
      }
      return NonNil(StopTimedOut);
    }
  }

  // ---------------------------------------------------------------------
  // Starting the child
  // ---------------------------------------------------------------------

  /** The closes a stack of deferred `Close` calls makes when it unwinds: the most recently deferred first. */
  function Unwind(deferred: seq<Closer>): (t: seq<Event>)
    ensures |t| == |deferred|
    ensures forall k | 0 <= k < |deferred| :: t[k] == Closed(deferred[|deferred| - 1 - k])
  {
    if deferred == [] then [] else Unwind(deferred[1..]) + [Closed(deferred[0])]
  }

  /** The pipes `Start` holds, in the order it acquired them, when it returns. */
  function Acquired(stdin: Closer, stdout: Closer, stdinPipeErr: Err, stdoutPipeErr: Err): seq<Closer>
  {
    if stdinPipeErr != Nil then []
    else if stdoutPipeErr != Nil then [stdin]
    else [stdin, stdout]
  }

  /** What `Start` returns: the stream over the child's pipes, or the error of the first step that failed. */
  function StartResult(stdin: Closer, stdout: Closer, process: Process,
                       stdinPipeErr: Err, stdoutPipeErr: Err, startErr: Err): (r: Result<IoPipe>)
    // all-or-nothing: a stream only when every step succeeded
    ensures r.Ok? <==> stdinPipeErr == Nil && stdoutPipeErr == Nil && startErr == Nil
    // the stream reads what the child writes and writes what the child reads
    ensures r.Ok? ==> r.value == IoPipe(stdout, stdin, process)
    // a failure reports the error of the earliest step that failed
    ensures r.Fail? ==> NonNil(r.error) == FirstNonNil([stdinPipeErr, stdoutPipeErr, startErr])
  {
    if stdinPipeErr != Nil then Fail(stdinPipeErr.error)
    else if stdoutPipeErr != Nil then Fail(stdoutPipeErr.error)
    else if startErr != Nil then
      assert [stdinPipeErr, stdoutPipeErr, startErr][..2] == [Nil, Nil];
      FirstNonNilAt([stdinPipeErr, stdoutPipeErr, startErr], 2);
      Fail(startErr.error)
    else Ok(IoPipe(stdout, stdin, process))
  }

  /** The closes `Start` makes: its deferred closes run only when it fails. */
  function StartEvents(stdin: Closer, stdout: Closer, stdinPipeErr: Err, stdoutPipeErr: Err, startErr: Err): (t: seq<Event>)
    // success releases nothing, and neither does a failure to get the first pipe
    ensures stdinPipeErr == Nil && stdoutPipeErr == Nil && startErr == Nil ==> t == []
    ensures stdinPipeErr != Nil ==> t == []
    // a later failure releases every pipe acquired, exactly once
    ensures stdin != stdout ==>
              multiset(t)[Closed(stdin)] ==
                if stdinPipeErr == Nil && (stdoutPipeErr != Nil || startErr != Nil) then 1 else 0
    ensures stdin != stdout ==>
              multiset(t)[Closed(stdout)] ==
                if stdinPipeErr == Nil && stdoutPipeErr == Nil && startErr != Nil then 1 else 0
    // a failed StdoutPipe releases the stdin pipe and nothing else
    ensures stdinPipeErr == Nil && stdoutPipeErr != Nil ==> t == [Closed(stdin)]
    // when both are released, the one acquired last is closed first
    ensures stdinPipeErr == Nil && stdoutPipeErr == Nil && startErr != Nil ==>
              t == [Closed(stdout), Closed(stdin)]
  {
    if stdinPipeErr == Nil && stdoutPipeErr == Nil && startErr == Nil then []
    else Unwind(Acquired(stdin, stdout, stdinPipeErr, stdoutPipeErr))
  }

  /**
   * Runs the deferred `if err != nil { c.Close() }` calls of a returning
   * function, the most recently deferred first.
   */
  method RunDeferred(deferred: seq<Closer>, err: Err, ghost journal: Journal)
    requires forall c | c in deferred :: c.journal == journal
    modifies (set c | c in deferred), journal
    ensures journal.events == old(journal.events) + if err != Nil then Unwind(deferred) else []
    ensures forall c | c in deferred :: c.closed == (old(c.closed) || err != Nil)
  {
    var i := |deferred|;
    while i > 0
      invariant 0 <= i <= |deferred|
      invariant journal.events == old(journal.events) + if err != Nil then Unwind(deferred[i..]) else []
      invariant forall c | c in deferred :: c.closed == (old(c.closed) || (err != Nil && c in deferred[i..]))
    {
      i := i - 1;
      assert deferred[i..][1..] == deferred[i + 1..];
      if err != Nil {
        var _ := deferred[i].Close();
      }
    }
  }

  /**
   * Gets the child's standard input and output pipes and starts it. When a
   * step fails, every pipe already acquired is closed, the last one first,
   * and nothing is returned but the error.
   */
  method Start(cmd: Command) returns (r: Result<IoPipe>)
    requires cmd.stdin.journal == cmd.stdout.journal
    modifies cmd, cmd.stdin, cmd.stdout, cmd.stdin.journal
    ensures r == StartResult(cmd.stdin, cmd.stdout, cmd.process, cmd.stdinPipeErr, cmd.stdoutPipeErr, cmd.startErr)
    ensures cmd.stdin.journal.events ==
              old(cmd.stdin.journal.events) + StartEvents(cmd.stdin, cmd.stdout, cmd.stdinPipeErr, cmd.stdoutPipeErr, cmd.startErr)
    ensures cmd.started == (old(cmd.started) || r.Ok?)
    ensures cmd.stdin.closed == (old(cmd.stdin.closed) || Closed(cmd.stdin) in StartEvents(cmd.stdin, cmd.stdout, cmd.stdinPipeErr, cmd.stdoutPipeErr, cmd.startErr))
    ensures cmd.stdout.closed == (old(cmd.stdout.closed) || Closed(cmd.stdout) in StartEvents(cmd.stdin, cmd.stdout, cmd.stdinPipeErr, cmd.stdoutPipeErr, cmd.startErr))
  {
    var journal := cmd.stdin.journal;
    var inPipe := cmd.StdinPipe();
    if inPipe.Fail? {
      return Fail(inPipe.error);
    }
    var deferred := [inPipe.value];
    var err: Err;   // the named result the deferred closes consult
    var outPipe := cmd.StdoutPipe();
    if outPipe.Fail? {
      err := NonNil(outPipe.error);
    } else {
      deferred := deferred + [outPipe.value];
      err := cmd.Start();
    }
    r := if err != Nil then Fail(err.error) else Ok(IoPipe(outPipe.value, inPipe.value, cmd.process));
    RunDeferred(deferred, err, journal);
  }
}
