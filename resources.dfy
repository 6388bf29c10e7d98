/**
 * The resources the plugin code acts on: a stream end that can be closed and
 * a child process that can be signalled, killed and waited for, in the form
 * the package's tests fake them, and the command that hands out the child's
 * pipes and starts it. Each returns an error fixed when it is made.
 *
 * Every Close, Signal and Kill the plugin code makes on a resource is
 * recorded, in order, in a journal the resources share, so that the order of
 * closes, signals and kills across different resources can be stated.
 */
module Resources {
  import opened Errors

  /** The two signals Go's os package offers on every platform. */
  datatype Signal = Interrupt | Kill

  datatype Option<T> = None | Some(value: T)

  /** One call made on a resource. `Wait` changes nothing and is not recorded. */
  datatype Event =
    | Closed(closer: Closer)
    | Signalled(process: Process, sig: Signal)
    | Killed(process: Process)

  /** The calls made on a set of resources, oldest first. */
  class Journal {
    var events: seq<Event>

    constructor ()
      ensures events == []
    {
      events := [];
    }
  }

  /** An `io.ReadCloser` or `io.WriteCloser`; only its `Close` matters here. */
  class Closer {
    const journal: Journal
    const err: Err       // what Close returns
    var closed: bool     // Close has been called

    constructor (journal: Journal, err: Err)
      ensures this.journal == journal && this.err == err && !closed
    {
      this.journal := journal;
      this.err := err;
      closed := false;
    }

    method Close() returns (e: Err)
      modifies this, journal
      ensures closed
      ensures journal.events == old(journal.events) + [Closed(this)]
      ensures e == err
    {
      closed := true;
      journal.events := journal.events + [Closed(this)];
      e := err;
    }
  }

  /** A started child process: the calls `*os.Process` offers the plugin code. */
  class Process {
    const journal: Journal
    const signalErr: Err   // what Signal returns
    const killErr: Err     // what Kill returns
    const waitErr: Err     // what Wait returns once the process has exited
    var sig: Option<Signal>  // the last signal sent
    var killed: bool         // Kill has been called

    constructor (journal: Journal, signalErr: Err, killErr: Err, waitErr: Err)
      ensures this.journal == journal
      ensures this.signalErr == signalErr && this.killErr == killErr && this.waitErr == waitErr
      ensures sig == None && !killed
    {
      this.journal := journal;
      this.signalErr, this.killErr, this.waitErr := signalErr, killErr, waitErr;
      sig, killed := None, false;
    }

    method Signal(s: Signal) returns (e: Err)
      modifies this, journal
      ensures sig == Some(s) && killed == old(killed)
      ensures journal.events == old(journal.events) + [Signalled(this, s)]
      ensures e == signalErr
    {
      sig := Some(s);
      journal.events := journal.events + [Signalled(this, s)];
      e := signalErr;
    }

    method Kill() returns (e: Err)
      modifies this, journal
      ensures killed && sig == old(sig)
      ensures journal.events == old(journal.events) + [Killed(this)]
      ensures e == killErr
    {
      killed := true;
      journal.events := journal.events + [Killed(this)];
      e := killErr;
    }

    /** Waits for the process to exit and returns how it went. */
    method Wait() returns (e: Err)
      ensures e == waitErr
    {
      e := waitErr;
    }
  }

  /**
   * An `*exec.Cmd` not yet started: it hands out the write end of the child's
   * standard input and the read end of its standard output, and starts the
   * child, each step failing with an error fixed when it is made.
   */
  class Command {
    const stdin: Closer          // the write end of the child's standard input
    const stdout: Closer         // the read end of the child's standard output
    const process: Process       // the child, once started
    const stdinPipeErr: Err      // what StdinPipe fails with
    const stdoutPipeErr: Err     // what StdoutPipe fails with
    const startErr: Err          // what Start fails with
    var started: bool

    constructor (stdin: Closer, stdout: Closer, process: Process,
                 stdinPipeErr: Err, stdoutPipeErr: Err, startErr: Err)
      ensures this.stdin == stdin && this.stdout == stdout && this.process == process
      ensures this.stdinPipeErr == stdinPipeErr && this.stdoutPipeErr == stdoutPipeErr
      ensures this.startErr == startErr
      ensures !started
    {
      this.stdin, this.stdout, this.process := stdin, stdout, process;
      this.stdinPipeErr, this.stdoutPipeErr, this.startErr := stdinPipeErr, stdoutPipeErr, startErr;
      started := false;
    }

    method StdinPipe() returns (r: Result<Closer>)
      ensures r == if stdinPipeErr == Nil then Ok(stdin) else Fail(stdinPipeErr.error)
    {
      r := if stdinPipeErr == Nil then Ok(stdin) else Fail(stdinPipeErr.error);
    }

    method StdoutPipe() returns (r: Result<Closer>)
      ensures r == if stdoutPipeErr == Nil then Ok(stdout) else Fail(stdoutPipeErr.error)
    {
      r := if stdoutPipeErr == Nil then Ok(stdout) else Fail(stdoutPipeErr.error);
    }

    method Start() returns (e: Err)
      modifies this
      ensures started == (old(started) || startErr == Nil)
      ensures e == startErr
    {
      started := started || startErr == Nil;
      e := startErr;
    }
  }
}
