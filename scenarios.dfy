/**
 * The close scenarios of the package's tests, stated on the model: each builds
 * fresh fake resources, closes the combined stream and returns what the test
 * inspects afterwards.
 */
module Scenarios {
  import opened Errors
  import opened Resources
  import opened Plugin

  /** Both sides close cleanly: nil, and both sides are closed. */
  method RwCloserClean() returns (err: Err, readClosed: bool, writeClosed: bool)
    ensures err == Nil && readClosed && writeClosed
  {
    var journal := new Journal();
    var rc := new Closer(journal, Nil);
    var wc := new Closer(journal, Nil);
    err := RwCloser(rc, wc).Close();
    readClosed, writeClosed := rc.closed, wc.closed;
  }

  /** Only the read side fails: its error comes through, and the write side is still closed. */
  method RwCloserReadError() returns (err: Err, readClosed: bool, writeClosed: bool)
    ensures err == NonNil(Raised(1)) && readClosed && writeClosed
  {
    var journal := new Journal();
    var rc := new Closer(journal, NonNil(Raised(1)));
    var wc := new Closer(journal, Nil);
    err := RwCloser(rc, wc).Close();
    readClosed, writeClosed := rc.closed, wc.closed;
  }

  /** Only the write side fails: its error comes through. */
  method RwCloserWriteError() returns (err: Err, readClosed: bool, writeClosed: bool)
    ensures err == NonNil(Raised(2)) && readClosed && writeClosed
  {
    var journal := new Journal();
    var rc := new Closer(journal, Nil);
    var wc := new Closer(journal, NonNil(Raised(2)));
    err := RwCloser(rc, wc).Close();
    readClosed, writeClosed := rc.closed, wc.closed;
  }

  /** Both sides fail: one of the two errors comes through, and it is the write side's. */
  method RwCloserBothErrors() returns (err: Err, readClosed: bool, writeClosed: bool)
    ensures err == NonNil(Raised(2)) && readClosed && writeClosed
  {
    var journal := new Journal();
    var rc := new Closer(journal, NonNil(Raised(1)));
    var wc := new Closer(journal, NonNil(Raised(2)));
    err := RwCloser(rc, wc).Close();
    readClosed, writeClosed := rc.closed, wc.closed;
  }

  /** A process that exits in time: nil, the streams closed, an interrupt sent and no kill. */
  method IoPipeCleanExit() returns (err: Err, readClosed: bool, writeClosed: bool, sig: Option<Signal>, killed: bool)
    ensures err == Nil && readClosed && writeClosed
    ensures sig == Some(Interrupt) && !killed
  {
    var journal := new Journal();
    var rc := new Closer(journal, Nil);
    var wc := new Closer(journal, Nil);
    var p := new Process(journal, Nil, Nil, Nil);
    err := IoPipe(rc, wc, p).Close(true);
    readClosed, writeClosed, sig, killed := rc.closed, wc.closed, p.sig, p.killed;
  }

  /** A process slower than the grace period: the timeout error, an interrupt sent, then a kill. */
  method IoPipeSlowProcess() returns (err: Err, readClosed: bool, writeClosed: bool, sig: Option<Signal>, killed: bool)
    ensures err == NonNil(StopTimedOut) && readClosed && writeClosed
    ensures sig == Some(Interrupt) && killed
  {
    var journal := new Journal();
    var rc := new Closer(journal, Nil);
    var wc := new Closer(journal, Nil);
    var p := new Process(journal, Nil, Nil, Nil);
    err := IoPipe(rc, wc, p).Close(false);
    readClosed, writeClosed, sig, killed := rc.closed, wc.closed, p.sig, p.killed;
  }
}
