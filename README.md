# Lifecycle of a plugin child process (natefinch/pie, `plugin.go`)

The `plugin` package talks RPC to a child process over the child's standard
input and output. This project models the part of it that owns resources:

- `rwCloser.Close` closes a read side and a write side as one stream. It closes
  both, even when the first close fails. It returns the write-side error if
  there is one, otherwise the read-side error.
- `ioPipe.Close` closes the child's output stream, then its input stream, and
  then runs `closeProc`. `closeProc` sends `os.Interrupt`. If the signal fails,
  it returns that error at once. Otherwise it waits for the child. If the
  child does not exit within one second, it kills the child and returns a
  timeout error, or a "kill failed" error wrapping the kill error. The process
  error is reported over the write error, which is reported over the read error.
- `Start` gets the stdin pipe, then the stdout pipe, then starts the child.
  When a step fails, deferred closes release the pipes already acquired, the
  last one first. On success the stream reads the child's stdout and writes
  the child's stdin.

Layout:

- `errors.dfy` (module `Errors`): Go `error` values (`Nil` or `NonNil`) and two
  ways of choosing the reported error. `Latest` overwrites `err` step by step,
  as the code does. `FirstNonNil` takes the first non-nil entry of a
  precedence list. `LatestIsFirstOfReversed` proves the two agree.
- `resources.dfy` (module `Resources`): the resources as the package's tests
  fake them, and the command `plugin.go` drives. `Closer` mirrors `closeRW` and
  `Process` mirrors `proc`. `Command` stands for the `*exec.Cmd` of
  `Start`: its `StdinPipe`, `StdoutPipe` and `Start` may each fail. Each
  resource returns an error fixed when it is made. Each also appends every
  `Close`, `Signal` and `Kill` made on it to a shared `Journal`; `Wait`
  changes nothing and is not recorded. The journal has no counterpart in the
  source. It is how the model states the order of calls across different
  resources, and how often each call happens.
- `plugin.dfy` (module `Plugin`): `RwCloser` and `IoPipe` are datatypes, like
  the Go value structs, and their `Close` methods change the resources they
  hold. `Start` registers its deferred closes on a stack, which `RunDeferred`
  unwinds. The pure functions `ShutdownEvents`, `ShutdownError`,
  `StartResult` and `StartEvents` specify the calls made and the error
  returned. Each method's postcondition ties it to them.
- `scenarios.dfy` (module `Scenarios`): the six close tests of `plugin_test.go`,
  replayed on fresh fakes, with the outcomes those tests expect.

The race between the child's exit and the one-second timer is the parameter
`exitedBeforeTimeout`.

## Model

| member | source | states |
|---|---|---|
| `Errors.Latest` | plugin.go:60-67 | The `err` that starts as the first result and is overwritten by every later non-nil result is nil exactly when all results are nil, and otherwise is one of them |
| `Errors.FirstNonNil` | plugin.go:60-67 | A precedence list reports nil exactly when every entry is nil, and otherwise one of its entries |
| `Errors.FirstNonNilAt` | plugin.go:60-67 | An entry preceded only by nils is the one the precedence list reports |
| `Errors.LatestIsFirstOfReversed` | plugin.go:60-67 | Overwriting with each later failure gives the same error as a precedence list that ranks the last call first |
| `Resources.Closer.constructor` | plugin_test.go:364-367 | A fake stream end starts unclosed, with its close error fixed |
| `Resources.Closer.Close` | plugin_test.go:369-374 | Close marks the closer closed, records one close and returns the fixed error |
| `Resources.Process.constructor` | plugin_test.go:334-342 | A fake process starts with no signal and not killed, with its signal, kill and wait errors fixed |
| `Resources.Process.Signal` | plugin_test.go:356-360 | Signal records the signal sent and returns the fixed signal error |
| `Resources.Process.Kill` | plugin_test.go:350-354 | Kill marks the process killed, records one kill and returns the fixed kill error |
| `Resources.Process.Wait` | plugin_test.go:344-348 | Wait returns the fixed wait error |
| `Resources.Command.constructor` | plugin.go:25 | A command holds the child's stdin and stdout pipe ends and the child, with the error of each step fixed, and is not started |
| `Resources.Command.StdinPipe` | plugin.go:26 | StdinPipe returns the stdin pipe end, or fails with the fixed error |
| `Resources.Command.StdoutPipe` | plugin.go:35 | StdoutPipe returns the stdout pipe end, or fails with the fixed error |
| `Resources.Command.Start` | plugin.go:46 | Start returns the fixed start error, and the command is started when that error is nil |
| `Plugin.ShutdownEvents` | plugin.go:73-84 | closeProc sends the interrupt first and exactly once. It calls Kill exactly once when the interrupt was delivered and the timer fired first, and never otherwise. It makes no other Signal or Kill call; the Wait of plugin.go:72 is not recorded |
| `Plugin.ShutdownError` | plugin.go:73-84 | A signal error is returned as it is. An exit in time returns the wait error. A timeout is never nil: a failed kill gives KillFailed wrapping the kill error, otherwise StopTimedOut. The result is nil exactly on a clean exit in time. When the process only raises its own errors, a timeout error comes back exactly when the timer fired |
| `Plugin.PipeCloseCalls` | plugin.go:59-67 | The calls of ioPipe.Close are the reader close, the writer close, then always the interrupt, whatever the closes returned. Each of two distinct streams is closed exactly once, the interrupt is sent once, and Kill is called once on a timeout and never otherwise |
| `Plugin.CloseBothPrecedence` | plugin.go:92-98 | rwCloser.Close reports the write error over the read error, and nil exactly when both closes succeed |
| `Plugin.PipeClosePrecedence` | plugin.go:59-68 | ioPipe.Close reports the process error over the write error over the read error, and nil only when all three are nil |
| `Plugin.RwCloser.Close` | plugin.go:92-98 | Both sides end up closed, the reader first and then the writer, even when the first close fails. The error is the write error if there is one, otherwise the read error |
| `Plugin.IoPipe.Close` | plugin.go:59-68 | Both streams end up closed and the interrupt is sent. The process is killed exactly on a timeout. The calls are the two stream closes followed by those of ShutdownEvents, and the error follows the process, write, read precedence |
| `Plugin.IoPipe.CloseProc` | plugin.go:70-85 | Wait is started on every path, before the interrupt, and its result is returned only when the process exits in time. The process receives os.Interrupt and is killed only on a timeout. The calls are those of ShutdownEvents, and the error is ShutdownError |
| `Plugin.Unwind` | plugin.go:30-43 | Deferred closes run in reverse order of registration: the k-th close is of the k-th pipe from the top of the stack |
| `Plugin.RunDeferred` | plugin.go:30-43 | Each deferred pipe is closed, once and last-registered first, exactly when the returned error is non-nil, and otherwise nothing is closed |
| `Plugin.StartResult` | plugin.go:24-51 | Start succeeds exactly when both pipes and the process start succeed. On success the stream reads the child's stdout and writes its stdin. On failure it reports the error of the earliest failing step |
| `Plugin.StartEvents` | plugin.go:26-48 | Success closes nothing, and neither does a failed StdinPipe. A failed StdoutPipe closes stdin once. A failed process start closes stdout and then stdin, once each |
| `Plugin.Start` | plugin.go:24-51 | The result is StartResult and the closes made are StartEvents. A pipe is closed exactly when its close is among those events, and the command is started only on success |
| `Scenarios.RwCloserClean` | plugin_test.go:18-31 | Two clean closes give nil, and both sides are closed |
| `Scenarios.RwCloserReadError` | plugin_test.go:33-51 | A read-side failure is passed through, and the write side is still closed |
| `Scenarios.RwCloserWriteError` | plugin_test.go:53-71 | A write-side failure is passed through, and both sides are closed |
| `Scenarios.RwCloserBothErrors` | plugin_test.go:73-95 | When both sides fail, the write-side error is returned, and both sides are closed |
| `Scenarios.IoPipeCleanExit` | plugin_test.go:97-120 | A process that exits in time gives nil. Both streams are closed, os.Interrupt is sent and Kill is not called |
| `Scenarios.IoPipeSlowProcess` | plugin_test.go:122-149 | A process slower than the grace period gives the timeout error. Both streams are closed, os.Interrupt is sent and Kill is called |

## Left out

- `Provide` (plugin.go:15-20) and the RPC layer. Server registration, `ServeConn` and `rpc.NewClient` are calls into `net/rpc`, and `Provide` blocks forever. `Plugin.Start` returns the `ioPipe` stream that `plugin.go:50` hands to `rpc.NewClient`, not an RPC client.
- The ways a real `*exec.Cmd` can fail (a stream already set, a start after a start, an executable not found). `Command` abstracts them as one injected error per step.
- `exec.Command(path)` and `cmd.Stderr = os.Stderr` (plugin.go:25, 45). They are OS process creation and I/O. `Command` stands for a command already built, and standard error is not modelled.
- The goroutine, buffered channel and `time.After` in `closeProc` (plugin.go:71-79). This is concurrency and wall-clock time. Only the outcome of the race is modelled, as `exitedBeforeTimeout`. Because the channel holds one value, the background wait can always finish; the model does not show that. The model calls `Wait` on every path, before `Signal`, as the goroutine is started first; in the source it runs concurrently with `Signal` and `Kill`, so its order against them is not stated and it is not in the journal.
- The one-second grace period is not a value in the model. Only whether the child beat it matters.
- Byte-level `Read` and `Write` through the embedded `io.ReadCloser` and `io.WriteCloser`. They pass straight through to the OS streams.
- Error identity. `errors.New` and `fmt.Errorf` in `closeProc` make a fresh error on every call, and `fmt.Errorf` keeps only the text of the kill error. The model uses the values `StopTimedOut` and `KillFailed(cause)`, which compare equal across calls and keep the cause as a value.
- Plugin.RwCloser.Close: requires both sides to record their calls in the same journal. The journal is only how the model observes calls; the source has no such requirement.
- Plugin.IoPipe.Close: requires both streams and the process to share one journal, for the same reason.
- Plugin.Start: requires both pipes to share one journal, for the same reason.
- Closing twice. The source does not make `Close` idempotent, and the model allows repeated calls, each recorded again.
- The newer API that the tests exercise but `plugin.go` does not contain (`NewProvider`, `StartProvider`, `StartProviderCodec`, `makeCommand`, `procTimeout`, `procStopTimeoutErr`). It is not part of this model. The scenarios follow the tests' expected outcomes on the functions `plugin.go` does have.
- The example programs and `doc.go`: demo code and documentation.
