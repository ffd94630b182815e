# je job engine — a Dafny model

This project models the core of `je`, a service that runs submitted commands as tracked jobs. There are two parts:

- **The job lifecycle** (`job.go`). A `Job` has a lifecycle state, a worker, an exit status and five timestamps. It also holds runtime handles: the interactive input pipe, the command, and a one-slot `done` channel. `NewJob`, `Enqueue`, `Start`, `Kill`, `Stop` and `Error` update the fields in place and then save a snapshot. `Wait` takes the value out of the `done` slot. `Write` and `Close` work only on interactive jobs. `Execute` wires the program's streams, starts it, waits for it, and records a non-zero exit code.
- **The string helpers** (`utils.go`). `SafeParseInt` and `SafeParseUint64` parse a decimal, or return a default on any error. `JoinArgs` joins the arguments with spaces and form-encodes the result.

Files:

- `basics.dfy` (module `Basics`): `Option`, `byte`, and `GoString`. A Go string is a sequence of bytes.
- `utils.dfy` (module `Utils`): pure functions and lemmas.
  - `Atoi` and `ParseUint` decide as `strconv.Atoi` and `strconv.ParseUint(s, 10, 64)` do.
  - `Accumulate` is the digit loop of `strconv.ParseUint`, overflow checks included. `AccumulateValue` proves it computes the mathematical value, and fails exactly when a byte is not a digit or the value exceeds 2^64 - 1.
  - `QueryEscape` is Go's `url.QueryEscape`. Unreserved bytes (section 2.3 of RFC 3986) stay as they are, a space becomes `+`, and every other byte becomes `%XX` in upper case.
  - `QueryUnescape` is `url.QueryUnescape`. It is the reference inverse of `QueryEscape`.
  - `FormatUint` and `FormatInt` are the decimal renderings. They are the partners of the parsers.
- `job.dfy` (module `Jobs`): the `Job` class and its collaborators, each a small class.
  - `Db`: identifier allocation and snapshot saving.
  - `Clock`: `time.Now`. It is nondecreasing and never returns the zero time.
  - `Process`: an `exec.Cmd` and its `os.Process`, with phases Created, Alive and Reaped.
  - `Pipe`: the stdin pipe.
  - Each method's contract says which fields it changes; field-granular `modifies` clauses say that nothing else changes. `Valid()` is the invariant every method keeps:
    - the `done` slot holds at most one value;
    - each state set by a transition carries that transition's timestamp;
    - only interactive jobs get an input pipe;
    - the command runs the job's own program.

Modelling choices:

- Go's `int` is taken to be 64 bits wide.
- Outside code becomes a parameter or an object:
  - `db.Save` succeeds exactly when `Db.reachable` holds.
  - What the environment decides at each setup step of `Execute` is the parameter `Setup`: whether a pipe or a stream opens, and whether the program starts.
  - How `cmd.Wait` returns is the parameter `WaitResult`.
- `Execute` blocks in `cmd.Wait`. While it waits, other goroutines may call `Kill`, `Write` or `Close`. So the model splits `Execute` at that point:
  - `Launch` is the part before the wait;
  - `Reap` is the wait and the deferred closes;
  - `Execute` is `Launch` followed by `Reap`.
  Calls made between `Launch` and `Reap` stand for the concurrent ones.
- `Wait` is modelled as a check of the done flag. It reports `woken == false` in the case where the Go receive would block.

Where the code's behaviour is surprising, the model follows the code:

- `Kill` on a job whose program has not started dereferences a nil `cmd.Process` (a panic), rather than returning an error. Likewise, `Close` on an interactive job before `Execute` dereferences a nil `input`. The model makes both preconditions.
- `Write` on an interactive job before `Execute` dereferences the nil `input` only when the source holds bytes. `io.Copy` reaches the end of an empty source before it writes anything, so an empty write returns `(0, nil)`. The model requires a pipe only for a non-empty write. For the same reason, an empty write to a closed pipe succeeds.
- `Enqueue`, `Start`, `Stop` and `Error` overwrite the state from any state. Nothing enforces the transition graph.
- The `done` channel has one slot and `Wait` empties it. A second terminating send without a `Wait` in between would block forever, so `Stop` and a succeeding `Kill(true)` require an empty slot.
- On a failure after the interactive pipe has been opened, `Execute` has already stored the pipe and the command on the job. The deferred close leaves that stored pipe closed.

## Model

| member | source | states |
|---|---|---|
| `Utils.AccumulateValue` | utils.go:20 | strconv's digit loop with its cutoff and wrap-around checks succeeds exactly when every byte is a digit and the value fits in 64 bits, and then returns that value |
| `Utils.ParseUint` | utils.go:20 | `strconv.ParseUint(s, 10, 64)` succeeds exactly on a non-empty run of digits whose value is at most 2^64 - 1, with that value |
| `Utils.Atoi` | utils.go:11 | `strconv.Atoi` succeeds exactly on an optional sign followed by digits whose signed value lies in the int range, with that value |
| `Utils.SafeParseInt` | utils.go:10-16 | the signed value of a valid in-range decimal; exactly `d` when s is empty, has nothing or a non-digit after the sign, or is out of range |
| `Utils.SafeParseUint64` | utils.go:19-25 | the value of a digit string up to 2^64 - 1; exactly `d` for an empty string, a leading sign, any non-digit, or a value above 2^64 - 1 |
| `Utils.SafeParseUint64RoundTrip` | utils.go:19-25 | parsing the decimal rendering of any n < 2^64 gives n back, whatever the default |
| `Utils.SafeParseIntRoundTrip` | utils.go:10-16 | parsing the decimal rendering of any int (a leading '-' when negative) gives it back, whatever the default |
| `Utils.QueryEscape` | utils.go:29 | every output byte is unreserved, '+' or '%', and the output is never shorter than the input |
| `Utils.QueryEscapeRoundTrip` | utils.go:29 | `QueryUnescape` recovers every byte string from its escape |
| `Utils.QueryEscapeAppend` | utils.go:29 | escaping works byte by byte: the escape of a concatenation is the concatenation of the escapes |
| `Utils.QueryEscapeUnreserved` | utils.go:29 | a string of unreserved bytes escapes to itself |
| `Utils.JoinShape` | utils.go:29 | `strings.Join` of one or more elements starts with the first element, ends with the last, and is as long as all the elements plus one separator fewer than there are elements |
| `Utils.JoinArgs` | utils.go:28-30 | no arguments give the empty string, and the output never contains a space |
| `Utils.JoinArgsRoundTrip` | utils.go:28-30 | unescaping JoinArgs' output gives the arguments joined with single spaces |
| `Utils.JoinArgsUnreserved` | utils.go:28-30 | for arguments made only of unreserved bytes, JoinArgs is the arguments joined with '+' |
| `Jobs.Clock.Now` | job.go:43 | `time.Now` never goes back and never returns the zero time |
| `Jobs.Db.NextId` | job.go:39 | identifiers are allocated in increasing order |
| `Jobs.Db.Save` | job.go:47 | Save stores the snapshot under its id and returns nil when the store is reachable, and otherwise stores nothing and returns a persistence error |
| `Jobs.Process.Start` | job.go:181-184 | the program becomes alive exactly when the start succeeds |
| `Jobs.Process.Send` | job.go:69 | a signal reaches a program that is alive; once the program is reaped, sending fails with the process error |
| `Jobs.Process.Wait` | job.go:186 | after `cmd.Wait` the program is reaped |
| `Jobs.Pipe.CopyFrom` | job.go:113 | `io.Copy` appends all the bytes to an open pipe and reports their count; an empty source succeeds with 0 bytes even on a closed pipe; a non-empty source on a closed pipe fails having copied nothing |
| `Jobs.Pipe.Close` | job.go:105 | closing leaves the pipe closed and returns nil, also when it was already closed |
| `Jobs.Setup.FirstFailure` | job.go:119-184 | Execute's setup reports nil exactly when the input wiring, both pipes, both streams and the start all succeed |
| `Jobs.Job.constructor` | job.go:38-46 | a job with the given id, program and creation time and every other field at its zero value |
| `Jobs.Job.NewJob` | job.go:37-49 | the id comes from NextId and CreatedAt is the current time; the state is Unscheduled, the worker empty, no pipe or command, an empty done slot; the save's error is returned and the snapshot is stored |
| `Jobs.Job.Enqueue` | job.go:55-58 | the state becomes Waiting from any state; nothing else changes; the snapshot is saved and the save's error returned |
| `Jobs.Job.Start` | job.go:60-65 | the worker is recorded, the state becomes Running and StartedAt is the current time; nothing else changes; the snapshot is saved |
| `Jobs.Job.Kill` | job.go:67-81 | Kill(true) on a live program delivers the kill signal, fills the done slot, and sets the state Killed and KilledAt, then saves. If the kill fails, its error is returned and the state, KilledAt, the slot, the store and the clock are left alone. Kill(false) only delivers an interrupt and returns its result |
| `Jobs.Job.Stop` | job.go:83-88 | with the done slot empty, Stop fills it, sets the state Stopped and StoppedAt to the current time, and saves; nothing else changes |
| `Jobs.Job.Error` | job.go:90-94 | the state becomes Errored and ErroredAt is the current time, from any state; Status, the other timestamps and the done slot are untouched |
| `Jobs.Job.Wait` | job.go:96-98 | the waiter wakes exactly when the done slot holds a value, and the slot is empty afterwards |
| `Jobs.Job.Close` | job.go:100-106 | a non-interactive job returns an invalid-operation error and has no pipe to touch; an interactive job's pipe is closed; the invariant is kept |
| `Jobs.Job.Write` | job.go:108-114 | a non-interactive job returns no bytes and an invalid-operation error. An interactive job with no pipe yet accepts an empty write, with 0 bytes and nil. An open pipe receives all the bytes. A closed pipe also accepts an empty write, and fails on a non-empty one. The invariant is kept |
| `Jobs.Job.Launch` | job.go:116-184 | returns the first failing setup step's error, and the program is then not started. The pipe and the command are stored only once their steps succeed. The pipe is left open only when everything succeeds |
| `Jobs.Job.Reap` | job.go:186-200 | the program is reaped; Status takes the exit code only on an exit error that carries a wait status; the input pipe is closed |
| `Jobs.Job.Execute` | job.go:116-201 | returns the first setup failure, leaving Status alone. Otherwise it runs the program to its exit and returns nil whatever the exit code, having recorded that code on an exit error |
| `Jobs.RunToStop` | job.go:37-98 | a job created, enqueued, started, executed and stopped ends Stopped, with CreatedAt <= StartedAt <= StoppedAt and its last snapshot stored; the waiter wakes |
| `Jobs.FeedInteractive` | job.go:100-201 | bytes written while an interactive program runs reach its input; after Close, a write fails and adds nothing |
| `Jobs.InterruptThenKill` | job.go:67-98 | an interrupt followed by a kill reach the running program in that order; the job ends Killed with KilledAt set, and a waiter wakes |

## Left out

- The two goroutines that drain stderr and stdout into the logs and output streams (job.go:172-179) are left out: they are concurrency and byte copying. The model does not say what those streams end up containing.
- The drain goroutines can assign Execute's named result `err` concurrently. That race could change Execute's return value. The model returns nil after any wait.
- The `sync.RWMutex` embedded in the job is left out, because the model is sequential.
- Logging is left out.
- `db.Save`, `data.Read` and `data.Write` are abstract. A save's success depends only on whether the store is reachable. An open's success is a `Setup` parameter.
- Real process spawning and `syscall.WaitStatus` decoding are left out. Exit codes arrive through `WaitResult`.
- Jobs loaded back from the store have a nil `done` channel. They are not modelled; only jobs made by `NewJob` are.
- `Id` (job.go:51-53) is the constant field `id`.
- `Jobs.Process.Send`: the only failure modelled is signalling a reaped program. Other refusals by the operating system are not covered.
- `Jobs.Pipe.CopyFrom`: the reader is taken to hold exactly the given bytes. Read errors from the source, and broken pipes after the program exits, are not modelled.
- `Jobs.Job.Error`: the cause argument is accepted and ignored, as in the source.
- Go's `time.Time` is a natural number here. Zero is the zero time, and only the clock's order is modelled.
- `msgbus_queue.go`, `client/client.go` and `main.go` are not part of this model. They are I/O adapters and startup code.
