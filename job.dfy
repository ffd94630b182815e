/**
 * The job of job.go: a record with a lifecycle state, a worker, an exit
 * status and five timestamps, plus runtime handles (the interactive input
 * pipe, the command, and the one-slot `done` channel). Every lifecycle
 * method updates the fields in place and then saves a snapshot.
 *
 * The package-level collaborators of the Go code are objects passed in:
 * `db` (identifier allocation and snapshot saving), the clock behind
 * time.Now, the operating-system process behind exec.Cmd, and the pipe
 * behind cmd.StdinPipe. What the environment decides (whether a pipe or a
 * stream opens, whether the program starts, how it exits) is a parameter.
 */
module Jobs {
  import opened Basics

  type ID = nat

  /** A point in time; ZERO_TIME is Go's zero time.Time, a timestamp not yet set. */
  type Time = nat
  const ZERO_TIME: Time := 0

  /** The lifecycle stage; Unscheduled is the zero value a new job starts in. */
  datatype JobState = Unscheduled | Waiting | Running | Stopped | Killed | Errored

  datatype ErrorKind = PersistenceError | StreamError | ProcessError | InvalidOperation

  /** A Go `error` result: nil (Ok) or a failure of some kind. */
  datatype Outcome = Ok | Fail(kind: ErrorKind)

  /** The persisted fields of a job, as `db.Save` stores them. */
  datatype Snapshot = Snapshot(
    id: ID, name: GoString, args: seq<GoString>, interactive: bool,
    worker: GoString, state: JobState, status: int,
    createdAt: Time, startedAt: Time, stoppedAt: Time, killedAt: Time, erroredAt: Time)

  // ---------------------------------------------------------------------------
  // Collaborators
  // ---------------------------------------------------------------------------

  /** The clock behind time.Now: it never goes back and never reads the zero time. */
  class Clock {
    var now: Time

    constructor ()
      ensures now == ZERO_TIME
    {
      now := ZERO_TIME;
    }

    method Now() returns (t: Time)
      modifies this
      ensures t == now && t >= old(now) && t != ZERO_TIME
    {
      now := now + 1;
      t := now;
    }
  }

  /** What Save returns when the store is, or is not, reachable. */
  function SaveOutcome(reachable: bool): Outcome
  {
    if reachable then Ok else Fail(PersistenceError)
  }

  /** The records after saving s: s replaces the record under its id when the store is reachable. */
  function Saved(records: map<ID, Snapshot>, reachable: bool, s: Snapshot): map<ID, Snapshot>
  {
    if reachable then records[s.id := s] else records
  }

  /** The job store behind `db`: it allocates identifiers and keeps the last snapshot saved for each. */
  class Db {
    var lastId: ID
    var records: map<ID, Snapshot>
    var reachable: bool

    constructor ()
      ensures lastId == 0 && records == map[] && reachable
    {
      lastId, records, reachable := 0, map[], true;
    }

    /** Identifiers are handed out in increasing order, so no two jobs share one. */
    method NextId() returns (id: ID)
      modifies this`lastId
      ensures lastId == old(lastId) + 1 && id == lastId
    {
      lastId := lastId + 1;
      id := lastId;
    }

    method Save(s: Snapshot) returns (err: Outcome)
      modifies this`records
      ensures err == SaveOutcome(reachable)
      ensures records == Saved(old(records), reachable, s)
    {
      if reachable {
        records := records[s.id := s];
        err := Ok;
      } else {
        err := Fail(PersistenceError);
      }
    }
  }

  /**
   * Created: exec.Command ran but the program was not started, so cmd.Process
   * is nil. Alive: started and not yet waited for. Reaped: cmd.Wait returned.
   */
  datatype Phase = Created | Alive | Reaped

  datatype Signal = SigInterrupt | SigKill

  /** An exec.Cmd together with the os.Process it starts. */
  class Process {
    const path: GoString
    const argv: seq<GoString>
    var phase: Phase
    /** The signals delivered to the running program, oldest first. */
    var signals: seq<Signal>

    constructor (path: GoString, argv: seq<GoString>)
      ensures this.path == path && this.argv == argv
      ensures phase == Created && signals == []
    {
      this.path, this.argv := path, argv;
      phase, signals := Created, [];
    }

    /** cmd.Start: the environment decides whether the program starts. */
    method Start(result: Outcome) returns (err: Outcome)
      requires phase == Created
      modifies this`phase
      ensures err == result
      ensures phase == if result == Ok then Alive else Created
    {
      err := result;
      if result == Ok {
        phase := Alive;
      }
    }

    /** Process.Signal and Process.Kill: delivered while the program runs; after Wait, "process already finished". */
    method Send(sig: Signal) returns (err: Outcome)
      requires phase != Created
      modifies this`signals
      ensures err == if phase == Alive then Ok else Fail(ProcessError)
      ensures signals == if phase == Alive then old(signals) + [sig] else old(signals)
    {
      if phase == Alive {
        signals := signals + [sig];
        err := Ok;
      } else {
        err := Fail(ProcessError);
      }
    }

    /** cmd.Wait returns once the program has exited. */
    method Wait()
      requires phase == Alive
      modifies this`phase
      ensures phase == Reaped
    {
      phase := Reaped;
    }
  }

  /**
   * The write end of the pipe cmd.StdinPipe returns. Its Close goes through
   * exec's close-once wrapper, so closing again is harmless; writing after
   * the close fails.
   */
  class Pipe {
    var open: bool
    /** The bytes passed to the program's standard input so far. */
    var sent: seq<byte>

    constructor ()
      ensures open && sent == []
    {
      open, sent := true, [];
    }

    /**
     * io.Copy into the pipe from a source holding exactly src. An empty
     * source reaches end of input before any write, so it succeeds even on
     * a closed pipe.
     */
    method CopyFrom(src: seq<byte>) returns (n: nat, err: Outcome)
      modifies this`sent
      ensures open || src == [] ==> n == |src| && err == Ok && sent == old(sent) + src
      ensures !open && src != [] ==> n == 0 && err == Fail(StreamError) && sent == old(sent)
    {
      if open || src == [] {
        sent := sent + src;
        n, err := |src|, Ok;
      } else {
        n, err := 0, Fail(StreamError);
      }
    }

    method Close() returns (err: Outcome)
      modifies this`open
      ensures !open && err == Ok
    {
      open := false;
      err := Ok;
    }
  }

  /**
   * What the environment answers to each setup step of Execute, in the
   * order job.go takes them: the stdin pipe (interactive jobs) or the stored
   * input stream (the others), the stderr and stdout pipes, the logs and
   * output streams, and the start of the program.
   */
  datatype Setup = Setup(
    stdinPipe: Outcome, inputRead: Outcome, stderrPipe: Outcome, stdoutPipe: Outcome,
    logsOpen: Outcome, outputOpen: Outcome, start: Outcome)
  {
    /** The input is wired up, so the command gets stored on the job. */
    predicate InputWired(interactive: bool)
    {
      if interactive then stdinPipe == Ok else inputRead == Ok
    }

    /** The error of the first setup step that fails, Ok when none does. */
    function FirstFailure(interactive: bool): (r: Outcome)
      ensures r == Ok <==> InputWired(interactive) && stderrPipe == Ok && stdoutPipe == Ok
                           && logsOpen == Ok && outputOpen == Ok && start == Ok
    {
      if interactive && stdinPipe != Ok then stdinPipe
      else if !interactive && inputRead != Ok then inputRead
      else if stderrPipe != Ok then stderrPipe
      else if stdoutPipe != Ok then stdoutPipe
      else if logsOpen != Ok then logsOpen
      else if outputOpen != Ok then outputOpen
      else start
    }
  }

  /** How cmd.Wait returns. */
  datatype WaitResult =
    | ExitedZero                          // nil: the program exited with code 0
    | ExitError(waitStatus: Option<int>)  // an *exec.ExitError; Some(code) when its Sys() is a syscall.WaitStatus
    | WaitError                           // any other error

  /** The exit code Execute records for a wait result, if any. */
  function RecordedStatus(wait: WaitResult, old_status: int): int
  {
    if wait.ExitError? && wait.waitStatus.Some? then wait.waitStatus.value else old_status
  }

  // ---------------------------------------------------------------------------
  // The job
  // ---------------------------------------------------------------------------

  class Job {
    const id: ID
    const name: GoString
    const args: seq<GoString>
    const interactive: bool
    const createdAt: Time
    var worker: GoString
    var state: JobState
    var status: int
    var startedAt: Time
    var stoppedAt: Time
    var killedAt: Time
    var erroredAt: Time
    /** The interactive input pipe; nil until Execute opens it. */
    var input: Pipe?
    /** The command; nil until Execute creates it. */
    var cmd: Process?
    /** The number of values buffered in the `done` channel, whose capacity is one. */
    var doneCount: nat

    /**
     * The invariant every lifecycle method keeps: the channel holds at most
     * its one value, a job has its creation time, each state that a
     * transition sets carries that transition's timestamp, only interactive
     * jobs get an input pipe, and the command runs the job's own program.
     */
    ghost predicate Valid()
      reads this
    {
      doneCount <= 1
      && createdAt != ZERO_TIME
      && (state == Running ==> startedAt != ZERO_TIME)
      && (state == Stopped ==> stoppedAt != ZERO_TIME)
      && (state == Killed ==> killedAt != ZERO_TIME)
      && (state == Errored ==> erroredAt != ZERO_TIME)
      && (input != null ==> interactive)
      && (cmd != null ==> cmd.path == name && cmd.argv == args)
    }

    /** The snapshot db.Save(j) persists. */
    function Persisted(): Snapshot
      reads this
    {
      Snapshot(id, name, args, interactive, worker, state, status,
               createdAt, startedAt, stoppedAt, killedAt, erroredAt)
    }

    constructor (id: ID, name: GoString, args: seq<GoString>, interactive: bool, createdAt: Time)
      requires createdAt != ZERO_TIME
      ensures Valid()
      ensures this.id == id && this.name == name && this.args == args
      ensures this.interactive == interactive && this.createdAt == createdAt
      ensures worker == [] && state == Unscheduled && status == 0
      ensures startedAt == ZERO_TIME && stoppedAt == ZERO_TIME && killedAt == ZERO_TIME && erroredAt == ZERO_TIME
      ensures input == null && cmd == null && doneCount == 0
    {
      this.id, this.name, this.args := id, name, args;
      this.interactive, this.createdAt := interactive, createdAt;
      worker, state, status := [], Unscheduled, 0;
      startedAt, stoppedAt, killedAt, erroredAt := ZERO_TIME, ZERO_TIME, ZERO_TIME, ZERO_TIME;
      input, cmd, doneCount := null, null, 0;
    }

    /**
     * NewJob: a fresh job with the next identifier, the current time as its
     * creation time and every other field at its zero value; the result of
     * saving it is returned beside it.
     */
    static method NewJob(name: GoString, args: seq<GoString>, interactive: bool, db: Db, clock: Clock)
      returns (job: Job, err: Outcome)
      modifies db`lastId, db`records, clock
      ensures fresh(job) && job.Valid()
      ensures db.lastId == old(db.lastId) + 1 && job.id == db.lastId
      ensures job.name == name && job.args == args && job.interactive == interactive
      ensures job.createdAt == clock.now && job.createdAt >= old(clock.now)
      ensures job.worker == [] && job.state == Unscheduled && job.status == 0
      ensures job.startedAt == ZERO_TIME && job.stoppedAt == ZERO_TIME
      ensures job.killedAt == ZERO_TIME && job.erroredAt == ZERO_TIME
      ensures job.input == null && job.cmd == null && job.doneCount == 0
      ensures err == SaveOutcome(db.reachable)
      ensures db.records == Saved(old(db.records), db.reachable, job.Persisted())
    {
      var id := db.NextId();
      var now := clock.Now();
      job := new Job(id, name, args, interactive, now);
      err := db.Save(job.Persisted());
    }

    /** Enqueue: the state becomes Waiting, whatever it was; nothing else changes. */
    method Enqueue(db: Db) returns (err: Outcome)
      requires Valid()
      modifies this`state, db`records
      ensures Valid()
      ensures state == Waiting
      ensures err == SaveOutcome(db.reachable)
      ensures db.records == Saved(old(db.records), db.reachable, Persisted())
    {
      state := Waiting;
      err := db.Save(Persisted());
    }

    /** Start: records the worker, the state Running and the start time; nothing else changes. */
    method Start(w: GoString, db: Db, clock: Clock) returns (err: Outcome)
      requires Valid()
      modifies this`worker, this`state, this`startedAt, db`records, clock
      ensures Valid()
      ensures worker == w && state == Running
      ensures startedAt == clock.now && startedAt >= old(clock.now)
      ensures err == SaveOutcome(db.reachable)
      ensures db.records == Saved(old(db.records), db.reachable, Persisted())
    {
      worker := w;
      state := Running;
      startedAt := clock.Now();
      err := db.Save(Persisted());
    }

    /**
     * Kill(true) kills the program; when that succeeds it fills the done
     * slot, sets the state Killed and the kill time, and returns the save's
     * result; when it fails it returns the error and changes nothing else.
     * Kill(false) only sends an interrupt and returns its result.
     * The Go code dereferences cmd.Process, which is nil until the program
     * has started, and its send on the full channel would block for ever:
     * both are preconditions here.
     */
    method Kill(force: bool, db: Db, clock: Clock) returns (err: Outcome)
      requires Valid()
      requires cmd != null && cmd.phase != Created
      requires force && cmd.phase == Alive ==> doneCount == 0
      modifies this`doneCount, this`state, this`killedAt, cmd`signals, db`records, clock
      ensures Valid()
      ensures cmd.signals == if cmd.phase == Alive
                             then old(cmd.signals) + [if force then SigKill else SigInterrupt]
                             else old(cmd.signals)
      ensures cmd.phase != Alive ==> err == Fail(ProcessError)
      ensures force && cmd.phase == Alive ==>
                doneCount == 1 && state == Killed
                && killedAt == clock.now && killedAt >= old(clock.now)
                && err == SaveOutcome(db.reachable)
                && db.records == Saved(old(db.records), db.reachable, Persisted())
      ensures !force && cmd.phase == Alive ==> err == Ok
      ensures !(force && cmd.phase == Alive) ==>
                doneCount == old(doneCount) && state == old(state) && killedAt == old(killedAt)
                && db.records == old(db.records) && clock.now == old(clock.now)
    {
      if force {
        err := cmd.Send(SigKill);
        if err != Ok {
          return;
        }
        doneCount := doneCount + 1;
        state := Killed;
        killedAt := clock.Now();
        err := db.Save(Persisted());
        return;
      }
      err := cmd.Send(SigInterrupt);
    }

    /**
     * Stop: fills the done slot, sets the state Stopped and the stop time;
     * nothing else changes. The send needs the slot to be empty.
     */
    method Stop(db: Db, clock: Clock) returns (err: Outcome)
      requires Valid()
      requires doneCount == 0
      modifies this`doneCount, this`state, this`stoppedAt, db`records, clock
      ensures Valid()
      ensures doneCount == 1 && state == Stopped
      ensures stoppedAt == clock.now && stoppedAt >= old(clock.now)
      ensures err == SaveOutcome(db.reachable)
      ensures db.records == Saved(old(db.records), db.reachable, Persisted())
    {
      doneCount := doneCount + 1;
      state := Stopped;
      stoppedAt := clock.Now();
      err := db.Save(Persisted());
    }

    /**
     * Error: sets the state Errored and the error time from any state; the
     * status, the other timestamps and the done slot stay as they are. The
     * cause is not recorded.
     */
    method Error(cause: ErrorKind, db: Db, clock: Clock) returns (err: Outcome)
      requires Valid()
      modifies this`state, this`erroredAt, db`records, clock
      ensures Valid()
      ensures state == Errored
      ensures erroredAt == clock.now && erroredAt >= old(clock.now)
      ensures err == SaveOutcome(db.reachable)
      ensures db.records == Saved(old(db.records), db.reachable, Persisted())
    {
      state := Errored;
      erroredAt := clock.Now();
      err := db.Save(Persisted());
    }

    /**
     * Wait, as a check of the done slot: when it holds a value, the value is
     * taken and the waiter wakes; when it is empty, the Go receive would
     * block, which is reported as not woken.
     */
    method Wait() returns (woken: bool)
      requires Valid()
      modifies this`doneCount
      ensures Valid()
      ensures woken == (old(doneCount) == 1)
      ensures doneCount == 0
    {
      woken := doneCount == 1;
      doneCount := 0;
    }

    /**
     * Close: an error for a non-interactive job; otherwise closes the input
     * pipe (job.go dereferences it, so it must have been opened by Execute).
     */
    method Close() returns (err: Outcome)
      requires Valid()
      requires interactive ==> input != null
      modifies input
      ensures !interactive ==> err == Fail(InvalidOperation) && input == null
      ensures Valid()
      ensures interactive ==> err == Ok && !input.open && input.sent == old(input.sent)
    {
      if !interactive {
        return Fail(InvalidOperation);
      }
      err := input.Close();
    }

    /**
     * Write: an error and no bytes for a non-interactive job; otherwise the
     * bytes are copied into the input pipe, or the copy of a non-empty source
     * fails when the pipe has been closed. io.Copy reads an empty source before it ever writes,
     * so an empty write succeeds even before Execute has opened the pipe;
     * a non-empty one then dereferences the nil pipe.
     */
    method Write(src: seq<byte>) returns (n: nat, err: Outcome)
      requires Valid()
      requires interactive && |src| > 0 ==> input != null
      modifies input
      ensures Valid()
      ensures !interactive ==> n == 0 && err == Fail(InvalidOperation) && input == null
      ensures interactive && input == null ==> n == 0 && err == Ok
      ensures interactive && input != null ==> input.open == old(input.open)
      ensures interactive && input != null && (input.open || src == []) ==>
                n == |src| && err == Ok && input.sent == old(input.sent) + src
      ensures interactive && input != null && !input.open && src != [] ==>
                n == 0 && err == Fail(StreamError) && input.sent == old(input.sent)
    {
      if !interactive {
        return 0, Fail(InvalidOperation);
      }
      if input == null {
        return 0, Ok;
      }
      n, err := input.CopyFrom(src);
    }

    /**
     * The part of Execute before it blocks in cmd.Wait: wire the input, store
     * the command, open the output pipes and streams, start the program.
     * The first failing step's error is returned and the program is then not
     * started; the deferred close of the interactive pipe runs on those
     * returns.
     */
    method Launch(setup: Setup) returns (err: Outcome)
      requires Valid()
      modifies this`input, this`cmd
      ensures Valid()
      ensures err == setup.FirstFailure(interactive)
      ensures interactive && setup.stdinPipe == Ok ==>
                fresh(input) && input.open == (err == Ok) && input.sent == []
      ensures !(interactive && setup.stdinPipe == Ok) ==> input == old(input)
      ensures setup.InputWired(interactive) ==>
                fresh(cmd) && cmd.signals == [] && cmd.phase == (if err == Ok then Alive else Created)
      ensures !setup.InputWired(interactive) ==> cmd == old(cmd)
    {
      if interactive {
        if setup.stdinPipe != Ok {
          return setup.stdinPipe;
        }
        input := new Pipe();
      } else {
        if setup.inputRead != Ok {
          return setup.inputRead;
        }
      }
      var c := new Process(name, args);
      cmd := c;
      if setup.stderrPipe != Ok {
        err := setup.stderrPipe;
      } else if setup.stdoutPipe != Ok {
        err := setup.stdoutPipe;
      } else if setup.logsOpen != Ok {
        err := setup.logsOpen;
      } else if setup.outputOpen != Ok {
        err := setup.outputOpen;
      } else {
        err := c.Start(setup.start);
      }
      if err != Ok && interactive {
        var closed := input.Close();
      }
    }

    /**
     * The part of Execute from cmd.Wait on: the program is reaped, the exit
     * code is recorded only when Wait reports an exit error carrying a wait
     * status, and the input pipe ends up closed.
     */
    method Reap(wait: WaitResult)
      requires Valid()
      requires cmd != null && cmd.phase == Alive
      modifies this`status, cmd`phase, input
      ensures Valid()
      ensures cmd.phase == Reaped
      ensures status == RecordedStatus(wait, old(status))
      ensures input != null ==> !input.open && input.sent == old(input.sent)
    {
      cmd.Wait();
      if wait.ExitError? && wait.waitStatus.Some? {
        status := wait.waitStatus.value;
      }
      if input != null {
        var closed := input.Close();
      }
    }

    /**
     * Execute: returns the first setup failure, before the program starts;
     * otherwise runs the program to its exit and returns Ok whatever the
     * exit code, having recorded a non-zero one in the status.
     */
    method Execute(setup: Setup, wait: WaitResult) returns (err: Outcome)
      requires Valid()
      modifies this`input, this`cmd, this`status
      ensures Valid()
      ensures err == setup.FirstFailure(interactive)
      ensures status == if err == Ok then RecordedStatus(wait, old(status)) else old(status)
      ensures interactive && setup.stdinPipe == Ok ==> fresh(input) && !input.open && input.sent == []
      ensures !(interactive && setup.stdinPipe == Ok) ==> input == old(input)
      ensures setup.InputWired(interactive) ==>
                fresh(cmd) && cmd.signals == [] && cmd.phase == (if err == Ok then Reaped else Created)
      ensures !setup.InputWired(interactive) ==> cmd == old(cmd)
    {
      err := Launch(setup);
      if err == Ok {
        Reap(wait);
      }
    }
  }

  // ---------------------------------------------------------------------------
  // Callers driving a job through its lifecycle
  // ---------------------------------------------------------------------------

  /**
   * A non-interactive job driven as its caller is meant to: created,
   * enqueued, started, executed, stopped, then awaited. The timestamps come
   * out in order, the recorded status is the program's exit code, and the
   * waiter wakes.
   */
  method RunToStop(name: GoString, args: seq<GoString>, w: GoString, setup: Setup, wait: WaitResult, db: Db, clock: Clock)
    returns (job: Job, woken: bool)
    requires db.reachable
    requires setup.FirstFailure(false) == Ok
    modifies db`lastId, db`records, clock
    ensures fresh(job) && job.Valid()
    ensures job.state == Stopped && job.worker == w && woken && job.doneCount == 0
    ensures job.status == RecordedStatus(wait, 0)
    ensures job.createdAt <= job.startedAt <= job.stoppedAt
    ensures job.killedAt == ZERO_TIME && job.erroredAt == ZERO_TIME
    ensures job.cmd != null && job.cmd.phase == Reaped && job.cmd.signals == []
    ensures job.id in db.records && db.records[job.id] == job.Persisted()
  {
    var err;
    job, err := Job.NewJob(name, args, false, db, clock);
    err := job.Enqueue(db);
    err := job.Start(w, db, clock);
    err := job.Execute(setup, wait);
    err := job.Stop(db, clock);
    woken := job.Wait();
  }

  /**
   * An interactive job fed while its program runs: what is written before
   * Close reaches the program's input; a write after Close fails and adds
   * nothing.
   */
  method FeedInteractive(job: Job, data: seq<byte>, setup: Setup, wait: WaitResult)
    returns (first: Outcome, second: Outcome)
    requires job.Valid() && job.interactive
    requires setup.FirstFailure(true) == Ok
    modifies job
    ensures job.Valid()
    ensures first == Ok && second == Fail(StreamError)
    ensures job.input != null && job.input.sent == data && !job.input.open
  {
    var err := job.Launch(setup);
    var n;
    n, first := job.Write(data);
    err := job.Close();
    n, second := job.Write([0x78]);
    job.Reap(wait);
  }

  /**
   * A running job asked to stop with an interrupt and then killed: both
   * signals reach the program in that order, the job ends Killed with its
   * kill time set, and a waiter wakes.
   */
  method InterruptThenKill(job: Job, setup: Setup, wait: WaitResult, db: Db, clock: Clock)
    returns (woken: bool)
    requires job.Valid() && job.state == Running && job.doneCount == 0
    requires setup.FirstFailure(job.interactive) == Ok
    modifies job, db`records, clock
    ensures job.Valid()
    ensures job.state == Killed && job.killedAt != ZERO_TIME && woken
    ensures job.cmd != null && job.cmd.signals == [SigInterrupt, SigKill] && job.cmd.phase == Reaped
  {
    var err := job.Launch(setup);
    err := job.Kill(false, db, clock);
    err := job.Kill(true, db, clock);
    job.Reap(wait);
    woken := job.Wait();
  }
}
