/** The program's entry point and its two worker loops, run one after the other. The threads that
    run them side by side are not modelled: each loop stops when the exit flag is seen, and the
    point at which another thread raises that flag is an input. */
module Core {
  import opened Wrappers
  import opened Frames
  import opened Selection
  import opened Config
  import opened Acquisition
  import Cameras

  // ----- The grab worker -----

  /** The trigger stamp that round k of the grab worker pops: none with an external trigger,
      otherwise the k-th stamp of the queue it started from. */
  function RoundStamp(g: GrabSetup, queue: seq<string>, k: nat): string
    requires g.externalTrigger || k < |queue|
  {
    if g.externalTrigger then "" else queue[k]
  }

  /** Whether every round's results come from cameras of the array. */
  predicate RoundsInRange(rounds: seq<seq<Retrieval>>, n: nat) {
    forall k :: 0 <= k < |rounds| ==> ContextsInRange(rounds[k], n)
  }

  /** The pairs one acquisition step pushes: its pair, or none when it fails. */
  function Pushed(r: Result<Pair, GrabError>): seq<Pair> {
    match r
    case Ok(p) => [p]
    case Err(_) => []
  }

  /** The pairs the grab worker pushes over `rounds`, in order: one for each round whose step
      succeeds, none for a round whose step fails. */
  function Emitted(g: GrabSetup, rounds: seq<seq<Retrieval>>, queue: seq<string>, clock: nat -> string): seq<Pair>
    requires ValidSetup(g) && RoundsInRange(rounds, g.n)
    requires g.externalTrigger || |rounds| <= |queue|
    decreases |rounds|
  {
    if rounds == [] then []
    else
      var k := |rounds| - 1;
      Emitted(g, rounds[..k], queue, clock) + Pushed(Grab(g, rounds[k], RoundStamp(g, queue, k), clock))
  }

  /** The rounds up to k + 1 push what the rounds up to k push, then what round k pushes. */
  lemma EmittedStep(g: GrabSetup, rounds: seq<seq<Retrieval>>, queue: seq<string>, clock: nat -> string, k: nat)
    requires ValidSetup(g) && RoundsInRange(rounds, g.n) && k < |rounds|
    requires g.externalTrigger || |rounds| <= |queue|
    ensures RoundsInRange(rounds[..k], g.n) && RoundsInRange(rounds[..k + 1], g.n)
    ensures Emitted(g, rounds[..k + 1], queue, clock)
         == Emitted(g, rounds[..k], queue, clock) + Pushed(Grab(g, rounds[k], RoundStamp(g, queue, k), clock))
  {
    assert rounds[..k + 1][..k] == rounds[..k];
  }

  /** The worker pushes at most one pair per round, and one for every round exactly when every
      round's step succeeds. */
  lemma {:induction false} EmittedOnePerSucceedingRound(g: GrabSetup, rounds: seq<seq<Retrieval>>, queue: seq<string>, clock: nat -> string)
    requires ValidSetup(g) && RoundsInRange(rounds, g.n)
    requires g.externalTrigger || |rounds| <= |queue|
    ensures |Emitted(g, rounds, queue, clock)| <= |rounds|
    ensures |Emitted(g, rounds, queue, clock)| == |rounds| <==>
      forall k :: 0 <= k < |rounds| ==> Grab(g, rounds[k], RoundStamp(g, queue, k), clock).Ok?
    decreases |rounds|
  {
    if rounds != [] {
      var k := |rounds| - 1;
      var front := rounds[..k];
      assert RoundsInRange(front, g.n) by {
        forall j | 0 <= j < |front| ensures ContextsInRange(front[j], g.n) {
          assert front[j] == rounds[j];
        }
      }
      EmittedOnePerSucceedingRound(g, front, queue, clock);
      if forall j :: 0 <= j < |rounds| ==> Grab(g, rounds[j], RoundStamp(g, queue, j), clock).Ok? {
        assert forall j :: 0 <= j < |front| ==> Grab(g, front[j], RoundStamp(g, queue, j), clock).Ok? by {
          forall j | 0 <= j < |front| ensures Grab(g, front[j], RoundStamp(g, queue, j), clock).Ok? {
            assert front[j] == rounds[j];
          }
        }
      } else {
        var j :| 0 <= j < |rounds| && !Grab(g, rounds[j], RoundStamp(g, queue, j), clock).Ok?;
        if j < k {
          assert front[j] == rounds[j];
        }
      }
    }
  }

  /** Round k of the grab worker: one acquisition step, which pushes what `Emitted` adds for
      round k and pops round k's stamp. */
  method GrabRound(cams: Cameras.Cameras, rounds: seq<seq<Retrieval>>, clock: nat -> string, k: nat,
                   ghost g: GrabSetup, ghost queue: seq<string>, ghost base: seq<Pair>)
    requires cams.Valid() && cams.Setup() == g && RoundsInRange(rounds, g.n) && k < |rounds|
    requires g.externalTrigger || |rounds| <= |queue|
    requires cams.triggerQueue == if g.externalTrigger then queue else queue[k..]
    requires cams.imgDisplayQueue == base + Emitted(g, rounds[..k], queue, clock)
    modifies cams`triggerQueue, cams`imgDisplayQueue
    ensures cams.triggerQueue == if g.externalTrigger then queue else queue[k + 1..]
    ensures cams.imgDisplayQueue == base + Emitted(g, rounds[..k + 1], queue, clock)
  {
    var _ := cams.GrabImages(rounds[k], clock);
    assert cams.imgDisplayQueue == old(cams.imgDisplayQueue) + Pushed(Grab(g, rounds[k], RoundStamp(g, queue, k), clock));
    EmittedStep(g, rounds, queue, clock, k);
  }

  /** `GrabImages(Cameras*)`: runs acquisition steps until it sees the exit flag. Round k
      delivers `rounds[k]`; the flag is raised by another thread once the last round is done, or
      was raised before the worker started, in which case it runs no round. */
  method GrabWorker(cams: Cameras.Cameras, rounds: seq<seq<Retrieval>>, clock: nat -> string)
    requires cams.Valid() && RoundsInRange(rounds, |cams.serials|)
    requires !cams.useExternalTrigger ==> |rounds| <= |cams.triggerQueue|
    modifies cams`triggerQueue, cams`imgDisplayQueue, cams`exitProgram
    ensures cams.exitProgram
    ensures var done := if old(cams.exitProgram) then [] else rounds;
      && cams.imgDisplayQueue == old(cams.imgDisplayQueue) + Emitted(cams.Setup(), done, old(cams.triggerQueue), clock)
      && cams.triggerQueue == if cams.useExternalTrigger then old(cams.triggerQueue) else old(cams.triggerQueue)[|done|..]
  {
    ghost var g := cams.Setup();
    ghost var queue := cams.triggerQueue;
    var k := 0;
    while !cams.GetExitStatus()
      invariant k <= |rounds|
      invariant cams.Setup() == g
      invariant old(cams.exitProgram) ==> k == 0 && cams.exitProgram
      invariant cams.exitProgram ==> old(cams.exitProgram) || k == |rounds|
      invariant cams.imgDisplayQueue == old(cams.imgDisplayQueue) + Emitted(g, rounds[..k], queue, clock)
      invariant cams.triggerQueue == if g.externalTrigger then queue else queue[k..]
      decreases |rounds| - k, if cams.exitProgram then 0 else 1
    {
      if k == |rounds| {
        // The display thread raises the flag.
        cams.exitProgram := true;
      } else {
        GrabRound(cams, rounds, clock, k, g, queue, old(cams.imgDisplayQueue));
        k := k + 1;
      }
    }
    assert rounds[..k] == if old(cams.exitProgram) then [] else rounds;
  }

  // ----- The store worker -----

  /** `StoreImages(Cameras*)`: pops pairs from the storage queue until it sees the exit flag,
      then pops until the queue is empty. The flag is raised by another thread after
      `popsBeforeExit` pops, or was raised before the worker started. The pairs popped, in
      order, are the queue's contents, and the queue ends empty. */
  method StoreWorker(cams: Cameras.Cameras, popsBeforeExit: nat) returns (stored: seq<Pair>)
    requires popsBeforeExit <= |cams.imgStorageQueue|
    modifies cams`imgStorageQueue, cams`exitProgram
    ensures stored == old(cams.imgStorageQueue) && cams.imgStorageQueue == [] && cams.exitProgram
  {
    stored := [];
    while !cams.GetExitStatus()
      invariant |stored| <= popsBeforeExit <= |old(cams.imgStorageQueue)|
      invariant stored + cams.imgStorageQueue == old(cams.imgStorageQueue)
      decreases popsBeforeExit - |stored|, if cams.exitProgram then 0 else 1
    {
      if |stored| == popsBeforeExit {
        // The display thread raises the flag.
        cams.exitProgram := true;
      } else {
        var p := cams.StoreImages();
        stored := stored + [p];
      }
    }
    while !cams.ImgQueueEmpty()
      invariant stored + cams.imgStorageQueue == old(cams.imgStorageQueue)
      invariant cams.exitProgram
      decreases |cams.imgStorageQueue|
    {
      var p := cams.StoreImages();
      stored := stored + [p];
    }
  }

  // ----- main -----

  const DirectoryError := "The directory could not be determined."

  /** The data directory `main` sets. */
  const DataPath := "/media/scanvan/Windows/Users/marcelo.kaihara.HEVS/Documents/img/"

  /** `GetCurrentWorkingDir()`: the directory `getcwd` reports, or the error it throws when
      `getcwd` fails. */
  function CurrentWorkingDir(getcwd: Option<string>): (r: Result<string, string>)
    ensures r.Ok? <==> getcwd.Some?
    ensures r.Ok? ==> r.value == getcwd.value
    ensures r.Err? ==> r.error == DirectoryError
  {
    match getcwd
    case None => Err(DirectoryError)
    case Some(dir) => Ok(dir)
  }

  /** The configuration directory below the working directory. */
  function ConfigDirectory(cwd: string): (p: string)
    ensures |p| == |cwd| + 8 && p[..|cwd|] == cwd && p[|cwd|..] == "/config/"
  {
    cwd + "/" + "config/"
  }

  /** How the process ends: `std::terminate` for an exception outside the `try`, the exit code
      `main` returns, or not at all, when `main` waits forever for a thread that cannot end. */
  datatype Outcome = Terminated | Exited(code: int) | NeverReturns

  /** The grab thread of `main` as written, over its first `rounds`: nothing in an acquisition
      step touches the exit flag, so after any number of rounds the loop goes on. */
  method GrabWorkerUnstopped(cams: Cameras.Cameras, rounds: seq<seq<Retrieval>>, clock: nat -> string)
    requires cams.Valid() && RoundsInRange(rounds, |cams.serials|) && !cams.exitProgram
    requires !cams.useExternalTrigger ==> |rounds| <= |cams.triggerQueue|
    modifies cams`triggerQueue, cams`imgDisplayQueue
    ensures !cams.GetExitStatus()
    ensures cams.imgDisplayQueue == old(cams.imgDisplayQueue) + Emitted(cams.Setup(), rounds, old(cams.triggerQueue), clock)
    ensures cams.triggerQueue == if cams.useExternalTrigger then old(cams.triggerQueue) else old(cams.triggerQueue)[|rounds|..]
  {
    ghost var g := cams.Setup();
    ghost var queue := cams.triggerQueue;
    var k := 0;
    while k < |rounds|
      invariant k <= |rounds|
      invariant cams.Setup() == g && !cams.GetExitStatus()
      invariant cams.imgDisplayQueue == old(cams.imgDisplayQueue) + Emitted(g, rounds[..k], queue, clock)
      invariant cams.triggerQueue == if g.externalTrigger then queue else queue[k..]
    {
      GrabRound(cams, rounds, clock, k, g, queue, old(cams.imgDisplayQueue));
      k := k + 1;
    }
    assert rounds[..k] == rounds;
  }

  /** The start of `main`'s `try` block: constructs the cameras with the default configuration
      directory and, when that succeeds, sets the data directory. The result is the message
      construction throws, if any, and otherwise an object whose cameras the grab thread can
      drive, with empty queues and the exit flag down. */
  method Construct(env: Cameras.Environment, useExternalTrigger: bool, useChunkFeatures: bool)
    returns (cams: Cameras.Cameras, err: Option<string>)
    ensures fresh(cams)
    ensures err == Cameras.ConstructionError(env, Cameras.DefaultConfigPath, useChunkFeatures, Cameras.DefaultSettings)
    ensures err == None ==>
      && env.devices != [] && cams.Valid() && |cams.serials| == |Usable(env.devices)|
      && cams.useExternalTrigger == useExternalTrigger
      && cams.triggerQueue == [] && cams.imgStorageQueue == [] && !cams.exitProgram
  {
    cams := new Cameras.Cameras.Default(useExternalTrigger, useChunkFeatures);
    assert cams.configPath == Cameras.DefaultConfigPath && cams.settings == Cameras.DefaultSettings;
    err := cams.Start(env);
    if err == None {
      cams.SetDataPath(DataPath);
    }
  }

  /** `main` as written: determines the working directory outside the `try`, then constructs
      the cameras with the default configuration directory, sets the data directory, starts the
      grab and the store threads and joins them. An exception from construction is caught and
      gives exit code 1. After successful construction neither thread can end: only
      `DisplayImages` and `DemoLoadImages` raise the exit flag (src/Cameras.cpp:508, 535), and
      `main` runs neither; the store thread's
      first pop waits on an empty storage queue, and in software trigger mode the grab thread's
      first pop waits on an empty trigger queue, since no thread issues action commands. So
      `main` never returns 0. `rounds` is what the retrievals of the grab thread's first rounds
      deliver with an external trigger. The configuration directory computed from the working
      directory is not used. */
  method Run(getcwd: Option<string>, env: Cameras.Environment, useExternalTrigger: bool, useChunkFeatures: bool,
             rounds: seq<seq<Retrieval>>, clock: nat -> string)
    returns (outcome: Outcome)
    requires env.devices != [] ==> RoundsInRange(rounds, |Usable(env.devices)|)
    ensures getcwd.None? <==> outcome == Terminated
    ensures getcwd.Some? ==>
      (outcome == Exited(1) <==> Cameras.ConstructionError(env, Cameras.DefaultConfigPath, useChunkFeatures, Cameras.DefaultSettings).Some?)
    ensures getcwd.Some? ==>
      (outcome == NeverReturns <==> Cameras.ConstructionError(env, Cameras.DefaultConfigPath, useChunkFeatures, Cameras.DefaultSettings) == None)
    ensures outcome != Exited(0)
  {
    var cwd := CurrentWorkingDir(getcwd);
    if cwd.Err? {
      return Terminated;
    }
    var configPath := ConfigDirectory(cwd.value);
    var cams, err := Construct(env, useExternalTrigger, useChunkFeatures);
    if err.Some? {
      return Exited(1);
    }
    if useExternalTrigger {
      GrabWorkerUnstopped(cams, rounds, clock);
    } else {
      // The grab thread's first pop waits here.
      assert cams.triggerQueue == [];
    }
    // The store thread's first pop waits here, and both keep waiting.
    assert !cams.GetExitStatus() && cams.imgStorageQueue == [];
    outcome := NeverReturns;
  }

  /** The stamps of the action commands issued at the readings `times`. */
  function Stamps(times: seq<TimeVal>): (r: seq<string>)
    ensures |r| == |times|
  {
    seq(|times|, i requires 0 <= i < |times| => StampTime(times[i]))
  }

  /** The trigger thread of the corrected `main` in software trigger mode: one action command
      per reading of `times`, each returning normally. */
  method IssueTriggers(cams: Cameras.Cameras, times: seq<TimeVal>)
    modifies cams`triggerQueue
    ensures cams.triggerQueue == old(cams.triggerQueue) + Stamps(times)
  {
    for i := 0 to |times|
      invariant cams.triggerQueue == old(cams.triggerQueue) + Stamps(times[..i])
    {
      cams.IssueActionCommand(times[i], true);
      assert Stamps(times[..i + 1]) == Stamps(times[..i]) + [StampTime(times[i])];
    }
    assert times[..|times|] == times;
  }

  /** `main` with the threads the program's design runs side by side: in software trigger mode a
      trigger thread issues one action command per round, the grab thread runs `rounds`, the
      display thread raises the exit flag once the last round is shown, and the store thread
      drains the storage queue. In this one schedule (every action command is sent, there is one
      trigger per round and the flag is raised right after the last round) both joins return,
      and `main` returns 0 after successful construction and 1 after a failed one. Other
      schedules are not covered, among them a grab thread still waiting on the trigger queue
      after the trigger thread has stopped. */
  method RunWithDisplay(getcwd: Option<string>, env: Cameras.Environment, useExternalTrigger: bool, useChunkFeatures: bool,
                        rounds: seq<seq<Retrieval>>, clock: nat -> string, triggers: seq<TimeVal>)
    returns (outcome: Outcome)
    requires env.devices != [] ==> RoundsInRange(rounds, |Usable(env.devices)|)
    requires useExternalTrigger || |triggers| == |rounds|
    ensures getcwd.None? <==> outcome == Terminated
    ensures getcwd.Some? ==>
      (outcome == Exited(1) <==> Cameras.ConstructionError(env, Cameras.DefaultConfigPath, useChunkFeatures, Cameras.DefaultSettings).Some?)
    ensures getcwd.Some? ==>
      (outcome == Exited(0) <==> Cameras.ConstructionError(env, Cameras.DefaultConfigPath, useChunkFeatures, Cameras.DefaultSettings) == None)
  {
    var cwd := CurrentWorkingDir(getcwd);
    if cwd.Err? {
      return Terminated;
    }
    var cams, err := Construct(env, useExternalTrigger, useChunkFeatures);
    if err.Some? {
      return Exited(1);
    }
    if !useExternalTrigger {
      IssueTriggers(cams, triggers);
    }
    GrabWorker(cams, rounds, clock);
    var _ := StoreWorker(cams, 0);
    outcome := Exited(0);
  }
}
