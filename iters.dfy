/**
 * The live-migration controller of the source host (`client/iters.py`).
 *
 * The controller drives its collaborators (the filesystem driver, the image
 * manager, the CRIU service, the peer's RPC proxy and the statistics sink)
 * through a fixed sequence of calls. The model records each collaborator call
 * as an `Event` in the controller's `trace`; whether a call raises is decided by
 * the oracle `Env.raises`, which sees the calls made before it. A run of calls
 * is described by a script of `Step`s, and `RunSteps` is the reference meaning
 * of a script: the calls are made in order until the first one raises.
 */
module Iters {
  import opened Wrappers
  import DockerWorker

  /** The only migration mode handled by this controller. */
  const LiveMode := "live"

  /** The errno value CRIU reports when the CPU-info dump is not supported (ENOTSUP on Linux). */
  const ENOTSUP := 95

  /** `start_live_migration` leaves the pre-dump loop once the counter exceeds this. */
  const MaxPreDumpIters := 5
  /** The value `iter_count` starts from. */
  const FirstIter: nat := 0

  /** One call into a collaborator, with the arguments that matter to the protocol. */
  datatype Event =
    | FsCreate(paths: seq<string>) | ImgCreate | RpcSetup(ctId: string, mode: string)
    | FsSetOptions | ImgSetOptions | CriuSetOptions | RpcSetOptions
    | ImgWorkDir | FsSetWorkDir
    | CriuCpuinfoDump | ImgSendCpuinfo | RpcCheckCpuinfo
    | StatsLive | CriuMemoryTracking(enabled: bool)
    | StatsStart | FsStartMigration | StatsPreliminary
    | RpcStartIter(flag: bool) | ImgNewImageDir | WorkerPreDump
    | ImgSyncImages(intermediate: bool) | FsMntDiffSync | RpcEndIter
    | WorkerFinalDump
    | FsStopMigration | RpcRestoreFromImages(ctId: string, ckDir: string)
    | WorkerMigrationFail
    | CriuGetDstats | StatsIteration | WorkerMigrationComplete | StatsStop
    | CriuClose | ImgClose

  /** What the controller raises. */
  datatype Error =
    | CallFailed(call: Event)            // a collaborator call raised
    | WorkerFailed(cause: DockerWorker.Error)
    | NoFsDriver                         // "No fs driver found!"
    | CpuinfoDumpFailed                  // "Can't dump cpuinfo"
    | CpusMismatch                       // "CPUs mismatch"
    | DirtyTrackingFailed                // the bare exception of the dirty-tracking probe
    | UnboundName(name: string)          // a NameError
    | MissingAttribute(name: string)     // an AttributeError

  /** The reply of CRIU to a request: `success` and the optional `cr_errno` field. */
  datatype CriuResponse = CriuResponse(success: bool, crErrno: Option<int>)

  /** The `pre_dump` option: `None` asks for auto-detection, otherwise an explicit choice. */
  datatype PreDumpMode = AutoDetect | Explicit(enabled: bool)

  /** The keys `set_options` reads. */
  datatype Options = Options(force: bool, skipCpuCheck: bool, skipCriuCheck: bool, preDump: PreDumpMode, targetHost: string)

  /**
   * What the collaborators answer. `raises(h, e)` says whether call `e` raises when the
   * calls `h` came before it; `fsDriver(paths)` whether a filesystem driver is built for
   * `paths`; `imgPresent` and `criuPresent` whether the image manager and the CRIU
   * connection are truthy; `cpuinfo` is CRIU's reply to the CPU-info dump and `cpusMatch`
   * the peer's answer to `check_cpuinfo`.
   */
  datatype Env = Env(
    raises: (seq<Event>, Event) -> bool,
    fsDriver: seq<string> -> bool,
    imgPresent: bool,
    criuPresent: bool,
    cpuinfo: CriuResponse,
    cpusMatch: bool)

  /** The worker's `migration_fail` and `migration_complete` are empty and never raise. */
  predicate CanRaise(e: Event) {
    e != WorkerMigrationFail && e != WorkerMigrationComplete
  }

  predicate Raises(env: Env, h: seq<Event>, e: Event) {
    CanRaise(e) && env.raises(h, e)
  }

  /** `is_live_mode`. */
  function IsLiveMode(mode: string): (r: bool)
    ensures r <==> mode == LiveMode
  {
    mode == "live"
  }

  // ---------------------------------------------------------------------------
  // Scripts of calls and their reference meaning

  /** One step of a script: a collaborator call, or a check that raises `err` unless `ok`. */
  datatype Step = Do(e: Event) | Require(ok: bool, err: Error)

  /** The calls made so far and the error the script stopped on, if any. */
  datatype Run = Run(trace: seq<Event>, failure: Option<Error>)

  /** The error an outcome reports, if any. */
  function Failure(r: Outcome<Error>): Option<Error> {
    if r.Fail? then Some(r.error) else None
  }

  /** The script that makes the calls `es`. */
  function DoAll(es: seq<Event>): seq<Step> {
    seq(|es|, i requires 0 <= i < |es| => Do(es[i]))
  }

  /** The calls a script makes when none of them raises. */
  function Calls(steps: seq<Step>): (r: seq<Event>)
    ensures |r| <= |steps|
  {
    if steps == [] then []
    else (if steps[0].Do? then [steps[0].e] else []) + Calls(steps[1..])
  }

  /** Runs `steps` after the calls `h`, stopping at the first call that raises or check that fails. */
  function RunSteps(env: Env, h: seq<Event>, steps: seq<Step>): Run
    decreases |steps|
  {
    if steps == [] then Run(h, None)
    else match steps[0]
      case Do(e) =>
        if Raises(env, h, e) then Run(h + [e], Some(CallFailed(e))) else RunSteps(env, h + [e], steps[1..])
      case Require(ok, err) =>
        if ok then RunSteps(env, h, steps[1..]) else Run(h, Some(err))
  }

  lemma {:induction false} CallsAppend(a: seq<Step>, b: seq<Step>)
    ensures Calls(a + b) == Calls(a) + Calls(b)
    decreases |a|
  {
    if a == [] {
      assert a + b == b;
    } else {
      assert (a + b)[0] == a[0] && (a + b)[1..] == a[1..] + b;
      CallsAppend(a[1..], b);
      assert Calls(a + b) == (if a[0].Do? then [a[0].e] else []) + (Calls(a[1..]) + Calls(b));
    }
  }

  /** Running `a + b` is running `a`, then `b` unless `a` stopped. */
  lemma {:induction false} RunStepsAppend(env: Env, h: seq<Event>, a: seq<Step>, b: seq<Step>)
    ensures RunSteps(env, h, a + b) ==
      (var ra := RunSteps(env, h, a); if ra.failure.Some? then ra else RunSteps(env, ra.trace, b))
    decreases |a|
  {
    if a == [] {
      assert a + b == b;
    } else {
      assert (a + b)[0] == a[0] && (a + b)[1..] == a[1..] + b;
      match a[0]
      case Do(e) => RunStepsAppend(env, h + [e], a[1..], b);
      case Require(ok, err) => RunStepsAppend(env, h, a[1..], b);
    }
  }

  /**
   * A run only appends calls, and what it appends is a prefix of the script's calls: all of
   * them when nothing stopped it.
   */
  lemma {:induction false} RunStepsShape(env: Env, h: seq<Event>, steps: seq<Step>)
    ensures var r := RunSteps(env, h, steps);
      |h| <= |r.trace| <= |h| + |Calls(steps)| &&
      r.trace == h + Calls(steps)[..|r.trace| - |h|] &&
      (r.failure.None? ==> r.trace == h + Calls(steps))
    decreases |steps|
  {
    if steps != [] {
      var rest := Calls(steps[1..]);
      match steps[0]
      case Do(e) =>
        assert Calls(steps) == [e] + rest;
        if Raises(env, h, e) {
          assert ([e] + rest)[..1] == [e];
        } else {
          RunStepsShape(env, h + [e], steps[1..]);
          var t := RunSteps(env, h + [e], steps[1..]).trace;
          assert ([e] + rest)[..|t| - |h|] == [e] + rest[..|t| - |h| - 1];
        }
      case Require(ok, err) =>
        assert Calls(steps) == rest;
        if ok {
          RunStepsShape(env, h, steps[1..]);
        } else {
          assert rest[..0] == [];
        }
    }
  }

  // ---------------------------------------------------------------------------
  // The scripts of `start_live_migration`

  /** `__validate_cpu` returns at once when either option is set. */
  predicate ChecksCpu(force: bool, skipCpuCheck: bool) {
    !skipCpuCheck && !force
  }

  /** CRIU reports that it cannot dump the CPU info: the check is given up and `force` is set. */
  predicate CpuinfoUnsupported(resp: CriuResponse) {
    resp.crErrno == Some(ENOTSUP)
  }

  /** The steps of `__validate_cpu`. */
  function CpuSteps(env: Env, force: bool, skipCpuCheck: bool): seq<Step> {
    if !ChecksCpu(force, skipCpuCheck) then []
    else if CpuinfoUnsupported(env.cpuinfo) then [Do(CriuCpuinfoDump)]
    else if !env.cpuinfo.success then [Do(CriuCpuinfoDump), Require(false, CpuinfoDumpFailed)]
    else [Do(CriuCpuinfoDump), Do(ImgSendCpuinfo), Do(RpcCheckCpuinfo), Require(env.cpusMatch, CpusMismatch)]
  }

  /** `force` after a `__validate_cpu` that returned normally. */
  function ForceAfterCpuCheck(env: Env, force: bool, skipCpuCheck: bool): (r: bool)
    ensures r <==> force || (!skipCpuCheck && CpuinfoUnsupported(env.cpuinfo))
  {
    force || (ChecksCpu(force, skipCpuCheck) && CpuinfoUnsupported(env.cpuinfo))
  }

  /** CRIU's reply to the dirty-tracking request: `success`, and the `features` field with its optional `mem_track`. */
  datatype MemTrackReply = MemTrackReply(success: bool, features: Option<Option<bool>>)

  /** Lines 122-128 of `__check_support_mem_track`, which the NameError before them never lets run. */
  function MemTrackAnswer(resp: MemTrackReply): (r: Result<bool, Error>)
    ensures r.Err? <==> !resp.success
    ensures r == Ok(true) <==> resp.success && resp.features == Some(Some(true))
  {
    if !resp.success then Err(DirtyTrackingFailed)
    else match resp.features
      case None => Ok(false)
      case Some(memTrack) => if memTrack.None? then Ok(false) else Ok(memTrack.value)
  }

  /**
   * The auto-detection expression `probe and can_pre_dump`, evaluated as Python does:
   * the second operand runs only when the probe returns true, and an exception raised
   * by either operand is caught and read as "disabled".
   */
  function AutoOutcome(probe: Result<bool, Error>, canPreDump: Result<bool, Error>): (r: bool)
    ensures r <==> probe == Ok(true) && canPreDump == Ok(true)
  {
    var value := if probe.Err? || !probe.value then probe else canPreDump;
    match value
    case Err(_) => false
    case Ok(enabled) => enabled
  }

  /** `self.htype.can_pre_dump()`: the controller never assigns `htype`, so the lookup raises. */
  const HtypeCanPreDump: Result<bool, Error> := Err(MissingAttribute("htype"))

  /**
   * The auto-detection of `__check_use_pre_dumps` as written: whatever the probe does,
   * the answer is "disabled", since a true probe reaches the missing `htype`.
   */
  function AutoDecision(probe: Result<bool, Error>): (r: bool)
    ensures !r
  {
    AutoOutcome(probe, HtypeCanPreDump)
  }

  /** The decision of `__check_use_pre_dumps`. */
  function UsePreDumps(mode: PreDumpMode): (r: bool)
    ensures mode.AutoDetect? ==> !r
    ensures mode.Explicit? ==> r == mode.enabled
  {
    match mode
    case AutoDetect => AutoDecision(Err(UnboundName("criu_req")))
    case Explicit(enabled) => enabled
  }

  /** The statistics start and the filesystem migration start. */
  function StartSteps(): seq<Step> {
    [Do(StatsStart), Do(FsStartMigration), Do(StatsPreliminary)]
  }

  /** One pass of the pre-dump loop, up to the counter test. */
  function PassSteps(): seq<Step> {
    DoAll(PassCalls())
  }

  function PassCalls(): seq<Event> {
    [RpcStartIter(false), ImgNewImageDir, WorkerPreDump, ImgSyncImages(true), FsMntDiffSync]
  }

  /** `while use_pre_dumps:` entered with `iter_count == n`. */
  function LoopFrom(use: bool, n: nat): seq<Step>
    requires n <= MaxPreDumpIters
    decreases MaxPreDumpIters - n
  {
    if !use then []
    else PassSteps() + (if n + 1 > MaxPreDumpIters then [] else [Do(RpcEndIter)] + LoopFrom(use, n + 1))
  }

  function PreDumpSteps(use: bool): seq<Step> {
    LoopFrom(use, FirstIter)
  }

  function FinalDumpSteps(): seq<Step> {
    [Do(RpcStartIter(false)), Do(ImgNewImageDir), Do(WorkerFinalDump), Do(RpcEndIter)]
  }

  /** Everything after `__validate_cpu` up to the final dump: the statistics object, the decision, then the dumps. */
  function DumpSteps(use: bool): seq<Step> {
    [Do(StatsLive), Do(CriuMemoryTracking(use))] + StartSteps() + PreDumpSteps(use) + FinalDumpSteps()
  }

  /** The dump after its first call, grouped as `Controller.DumpAll` runs it. */
  lemma DumpStepsParts(use: bool)
    ensures DumpSteps(use)[1..] == [Do(CriuMemoryTracking(use))] + (StartSteps() + (PreDumpSteps(use) + FinalDumpSteps()))
  {
    var loop := PreDumpSteps(use);
    assert DumpSteps(use) == [Do(StatsLive)] + ([Do(CriuMemoryTracking(use))] + (StartSteps() + (loop + FinalDumpSteps())));
  }

  /** `self.fs.set_work_dir(self.img.work_dir())`, then `__validate_cpu`. */
  function PrepSteps(env: Env, force: bool, skipCpuCheck: bool): seq<Step> {
    [Do(ImgWorkDir), Do(FsSetWorkDir)] + CpuSteps(env, force, skipCpuCheck)
  }

  /** The guarded section: a failure here runs the worker's `migration_fail` hook. */
  function CriticalSteps(ctId: string): seq<Step> {
    [Do(FsStopMigration), Do(ImgSyncImages(false)), Do(FsMntDiffSync),
     Do(RpcRestoreFromImages(ctId, DockerWorker.CheckpointName(ctId)))]
  }

  /** The final cleanup, whose exceptions are only logged. */
  function CleanupSteps(): seq<Step> {
    [Do(CriuGetDstats), Do(StatsIteration), Do(WorkerMigrationComplete), Do(StatsStop), Do(CriuClose), Do(ImgClose)]
  }

  /**
   * The collaborators' `set_options`: the filesystem driver's, the image manager's when it
   * is truthy, and the CRIU connection's and the peer's when the CRIU connection is truthy.
   */
  function OptionSteps(env: Env): seq<Step> {
    [Do(FsSetOptions)] + (if env.imgPresent then [Do(ImgSetOptions)] else [])
    + (if env.criuPresent then [Do(CriuSetOptions), Do(RpcSetOptions)] else [])
  }

  /**
   * `set_options` always starts with the filesystem driver; the image manager is told the
   * options exactly when it is truthy, and the CRIU connection and the peer exactly when
   * the CRIU connection is truthy.
   */
  lemma OptionGuards(env: Env)
    ensures var c := Calls(OptionSteps(env));
      |c| > 0 && c[0] == FsSetOptions &&
      (ImgSetOptions in c <==> env.imgPresent) &&
      (CriuSetOptions in c <==> env.criuPresent) && (RpcSetOptions in c <==> env.criuPresent)
  {
    var img := if env.imgPresent then [Do(ImgSetOptions)] else [];
    var criu := if env.criuPresent then [Do(CriuSetOptions), Do(RpcSetOptions)] else [];
    CallsAppend([Do(FsSetOptions)] + img, criu);
    CallsAppend([Do(FsSetOptions)], img);
    DoCalls(img);
    DoCalls(criu);
  }

  /** What `start_live_migration` leaves behind: the calls made, its outcome and the new `force`. */
  datatype Migration = Migration(trace: seq<Event>, result: Outcome<Error>, force: bool)

  /**
   * The shape of `start_live_migration` over any scripts: the preparation, then the dump
   * (after which `force` is `force'`), then the guarded section, whose failure runs the
   * `migration_fail` hook before it is re-raised, then the cleanup.
   */
  function Guarded(env: Env, h: seq<Event>, prep: seq<Step>, dump: seq<Step>, critical: seq<Step>,
                   cleanup: seq<Step>, force: bool, force': bool): Migration {
    var p := RunSteps(env, h, prep);
    if p.failure.Some? then Migration(p.trace, Fail(p.failure.value), force)
    else
      var d := RunSteps(env, p.trace, dump);
      if d.failure.Some? then Migration(d.trace, Fail(d.failure.value), force')
      else
        var c := RunSteps(env, d.trace, critical);
        if c.failure.Some? then
          Migration(c.trace + [WorkerMigrationFail], Fail(c.failure.value), force')
        else
          Migration(RunSteps(env, c.trace, cleanup).trace, Pass, force')
  }

  /** The reference run of `start_live_migration` after the calls `h`. */
  function LiveMigration(env: Env, h: seq<Event>, ctId: string, force: bool, skipCpuCheck: bool, preDump: PreDumpMode): Migration {
    Guarded(env, h, PrepSteps(env, force, skipCpuCheck), DumpSteps(UsePreDumps(preDump)), CriticalSteps(ctId),
      CleanupSteps(), force, ForceAfterCpuCheck(env, force, skipCpuCheck))
  }

  // ---------------------------------------------------------------------------
  // Properties of the scripts

  /** A script of calls only, with no checks. */
  predicate AllDo(steps: seq<Step>) {
    forall i :: 0 <= i < |steps| ==> steps[i].Do?
  }

  lemma {:induction false} DoCalls(steps: seq<Step>)
    requires AllDo(steps)
    ensures Calls(steps) == seq(|steps|, i requires 0 <= i < |steps| => steps[i].e)
    decreases |steps|
  {
    if steps != [] {
      DoCalls(steps[1..]);
    }
  }

  /** A script of calls only stops on a call that raised, and that call is the last one made. */
  lemma {:induction false} DoRunFails(env: Env, h: seq<Event>, steps: seq<Step>)
    requires AllDo(steps)
    ensures var r := RunSteps(env, h, steps);
      r.failure.Some? ==> |r.trace| > |h| && r.failure.value == CallFailed(r.trace[|r.trace| - 1])
    decreases |steps|
  {
    if steps != [] && !Raises(env, h, steps[0].e) {
      DoRunFails(env, h + [steps[0].e], steps[1..]);
    }
  }

  /** Every call in `es` is of a kind the pre-dump loop makes. */
  predicate OnlyLoopCalls(es: seq<Event>) {
    forall i :: 0 <= i < |es| ==> InLoop(es[i])
  }

  /** How many times `e` occurs in `es`. */
  function Count(es: seq<Event>, e: Event): nat {
    if es == [] then 0 else (if es[0] == e then 1 else 0) + Count(es[1..], e)
  }

  lemma {:induction false} CountAppend(a: seq<Event>, b: seq<Event>, e: Event)
    ensures Count(a + b, e) == Count(a, e) + Count(b, e)
    decreases |a|
  {
    if a == [] {
      assert a + b == b;
    } else {
      assert (a + b)[1..] == a[1..] + b;
      CountAppend(a[1..], b, e);
    }
  }

  lemma CountCons(x: Event, rest: seq<Event>, e: Event)
    ensures Count([x] + rest, e) == (if x == e then 1 else 0) + Count(rest, e)
  {
    assert ([x] + rest)[1..] == rest;
  }

  lemma {:induction false} CountZero(es: seq<Event>, e: Event)
    ensures Count(es, e) == 0 <==> e !in es
    decreases |es|
  {
    if es != [] {
      CountZero(es[1..], e);
    }
  }

  /** The kinds of call the pre-dump loop makes. */
  predicate InLoop(e: Event) {
    e.RpcStartIter? || e.ImgNewImageDir? || e.WorkerPreDump? || e.ImgSyncImages? || e.FsMntDiffSync? || e.RpcEndIter?
  }

  /** How often a pass makes `e`: once for each of its five calls equal to `e`. */
  lemma PassCount(e: Event)
    ensures var c := PassCalls();
      Count(c, e) == (if c[0] == e then 1 else 0) + (if c[1] == e then 1 else 0) + (if c[2] == e then 1 else 0) +
        (if c[3] == e then 1 else 0) + (if c[4] == e then 1 else 0)
  {
    var c := PassCalls();
    assert c[4..][1..] == [];
    assert Count(c[4..], e) == (if c[4] == e then 1 else 0);
    assert c[3..][1..] == c[4..];
    assert Count(c[3..], e) == (if c[3] == e then 1 else 0) + Count(c[4..], e);
    assert c[2..][1..] == c[3..];
    assert Count(c[2..], e) == (if c[2] == e then 1 else 0) + Count(c[3..], e);
    assert c[1..][1..] == c[2..];
    assert Count(c[1..], e) == (if c[1] == e then 1 else 0) + Count(c[2..], e);
  }

  /** The four calls a pass makes once each, besides the mount-diff sync. */
  predicate PassCall(e: Event) {
    e == RpcStartIter(false) || e == ImgNewImageDir || e == WorkerPreDump || e == ImgSyncImages(true)
  }

  lemma PassCallOnce(e: Event)
    requires PassCall(e)
    ensures Count(PassCalls(), e) == 1
  {
    PassCount(e);
    var c := PassCalls();
    assert c[0] == RpcStartIter(false) && c[1] == ImgNewImageDir && c[2] == WorkerPreDump &&
      c[3] == ImgSyncImages(true) && c[4] == FsMntDiffSync;
    if e.RpcStartIter? {
      assert c[0] == e && c[1] != e && c[2] != e && c[3] != e && c[4] != e;
    } else if e.ImgNewImageDir? {
      assert c[0] != e && c[1] == e && c[2] != e && c[3] != e && c[4] != e;
    } else if e.WorkerPreDump? {
      assert c[0] != e && c[1] != e && c[2] == e && c[3] != e && c[4] != e;
    } else {
      assert c[0] != e && c[1] != e && c[2] != e && c[3] == e && c[4] != e;
    }
  }

  /** The loop entered at `iter_count == n` as the calls of a pass, then the rest of the loop. */
  lemma LoopUnfold(use: bool, n: nat)
    requires use && n <= MaxPreDumpIters
    ensures Calls(LoopFrom(use, n)) ==
      PassCalls() + (if n + 1 > MaxPreDumpIters then [] else [RpcEndIter] + Calls(LoopFrom(use, n + 1)))
  {
    var pass := PassSteps();
    DoCalls(pass);
    assert Calls(pass) == PassCalls();
    if n + 1 > MaxPreDumpIters {
      assert LoopFrom(use, n) == pass + [];
      CallsAppend(pass, []);
    } else {
      var more := [Do(RpcEndIter)] + LoopFrom(use, n + 1);
      assert LoopFrom(use, n) == pass + more;
      CallsAppend(pass, more);
      CallsAppend([Do(RpcEndIter)], LoopFrom(use, n + 1));
    }
  }

  /**
   * The pre-dump loop entered at `iter_count == n` makes each call of a pass once per
   * remaining iteration: `5 - n + 1` passes.
   */
  lemma {:induction false} LoopPassCount(use: bool, n: nat, e: Event)
    requires use && n <= MaxPreDumpIters && PassCall(e)
    ensures Count(Calls(LoopFrom(use, n)), e) == MaxPreDumpIters + 1 - n
    decreases MaxPreDumpIters - n
  {
    LoopPassStep(use, n, e);
    if n + 1 <= MaxPreDumpIters {
      LoopPassCount(use, n + 1, e);
    }
  }

  /** One pass of the loop makes each of the pass's calls once, before the rest of the loop. */
  lemma LoopPassStep(use: bool, n: nat, e: Event)
    requires use && n <= MaxPreDumpIters && PassCall(e)
    ensures Count(Calls(LoopFrom(use, n)), e) ==
      1 + (if n + 1 > MaxPreDumpIters then 0 else Count(Calls(LoopFrom(use, n + 1)), e))
  {
    LoopUnfold(use, n);
    PassCallOnce(e);
    if n + 1 > MaxPreDumpIters {
      assert PassCalls() + [] == PassCalls();
    } else {
      var rest := Calls(LoopFrom(use, n + 1));
      CountAppend(PassCalls(), [RpcEndIter] + rest, e);
      CountCons(RpcEndIter, rest, e);
    }
  }

  /** ... and one `end_iter` fewer than passes. */
  lemma {:induction false} LoopEndCount(use: bool, n: nat)
    requires use && n <= MaxPreDumpIters
    ensures Count(Calls(LoopFrom(use, n)), RpcEndIter) == MaxPreDumpIters - n
    decreases MaxPreDumpIters - n
  {
    LoopUnfold(use, n);
    PassCount(RpcEndIter);
    if n + 1 > MaxPreDumpIters {
      assert PassCalls() + [] == PassCalls();
    } else {
      var rest := Calls(LoopFrom(use, n + 1));
      CountAppend(PassCalls(), [RpcEndIter] + rest, RpcEndIter);
      CountCons(RpcEndIter, rest, RpcEndIter);
      LoopEndCount(use, n + 1);
    }
  }

  /** ... and no call of another kind. */
  lemma {:induction false} LoopKinds(use: bool, n: nat)
    requires n <= MaxPreDumpIters
    ensures OnlyLoopCalls(Calls(LoopFrom(use, n)))
    decreases MaxPreDumpIters - n
  {
    if use {
      LoopUnfold(use, n);
      assert OnlyLoopCalls(PassCalls());
      if n + 1 <= MaxPreDumpIters {
        var rest := Calls(LoopFrom(use, n + 1));
        LoopKinds(use, n + 1);
        LoopAppend([RpcEndIter], rest);
        LoopAppend(PassCalls(), [RpcEndIter] + rest);
      } else {
        assert PassCalls() + [] == PassCalls();
      }
    }
  }

  lemma LoopAppend(a: seq<Event>, b: seq<Event>)
    requires OnlyLoopCalls(a) && OnlyLoopCalls(b)
    ensures OnlyLoopCalls(a + b)
  {
    forall i | 0 <= i < |a + b|
      ensures InLoop((a + b)[i])
    {
      if i < |a| {
        assert (a + b)[i] == a[i];
      } else {
        assert (a + b)[i] == b[i - |a|];
      }
    }
  }

  /** The whole pre-dump loop: six passes and five `end_iter` calls, or no call at all when disabled. */
  lemma LoopTotals(use: bool)
    ensures var c := Calls(PreDumpSteps(use));
      Count(c, WorkerPreDump) == Count(c, ImgSyncImages(true)) == Count(c, RpcStartIter(false)) ==
        Count(c, ImgNewImageDir) == (if use then 6 else 0) &&
      Count(c, RpcEndIter) == (if use then 5 else 0)
    ensures OnlyLoopCalls(Calls(PreDumpSteps(use))) && (!use ==> Calls(PreDumpSteps(use)) == [])
  {
    if use {
      LoopPassCount(use, FirstIter, WorkerPreDump);
      LoopPassCount(use, FirstIter, ImgSyncImages(true));
      LoopPassCount(use, FirstIter, RpcStartIter(false));
      LoopPassCount(use, FirstIter, ImgNewImageDir);
      LoopEndCount(use, FirstIter);
      LoopKinds(use, FirstIter);
    }
  }

  // ---------------------------------------------------------------------------
  // Properties of `start_live_migration`

  /** Everything before the guarded section. */
  function DumpedSteps(env: Env, force: bool, skipCpuCheck: bool, use: bool): seq<Step> {
    PrepSteps(env, force, skipCpuCheck) + DumpSteps(use)
  }

  /** Everything before the cleanup. */
  function MainSteps(env: Env, ctId: string, force: bool, skipCpuCheck: bool, use: bool): seq<Step> {
    DumpedSteps(env, force, skipCpuCheck, use) + CriticalSteps(ctId)
  }

  /**
   * The reference run as one script: a failure before the guarded section is reported as
   * it is; a failure inside it is reported after the `migration_fail` hook; once the restore
   * has succeeded the cleanup runs and the outcome is `Pass`.
   */
  lemma MigrationRuns(env: Env, h: seq<Event>, ctId: string, force: bool, skipCpuCheck: bool, preDump: PreDumpMode)
    ensures var m := LiveMigration(env, h, ctId, force, skipCpuCheck, preDump);
      var use := UsePreDumps(preDump);
      var dumped := RunSteps(env, h, DumpedSteps(env, force, skipCpuCheck, use));
      var main := RunSteps(env, h, MainSteps(env, ctId, force, skipCpuCheck, use));
      (dumped.failure.Some? ==> main == dumped && m.trace == dumped.trace && m.result == Fail(dumped.failure.value)) &&
      (dumped.failure.None? && main.failure.Some? ==>
         main.trace == RunSteps(env, dumped.trace, CriticalSteps(ctId)).trace &&
         m.trace == main.trace + [WorkerMigrationFail] && m.result == Fail(main.failure.value)) &&
      (main.failure.None? ==>
         dumped.failure.None? && m.result == Pass && m.trace == RunSteps(env, main.trace, CleanupSteps()).trace)
  {
    var use := UsePreDumps(preDump);
    RunStepsAppend(env, h, PrepSteps(env, force, skipCpuCheck), DumpSteps(use));
    RunStepsAppend(env, h, DumpedSteps(env, force, skipCpuCheck, use), CriticalSteps(ctId));
  }

  /**
   * The calls a successful `start_live_migration` makes, in order: every call up to the
   * restore, then a prefix of the cleanup calls.
   */
  lemma PassedTrace(env: Env, h: seq<Event>, ctId: string, force: bool, skipCpuCheck: bool, preDump: PreDumpMode)
    requires LiveMigration(env, h, ctId, force, skipCpuCheck, preDump).result.Pass?
    ensures var m := LiveMigration(env, h, ctId, force, skipCpuCheck, preDump);
      var mainCalls := h + Calls(MainSteps(env, ctId, force, skipCpuCheck, UsePreDumps(preDump)));
      mainCalls <= m.trace && m.trace[|mainCalls|..] <= Calls(CleanupSteps())
  {
    var mainSteps := MainSteps(env, ctId, force, skipCpuCheck, UsePreDumps(preDump));
    MigrationRuns(env, h, ctId, force, skipCpuCheck, preDump);
    RunStepsShape(env, h, mainSteps);
    RunStepsShape(env, RunSteps(env, h, mainSteps).trace, CleanupSteps());
  }

  /**
   * The calls a failed `start_live_migration` makes, in order: either it stopped within the
   * calls up to the final dump, or it stopped inside the guarded section, after the final
   * dump, and then ran the `migration_fail` hook as its last call.
   */
  lemma FailedTrace(env: Env, h: seq<Event>, ctId: string, force: bool, skipCpuCheck: bool, preDump: PreDumpMode)
    requires LiveMigration(env, h, ctId, force, skipCpuCheck, preDump).result.Fail?
    ensures var m := LiveMigration(env, h, ctId, force, skipCpuCheck, preDump);
      var use := UsePreDumps(preDump);
      var dumpedCalls := h + Calls(DumpedSteps(env, force, skipCpuCheck, use));
      (h <= m.trace <= dumpedCalls) ||
      (|m.trace| > |dumpedCalls| + 1 && m.trace[|m.trace| - 1] == WorkerMigrationFail &&
       dumpedCalls < m.trace[..|m.trace| - 1] <= dumpedCalls + Calls(CriticalSteps(ctId)))
  {
    var use := UsePreDumps(preDump);
    var dumpedSteps := DumpedSteps(env, force, skipCpuCheck, use);
    MigrationRuns(env, h, ctId, force, skipCpuCheck, preDump);
    RunStepsShape(env, h, dumpedSteps);
    if RunSteps(env, h, dumpedSteps).failure.None? {
      FailedAfter(env, h, dumpedSteps, CriticalSteps(ctId));
    }
  }

  /** A script of calls appended to a script that ran through fails only after making at least one more call. */
  lemma FailedAfter(env: Env, h: seq<Event>, a: seq<Step>, b: seq<Step>)
    requires AllDo(b)
    requires RunSteps(env, h, a).failure.None? && RunSteps(env, h, a + b).failure.Some?
    ensures var ta := RunSteps(env, h, a).trace; var t := RunSteps(env, h, a + b).trace;
      ta < t <= ta + Calls(b)
  {
    RunStepsAppend(env, h, a, b);
    var ta := RunSteps(env, h, a).trace;
    RunStepsShape(env, ta, b);
    DoRunFails(env, ta, b);
  }

  /** The calls `__validate_cpu` makes when none of them raises. */
  function CpuCalls(env: Env, force: bool, skipCpuCheck: bool): (r: seq<Event>)
    ensures forall i :: 0 <= i < |r| ==> CpuCall(r[i])
  {
    if !ChecksCpu(force, skipCpuCheck) then []
    else if CpuinfoUnsupported(env.cpuinfo) || !env.cpuinfo.success then [CriuCpuinfoDump]
    else [CriuCpuinfoDump, ImgSendCpuinfo, RpcCheckCpuinfo]
  }

  /** The two calls of `self.fs.set_work_dir(self.img.work_dir())`. */
  predicate WorkDirCall(e: Event) {
    e.ImgWorkDir? || e.FsSetWorkDir?
  }

  /** The calls of `__validate_cpu`. */
  predicate CpuCall(e: Event) {
    e.CriuCpuinfoDump? || e.ImgSendCpuinfo? || e.RpcCheckCpuinfo?
  }

  /** The kinds of call made after `__validate_cpu` and up to the final dump. */
  predicate DumpKind(e: Event) {
    e.StatsLive? || e.CriuMemoryTracking? || e.StatsStart? || e.FsStartMigration? || e.StatsPreliminary? || InLoop(e) || e.WorkerFinalDump?
  }

  /** The kinds of call made in the guarded section. */
  predicate GuardKind(e: Event) {
    e.FsStopMigration? || e.ImgSyncImages? || e.FsMntDiffSync? || e.RpcRestoreFromImages?
  }

  /** The kinds of call made by the cleanup. */
  predicate CleanupKind(e: Event) {
    e.CriuGetDstats? || e.StatsIteration? || e.WorkerMigrationComplete? || e.StatsStop? || e.CriuClose? || e.ImgClose?
  }

  /** The kinds of call made after `__validate_cpu` and up to the restore. */
  predicate EarlyKind(e: Event) {
    DumpKind(e) || GuardKind(e)
  }

  /** The kinds of call a successful run makes after `__validate_cpu`. */
  predicate PassKind(e: Event) {
    EarlyKind(e) || CleanupKind(e)
  }

  /** Every call in `es` is of kind `k`. */
  predicate AllKind(es: seq<Event>, k: Event -> bool) {
    forall i :: 0 <= i < |es| ==> k(es[i])
  }

  lemma PrepCalls(env: Env, force: bool, skipCpuCheck: bool)
    ensures Calls(PrepSteps(env, force, skipCpuCheck)) == [ImgWorkDir, FsSetWorkDir] + CpuCalls(env, force, skipCpuCheck)
  {
    CallsAppend([Do(ImgWorkDir), Do(FsSetWorkDir)], CpuSteps(env, force, skipCpuCheck));
    if ChecksCpu(force, skipCpuCheck) && !CpuinfoUnsupported(env.cpuinfo) {
      if !env.cpuinfo.success {
        assert Calls(CpuSteps(env, force, skipCpuCheck)) == [CriuCpuinfoDump] + Calls([Require(false, CpuinfoDumpFailed)]);
      } else {
        var req := [Require(env.cpusMatch, CpusMismatch)];
        assert CpuSteps(env, force, skipCpuCheck) == DoAll([CriuCpuinfoDump, ImgSendCpuinfo, RpcCheckCpuinfo]) + req;
        CallsAppend(DoAll([CriuCpuinfoDump, ImgSendCpuinfo, RpcCheckCpuinfo]), req);
        DoCalls(DoAll([CriuCpuinfoDump, ImgSendCpuinfo, RpcCheckCpuinfo]));
      }
    }
  }

  /** The calls after the CPU check and before the pre-dump loop. */
  function StartCalls(use: bool): seq<Event> {
    [StatsLive, CriuMemoryTracking(use), StatsStart, FsStartMigration, StatsPreliminary]
  }

  /** The calls of the final dump bracket. */
  function FinalCalls(): seq<Event> {
    [RpcStartIter(false), ImgNewImageDir, WorkerFinalDump, RpcEndIter]
  }

  /** The order of the calls after the CPU check: start, pre-dump loop, final dump bracket. */
  lemma DumpLayout(use: bool)
    ensures Calls(DumpSteps(use)) == StartCalls(use) + Calls(PreDumpSteps(use)) + FinalCalls()
  {
    var start := [Do(StatsLive), Do(CriuMemoryTracking(use))] + StartSteps();
    CallsAppend(start + PreDumpSteps(use), FinalDumpSteps());
    CallsAppend(start, PreDumpSteps(use));
    DoCalls(start);
    assert Calls(start) == StartCalls(use);
    assert Calls(FinalDumpSteps()) == FinalCalls();
  }

  lemma DumpCalls(use: bool)
    ensures AllKind(Calls(DumpSteps(use)), DumpKind)
  {
    var loop := Calls(PreDumpSteps(use));
    DumpLayout(use);
    LoopTotals(use);
    LoopDumpKinds(loop);
    StartFinalKinds(use);
    KindAppend(StartCalls(use), loop, DumpKind);
    KindAppend(StartCalls(use) + loop, FinalCalls(), DumpKind);
  }

  lemma LoopDumpKinds(loop: seq<Event>)
    requires OnlyLoopCalls(loop)
    ensures AllKind(loop, DumpKind)
  {
    forall i | 0 <= i < |loop|
      ensures DumpKind(loop[i])
    {
      assert InLoop(loop[i]);
    }
  }

  lemma StartFinalKinds(use: bool)
    ensures AllKind(StartCalls(use), DumpKind) && AllKind(FinalCalls(), DumpKind)
  {
  }

  lemma KindAppend(a: seq<Event>, b: seq<Event>, k: Event -> bool)
    requires AllKind(a, k) && AllKind(b, k)
    ensures AllKind(a + b, k)
  {
  }

  lemma GuardCalls(ctId: string)
    ensures Calls(CriticalSteps(ctId)) ==
      [FsStopMigration, ImgSyncImages(false), FsMntDiffSync, RpcRestoreFromImages(ctId, DockerWorker.CheckpointName(ctId))]
  {
    DoCalls(CriticalSteps(ctId));
  }

  lemma CleanupCalls()
    ensures Calls(CleanupSteps()) == [CriuGetDstats, StatsIteration, WorkerMigrationComplete, StatsStop, CriuClose, ImgClose]
  {
    DoCalls(CleanupSteps());
  }

  lemma GuardCleanupKinds(ctId: string)
    ensures AllKind(Calls(CriticalSteps(ctId)), GuardKind) && AllKind(Calls(CleanupSteps()), CleanupKind)
  {
    GuardCalls(ctId);
    CleanupCalls();
  }

  /**
   * The calls of a run that nothing stops: those of the work directory and the CPU check,
   * then the dump's, the guarded section's and the cleanup's, each of its own kind.
   */
  lemma AllCallsShape(env: Env, ctId: string, force: bool, skipCpuCheck: bool, use: bool)
    ensures var prep := [ImgWorkDir, FsSetWorkDir] + CpuCalls(env, force, skipCpuCheck);
      var dumped := Calls(DumpedSteps(env, force, skipCpuCheck, use));
      var main := Calls(MainSteps(env, ctId, force, skipCpuCheck, use));
      var c := main + Calls(CleanupSteps());
      prep <= dumped && main == dumped + Calls(CriticalSteps(ctId)) &&
      AllKind(dumped[|prep|..], DumpKind) && AllKind((dumped + Calls(CriticalSteps(ctId)))[|prep|..], EarlyKind) &&
      AllKind(c[|prep|..], PassKind)
  {
    PrepCalls(env, force, skipCpuCheck);
    DumpCalls(use);
    GuardCleanupKinds(ctId);
    CallsAppend(PrepSteps(env, force, skipCpuCheck), DumpSteps(use));
    CallsAppend(DumpedSteps(env, force, skipCpuCheck, use), CriticalSteps(ctId));
    LayoutKinds([ImgWorkDir, FsSetWorkDir] + CpuCalls(env, force, skipCpuCheck), Calls(DumpSteps(use)),
      Calls(CriticalSteps(ctId)), Calls(CleanupSteps()));
  }

  /** The layout of all the calls, over any calls of the right kinds. */
  lemma LayoutKinds(prep: seq<Event>, dump: seq<Event>, guard: seq<Event>, cleanup: seq<Event>)
    requires AllKind(dump, DumpKind) && AllKind(guard, GuardKind) && AllKind(cleanup, CleanupKind)
    ensures var m := prep + dump + guard; var c := m + cleanup;
      AllKind((prep + dump)[|prep|..], DumpKind) && AllKind(m[|prep|..], EarlyKind) && AllKind(c[|prep|..], PassKind)
  {
    assert (prep + dump)[|prep|..] == dump;
    assert (prep + dump + guard)[|prep|..] == dump + guard;
    assert (prep + dump + guard + cleanup)[|prep|..] == dump + guard + cleanup;
  }

  /**
   * A trace that extends `h` by a prefix of `c`, possibly followed by one more call, agrees
   * with `prep` and then, up to that extra call, has only calls of kind `k`, when `c` does.
   */
  lemma SpliceKinds(h: seq<Event>, t: seq<Event>, prep: seq<Event>, c: seq<Event>, k: Event -> bool)
    requires prep <= c && AllKind(c[|prep|..], k) && h <= t
    requires t[|h|..] <= c || (|t| > |h| + |prep| && t[|h|..|t| - 1] <= c)
    ensures var s := t[|h|..];
      (forall i :: 0 <= i < |s| && i < |prep| ==> s[i] == prep[i]) &&
      (forall i :: |prep| <= i < |s| && (i < |s| - 1 || s <= c) ==> k(s[i]))
  {
    var s := t[|h|..];
    var n := if s <= c then |s| else |s| - 1;
    assert s[..n] <= c;
    forall i | 0 <= i < |s| && i < |prep|
      ensures s[i] == prep[i]
    {
      assert s[i] == s[..n][i] == c[i];
    }
    forall i | |prep| <= i < |s| && (i < |s| - 1 || s <= c)
      ensures k(s[i])
    {
      assert s[i] == s[..n][i] == c[|prep|..][i - |prep|];
    }
  }

  /** What `h + a` is extended by, when it is a prefix of `b`, follows `h` within `a + b`. */
  lemma JoinPrefix(h: seq<Event>, a: seq<Event>, b: seq<Event>, t: seq<Event>)
    requires h + a <= t && t[|h + a|..] <= b
    ensures h <= t && t[|h|..] <= a + b
  {
    assert t[|h|..] == a + t[|h + a|..];
  }

  /** A trace within `h + d` follows `h` with a prefix of anything `d` begins. */
  lemma EarlyPrefix(h: seq<Event>, d: seq<Event>, c: seq<Event>, t: seq<Event>)
    requires h <= t <= h + d && d <= c
    ensures t[|h|..] <= c
  {
    assert t[|h|..] <= d;
  }

  /** A trace whose last call follows a run past `h + d` within `h + d + g`. */
  lemma HookedPrefix(h: seq<Event>, d: seq<Event>, g: seq<Event>, t: seq<Event>)
    requires |t| > 0 && h + d < t[..|t| - 1] <= h + d + g
    ensures h <= t && |t| > |h| + |d| + 1 && t[|h|..|t| - 1] <= d + g
  {
    assert t[..|t| - 1][|h|..] == t[|h|..|t| - 1];
  }

  /**
   * The new calls of a successful `start_live_migration`: those of the work directory and
   * the CPU check, then only calls of the dump's, the guarded section's or the cleanup's kinds.
   */
  lemma PassedCalls(env: Env, h: seq<Event>, ctId: string, force: bool, skipCpuCheck: bool, preDump: PreDumpMode)
    requires LiveMigration(env, h, ctId, force, skipCpuCheck, preDump).result.Pass?
    ensures var m := LiveMigration(env, h, ctId, force, skipCpuCheck, preDump);
      h <= m.trace
    ensures var m := LiveMigration(env, h, ctId, force, skipCpuCheck, preDump);
      var prep := [ImgWorkDir, FsSetWorkDir] + CpuCalls(env, force, skipCpuCheck);
      var s := m.trace[|h|..];
      (forall i :: 0 <= i < |s| && i < |prep| ==> s[i] == prep[i]) &&
      (forall i :: |prep| <= i < |s| ==> PassKind(s[i]))
  {
    var t := LiveMigration(env, h, ctId, force, skipCpuCheck, preDump).trace;
    var use := UsePreDumps(preDump);
    var main := Calls(MainSteps(env, ctId, force, skipCpuCheck, use));
    AllCallsShape(env, ctId, force, skipCpuCheck, use);
    PassedTrace(env, h, ctId, force, skipCpuCheck, preDump);
    JoinPrefix(h, main, Calls(CleanupSteps()), t);
    SpliceKinds(h, t, [ImgWorkDir, FsSetWorkDir] + CpuCalls(env, force, skipCpuCheck), main + Calls(CleanupSteps()), PassKind);
  }

  /**
   * The new calls of a failed `start_live_migration`: those of the work directory and the
   * CPU check (as far as it got), then only calls of the dump's or the guarded section's
   * kinds, except that the last call may be the `migration_fail` hook.
   */
  lemma FailedCalls(env: Env, h: seq<Event>, ctId: string, force: bool, skipCpuCheck: bool, preDump: PreDumpMode)
    requires LiveMigration(env, h, ctId, force, skipCpuCheck, preDump).result.Fail?
    ensures var m := LiveMigration(env, h, ctId, force, skipCpuCheck, preDump);
      h <= m.trace
    ensures var m := LiveMigration(env, h, ctId, force, skipCpuCheck, preDump);
      var prep := [ImgWorkDir, FsSetWorkDir] + CpuCalls(env, force, skipCpuCheck);
      var s := m.trace[|h|..];
      (forall i :: 0 <= i < |s| && i < |prep| ==> s[i] == prep[i]) &&
      (forall i :: |prep| <= i < |s| ==> EarlyKind(s[i]) || (i == |s| - 1 && s[i] == WorkerMigrationFail))
  {
    var use := UsePreDumps(preDump);
    EarlyShape(env, ctId, force, skipCpuCheck, use);
    FailedTrace(env, h, ctId, force, skipCpuCheck, preDump);
    FailedSplice(h, LiveMigration(env, h, ctId, force, skipCpuCheck, preDump).trace,
      [ImgWorkDir, FsSetWorkDir] + CpuCalls(env, force, skipCpuCheck),
      Calls(DumpedSteps(env, force, skipCpuCheck, use)), Calls(CriticalSteps(ctId)));
  }

  /** The part of `AllCallsShape` a failed run needs. */
  lemma EarlyShape(env: Env, ctId: string, force: bool, skipCpuCheck: bool, use: bool)
    ensures var prep := [ImgWorkDir, FsSetWorkDir] + CpuCalls(env, force, skipCpuCheck);
      var dumped := Calls(DumpedSteps(env, force, skipCpuCheck, use));
      prep <= dumped && AllKind((dumped + Calls(CriticalSteps(ctId)))[|prep|..], EarlyKind)
  {
    AllCallsShape(env, ctId, force, skipCpuCheck, use);
  }

  /** `FailedCalls` over any calls of the right kinds. */
  lemma FailedSplice(h: seq<Event>, t: seq<Event>, prep: seq<Event>, dumped: seq<Event>, guard: seq<Event>)
    requires prep <= dumped && AllKind((dumped + guard)[|prep|..], EarlyKind)
    requires (h <= t <= h + dumped) ||
      (|t| > |h + dumped| + 1 && t[|t| - 1] == WorkerMigrationFail && h + dumped < t[..|t| - 1] <= h + dumped + guard)
    ensures h <= t
    ensures var s := t[|h|..];
      (forall i :: 0 <= i < |s| && i < |prep| ==> s[i] == prep[i]) &&
      (forall i :: |prep| <= i < |s| ==> EarlyKind(s[i]) || (i == |s| - 1 && s[i] == WorkerMigrationFail))
  {
    if t <= h + dumped {
      EarlyPrefix(h, dumped, dumped + guard, t);
    } else {
      HookedPrefix(h, dumped, guard, t);
    }
    SpliceKinds(h, t, prep, dumped + guard, EarlyKind);
  }

  /**
   * The new calls of `start_live_migration` begin with those of the work directory and the
   * CPU check (as far as it got); every later one is of a kind made after the CPU check.
   */
  lemma NewCalls(env: Env, h: seq<Event>, ctId: string, force: bool, skipCpuCheck: bool, preDump: PreDumpMode)
    ensures var m := LiveMigration(env, h, ctId, force, skipCpuCheck, preDump);
      h <= m.trace
    ensures var m := LiveMigration(env, h, ctId, force, skipCpuCheck, preDump);
      var prep := [ImgWorkDir, FsSetWorkDir] + CpuCalls(env, force, skipCpuCheck);
      var s := m.trace[|h|..];
      (forall i :: 0 <= i < |s| && i < |prep| ==> s[i] == prep[i]) &&
      (forall i :: |prep| <= i < |s| ==> PassKind(s[i]) || s[i] == WorkerMigrationFail)
  {
    if LiveMigration(env, h, ctId, force, skipCpuCheck, preDump).result.Pass? {
      PassedCalls(env, h, ctId, force, skipCpuCheck, preDump);
    } else {
      FailedCalls(env, h, ctId, force, skipCpuCheck, preDump);
    }
  }

  /**
   * With `skip_cpu_check` or `force` set, `__validate_cpu` returns at once: no CPU-info
   * dump, no upload of it and no question to the peer, and `force` is left as it was.
   */
  lemma CpuCheckSkipped(env: Env, h: seq<Event>, ctId: string, force: bool, skipCpuCheck: bool, preDump: PreDumpMode)
    requires !ChecksCpu(force, skipCpuCheck)
    ensures var m := LiveMigration(env, h, ctId, force, skipCpuCheck, preDump);
      m.force == force && forall i :: |h| <= i < |m.trace| ==> !CpuCall(m.trace[i])
  {
    var m := LiveMigration(env, h, ctId, force, skipCpuCheck, preDump);
    NewCalls(env, h, ctId, force, skipCpuCheck, preDump);
    forall i | |h| <= i < |m.trace|
      ensures !CpuCall(m.trace[i])
    {
      assert m.trace[i] == m.trace[|h|..][i - |h|];
    }
  }

  /** Neither call of `self.fs.set_work_dir(self.img.work_dir())` raises after the calls `h`. */
  predicate WorkDirSet(env: Env, h: seq<Event>) {
    !Raises(env, h, ImgWorkDir) && !Raises(env, h + [ImgWorkDir], FsSetWorkDir)
  }

  /**
   * The preparation fails at the work directory unless both of its calls return; when they
   * do, what follows is `__validate_cpu` after them.
   */
  lemma PrepAfterWorkDir(env: Env, h: seq<Event>, force: bool, skipCpuCheck: bool)
    ensures var p := RunSteps(env, h, PrepSteps(env, force, skipCpuCheck));
      if WorkDirSet(env, h) then p == RunSteps(env, h + [ImgWorkDir, FsSetWorkDir], CpuSteps(env, force, skipCpuCheck))
      else p.failure.Some? && p.failure.value.CallFailed? && WorkDirCall(p.failure.value.call)
  {
    var p := PrepSteps(env, force, skipCpuCheck);
    assert p[1..] == [Do(FsSetWorkDir)] + CpuSteps(env, force, skipCpuCheck);
    assert p[1..][1..] == CpuSteps(env, force, skipCpuCheck);
    assert h + [ImgWorkDir] + [FsSetWorkDir] == h + [ImgWorkDir, FsSetWorkDir];
  }

  /**
   * When CRIU answers the CPU-info dump with ENOTSUP, the check is given up and `force`
   * becomes true, exactly when the work-directory calls and the dump request themselves did
   * not raise.
   */
  lemma CpuinfoUnsupportedForces(env: Env, h: seq<Event>, ctId: string, force: bool, skipCpuCheck: bool, preDump: PreDumpMode)
    requires ChecksCpu(force, skipCpuCheck) && CpuinfoUnsupported(env.cpuinfo)
    ensures LiveMigration(env, h, ctId, force, skipCpuCheck, preDump).force <==>
      WorkDirSet(env, h) && !Raises(env, h + [ImgWorkDir, FsSetWorkDir], CriuCpuinfoDump)
  {
    UnsupportedPrep(env, h, force, skipCpuCheck);
  }

  lemma UnsupportedPrep(env: Env, h: seq<Event>, force: bool, skipCpuCheck: bool)
    requires ChecksCpu(force, skipCpuCheck) && CpuinfoUnsupported(env.cpuinfo)
    ensures RunSteps(env, h, PrepSteps(env, force, skipCpuCheck)).failure.None? <==>
      WorkDirSet(env, h) && !Raises(env, h + [ImgWorkDir, FsSetWorkDir], CriuCpuinfoDump)
  {
    PrepAfterWorkDir(env, h, force, skipCpuCheck);
    var w := h + [ImgWorkDir, FsSetWorkDir];
    var c := CpuSteps(env, force, skipCpuCheck);
    assert c == [Do(CriuCpuinfoDump)] && c[1..] == [];
    if !Raises(env, w, CriuCpuinfoDump) {
      assert RunSteps(env, w, c) == RunSteps(env, w + [CriuCpuinfoDump], []);
    }
  }

  /** ... and the CPU info is neither sent nor checked by the peer. */
  lemma CpuinfoUnsupportedNoPeer(env: Env, h: seq<Event>, ctId: string, force: bool, skipCpuCheck: bool, preDump: PreDumpMode)
    requires ChecksCpu(force, skipCpuCheck) && CpuinfoUnsupported(env.cpuinfo)
    ensures var m := LiveMigration(env, h, ctId, force, skipCpuCheck, preDump);
      forall i :: |h| <= i < |m.trace| ==> m.trace[i] != ImgSendCpuinfo && m.trace[i] != RpcCheckCpuinfo
  {
    var m := LiveMigration(env, h, ctId, force, skipCpuCheck, preDump);
    NewCalls(env, h, ctId, force, skipCpuCheck, preDump);
    forall i | |h| <= i < |m.trace|
      ensures m.trace[i] != ImgSendCpuinfo && m.trace[i] != RpcCheckCpuinfo
    {
      assert m.trace[i] == m.trace[|h|..][i - |h|];
    }
  }

  /** An unsuccessful CPU-info dump raises "Can't dump cpuinfo" before anything else is done. */
  lemma CpuinfoDumpRefused(env: Env, h: seq<Event>, ctId: string, force: bool, skipCpuCheck: bool, preDump: PreDumpMode)
    requires ChecksCpu(force, skipCpuCheck) && !CpuinfoUnsupported(env.cpuinfo) && !env.cpuinfo.success
    requires WorkDirSet(env, h) && !Raises(env, h + [ImgWorkDir, FsSetWorkDir], CriuCpuinfoDump)
    ensures LiveMigration(env, h, ctId, force, skipCpuCheck, preDump) ==
      Migration(h + [ImgWorkDir, FsSetWorkDir, CriuCpuinfoDump], Fail(CpuinfoDumpFailed), force)
  {
    PrepAfterWorkDir(env, h, force, skipCpuCheck);
    var w := h + [ImgWorkDir, FsSetWorkDir];
    var c := CpuSteps(env, force, skipCpuCheck);
    assert c == [Do(CriuCpuinfoDump), Require(false, CpuinfoDumpFailed)];
    assert c[1..] == [Require(false, CpuinfoDumpFailed)];
    assert w + [CriuCpuinfoDump] == h + [ImgWorkDir, FsSetWorkDir, CriuCpuinfoDump];
    assert RunSteps(env, w, c) == RunSteps(env, w + [CriuCpuinfoDump], c[1..]);
  }

  /** A peer that finds the CPUs different makes the check raise "CPUs mismatch" after its three calls. */
  lemma CpusDiffer(env: Env, h: seq<Event>, ctId: string, force: bool, skipCpuCheck: bool, preDump: PreDumpMode)
    requires ChecksCpu(force, skipCpuCheck) && !CpuinfoUnsupported(env.cpuinfo) && env.cpuinfo.success && !env.cpusMatch
    requires WorkDirSet(env, h)
    requires !Raises(env, h + [ImgWorkDir, FsSetWorkDir], CriuCpuinfoDump)
    requires !Raises(env, h + [ImgWorkDir, FsSetWorkDir, CriuCpuinfoDump], ImgSendCpuinfo)
    requires !Raises(env, h + [ImgWorkDir, FsSetWorkDir, CriuCpuinfoDump, ImgSendCpuinfo], RpcCheckCpuinfo)
    ensures LiveMigration(env, h, ctId, force, skipCpuCheck, preDump) ==
      Migration(h + [ImgWorkDir, FsSetWorkDir, CriuCpuinfoDump, ImgSendCpuinfo, RpcCheckCpuinfo], Fail(CpusMismatch), force)
  {
    PrepAfterWorkDir(env, h, force, skipCpuCheck);
    var c := CpuSteps(env, force, skipCpuCheck);
    var req := Require(env.cpusMatch, CpusMismatch);
    assert c == [Do(CriuCpuinfoDump), Do(ImgSendCpuinfo), Do(RpcCheckCpuinfo), req];
    assert c[1..] == [Do(ImgSendCpuinfo), Do(RpcCheckCpuinfo), req];
    assert c[2..] == c[1..][1..] == [Do(RpcCheckCpuinfo), req];
    assert c[2..][1..] == [req];
    var h1 := h + [ImgWorkDir, FsSetWorkDir];
    var h2 := h + [ImgWorkDir, FsSetWorkDir, CriuCpuinfoDump];
    var h3 := h + [ImgWorkDir, FsSetWorkDir, CriuCpuinfoDump, ImgSendCpuinfo];
    var h4 := h + [ImgWorkDir, FsSetWorkDir, CriuCpuinfoDump, ImgSendCpuinfo, RpcCheckCpuinfo];
    assert h1 + [CriuCpuinfoDump] == h2 && h2 + [ImgSendCpuinfo] == h3 && h3 + [RpcCheckCpuinfo] == h4;
    assert RunSteps(env, h1, c) == RunSteps(env, h2, c[1..]);
    assert RunSteps(env, h2, c[1..]) == RunSteps(env, h3, c[2..]);
    assert RunSteps(env, h3, c[2..]) == RunSteps(env, h4, [req]);
  }

  /** A script that begins with a call always makes that call. */
  lemma FirstCallMade(env: Env, t: seq<Event>, steps: seq<Step>)
    requires |steps| > 0 && steps[0].Do?
    ensures var r := RunSteps(env, t, steps); |r.trace| > |t| && r.trace[|t|] == steps[0].e
  {
    if !Raises(env, t, steps[0].e) {
      RunStepsShape(env, t + [steps[0].e], steps[1..]);
    }
  }

  /** The work-directory call and the CPU check's calls are of none of the later kinds. */
  lemma PrepNotLate(env: Env, force: bool, skipCpuCheck: bool)
    ensures var prep := [ImgWorkDir, FsSetWorkDir] + CpuCalls(env, force, skipCpuCheck);
      forall i :: 0 <= i < |prep| ==> !PassKind(prep[i]) && prep[i] != WorkerMigrationFail
  {
    var prep := [ImgWorkDir, FsSetWorkDir] + CpuCalls(env, force, skipCpuCheck);
    forall i | 0 <= i < |prep|
      ensures !PassKind(prep[i]) && prep[i] != WorkerMigrationFail
    {
      if i > 1 {
        assert prep[i] == CpuCalls(env, force, skipCpuCheck)[i - 2];
      }
    }
  }

  /**
   * The cleanup runs exactly when the migration succeeds: its first call, the statistics
   * request, is among the new calls if and only if the outcome is `Pass`.
   */
  lemma CleanupIffRestored(env: Env, h: seq<Event>, ctId: string, force: bool, skipCpuCheck: bool, preDump: PreDumpMode)
    ensures var m := LiveMigration(env, h, ctId, force, skipCpuCheck, preDump);
      h <= m.trace && (m.result.Pass? <==> CriuGetDstats in m.trace[|h|..])
  {
    var m := LiveMigration(env, h, ctId, force, skipCpuCheck, preDump);
    var use := UsePreDumps(preDump);
    NewCalls(env, h, ctId, force, skipCpuCheck, preDump);
    var s := m.trace[|h|..];
    if m.result.Pass? {
      var main := RunSteps(env, h, MainSteps(env, ctId, force, skipCpuCheck, use));
      MigrationRuns(env, h, ctId, force, skipCpuCheck, preDump);
      RunStepsShape(env, h, MainSteps(env, ctId, force, skipCpuCheck, use));
      FirstCallMade(env, main.trace, CleanupSteps());
      assert s[|main.trace| - |h|] == CriuGetDstats;
    } else {
      FailedCalls(env, h, ctId, force, skipCpuCheck, preDump);
      PrepNotLate(env, force, skipCpuCheck);
      forall i | 0 <= i < |s|
        ensures s[i] != CriuGetDstats
      {
      }
    }
  }

  /**
   * The `migration_fail` hook runs exactly when the migration fails after the final dump,
   * that is, inside the guarded section.
   */
  lemma HookIffGuardedFailure(env: Env, h: seq<Event>, ctId: string, force: bool, skipCpuCheck: bool, preDump: PreDumpMode)
    ensures var m := LiveMigration(env, h, ctId, force, skipCpuCheck, preDump);
      var dumped := h + Calls(DumpedSteps(env, force, skipCpuCheck, UsePreDumps(preDump)));
      h <= m.trace &&
      (WorkerMigrationFail in m.trace[|h|..] <==> m.result.Fail? && |m.trace| > |dumped|)
  {
    var m := LiveMigration(env, h, ctId, force, skipCpuCheck, preDump);
    var dumped := h + Calls(DumpedSteps(env, force, skipCpuCheck, UsePreDumps(preDump)));
    NewCalls(env, h, ctId, force, skipCpuCheck, preDump);
    if m.result.Fail? && |m.trace| > |dumped| {
      HookOnceAndLast(env, h, ctId, force, skipCpuCheck, preDump);
      assert m.trace[|h|..][|m.trace| - 1 - |h|] == WorkerMigrationFail;
    } else {
      NoHook(env, h, ctId, force, skipCpuCheck, preDump);
    }
  }

  /** A run that succeeds, or fails before the guarded section, never runs the hook. */
  lemma NoHook(env: Env, h: seq<Event>, ctId: string, force: bool, skipCpuCheck: bool, preDump: PreDumpMode)
    requires var m := LiveMigration(env, h, ctId, force, skipCpuCheck, preDump);
      m.result.Pass? || |m.trace| <= |h| + |Calls(DumpedSteps(env, force, skipCpuCheck, UsePreDumps(preDump)))|
    ensures var m := LiveMigration(env, h, ctId, force, skipCpuCheck, preDump);
      h <= m.trace && WorkerMigrationFail !in m.trace[|h|..]
  {
    var m := LiveMigration(env, h, ctId, force, skipCpuCheck, preDump);
    NewCalls(env, h, ctId, force, skipCpuCheck, preDump);
    PrepNotLate(env, force, skipCpuCheck);
    var prep := [ImgWorkDir, FsSetWorkDir] + CpuCalls(env, force, skipCpuCheck);
    if m.result.Pass? {
      PassedCalls(env, h, ctId, force, skipCpuCheck, preDump);
      NoHookIn(m.trace[|h|..], prep, PassKind);
    } else {
      EarlyCalls(env, h, ctId, force, skipCpuCheck, preDump);
      NoHookIn(m.trace[|h|..], prep, DumpKind);
    }
  }

  /** Calls that follow `prep`, itself free of the hook, with calls of a kind that excludes it. */
  lemma NoHookIn(s: seq<Event>, prep: seq<Event>, k: Event -> bool)
    requires forall i :: 0 <= i < |prep| ==> prep[i] != WorkerMigrationFail
    requires forall i :: 0 <= i < |s| && i < |prep| ==> s[i] == prep[i]
    requires forall i :: |prep| <= i < |s| ==> k(s[i])
    requires !k(WorkerMigrationFail)
    ensures WorkerMigrationFail !in s
  {
    forall i | 0 <= i < |s|
      ensures s[i] != WorkerMigrationFail
    {
    }
  }

  /** A run that fails before the guarded section makes, after the CPU check, only calls of the dump's kinds. */
  lemma EarlyCalls(env: Env, h: seq<Event>, ctId: string, force: bool, skipCpuCheck: bool, preDump: PreDumpMode)
    requires var m := LiveMigration(env, h, ctId, force, skipCpuCheck, preDump);
      m.result.Fail? && |m.trace| <= |h| + |Calls(DumpedSteps(env, force, skipCpuCheck, UsePreDumps(preDump)))|
    ensures h <= LiveMigration(env, h, ctId, force, skipCpuCheck, preDump).trace
    ensures var m := LiveMigration(env, h, ctId, force, skipCpuCheck, preDump);
      var prep := [ImgWorkDir, FsSetWorkDir] + CpuCalls(env, force, skipCpuCheck);
      var s := m.trace[|h|..];
      forall i :: |prep| <= i < |s| ==> DumpKind(s[i])
  {
    var m := LiveMigration(env, h, ctId, force, skipCpuCheck, preDump);
    var use := UsePreDumps(preDump);
    var dumped := Calls(DumpedSteps(env, force, skipCpuCheck, use));
    FailedTrace(env, h, ctId, force, skipCpuCheck, preDump);
    AllCallsShape(env, ctId, force, skipCpuCheck, use);
    EarlyPrefix(h, dumped, dumped, m.trace);
    SpliceKinds(h, m.trace, [ImgWorkDir, FsSetWorkDir] + CpuCalls(env, force, skipCpuCheck), dumped, DumpKind);
  }

  /** When the hook runs, it is the last call, and no earlier new call is the hook. */
  lemma HookOnceAndLast(env: Env, h: seq<Event>, ctId: string, force: bool, skipCpuCheck: bool, preDump: PreDumpMode)
    requires LiveMigration(env, h, ctId, force, skipCpuCheck, preDump).result.Fail?
    requires |LiveMigration(env, h, ctId, force, skipCpuCheck, preDump).trace| >
      |h| + |Calls(DumpedSteps(env, force, skipCpuCheck, UsePreDumps(preDump)))|
    ensures var m := LiveMigration(env, h, ctId, force, skipCpuCheck, preDump);
      var n := |m.trace|;
      n >= |h| + 2 && m.trace[n - 1] == WorkerMigrationFail &&
      forall i :: |h| <= i < n - 1 ==> m.trace[i] != WorkerMigrationFail
  {
    var m := LiveMigration(env, h, ctId, force, skipCpuCheck, preDump);
    FailedTrace(env, h, ctId, force, skipCpuCheck, preDump);
    FailedCalls(env, h, ctId, force, skipCpuCheck, preDump);
    PrepNotLate(env, force, skipCpuCheck);
    forall i | |h| <= i < |m.trace| - 1
      ensures m.trace[i] != WorkerMigrationFail
    {
      assert m.trace[i] == m.trace[|h|..][i - |h|];
    }
  }

  /**
   * ... and the error `start_live_migration` re-raises is the very failure of the guarded
   * call made just before the hook.
   */
  lemma HookReRaises(env: Env, h: seq<Event>, ctId: string, force: bool, skipCpuCheck: bool, preDump: PreDumpMode)
    requires LiveMigration(env, h, ctId, force, skipCpuCheck, preDump).result.Fail?
    requires |LiveMigration(env, h, ctId, force, skipCpuCheck, preDump).trace| >
      |h| + |Calls(DumpedSteps(env, force, skipCpuCheck, UsePreDumps(preDump)))|
    ensures var m := LiveMigration(env, h, ctId, force, skipCpuCheck, preDump);
      var n := |m.trace|;
      n >= |h| + 2 && GuardKind(m.trace[n - 2]) && m.result == Fail(CallFailed(m.trace[n - 2]))
  {
    var use := UsePreDumps(preDump);
    CallsAppend(PrepSteps(env, force, skipCpuCheck), DumpSteps(use));
    DumpAllDo(use, ctId);
    GuardedHook(env, h, PrepSteps(env, force, skipCpuCheck), DumpSteps(use), CriticalSteps(ctId), CleanupSteps(),
      force, ForceAfterCpuCheck(env, force, skipCpuCheck));
    GuardCalls(ctId);
  }

  /**
   * For any scripts whose guarded section makes calls only: a failure after the dump
   * re-raises the failure of the guarded call made just before the hook.
   */
  lemma GuardedHook(env: Env, h: seq<Event>, prep: seq<Step>, dump: seq<Step>, critical: seq<Step>,
                    cleanup: seq<Step>, force: bool, force': bool)
    requires AllDo(critical)
    requires Guarded(env, h, prep, dump, critical, cleanup, force, force').result.Fail?
    requires |Guarded(env, h, prep, dump, critical, cleanup, force, force').trace| >
      |h| + |Calls(prep)| + |Calls(dump)|
    ensures |Guarded(env, h, prep, dump, critical, cleanup, force, force').trace| >= |h| + 2
    ensures var t := Guarded(env, h, prep, dump, critical, cleanup, force, force').trace;
      t[|t| - 2] in Calls(critical)
    ensures var m := Guarded(env, h, prep, dump, critical, cleanup, force, force');
      m.result == Fail(CallFailed(m.trace[|m.trace| - 2]))
  {
    var c := GuardedPastDump(env, h, prep, dump, critical, cleanup, force, force');
  }

  /**
   * A guarded run that fails after more calls than the preparation and the dump
   * can make failed in the guarded section `c`, on that section's last call.
   */
  lemma GuardedPastDump(env: Env, h: seq<Event>, prep: seq<Step>, dump: seq<Step>, critical: seq<Step>,
                        cleanup: seq<Step>, force: bool, force': bool) returns (c: Run)
    requires AllDo(critical)
    requires Guarded(env, h, prep, dump, critical, cleanup, force, force').result.Fail?
    requires |Guarded(env, h, prep, dump, critical, cleanup, force, force').trace| >
      |h| + |Calls(prep)| + |Calls(dump)|
    ensures c.failure.Some? && |c.trace| > |h|
    ensures c.trace[|c.trace| - 1] in Calls(critical) && c.failure.value == CallFailed(c.trace[|c.trace| - 1])
    ensures var m := Guarded(env, h, prep, dump, critical, cleanup, force, force');
      |m.trace| == |c.trace| + 1 && m.trace[|m.trace| - 2] == c.trace[|c.trace| - 1] &&
      m.result == Fail(c.failure.value)
  {
    var p := RunSteps(env, h, prep);
    RunStepsLength(env, h, prep);
    var d := RunSteps(env, p.trace, dump);
    RunStepsLength(env, p.trace, dump);
    c := RunSteps(env, d.trace, critical);
    CallsFailLast(env, d.trace, critical);
  }

  /** A run makes no more calls than its script, and all of them when nothing stops it. */
  lemma RunStepsLength(env: Env, h: seq<Event>, steps: seq<Step>)
    ensures var r := RunSteps(env, h, steps);
      |h| <= |r.trace| <= |h| + |Calls(steps)| && (r.failure.None? ==> |r.trace| == |h| + |Calls(steps)|)
  {
    RunStepsShape(env, h, steps);
  }

  /** A script of calls that fails stops on its last call made, one of the script's calls. */
  lemma CallsFailLast(env: Env, t: seq<Event>, steps: seq<Step>)
    requires AllDo(steps)
    ensures var c := RunSteps(env, t, steps);
      c.failure.Some? ==>
        |c.trace| > |t| && c.trace[|c.trace| - 1] in Calls(steps) &&
        c.failure.value == CallFailed(c.trace[|c.trace| - 1])
  {
    var c := RunSteps(env, t, steps);
    DoRunFails(env, t, steps);
    RunStepsShape(env, t, steps);
    if c.failure.Some? {
      var k := |c.trace| - |t|;
      assert c.trace[|c.trace| - 1] == Calls(steps)[k - 1];
    }
  }

  /** A run stops either on a call that raised or on a failing check of its script. */
  lemma {:induction false} RunStepsError(env: Env, h: seq<Event>, steps: seq<Step>)
    ensures var r := RunSteps(env, h, steps);
      r.failure.Some? ==> r.failure.value.CallFailed? || Require(false, r.failure.value) in steps
    decreases |steps|
  {
    if steps != [] {
      match steps[0]
      case Do(e) =>
        if !Raises(env, h, e) {
          RunStepsError(env, h + [e], steps[1..]);
        }
      case Require(ok, err) =>
        if ok {
          RunStepsError(env, h, steps[1..]);
        }
    }
  }

  lemma {:induction false} LoopAllDo(use: bool, n: nat)
    requires n <= MaxPreDumpIters
    ensures AllDo(LoopFrom(use, n))
    decreases MaxPreDumpIters - n
  {
    if use && n + 1 <= MaxPreDumpIters {
      LoopAllDo(use, n + 1);
    }
  }

  /** Everything after the CPU check is a plain call: only a raising call can stop it. */
  lemma DumpAllDo(use: bool, ctId: string)
    ensures AllDo(DumpSteps(use)) && AllDo(CriticalSteps(ctId))
  {
    LoopAllDo(use, FirstIter);
  }

  /**
   * What `start_live_migration` raises: the exception of a collaborator call, "Can't dump
   * cpuinfo" after an unsuccessful dump, or "CPUs mismatch" after the peer's refusal;
   * in particular never the name errors of the CRIU version check, which it does not call.
   */
  lemma MigrationErrors(env: Env, h: seq<Event>, ctId: string, force: bool, skipCpuCheck: bool, preDump: PreDumpMode)
    ensures var m := LiveMigration(env, h, ctId, force, skipCpuCheck, preDump);
      var checks := ChecksCpu(force, skipCpuCheck) && !CpuinfoUnsupported(env.cpuinfo);
      m.result.Fail? ==>
        m.result.error.CallFailed? ||
        (m.result.error == CpuinfoDumpFailed && checks && !env.cpuinfo.success) ||
        (m.result.error == CpusMismatch && checks && env.cpuinfo.success && !env.cpusMatch)
  {
    var use := UsePreDumps(preDump);
    var prep := RunSteps(env, h, PrepSteps(env, force, skipCpuCheck));
    RunStepsError(env, h, PrepSteps(env, force, skipCpuCheck));
    DumpAllDo(use, ctId);
    if prep.failure.None? {
      var dump := RunSteps(env, prep.trace, DumpSteps(use));
      RunStepsError(env, prep.trace, DumpSteps(use));
      if dump.failure.None? {
        RunStepsError(env, dump.trace, CriticalSteps(ctId));
      }
    }
  }

  lemma {:induction false} CountPrefix(a: seq<Event>, b: seq<Event>, e: Event)
    requires a <= b
    ensures Count(a, e) <= Count(b, e)
    decreases |a|
  {
    if a != [] {
      assert a[1..] <= b[1..];
      CountPrefix(a[1..], b[1..], e);
    }
  }

  lemma CountNone(es: seq<Event>, e: Event)
    requires forall i :: 0 <= i < |es| ==> es[i] != e
    ensures Count(es, e) == 0
  {
    CountZero(es, e);
  }

  /** How often `e` is among the calls after the CPU check, part by part. */
  lemma DumpCount(use: bool, e: Event)
    ensures Count(Calls(DumpSteps(use)), e) ==
      Count(StartCalls(use), e) + Count(Calls(PreDumpSteps(use)), e) + Count(FinalCalls(), e)
  {
    DumpLayout(use);
    CountAppend(StartCalls(use) + Calls(PreDumpSteps(use)), FinalCalls(), e);
    CountAppend(StartCalls(use), Calls(PreDumpSteps(use)), e);
  }

  /** How often `e` is among the calls up to the restore, part by part. */
  lemma MainCount(env: Env, ctId: string, force: bool, skipCpuCheck: bool, use: bool, e: Event)
    ensures Count(Calls(MainSteps(env, ctId, force, skipCpuCheck, use)), e) ==
      Count([ImgWorkDir, FsSetWorkDir] + CpuCalls(env, force, skipCpuCheck), e) + Count(Calls(DumpSteps(use)), e) +
      Count(Calls(CriticalSteps(ctId)), e)
  {
    PrepCalls(env, force, skipCpuCheck);
    CallsAppend(PrepSteps(env, force, skipCpuCheck), DumpSteps(use));
    CallsAppend(DumpedSteps(env, force, skipCpuCheck, use), CriticalSteps(ctId));
    CountAppend(Calls(PrepSteps(env, force, skipCpuCheck)) + Calls(DumpSteps(use)), Calls(CriticalSteps(ctId)), e);
    CountAppend(Calls(PrepSteps(env, force, skipCpuCheck)), Calls(DumpSteps(use)), e);
  }

  /**
   * A successful run makes a call that is not a cleanup call exactly as often as the calls
   * up to the restore hold it.
   */
  lemma PassedNewCount(env: Env, h: seq<Event>, ctId: string, force: bool, skipCpuCheck: bool, preDump: PreDumpMode, e: Event)
    requires LiveMigration(env, h, ctId, force, skipCpuCheck, preDump).result.Pass? && !CleanupKind(e)
    ensures h <= LiveMigration(env, h, ctId, force, skipCpuCheck, preDump).trace
    ensures var m := LiveMigration(env, h, ctId, force, skipCpuCheck, preDump);
      Count(m.trace[|h|..], e) == Count(Calls(MainSteps(env, ctId, force, skipCpuCheck, UsePreDumps(preDump))), e)
  {
    PassedTrace(env, h, ctId, force, skipCpuCheck, preDump);
    CleanupOnly(e);
    PassedCount(h, Calls(MainSteps(env, ctId, force, skipCpuCheck, UsePreDumps(preDump))), Calls(CleanupSteps()),
      LiveMigration(env, h, ctId, force, skipCpuCheck, preDump).trace, e);
  }

  /**
   * Any run makes a call other than the hook no more often than the calls up to the restore
   * and the cleanup together hold it.
   */
  lemma NewCountBound(env: Env, h: seq<Event>, ctId: string, force: bool, skipCpuCheck: bool, preDump: PreDumpMode, e: Event)
    requires e != WorkerMigrationFail
    ensures h <= LiveMigration(env, h, ctId, force, skipCpuCheck, preDump).trace
    ensures var m := LiveMigration(env, h, ctId, force, skipCpuCheck, preDump);
      Count(m.trace[|h|..], e) <=
        Count(Calls(MainSteps(env, ctId, force, skipCpuCheck, UsePreDumps(preDump))), e) + Count(Calls(CleanupSteps()), e)
  {
    if LiveMigration(env, h, ctId, force, skipCpuCheck, preDump).result.Pass? {
      PassedTrace(env, h, ctId, force, skipCpuCheck, preDump);
      PassedCount(h, Calls(MainSteps(env, ctId, force, skipCpuCheck, UsePreDumps(preDump))), Calls(CleanupSteps()),
        LiveMigration(env, h, ctId, force, skipCpuCheck, preDump).trace, e);
    } else {
      FailedCountBound(env, h, ctId, force, skipCpuCheck, preDump, e);
    }
  }

  lemma FailedCountBound(env: Env, h: seq<Event>, ctId: string, force: bool, skipCpuCheck: bool, preDump: PreDumpMode, e: Event)
    requires e != WorkerMigrationFail && LiveMigration(env, h, ctId, force, skipCpuCheck, preDump).result.Fail?
    ensures h <= LiveMigration(env, h, ctId, force, skipCpuCheck, preDump).trace
    ensures var m := LiveMigration(env, h, ctId, force, skipCpuCheck, preDump);
      Count(m.trace[|h|..], e) <= Count(Calls(MainSteps(env, ctId, force, skipCpuCheck, UsePreDumps(preDump))), e)
  {
    var use := UsePreDumps(preDump);
    FailedTrace(env, h, ctId, force, skipCpuCheck, preDump);
    CallsAppend(DumpedSteps(env, force, skipCpuCheck, use), CriticalSteps(ctId));
    FailedCount(h, Calls(DumpedSteps(env, force, skipCpuCheck, use)), Calls(CriticalSteps(ctId)),
      LiveMigration(env, h, ctId, force, skipCpuCheck, preDump).trace, e);
  }

  lemma CleanupOnly(e: Event)
    requires !CleanupKind(e)
    ensures forall i :: 0 <= i < |Calls(CleanupSteps())| ==> Calls(CleanupSteps())[i] != e
  {
    GuardCleanupKinds("");
  }

  /** A successful run's count, over any calls. */
  lemma PassedCount(h: seq<Event>, main: seq<Event>, cleanup: seq<Event>, t: seq<Event>, e: Event)
    requires h + main <= t && t[|h + main|..] <= cleanup
    ensures Count(t[|h|..], e) <= Count(main, e) + Count(cleanup, e)
    ensures (forall i :: 0 <= i < |cleanup| ==> cleanup[i] != e) ==> Count(t[|h|..], e) == Count(main, e)
  {
    var rest := t[|h + main|..];
    assert t[|h|..] == main + rest;
    CountAppend(main, rest, e);
    CountPrefix(rest, cleanup, e);
    if forall i :: 0 <= i < |cleanup| ==> cleanup[i] != e {
      CountNone(rest, e);
    }
  }

  /** A failed run's count, over any calls. */
  lemma FailedCount(h: seq<Event>, dumped: seq<Event>, guard: seq<Event>, t: seq<Event>, e: Event)
    requires e != WorkerMigrationFail
    requires (h <= t <= h + dumped) ||
      (|t| > |h + dumped| + 1 && t[|t| - 1] == WorkerMigrationFail && h + dumped < t[..|t| - 1] <= h + dumped + guard)
    ensures h <= t && Count(t[|h|..], e) <= Count(dumped + guard, e)
  {
    if t <= h + dumped {
      EarlyPrefix(h, dumped, dumped + guard, t);
      CountPrefix(t[|h|..], dumped + guard, e);
    } else {
      HookedPrefix(h, dumped, guard, t);
      var s := t[|h|..];
      assert s == s[..|s| - 1] + [WorkerMigrationFail];
      CountAppend(s[..|s| - 1], [WorkerMigrationFail], e);
      assert s[..|s| - 1] == t[|h|..|t| - 1];
      CountPrefix(s[..|s| - 1], dumped + guard, e);
    }
  }

  /** How often `e` is among four calls. */
  lemma CountFour(a: Event, b: Event, c: Event, d: Event, e: Event)
    ensures Count([a, b, c, d], e) ==
      (if a == e then 1 else 0) + (if b == e then 1 else 0) + (if c == e then 1 else 0) + (if d == e then 1 else 0)
  {
    CountCons(a, [b, c, d], e);
    CountCons(b, [c, d], e);
    CountCons(c, [d], e);
    CountCons(d, [], e);
    assert [a] + [b, c, d] == [a, b, c, d] && [b] + [c, d] == [b, c, d] && [c] + [d] == [c, d] && [d] + [] == [d];
  }

  /**
   * A call of the dump's kinds that the guarded section does not make occurs in a run as
   * often as in the start, the pre-dump loop and the final dump bracket together.
   */
  lemma DumpOnlyCount(env: Env, ctId: string, force: bool, skipCpuCheck: bool, use: bool, e: Event, n: nat)
    requires DumpKind(e) && e != ImgSyncImages(false) && e != FsMntDiffSync
    requires Count(StartCalls(use), e) + Count(Calls(PreDumpSteps(use)), e) + Count(FinalCalls(), e) == n
    ensures Count(Calls(MainSteps(env, ctId, force, skipCpuCheck, use)), e) == n
    ensures Count(Calls(CleanupSteps()), e) == 0
  {
    DumpOnlyMain(env, ctId, force, skipCpuCheck, use, e);
    DumpCount(use, e);
  }

  /** A call of the dump's kinds that the guarded section does not make occurs up to the restore as often as in the dump. */
  lemma DumpOnlyMain(env: Env, ctId: string, force: bool, skipCpuCheck: bool, use: bool, e: Event)
    requires DumpKind(e) && e != ImgSyncImages(false) && e != FsMntDiffSync
    ensures Count(Calls(MainSteps(env, ctId, force, skipCpuCheck, use)), e) == Count(Calls(DumpSteps(use)), e)
    ensures Count(Calls(CleanupSteps()), e) == 0
  {
    DumpOnlyKinds(e);
    MainIsDump(env, ctId, force, skipCpuCheck, use, e);
    CleanupCountZero(e);
  }

  /** A call that neither the preparation nor the guarded section makes occurs up to the restore as often as in the dump. */
  lemma MainIsDump(env: Env, ctId: string, force: bool, skipCpuCheck: bool, use: bool, e: Event)
    requires !WorkDirCall(e) && !CpuCall(e) && (!GuardKind(e) || e == ImgSyncImages(true))
    ensures Count(Calls(MainSteps(env, ctId, force, skipCpuCheck, use)), e) == Count(Calls(DumpSteps(use)), e)
  {
    PrepCountZero(env, force, skipCpuCheck, e);
    GuardCountZero(ctId, e);
    MainCount(env, ctId, force, skipCpuCheck, use, e);
  }

  /** The cleanup makes no call of another kind. */
  lemma CleanupCountZero(e: Event)
    requires !CleanupKind(e)
    ensures Count(Calls(CleanupSteps()), e) == 0
  {
    CleanupOnly(e);
    CountNone(Calls(CleanupSteps()), e);
  }

  lemma DumpOnlyKinds(e: Event)
    requires DumpKind(e) && e != ImgSyncImages(false) && e != FsMntDiffSync
    ensures !WorkDirCall(e) && !CpuCall(e) && (!GuardKind(e) || e == ImgSyncImages(true)) && !CleanupKind(e)
  {
  }

  lemma PrepCountZero(env: Env, force: bool, skipCpuCheck: bool, e: Event)
    requires !WorkDirCall(e) && !CpuCall(e)
    ensures Count([ImgWorkDir, FsSetWorkDir] + CpuCalls(env, force, skipCpuCheck), e) == 0
  {
    var prep := [ImgWorkDir, FsSetWorkDir] + CpuCalls(env, force, skipCpuCheck);
    forall i | 0 <= i < |prep|
      ensures prep[i] != e
    {
      if i > 1 {
        assert prep[i] == CpuCalls(env, force, skipCpuCheck)[i - 2];
      }
    }
    CountNone(prep, e);
  }

  lemma GuardCountZero(ctId: string, e: Event)
    requires !GuardKind(e) || e == ImgSyncImages(true)
    ensures Count(Calls(CriticalSteps(ctId)), e) == 0
  {
    GuardCalls(ctId);
    CountNone(Calls(CriticalSteps(ctId)), e);
  }

  /** The start makes only the memory-tracking call among the calls of the dump's other kinds. */
  lemma StartCount(use: bool, e: Event)
    requires !e.StatsLive? && !e.StatsStart? && !e.FsStartMigration? && !e.StatsPreliminary?
    ensures Count(StartCalls(use), e) == if e == CriuMemoryTracking(use) then 1 else 0
  {
    CountCons(StatsLive, [CriuMemoryTracking(use), StatsStart, FsStartMigration, StatsPreliminary], e);
    CountFour(CriuMemoryTracking(use), StatsStart, FsStartMigration, StatsPreliminary, e);
  }

  /** How often the final dump bracket makes `e`. */
  lemma FinalCount(e: Event)
    ensures Count(FinalCalls(), e) ==
      if e == RpcStartIter(false) || e == ImgNewImageDir || e == WorkerFinalDump || e == RpcEndIter then 1 else 0
  {
    CountFour(RpcStartIter(false), ImgNewImageDir, WorkerFinalDump, RpcEndIter, e);
  }

  /** The pre-dump loop makes no call of another kind. */
  lemma LoopCountZero(use: bool, e: Event)
    requires !InLoop(e)
    ensures Count(Calls(PreDumpSteps(use)), e) == 0
  {
    LoopTotals(use);
    CountNone(Calls(PreDumpSteps(use)), e);
  }

  /** The pre-dumps of a run, by the run's calls up to the restore. */
  lemma PreDumpCallCount(env: Env, ctId: string, force: bool, skipCpuCheck: bool, use: bool)
    ensures Count(Calls(MainSteps(env, ctId, force, skipCpuCheck, use)), WorkerPreDump) == if use then 6 else 0
    ensures Count(Calls(CleanupSteps()), WorkerPreDump) == 0
  {
    LoopTotals(use);
    StartCount(use, WorkerPreDump);
    FinalCount(WorkerPreDump);
    DumpOnlyCount(env, ctId, force, skipCpuCheck, use, WorkerPreDump, if use then 6 else 0);
  }

  /** The intermediate image syncs of a run, by the run's calls up to the restore. */
  lemma SyncCallCount(env: Env, ctId: string, force: bool, skipCpuCheck: bool, use: bool)
    ensures Count(Calls(MainSteps(env, ctId, force, skipCpuCheck, use)), ImgSyncImages(true)) == if use then 6 else 0
  {
    LoopTotals(use);
    StartCount(use, ImgSyncImages(true));
    FinalCount(ImgSyncImages(true));
    DumpOnlyCount(env, ctId, force, skipCpuCheck, use, ImgSyncImages(true), if use then 6 else 0);
  }

  /**
   * With pre-dumps enabled a run dumps the memory in advance at most six times; with
   * pre-dumps disabled it never does.
   */
  lemma PreDumpBound(env: Env, h: seq<Event>, ctId: string, force: bool, skipCpuCheck: bool, preDump: PreDumpMode)
    ensures h <= LiveMigration(env, h, ctId, force, skipCpuCheck, preDump).trace
    ensures var m := LiveMigration(env, h, ctId, force, skipCpuCheck, preDump);
      Count(m.trace[|h|..], WorkerPreDump) <= if UsePreDumps(preDump) then 6 else 0
  {
    PreDumpCallCount(env, ctId, force, skipCpuCheck, UsePreDumps(preDump));
    NewCountBound(env, h, ctId, force, skipCpuCheck, preDump, WorkerPreDump);
  }

  /** A successful run with pre-dumps enabled made exactly six pre-dumps; with pre-dumps disabled, none. */
  lemma PreDumpsDone(env: Env, h: seq<Event>, ctId: string, force: bool, skipCpuCheck: bool, preDump: PreDumpMode)
    requires LiveMigration(env, h, ctId, force, skipCpuCheck, preDump).result.Pass?
    ensures h <= LiveMigration(env, h, ctId, force, skipCpuCheck, preDump).trace
    ensures var m := LiveMigration(env, h, ctId, force, skipCpuCheck, preDump);
      Count(m.trace[|h|..], WorkerPreDump) == if UsePreDumps(preDump) then 6 else 0
  {
    PassedNewCount(env, h, ctId, force, skipCpuCheck, preDump, WorkerPreDump);
    PreDumpCallCount(env, ctId, force, skipCpuCheck, UsePreDumps(preDump));
  }

  /** ... and as many intermediate image syncs. */
  lemma SyncsDone(env: Env, h: seq<Event>, ctId: string, force: bool, skipCpuCheck: bool, preDump: PreDumpMode)
    requires LiveMigration(env, h, ctId, force, skipCpuCheck, preDump).result.Pass?
    ensures h <= LiveMigration(env, h, ctId, force, skipCpuCheck, preDump).trace
    ensures var m := LiveMigration(env, h, ctId, force, skipCpuCheck, preDump);
      Count(m.trace[|h|..], ImgSyncImages(true)) == if UsePreDumps(preDump) then 6 else 0
  {
    PassedNewCount(env, h, ctId, force, skipCpuCheck, preDump, ImgSyncImages(true));
    SyncCallCount(env, ctId, force, skipCpuCheck, UsePreDumps(preDump));
  }

  /** The memory-tracking calls of a run, by the run's calls up to the restore: one, with the decision. */
  lemma MemTrackCallCount(env: Env, ctId: string, force: bool, skipCpuCheck: bool, use: bool, enabled: bool)
    ensures Count(Calls(MainSteps(env, ctId, force, skipCpuCheck, use)), CriuMemoryTracking(enabled)) ==
      if enabled == use then 1 else 0
    ensures Count(Calls(CleanupSteps()), CriuMemoryTracking(enabled)) == 0
  {
    var e := CriuMemoryTracking(enabled);
    LoopCountZero(use, e);
    StartCount(use, e);
    FinalCount(e);
    DumpOnlyCount(env, ctId, force, skipCpuCheck, use, e, if enabled == use then 1 else 0);
  }

  /** `memory_tracking` is told the pre-dump decision at most once ... */
  lemma MemoryTrackingOnce(env: Env, h: seq<Event>, ctId: string, force: bool, skipCpuCheck: bool, preDump: PreDumpMode)
    ensures h <= LiveMigration(env, h, ctId, force, skipCpuCheck, preDump).trace
    ensures var m := LiveMigration(env, h, ctId, force, skipCpuCheck, preDump);
      Count(m.trace[|h|..], CriuMemoryTracking(UsePreDumps(preDump))) <= 1
  {
    var use := UsePreDumps(preDump);
    NewCountBound(env, h, ctId, force, skipCpuCheck, preDump, CriuMemoryTracking(use));
    MemTrackCallCount(env, ctId, force, skipCpuCheck, use, use);
  }

  /** ... and never the opposite of it. */
  lemma MemoryTrackingNeverOpposite(env: Env, h: seq<Event>, ctId: string, force: bool, skipCpuCheck: bool, preDump: PreDumpMode)
    ensures h <= LiveMigration(env, h, ctId, force, skipCpuCheck, preDump).trace
    ensures var m := LiveMigration(env, h, ctId, force, skipCpuCheck, preDump);
      Count(m.trace[|h|..], CriuMemoryTracking(!UsePreDumps(preDump))) == 0
  {
    var use := UsePreDumps(preDump);
    NewCountBound(env, h, ctId, force, skipCpuCheck, preDump, CriuMemoryTracking(!use));
    MemTrackCallCount(env, ctId, force, skipCpuCheck, use, !use);
  }

  /** A successful run told `memory_tracking` the decision exactly once. */
  lemma MemoryTrackingDone(env: Env, h: seq<Event>, ctId: string, force: bool, skipCpuCheck: bool, preDump: PreDumpMode)
    requires LiveMigration(env, h, ctId, force, skipCpuCheck, preDump).result.Pass?
    ensures h <= LiveMigration(env, h, ctId, force, skipCpuCheck, preDump).trace
    ensures var m := LiveMigration(env, h, ctId, force, skipCpuCheck, preDump);
      Count(m.trace[|h|..], CriuMemoryTracking(UsePreDumps(preDump))) == 1
  {
    var use := UsePreDumps(preDump);
    PassedNewCount(env, h, ctId, force, skipCpuCheck, preDump, CriuMemoryTracking(use));
    MemTrackCallCount(env, ctId, force, skipCpuCheck, use, use);
  }

  /** The final dumps of a run, by the run's calls up to the restore: exactly one. */
  lemma FinalDumpCallCount(env: Env, ctId: string, force: bool, skipCpuCheck: bool, use: bool)
    ensures Count(Calls(MainSteps(env, ctId, force, skipCpuCheck, use)), WorkerFinalDump) == 1
    ensures Count(Calls(CleanupSteps()), WorkerFinalDump) == 0
  {
    LoopCountZero(use, WorkerFinalDump);
    StartCount(use, WorkerFinalDump);
    FinalCount(WorkerFinalDump);
    DumpOnlyCount(env, ctId, force, skipCpuCheck, use, WorkerFinalDump, 1);
  }

  /** A run dumps the container for the last time at most once ... */
  lemma FinalDumpOnce(env: Env, h: seq<Event>, ctId: string, force: bool, skipCpuCheck: bool, preDump: PreDumpMode)
    ensures h <= LiveMigration(env, h, ctId, force, skipCpuCheck, preDump).trace
    ensures var m := LiveMigration(env, h, ctId, force, skipCpuCheck, preDump);
      Count(m.trace[|h|..], WorkerFinalDump) <= 1
  {
    NewCountBound(env, h, ctId, force, skipCpuCheck, preDump, WorkerFinalDump);
    FinalDumpCallCount(env, ctId, force, skipCpuCheck, UsePreDumps(preDump));
  }

  /** ... and exactly once when it succeeds. */
  lemma FinalDumpDone(env: Env, h: seq<Event>, ctId: string, force: bool, skipCpuCheck: bool, preDump: PreDumpMode)
    requires LiveMigration(env, h, ctId, force, skipCpuCheck, preDump).result.Pass?
    ensures h <= LiveMigration(env, h, ctId, force, skipCpuCheck, preDump).trace
    ensures var m := LiveMigration(env, h, ctId, force, skipCpuCheck, preDump);
      Count(m.trace[|h|..], WorkerFinalDump) == 1
  {
    PassedNewCount(env, h, ctId, force, skipCpuCheck, preDump, WorkerFinalDump);
    FinalDumpCallCount(env, ctId, force, skipCpuCheck, UsePreDumps(preDump));
  }

  /** The iterations opened on the peer in a run, by its calls up to the restore: the loop's and the final one. */
  lemma StartIterCallCount(env: Env, ctId: string, force: bool, skipCpuCheck: bool, use: bool)
    ensures Count(Calls(MainSteps(env, ctId, force, skipCpuCheck, use)), RpcStartIter(false)) == if use then 7 else 1
  {
    LoopTotals(use);
    StartCount(use, RpcStartIter(false));
    FinalCount(RpcStartIter(false));
    DumpOnlyCount(env, ctId, force, skipCpuCheck, use, RpcStartIter(false), if use then 7 else 1);
  }

  /** The iterations closed on the peer in a run, by its calls up to the restore. */
  lemma EndIterCallCount(env: Env, ctId: string, force: bool, skipCpuCheck: bool, use: bool)
    ensures Count(Calls(MainSteps(env, ctId, force, skipCpuCheck, use)), RpcEndIter) == if use then 6 else 1
  {
    LoopTotals(use);
    StartCount(use, RpcEndIter);
    FinalCount(RpcEndIter);
    DumpOnlyCount(env, ctId, force, skipCpuCheck, use, RpcEndIter, if use then 6 else 1);
  }

  /**
   * A successful run opened an iteration on the peer seven times with pre-dumps (six passes
   * and the final dump) and closed one six times, since the last pass leaves the loop
   * before its `end_iter`; without pre-dumps it opened and closed one once each.
   */
  lemma BracketsDone(env: Env, h: seq<Event>, ctId: string, force: bool, skipCpuCheck: bool, preDump: PreDumpMode)
    requires LiveMigration(env, h, ctId, force, skipCpuCheck, preDump).result.Pass?
    ensures h <= LiveMigration(env, h, ctId, force, skipCpuCheck, preDump).trace
    ensures var m := LiveMigration(env, h, ctId, force, skipCpuCheck, preDump);
      var use := UsePreDumps(preDump);
      Count(m.trace[|h|..], RpcStartIter(false)) == (if use then 7 else 1) &&
      Count(m.trace[|h|..], RpcEndIter) == (if use then 6 else 1)
  {
    PassedNewCount(env, h, ctId, force, skipCpuCheck, preDump, RpcStartIter(false));
    PassedNewCount(env, h, ctId, force, skipCpuCheck, preDump, RpcEndIter);
    StartIterCallCount(env, ctId, force, skipCpuCheck, UsePreDumps(preDump));
    EndIterCallCount(env, ctId, force, skipCpuCheck, UsePreDumps(preDump));
  }

  // ---------------------------------------------------------------------------
  // The controller

  /** The directories `get_fs` hands to the filesystem driver once the worker is loaded. */
  function DriverPaths(fs: DockerWorker.FileSystem, res: DockerWorker.Resolved): seq<string> {
    DockerWorker.PathList(DockerWorker.DirsOf(res), DockerWorker.ConfigDir(res.fullId),
      DockerWorker.ImageMetaDir(res.imageId) in fs.existing)
  }

  /**
   * The calls of `__init__` once the worker is loaded: the filesystem driver is built for
   * `paths` and must be truthy, then the image manager is built and the peer is set up.
   */
  function SetupSteps(env: Env, paths: seq<string>, ctId: string, mode: string): seq<Step> {
    [Do(FsCreate(paths)), Require(env.fsDriver(paths), NoFsDriver), Do(ImgCreate), Do(RpcSetup(ctId, mode))]
  }

  /**
   * The set-up succeeds exactly when the driver is built and truthy and neither the image
   * manager nor the peer's setup raises, and then it has made those three calls;
   * "No fs driver found!" is raised exactly when the driver is built but falsy.
   */
  lemma SetupRuns(env: Env, paths: seq<string>, ctId: string, mode: string)
    ensures var run := RunSteps(env, [], SetupSteps(env, paths, ctId, mode));
      (run.failure.None? <==>
        !Raises(env, [], FsCreate(paths)) && env.fsDriver(paths) &&
        !Raises(env, [FsCreate(paths)], ImgCreate) && !Raises(env, [FsCreate(paths), ImgCreate], RpcSetup(ctId, mode))) &&
      (run.failure == Some(NoFsDriver) <==> !Raises(env, [], FsCreate(paths)) && !env.fsDriver(paths)) &&
      (run.failure.None? ==> run.trace == [FsCreate(paths), ImgCreate, RpcSetup(ctId, mode)])
  {
    var s := SetupSteps(env, paths, ctId, mode);
    var f, g := FsCreate(paths), RpcSetup(ctId, mode);
    var s1 := s[1..];
    var s2 := s1[1..];
    var s3 := s2[1..];
    assert s1 == [Require(env.fsDriver(paths), NoFsDriver), Do(ImgCreate), Do(g)];
    assert s2 == [Do(ImgCreate), Do(g)] && s3 == [Do(g)];
    assert [] + [f] == [f] && [f] + [ImgCreate] == [f, ImgCreate] && [f, ImgCreate] + [g] == [f, ImgCreate, g];
    if !Raises(env, [], f) {
      assert RunSteps(env, [], s) == RunSteps(env, [f], s1);
      if env.fsDriver(paths) {
        assert RunSteps(env, [f], s1) == RunSteps(env, [f], s2);
        if !Raises(env, [f], ImgCreate) {
          assert RunSteps(env, [f], s2) == RunSteps(env, [f, ImgCreate], s3);
          if !Raises(env, [f, ImgCreate], g) {
            assert RunSteps(env, [f, ImgCreate], s3) == RunSteps(env, [f, ImgCreate, g], []);
          }
        }
      }
    }
  }

  /** `migration_iter_controller`. */
  class Controller {
    const worker: DockerWorker.Worker
    const env: Env
    const mode: string
    /** The directories the filesystem driver was built for. */
    const fsPaths: seq<string>
    /** Every collaborator call made so far. */
    var trace: seq<Event>
    var force: bool
    var skipCpuCheck: bool
    var skipCriuCheck: bool
    var preDump: PreDumpMode
    var targetHost: string

    constructor (worker: DockerWorker.Worker, env: Env, mode: string, fsPaths: seq<string>)
      ensures this.worker == worker && this.env == env && this.mode == mode && this.fsPaths == fsPaths
      ensures trace == [] && !force && !skipCpuCheck && !skipCriuCheck && preDump == AutoDetect
    {
      this.worker := worker;
      this.env := env;
      this.mode := mode;
      this.fsPaths := fsPaths;
      trace := [];
      force, skipCpuCheck, skipCriuCheck, preDump, targetHost := false, false, false, AutoDetect, "";
    }

    /**
     * `migration_iter_controller(ct_id, dst_id, connection, mode)`: build and load the worker,
     * build the filesystem driver for the worker's directories, build the image manager,
     * then set the peer up.
     */
    static method Setup(ctId: string, mode: string, env: Env, fs: DockerWorker.FileSystem) returns (r: Result<Controller, Error>)
      ensures |ctId| < DockerWorker.MinIdLength ==> r == Err(WorkerFailed(DockerWorker.IdTooShort))
      ensures var res := DockerWorker.Resolve(fs, ctId);
        |ctId| >= DockerWorker.MinIdLength && res.Err? ==> r == Err(WorkerFailed(res.error))
      ensures var res := DockerWorker.Resolve(fs, ctId);
        |ctId| >= DockerWorker.MinIdLength && res.Ok? ==>
          var paths := DriverPaths(fs, res.value);
          var run := RunSteps(env, [], SetupSteps(env, paths, ctId, mode));
          if run.failure.Some? then r == Err(run.failure.value)
          else (r.Ok? && fresh(r.value) && fresh(r.value.worker) && r.value.fsPaths == paths &&
                r.value.worker.ctId == ctId && r.value.worker.Loaded(res.value) &&
                r.value.mode == mode && r.value.env == env && r.value.trace == run.trace)
    {
      var created := DockerWorker.Worker.Create(ctId);
      if created.Err? {
        return Err(WorkerFailed(created.error));
      }
      var worker := created.value;
      var loaded := worker.InitSrc(fs);
      if loaded.Fail? {
        return Err(WorkerFailed(loaded.error));
      }
      var paths := worker.GetFs(fs);
      var c := new Controller(worker, env, mode, paths);
      var step := c.Connect(ctId);
      if step.Fail? {
        return Err(step.error);
      }
      return Ok(c);
    }

    /**
     * The calls `migration_iter_controller` makes once the worker is loaded: build the
     * filesystem driver, raise "No fs driver found!" when it is falsy, build the image
     * manager, then set the peer up.
     */
    method Connect(ctId: string) returns (r: Outcome<Error>)
      modifies this`trace
      requires trace == []
      ensures var run := RunSteps(env, [], SetupSteps(env, fsPaths, ctId, mode));
        trace == run.trace && Failure(r) == run.failure
    {
      ghost var todo := SetupSteps(env, fsPaths, ctId, mode);
      r := Perform(FsCreate(fsPaths), todo);
      if r.Fail? {
        return;
      }
      todo := todo[1..];
      if !env.fsDriver(fsPaths) {
        return Fail(NoFsDriver);
      }
      todo := todo[1..];
      r := Perform(ImgCreate, todo);
      if r.Fail? {
        return;
      }
      todo := todo[1..];
      r := Perform(RpcSetup(ctId, mode), todo);
    }

    /** One collaborator call, the next step of the script `todo`. */
    method Perform(e: Event, ghost todo: seq<Step>) returns (r: Outcome<Error>)
      modifies this`trace
      requires todo != [] && todo[0] == Do(e)
      ensures trace == old(trace) + [e]
      ensures r.Pass? <==> !Raises(env, old(trace), e)
      ensures r.Fail? ==> r.error == CallFailed(e) && RunSteps(env, old(trace), todo) == Run(trace, Some(r.error))
      ensures r.Pass? ==> RunSteps(env, old(trace), todo) == RunSteps(env, trace, todo[1..])
    {
      var raised := Raises(env, trace, e);
      trace := trace + [e];
      r := if raised then Fail(CallFailed(e)) else Pass;
    }

    /** `set_options`: the options are stored, then passed to each collaborator in turn. */
    method SetOptions(opts: Options) returns (r: Outcome<Error>)
      modifies this`force, this`skipCpuCheck, this`skipCriuCheck, this`preDump, this`targetHost, this`trace
      ensures force == opts.force && skipCpuCheck == opts.skipCpuCheck && skipCriuCheck == opts.skipCriuCheck
      ensures preDump == opts.preDump && targetHost == opts.targetHost
      ensures var run := RunSteps(env, old(trace), OptionSteps(env));
        run == Run(trace, Failure(r))
    {
      force, skipCpuCheck, skipCriuCheck, preDump, targetHost :=
        opts.force, opts.skipCpuCheck, opts.skipCriuCheck, opts.preDump, opts.targetHost;
      r := PassOptions();
    }

    /**
     * The calls of `set_options`: the filesystem driver's, then the image manager's when it
     * is truthy, then the CRIU connection's and the peer's when the connection is truthy.
     */
    method PassOptions() returns (r: Outcome<Error>)
      modifies this`trace
      ensures var run := RunSteps(env, old(trace), OptionSteps(env));
        run == Run(trace, Failure(r))
    {
      ghost var todo := OptionSteps(env);
      r := Perform(FsSetOptions, todo);
      if r.Fail? { return; }
      todo := todo[1..];
      if env.imgPresent {
        r := Perform(ImgSetOptions, todo);
        if r.Fail? { return; }
        todo := todo[1..];
      }
      assert todo == if env.criuPresent then [Do(CriuSetOptions), Do(RpcSetOptions)] else [];
      if env.criuPresent {
        r := Perform(CriuSetOptions, todo);
        if r.Fail? { return; }
        todo := todo[1..];
        r := Perform(RpcSetOptions, todo);
      }
    }

    /** `__validate_cpu`. */
    method ValidateCpu() returns (r: Outcome<Error>)
      modifies this`trace, this`force
      ensures var run := RunSteps(env, old(trace), CpuSteps(env, old(force), skipCpuCheck));
        run == Run(trace, Failure(r))
      ensures force == if r.Pass? then ForceAfterCpuCheck(env, old(force), skipCpuCheck) else old(force)
    {
      if skipCpuCheck || force {
        return Pass;
      }
      ghost var todo := CpuSteps(env, force, skipCpuCheck);
      r := Perform(CriuCpuinfoDump, todo);
      if r.Fail? { return; }
      todo := todo[1..];
      var resp := env.cpuinfo;
      if resp.crErrno.Some? && resp.crErrno.value == ENOTSUP {
        force := true;
        return;
      }
      if !resp.success {
        return Fail(CpuinfoDumpFailed);
      }
      r := Perform(ImgSendCpuinfo, todo);
      if r.Fail? { return; }
      todo := todo[1..];
      r := Perform(RpcCheckCpuinfo, todo);
      if r.Fail? { return; }
      if !env.cpusMatch {
        return Fail(CpusMismatch);
      }
    }

    /** `__validate_criu_version`: unless skipped, its first call names the unbound `criu_api`. */
    method ValidateCriuVersion() returns (r: Outcome<Error>)
      ensures r.Pass? <==> skipCriuCheck || force
      ensures r.Fail? ==> r.error == UnboundName("criu_api")
    {
      if skipCriuCheck || force {
        return Pass;
      }
      r := Fail(UnboundName("criu_api"));
    }

    /** `__check_support_mem_track` as written: the module name `criu_req` is not bound. */
    method CheckSupportMemTrack() returns (r: Result<bool, Error>)
      ensures r.Err? && r.error == UnboundName("criu_req")
    {
      r := Err(UnboundName("criu_req"));
    }

    /** `__check_use_pre_dumps`: decide, then tell CRIU whether to track memory. */
    method CheckUsePreDumps() returns (use: bool, r: Outcome<Error>)
      modifies this`trace
      ensures use == UsePreDumps(preDump)
      ensures var run := RunSteps(env, old(trace), [Do(CriuMemoryTracking(use))]);
        run == Run(trace, Failure(r))
    {
      if preDump.AutoDetect? {
        var probe := CheckSupportMemTrack();
        use := AutoDecision(probe);
      } else {
        use := preDump.enabled;
      }
      r := Perform(CriuMemoryTracking(use), [Do(CriuMemoryTracking(use))]);
    }

    /** The pre-dump loop of `start_live_migration`. */
    method PreDumpLoop(use: bool) returns (r: Outcome<Error>)
      modifies this`trace
      ensures var run := RunSteps(env, old(trace), PreDumpSteps(use));
        run == Run(trace, Failure(r))
    {
      var iterCount := FirstIter;
      ghost var todo := PreDumpSteps(use);
      while use
        invariant 0 <= iterCount <= MaxPreDumpIters
        invariant todo == LoopFrom(use, iterCount)
        invariant RunSteps(env, old(trace), PreDumpSteps(use)) == RunSteps(env, trace, todo)
        decreases MaxPreDumpIters - iterCount
      {
        ghost var tail := if iterCount + 1 > MaxPreDumpIters then [] else [Do(RpcEndIter)] + LoopFrom(use, iterCount + 1);
        r := PreDumpPass(tail);
        if r.Fail? { return; }
        iterCount := iterCount + 1;
        if iterCount > MaxPreDumpIters {
          todo := [];
          break;
        }
        r := Perform(RpcEndIter, tail);
        if r.Fail? { return; }
        todo := LoopFrom(use, iterCount);
      }
      assert todo == [];
      r := Pass;
    }

    /** `handle_start`, the filesystem migration start and `handle_preliminary`, followed by the script `tail`. */
    method StartMigration(ghost tail: seq<Step>) returns (r: Outcome<Error>)
      modifies this`trace
      ensures var run := RunSteps(env, old(trace), StartSteps() + tail);
        if r.Fail? then run == Run(trace, Some(r.error)) else run == RunSteps(env, trace, tail)
    {
      ghost var todo := StartSteps() + tail;
      r := Perform(StatsStart, todo);
      if r.Fail? { return; }
      todo := todo[1..];
      r := Perform(FsStartMigration, todo);
      if r.Fail? { return; }
      todo := todo[1..];
      r := Perform(StatsPreliminary, todo);
      if r.Fail? { return; }
      assert todo[1..] == tail;
    }

    /** The calls of one pre-dump iteration, followed by the script `tail`. */
    method PreDumpPass(ghost tail: seq<Step>) returns (r: Outcome<Error>)
      modifies this`trace
      ensures var run := RunSteps(env, old(trace), PassSteps() + tail);
        if r.Fail? then run == Run(trace, Some(r.error)) else run == RunSteps(env, trace, tail)
    {
      ghost var todo := PassSteps() + tail;
      r := Perform(RpcStartIter(false), todo);
      if r.Fail? { return; }
      todo := todo[1..];
      r := Perform(ImgNewImageDir, todo);
      if r.Fail? { return; }
      todo := todo[1..];
      r := Perform(WorkerPreDump, todo);
      if r.Fail? { return; }
      todo := todo[1..];
      r := Perform(ImgSyncImages(true), todo);
      if r.Fail? { return; }
      todo := todo[1..];
      r := Perform(FsMntDiffSync, todo);
      if r.Fail? { return; }
      assert todo[1..] == tail;
    }

    /** The guarded section: on any failure the worker's `migration_fail` hook runs and the error propagates. */
    method RestoreOnTarget() returns (r: Outcome<Error>)
      modifies this`trace
      ensures var run := RunSteps(env, old(trace), CriticalSteps(worker.ctId));
        (r.Pass? <==> run.failure.None?) && (r.Fail? ==> r.error == run.failure.value) &&
        trace == if run.failure.Some? then run.trace + [WorkerMigrationFail] else run.trace
    {
      r := SyncAndRestore();
      if r.Fail? {
        trace := trace + [WorkerMigrationFail];
      }
    }

    /** The body of the guarded section: final sync, then the restore request. */
    method SyncAndRestore() returns (r: Outcome<Error>)
      modifies this`trace
      ensures var run := RunSteps(env, old(trace), CriticalSteps(worker.ctId));
        run == Run(trace, Failure(r))
    {
      ghost var todo := CriticalSteps(worker.ctId);
      r := Perform(FsStopMigration, todo);
      if r.Fail? { return; }
      todo := todo[1..];
      r := Perform(ImgSyncImages(false), todo);
      if r.Fail? { return; }
      todo := todo[1..];
      r := Perform(FsMntDiffSync, todo);
      if r.Fail? { return; }
      todo := todo[1..];
      r := Perform(RpcRestoreFromImages(worker.ctId, DockerWorker.CheckpointName(worker.ctId)), todo);
    }

    /** The final cleanup: the calls stop at the first exception, which is only logged. */
    method Cleanup()
      modifies this`trace
      ensures trace == RunSteps(env, old(trace), CleanupSteps()).trace
    {
      ghost var todo := CleanupSteps();
      var r := Perform(CriuGetDstats, todo);
      if r.Fail? { return; }
      todo := todo[1..];
      r := Perform(StatsIteration, todo);
      if r.Fail? { return; }
      todo := todo[1..];
      r := Perform(WorkerMigrationComplete, todo);
      if r.Fail? { return; }
      todo := todo[1..];
      r := Perform(StatsStop, todo);
      if r.Fail? { return; }
      todo := todo[1..];
      r := Perform(CriuClose, todo);
      if r.Fail? { return; }
      todo := todo[1..];
      r := Perform(ImgClose, todo);
    }

    /** The start of `start_live_migration`: the work directory, then `__validate_cpu`. */
    method Prepare() returns (r: Outcome<Error>)
      modifies this`trace, this`force
      ensures var prep := RunSteps(env, old(trace), PrepSteps(env, old(force), skipCpuCheck));
        prep == Run(trace, Failure(r))
      ensures force == if r.Pass? then ForceAfterCpuCheck(env, old(force), skipCpuCheck) else old(force)
    {
      ghost var todo := PrepSteps(env, force, skipCpuCheck);
      r := Perform(ImgWorkDir, todo);
      if r.Fail? { return; }
      todo := todo[1..];
      r := Perform(FsSetWorkDir, todo);
      if r.Fail? { return; }
      assert todo[1..] == CpuSteps(env, old(force), skipCpuCheck);
      r := ValidateCpu();
    }

    /** From the pre-dump decision to the final dump. */
    method DumpAll() returns (r: Outcome<Error>)
      modifies this`trace
      ensures var dump := RunSteps(env, old(trace), DumpSteps(UsePreDumps(preDump)));
        dump == Run(trace, Failure(r))
    {
      r := Perform(StatsLive, DumpSteps(UsePreDumps(preDump)));
      if r.Fail? { return; }
      ghost var t := trace;
      var use;
      use, r := CheckUsePreDumps();
      ghost var loopAndFinal := PreDumpSteps(use) + FinalDumpSteps();
      DumpStepsParts(use);
      RunStepsAppend(env, t, [Do(CriuMemoryTracking(use))], StartSteps() + loopAndFinal);
      if r.Fail? { return; }
      r := StartMigration(loopAndFinal);
      if r.Fail? { return; }
      RunStepsAppend(env, trace, PreDumpSteps(use), FinalDumpSteps());
      r := PreDumpLoop(use);
      if r.Fail? { return; }
      r := FinalDump();
    }

    /** The final dump, bracketed by an iteration on the peer. */
    method FinalDump() returns (r: Outcome<Error>)
      modifies this`trace
      ensures var run := RunSteps(env, old(trace), FinalDumpSteps());
        run == Run(trace, Failure(r))
    {
      ghost var todo := FinalDumpSteps();
      r := Perform(RpcStartIter(false), todo);
      if r.Fail? { return; }
      todo := todo[1..];
      r := Perform(ImgNewImageDir, todo);
      if r.Fail? { return; }
      todo := todo[1..];
      r := Perform(WorkerFinalDump, todo);
      if r.Fail? { return; }
      todo := todo[1..];
      r := Perform(RpcEndIter, todo);
    }

    /** `start_live_migration`. */
    method StartLiveMigration() returns (r: Outcome<Error>)
      modifies this`trace, this`force
      ensures var m := LiveMigration(env, old(trace), worker.ctId, old(force), skipCpuCheck, preDump);
        trace == m.trace && r == m.result && force == m.force
    {
      r := Prepare();
      if r.Fail? { return; }
      r := DumpAll();
      if r.Fail? { return; }
      r := RestoreOnTarget();
      if r.Fail? { return; }
      Cleanup();
    }
  }
}
