/** The training loop of `run`: after resolving where to resume, run every remaining iteration and,
    unless the planner is the random walk, add its samples to the aggregator and train the next
    checkpoint from the previous one. */
module Dagger {
  import opened Wrappers
  import opened Types
  import opened Effects
  import opened Planners
  import opened Resume
  import opened Iteration

  datatype RunConfig = RunConfig(
    planner: Planner,        // params['prediction']['dagger']['planner_type'], already checked
    resume: ResumeConfig,    // max_iter, the bootstrap dataset, bootstrap.epochs
    initEpochs: nat,         // params['prediction']['dagger']['init_epochs']
    itr: ItrConfig,          // what every iteration reads from params, conditions and world
    budget: nat)             // rollouts allowed per iteration (see ItrOutOfBudget)

  datatype RunError =
    | ResumeFailed(resumeError: ResumeError)
    | IterationFailed(itr: int, itrError: ItrError)
    | IterationOutOfBudget(itr: int)

  datatype RunOutcome =
    | RunDone(events: seq<Event>)
    | RunFailed(error: RunError, events: seq<Event>)

  /** Epochs of the training after iteration itr: the initial count for iterations 0 and 1. */
  function Epochs(cfg: RunConfig, itr: int): nat
  {
    if itr > 1 then cfg.resume.epochs else cfg.initEpochs
  }

  /** What follows a completed iteration. */
  function TrainEvents(cfg: RunConfig, itr: int): seq<Event>
  {
    if cfg.planner.Trains() then [AddData([ItrSamples(itr)]), Train(Some(itr - 1), itr, Epochs(cfg, itr))]
    else []
  }

  /** Specification of the loop from iteration itr on, having issued `events` so far. The world,
      the controllers and the operator may differ from one iteration to the next: envs(itr). */
  function LoopFrom(cfg: RunConfig, envs: int -> Env, itr: int, events: seq<Event>): RunOutcome
    decreases cfg.resume.maxIter - itr
  {
    if itr >= cfg.resume.maxIter then RunDone(events)
    else match ItrSpec(itr, cfg.itr, envs(itr), cfg.budget)
      case ItrDone(_, _, _, evs, _) => LoopFrom(cfg, envs, itr + 1, events + evs + TrainEvents(cfg, itr))
      case ItrFailed(e, evs) => RunFailed(IterationFailed(itr, e), events + evs)
      case ItrOutOfBudget(evs) => RunFailed(IterationOutOfBudget(itr), events + evs)
  }

  /** Specification of `run` on a save directory holding `disk`. */
  function RunSpec(disk: Disk, cfg: RunConfig, envs: int -> Env): RunOutcome
  {
    match ResolveSpec(disk, cfg.resume)
    case Err(e) => RunFailed(ResumeFailed(e), [])
    case Ok(r) => LoopFrom(cfg, envs, r.samplesStart, r.events)
  }

  lemma LoopFromStep(cfg: RunConfig, envs: int -> Env, itr: int, events: seq<Event>)
    requires itr < cfg.resume.maxIter
    ensures var o := ItrSpec(itr, cfg.itr, envs(itr), cfg.budget);
            LoopFrom(cfg, envs, itr, events)
            == match o
               case ItrDone(_, _, _, evs, _) => LoopFrom(cfg, envs, itr + 1, events + evs + TrainEvents(cfg, itr))
               case ItrFailed(e, evs) => RunFailed(IterationFailed(itr, e), events + evs)
               case ItrOutOfBudget(evs) => RunFailed(IterationOutOfBudget(itr), events + evs)
  {
  }

  /** `run`. */
  method Run(disk: Disk, cfg: RunConfig, envs: int -> Env) returns (out: RunOutcome)
    ensures out == RunSpec(disk, cfg, envs)
  {
    var resumed := Resolve(disk, cfg.resume);
    if resumed.Err? {
      return RunFailed(ResumeFailed(resumed.error), []);
    }
    var events := resumed.value.events;
    ghost var goal := RunSpec(disk, cfg, envs);
    for itr := resumed.value.samplesStart to cfg.resume.maxIter
      invariant LoopFrom(cfg, envs, itr, events) == goal
    {
      LoopFromStep(cfg, envs, itr, events);
      var o := RunItr(itr, cfg.itr, envs(itr), cfg.budget);
      match o {
        case ItrFailed(e, evs) =>
          return RunFailed(IterationFailed(itr, e), events + evs);
        case ItrOutOfBudget(evs) =>
          return RunFailed(IterationOutOfBudget(itr), events + evs);
        case ItrDone(_, _, _, evs, _) =>
          ghost var before := events;
          events := events + evs;
          if cfg.planner != Randomwalk {
            events := events + [AddData([ItrSamples(itr)])];
            events := events + [Train(Some(itr - 1), itr, if itr > 1 then cfg.resume.epochs else cfg.initEpochs)];
          }
          assert events == before + evs + TrainEvents(cfg, itr);
      }
    }
    return RunDone(events);
  }
}

/** Crash consistency of the loop: a run interrupted after any call leaves a save directory that
    the resolver accepts, provided the planner trains; with the random walk it does not. */
module DaggerProperties {
  import opened Wrappers
  import opened Types
  import opened Effects
  import opened Paths
  import opened Planners
  import opened Resume
  import opened ResumeProperties
  import opened Iteration
  import opened IterationProperties
  import opened Dagger

  /** The files an event writes. */
  function ApplyEvent(disk: Disk, e: Event): Disk
  {
    match e
    case SaveSamples(itr, _) => disk + {FileId(SamplesFile, itr)}
    case SaveWorlds(itr, _) => disk + {FileId(WorldsFile, itr)}
    case SaveMpcs(itr, _) => disk + {FileId(MpcsFile, itr)}
    case Train(_, newModel, _) => disk + {FileId(ModelFile, newModel)}
    case _ => disk
  }

  function ApplyEvents(disk: Disk, evs: seq<Event>): Disk
    decreases |evs|
  {
    if evs == [] then disk else ApplyEvents(ApplyEvent(disk, evs[0]), evs[1..])
  }

  function Max(a: int, b: int): int
  {
    if a < b then b else a
  }

  /** What the resolver sees of a disk: the two scan results. */
  datatype Marks = Marks(m: int, s: int)

  function DiskMarks(disk: Disk, n: int): Marks
  {
    Marks(Mark(disk, ModelFile, n), Mark(disk, SamplesFile, n))
  }

  function StepMarks(ms: Marks, e: Event, n: int): Marks
  {
    match e
    case SaveSamples(itr, _) => if 0 <= itr < n then ms.(s := Max(ms.s, itr + 1)) else ms
    case Train(_, newModel, _) => if 0 <= newModel < n then ms.(m := Max(ms.m, newModel + 1)) else ms
    case _ => ms
  }

  function StepAll(ms: Marks, evs: seq<Event>, n: int): Marks
    decreases |evs|
  {
    if evs == [] then ms else StepAll(StepMarks(ms, evs[0], n), evs[1..], n)
  }

  /** Events that write neither a checkpoint nor a samples file. */
  predicate ScanNeutral(e: Event)
  {
    !e.SaveSamples? && !e.Train?
  }

  ghost predicate Consistent(ms: Marks)
  {
    WithinOne(ms.m, ms.s)
  }

  /** Every prefix of evs, applied to marks ms, leaves a consistent state. */
  ghost predicate AlongOK(ms: Marks, evs: seq<Event>, n: int)
  {
    forall k :: 0 <= k <= |evs| ==> Consistent(StepAll(ms, evs[..k], n))
  }

  /** Before iteration itr: the samples of iterations up to itr-1 and the checkpoints up to
      itr-1 are saved (or checkpoint 0 alone, before iteration 0). */
  ghost predicate Ready(ms: Marks, itr: int)
  {
    ms.s == itr && (ms.m == itr || (itr == 0 && ms.m == 1))
  }

  lemma {:induction false} MarkAdd(disk: Disk, f: FileId, k: ItrFile, n: int)
    ensures Mark(disk + {f}, k, n)
         == if f.kind == k && 0 <= f.itr < n then Max(Mark(disk, k, n), f.itr + 1) else Mark(disk, k, n)
    decreases n
  {
    if n > 0 {
      MarkAdd(disk, f, k, n - 1);
    }
  }

  lemma ApplyEventMarks(disk: Disk, e: Event, n: int)
    ensures DiskMarks(ApplyEvent(disk, e), n) == StepMarks(DiskMarks(disk, n), e, n)
  {
    match e
    case SaveSamples(itr, _) =>
      MarkAdd(disk, FileId(SamplesFile, itr), ModelFile, n);
      MarkAdd(disk, FileId(SamplesFile, itr), SamplesFile, n);
    case SaveWorlds(itr, _) =>
      MarkAdd(disk, FileId(WorldsFile, itr), ModelFile, n);
      MarkAdd(disk, FileId(WorldsFile, itr), SamplesFile, n);
    case SaveMpcs(itr, _) =>
      MarkAdd(disk, FileId(MpcsFile, itr), ModelFile, n);
      MarkAdd(disk, FileId(MpcsFile, itr), SamplesFile, n);
    case Train(_, newModel, _) =>
      MarkAdd(disk, FileId(ModelFile, newModel), ModelFile, n);
      MarkAdd(disk, FileId(ModelFile, newModel), SamplesFile, n);
    case _ =>
  }

  /** The marks of the disk after some events are those the events compute. */
  lemma {:induction false} ApplyEventsMarks(disk: Disk, evs: seq<Event>, n: int)
    ensures DiskMarks(ApplyEvents(disk, evs), n) == StepAll(DiskMarks(disk, n), evs, n)
    decreases |evs|
  {
    if evs != [] {
      ApplyEventMarks(disk, evs[0], n);
      ApplyEventsMarks(ApplyEvent(disk, evs[0]), evs[1..], n);
    }
  }

  lemma {:induction false} StepAllAppend(ms: Marks, a: seq<Event>, b: seq<Event>, n: int)
    ensures StepAll(ms, a + b, n) == StepAll(StepAll(ms, a, n), b, n)
    decreases |a|
  {
    if a == [] {
      assert a + b == b;
    } else {
      assert (a + b)[0] == a[0] && (a + b)[1..] == a[1..] + b;
      StepAllAppend(StepMarks(ms, a[0], n), a[1..], b, n);
    }
  }

  lemma AlongAppend(ms: Marks, a: seq<Event>, b: seq<Event>, n: int)
    requires AlongOK(ms, a, n) && AlongOK(StepAll(ms, a, n), b, n)
    ensures AlongOK(ms, a + b, n)
  {
    forall k | 0 <= k <= |a + b|
      ensures Consistent(StepAll(ms, (a + b)[..k], n))
    {
      if k <= |a| {
        assert (a + b)[..k] == a[..k];
      } else {
        assert (a + b)[..k] == a + b[..k - |a|];
        StepAllAppend(ms, a, b[..k - |a|], n);
      }
    }
  }

  lemma {:induction false} NeutralStep(ms: Marks, evs: seq<Event>, n: int)
    requires forall i :: 0 <= i < |evs| ==> ScanNeutral(evs[i])
    ensures StepAll(ms, evs, n) == ms
    decreases |evs|
  {
    if evs != [] {
      NeutralStep(ms, evs[1..], n);
    }
  }

  lemma NeutralAlong(ms: Marks, evs: seq<Event>, n: int)
    requires Consistent(ms)
    requires forall i :: 0 <= i < |evs| ==> ScanNeutral(evs[i])
    ensures StepAll(ms, evs, n) == ms && AlongOK(ms, evs, n)
  {
    NeutralStep(ms, evs, n);
    forall k | 0 <= k <= |evs|
      ensures StepAll(ms, evs[..k], n) == ms
    {
      NeutralStep(ms, evs[..k], n);
    }
  }

  lemma AlongCons(ms: Marks, e: Event, rest: seq<Event>, n: int)
    requires Consistent(ms) && AlongOK(StepMarks(ms, e, n), rest, n)
    ensures StepAll(ms, [e] + rest, n) == StepAll(StepMarks(ms, e, n), rest, n)
    ensures AlongOK(ms, [e] + rest, n)
  {
    assert ([e] + rest)[0] == e && ([e] + rest)[1..] == rest;
    assert [e][1..] == [];
    assert StepAll(ms, [e], n) == StepMarks(ms, e, n);
    assert StepAll(StepMarks(ms, e, n), rest[..0], n) == StepMarks(ms, e, n);
    assert AlongOK(ms, [e], n) by {
      assert [e][..0] == [] && [e][..1] == [e];
    }
    AlongAppend(ms, [e], rest, n);
  }

  /** The events of a completed iteration: resets, then the three saves and the final reset. */
  lemma ItrDoneEvents(itr: int, cfg: ItrConfig, env: Env, budget: nat)
    requires ItrSpec(itr, cfg, env, budget).ItrDone?
    ensures var o := ItrSpec(itr, cfg, env, budget);
            exists pre :: o.events == pre + [SaveSamples(itr, o.samples), SaveWorlds(itr, o.worldInfos),
                                             SaveMpcs(itr, o.mpcInfos), ResetWorld(itr, 0, 0)]
                          && OnlyResets(pre)
  {
    ItrCorrect(itr, cfg, env, budget);
    var o := ItrSpec(itr, cfg, env, budget);
    ResetsAreResets(itr, cfg, o.attempts);
    var pre := [ResetConditions] + Resets(itr, cfg, o.attempts);
    assert o.events == pre + [SaveSamples(itr, o.samples), SaveWorlds(itr, o.worldInfos),
                              SaveMpcs(itr, o.mpcInfos), ResetWorld(itr, 0, 0)];
  }

  lemma StepCons(ms: Marks, e: Event, rest: seq<Event>, n: int)
    ensures StepAll(ms, [e] + rest, n) == StepAll(StepMarks(ms, e, n), rest, n)
  {
    assert ([e] + rest)[0] == e && ([e] + rest)[1..] == rest;
  }

  /** The marks after a completed iteration and what follows it. */
  function AfterItr(cfg: RunConfig, itr: int, ms: Marks): Marks
  {
    if cfg.planner.Trains() then Marks(Max(ms.m, itr + 1), Max(ms.s, itr + 1))
    else ms.(s := Max(ms.s, itr + 1))
  }

  /** The saves closing an iteration and the training that follows. */
  lemma ItrTail(cfg: RunConfig, itr: int, ms: Marks, samples: seq<seq<Step>>,
                worldInfos: seq<WorldInfo>, mpcInfos: seq<MpcInfo>)
    requires 0 <= itr < cfg.resume.maxIter
    ensures var tail := [SaveSamples(itr, samples), SaveWorlds(itr, worldInfos), SaveMpcs(itr, mpcInfos),
                         ResetWorld(itr, 0, 0)] + TrainEvents(cfg, itr);
            StepAll(ms, tail, cfg.resume.maxIter) == AfterItr(cfg, itr, ms)
            && (Ready(ms, itr) ==> AlongOK(ms, tail, cfg.resume.maxIter))
  {
    var n := cfg.resume.maxIter;
    var ss := SaveSamples(itr, samples);
    var ms1 := StepMarks(ms, ss, n);
    var t6: seq<Event> := if cfg.planner.Trains() then [Train(Some(itr - 1), itr, Epochs(cfg, itr))] else [];
    var t5: seq<Event> := if cfg.planner.Trains() then [AddData([ItrSamples(itr)])] + t6 else [];
    var t4 := [ResetWorld(itr, 0, 0)] + t5;
    var t3 := [SaveMpcs(itr, mpcInfos)] + t4;
    var t2 := [SaveWorlds(itr, worldInfos)] + t3;
    var t1 := [ss] + t2;
    assert t1 == [ss, SaveWorlds(itr, worldInfos), SaveMpcs(itr, mpcInfos), ResetWorld(itr, 0, 0)] + TrainEvents(cfg, itr);
    var fin := AfterItr(cfg, itr, ms);
    assert StepAll(fin, [], n) == fin;
    if cfg.planner.Trains() {
      StepCons(ms1, Train(Some(itr - 1), itr, Epochs(cfg, itr)), [], n);
      StepCons(ms1, AddData([ItrSamples(itr)]), t6, n);
    }
    StepCons(ms1, ResetWorld(itr, 0, 0), t5, n);
    StepCons(ms1, SaveMpcs(itr, mpcInfos), t4, n);
    StepCons(ms1, SaveWorlds(itr, worldInfos), t3, n);
    StepCons(ms, ss, t2, n);
    if Ready(ms, itr) {
      assert Consistent(ms) && Consistent(ms1) && Consistent(fin);
      assert AlongOK(fin, [], n);
      if cfg.planner.Trains() {
        AlongCons(ms1, Train(Some(itr - 1), itr, Epochs(cfg, itr)), [], n);
        AlongCons(ms1, AddData([ItrSamples(itr)]), t6, n);
      }
      AlongCons(ms1, ResetWorld(itr, 0, 0), t5, n);
      AlongCons(ms1, SaveMpcs(itr, mpcInfos), t4, n);
      AlongCons(ms1, SaveWorlds(itr, worldInfos), t3, n);
      AlongCons(ms, ss, t2, n);
    }
  }

  /** A completed iteration, followed by its training. */
  lemma ItrSegmentDone(cfg: RunConfig, envs: int -> Env, itr: int, ms: Marks)
    requires 0 <= itr < cfg.resume.maxIter && ItrSpec(itr, cfg.itr, envs(itr), cfg.budget).ItrDone?
    ensures var evs := ItrSpec(itr, cfg.itr, envs(itr), cfg.budget).events + TrainEvents(cfg, itr);
            StepAll(ms, evs, cfg.resume.maxIter) == AfterItr(cfg, itr, ms)
            && (Ready(ms, itr) ==> AlongOK(ms, evs, cfg.resume.maxIter))
  {
    var n := cfg.resume.maxIter;
    var o := ItrSpec(itr, cfg.itr, envs(itr), cfg.budget);
    ItrDoneEvents(itr, cfg.itr, envs(itr), cfg.budget);
    var pre :| o.events == pre + [SaveSamples(itr, o.samples), SaveWorlds(itr, o.worldInfos),
                                  SaveMpcs(itr, o.mpcInfos), ResetWorld(itr, 0, 0)]
               && OnlyResets(pre);
    var tail := [SaveSamples(itr, o.samples), SaveWorlds(itr, o.worldInfos), SaveMpcs(itr, o.mpcInfos),
                 ResetWorld(itr, 0, 0)] + TrainEvents(cfg, itr);
    assert o.events + TrainEvents(cfg, itr) == pre + tail;
    NeutralStep(ms, pre, n);
    StepAllAppend(ms, pre, tail, n);
    ItrTail(cfg, itr, ms, o.samples, o.worldInfos, o.mpcInfos);
    if Ready(ms, itr) {
      NeutralAlong(ms, pre, n);
      AlongAppend(ms, pre, tail, n);
    }
  }

  /** The loop from iteration itr on keeps every prefix consistent. */
  lemma {:induction false} LoopSafe(cfg: RunConfig, envs: int -> Env, itr: int, events: seq<Event>, ms0: Marks)
    requires cfg.planner.Trains() && 0 <= itr
    requires AlongOK(ms0, events, cfg.resume.maxIter)
    requires itr < cfg.resume.maxIter ==> Ready(StepAll(ms0, events, cfg.resume.maxIter), itr)
    ensures AlongOK(ms0, LoopFrom(cfg, envs, itr, events).events, cfg.resume.maxIter)
    decreases cfg.resume.maxIter - itr
  {
    var n := cfg.resume.maxIter;
    if itr < n {
      LoopFromStep(cfg, envs, itr, events);
      var ms := StepAll(ms0, events, n);
      var o := ItrSpec(itr, cfg.itr, envs(itr), cfg.budget);
      if o.ItrDone? {
        var evs := o.events + TrainEvents(cfg, itr);
        ItrSegmentDone(cfg, envs, itr, ms);
        AlongAppend(ms0, events, evs, n);
        StepAllAppend(ms0, events, evs, n);
        assert events + o.events + TrainEvents(cfg, itr) == events + evs;
        LoopSafe(cfg, envs, itr + 1, events + evs, ms0);
      } else {
        ItrCorrect(itr, cfg.itr, envs(itr), cfg.budget);
        NeutralAlong(ms, o.events, n);
        AlongAppend(ms0, events, o.events, n);
      }
    }
  }

  /** The resolver's own calls keep the directory consistent and leave it ready for the first
      iteration it runs. */
  lemma ResolveSegment(disk: Disk, rc: ResumeConfig)
    requires ResolveSpec(disk, rc).Ok?
    ensures var r := ResolveSpec(disk, rc).value;
            var ms := DiskMarks(disk, rc.maxIter);
            AlongOK(ms, r.events, rc.maxIter) && Ready(StepAll(ms, r.events, rc.maxIter), r.samplesStart)
  {
    var n := rc.maxIter;
    var r := ResolveSpec(disk, rc).value;
    var m, s := r.modelStart, r.samplesStart;
    var ms := DiskMarks(disk, n);
    var pre := (if m > 0 then [LoadModel(m - 1)] else [])
               + (if s > 0 then [AddData(PrevSamples(s))] else [])
               + (match rc.initData
                  case None => []
                  case Some(d) => [AddData(InitFiles(d.folder, d.listing))]);
    var cu := if NeedsCatchUp(m, s, rc.initData.Some?) then [Train(SeedAsWritten(m, s), m, rc.epochs)] else [];
    assert r.events == pre + cu;
    assert forall i :: 0 <= i < |pre| ==> ScanNeutral(pre[i]);
    NeutralAlong(ms, pre, n);
    if NeedsCatchUp(m, s, rc.initData.Some?) {
      var ms' := StepMarks(ms, Train(SeedAsWritten(m, s), m, rc.epochs), n);
      assert StepAll(ms', [][..0], n) == ms';
      AlongCons(ms, Train(SeedAsWritten(m, s), m, rc.epochs), [], n);
    } else {
      assert StepAll(ms, [][..0], n) == ms;
    }
    AlongAppend(ms, pre, cu, n);
    StepAllAppend(ms, pre, cu, n);
  }

  /** Crash safety of resume: while a run whose planner trains goes on, after EVERY call it makes
      the save directory is one the resolver accepts, so a run killed at any point can be resumed. */
  lemma CrashResume(disk: Disk, cfg: RunConfig, envs: int -> Env)
    requires cfg.planner.Trains() && ResolveSpec(disk, cfg.resume).Ok?
    ensures var evs := RunSpec(disk, cfg, envs).events;
            forall k :: 0 <= k <= |evs| ==> ResolveSpec(ApplyEvents(disk, evs[..k]), cfg.resume).Ok?
  {
    var n := cfg.resume.maxIter;
    var r := ResolveSpec(disk, cfg.resume).value;
    var ms0 := DiskMarks(disk, n);
    ResolveSegment(disk, cfg.resume);
    LoopSafe(cfg, envs, r.samplesStart, r.events, ms0);
    var evs := RunSpec(disk, cfg, envs).events;
    forall k | 0 <= k <= |evs|
      ensures ResolveSpec(ApplyEvents(disk, evs[..k]), cfg.resume).Ok?
    {
      ApplyEventsMarks(disk, evs[..k], n);
      ResolveAccepts(ApplyEvents(disk, evs[..k]), cfg.resume);
    }
  }

  /** The random walk saves samples but never trains, so two completed iterations from an empty
      directory leave two samples files and no checkpoint, which the resolver refuses. */
  lemma RandomWalkBreaksResume(cfg: RunConfig, envs: int -> Env)
    requires cfg.planner == Randomwalk && cfg.resume.maxIter == 2 && cfg.resume.initData.None?
    requires ItrSpec(0, cfg.itr, envs(0), cfg.budget).ItrDone? && ItrSpec(1, cfg.itr, envs(1), cfg.budget).ItrDone?
    ensures RunSpec({}, cfg, envs).RunDone?
    ensures ResolveSpec(ApplyEvents({}, RunSpec({}, cfg, envs).events), cfg.resume) == Err(NotWithinOne(0, 2))
  {
    MarkAbsent({}, ModelFile, 2);
    MarkAbsent({}, SamplesFile, 2);
    assert ResumeEvents(0, 0, cfg.resume) == [];
    var o0 := ItrSpec(0, cfg.itr, envs(0), cfg.budget);
    var o1 := ItrSpec(1, cfg.itr, envs(1), cfg.budget);
    LoopFromStep(cfg, envs, 0, []);
    var e0 := [] + o0.events + TrainEvents(cfg, 0);
    LoopFromStep(cfg, envs, 1, e0);
    var e1 := e0 + o1.events + TrainEvents(cfg, 1);
    assert RunSpec({}, cfg, envs) == RunDone(e1);
    ItrSegmentDone(cfg, envs, 0, Marks(0, 0));
    ItrSegmentDone(cfg, envs, 1, Marks(0, 1));
    assert e0 == o0.events + TrainEvents(cfg, 0);
    StepAllAppend(Marks(0, 0), e0, o1.events + TrainEvents(cfg, 1), 2);
    assert e1 == e0 + (o1.events + TrainEvents(cfg, 1));
    ApplyEventsMarks({}, e1, 2);
  }
}
