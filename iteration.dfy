/** The iteration driver `_run_itr`: for every condition, collect `repeats` accepted rollouts,
    retrying a rejected one on the same (condition, repetition) slot; reset the world before a
    rollout when it is the first of the iteration or the world is randomized; then save the three
    parallel lists and reset the world to (itr, 0, 0). */
module Iteration {
  import opened Wrappers
  import opened Types
  import opened Effects
  import opened ControlNoise
  import opened Rollout

  datatype ItrConfig = ItrConfig(
    T: nat,                  // params['prediction']['dagger']['T'], the horizon of one rollout
    labelWithNoise: bool,    // params['prediction']['dagger']['label_with_noise']
    noiseType: string,       // control_noise['type']
    noiseSections: set<string>, // the keys of control_noise, where the parameters of each type live
    length: nat,             // conditions.length
    repeats: nat,            // conditions.repeats
    randomize: bool)         // world.randomize

  /** The collaborators during one iteration. Everything that may differ between rollouts (the
      initial state the conditions hand out, the MPC policy created for it, its fresh noise
      generator, the world, the operator) is indexed by the attempt number k: the number of
      rollouts already run in this iteration. `evolve` and `isFinite` are functions of their
      arguments alone. */
  datatype Env = Env(
    getCond: (nat, nat, nat) -> State,           // conditions.get_cond(cond, rep=rep) before rollout k
    world: (nat, Noise) -> RolloutWorld,         // agent, MPC and world during rollout k, given its noise
    evolve: (State, Action) -> State,            // dynamics.evolve
    isGood: (nat, seq<Step>, nat) -> bool,       // self._is_good_rollout(sample, t) after rollout k
    isFinite: seq<Step> -> bool,                 // Sample.isfinite()
    worldInfo: nat -> WorldInfo,                 // self._get_world_info() after rollout k
    mpcInfo: nat -> MpcInfo)                     // mpc_policy.get_info() after rollout k

  /** One executed rollout, as the log reports it: its slot, its trimmed sample, the last timestep
      and the quality gate's verdict. */
  datatype Attempt = Attempt(cond: nat, rep: nat, sample: seq<Step>, t: nat, good: bool)

  datatype ItrError =
    | HorizonEmpty            // T == 0: `sample_T.set_X(x0, t=0)` has no slot 0
    | NoiseConfig(e: NoiseError)
    | NonFinite(cond: nat, rep: nat)  // `assert(samples[-1].isfinite())`

  datatype ItrOutcome =
    | ItrDone(samples: seq<seq<Step>>, worldInfos: seq<WorldInfo>, mpcInfos: seq<MpcInfo>,
              events: seq<Event>, attempts: seq<Attempt>)
    | ItrFailed(error: ItrError, events: seq<Event>)
    | ItrOutOfBudget(events: seq<Event>)   // the retry loop has not ended within the attempt budget

  /** The state of `_run_itr` between rollouts. */
  datatype Acc = Acc(attempts: seq<Attempt>, samples: seq<seq<Step>>, worldInfos: seq<WorldInfo>,
                     mpcInfos: seq<MpcInfo>, events: seq<Event>)

  /** The world is reset before the first rollout of an iteration and, when it is randomized,
      before every rollout. */
  predicate ResetBefore(cfg: ItrConfig, cond: nat, rep: nat)
  {
    (cond == 0 && rep == 0) || cfg.randomize
  }

  function ResetEvent(itr: int, cfg: ItrConfig, cond: nat, rep: nat): seq<Event>
  {
    if ResetBefore(cfg, cond, rep) then [ResetWorld(itr, cond, rep)] else []
  }

  function FinalEvents(itr: int, acc: Acc): seq<Event>
  {
    [SaveSamples(itr, acc.samples), SaveWorlds(itr, acc.worldInfos), SaveMpcs(itr, acc.mpcInfos),
     ResetWorld(itr, 0, 0)]
  }

  /** Specification of the driver from slot (cond, rep) on. */
  function Collect(itr: int, cfg: ItrConfig, env: Env, budget: nat, cond: nat, rep: nat, acc: Acc): ItrOutcome
    requires |acc.attempts| <= budget
    decreases budget - |acc.attempts|, cfg.length - cond, cfg.repeats - rep
  {
    if cond >= cfg.length then
      ItrDone(acc.samples, acc.worldInfos, acc.mpcInfos, acc.events + FinalEvents(itr, acc), acc.attempts)
    else if rep >= cfg.repeats then
      Collect(itr, cfg, env, budget, cond + 1, 0, acc)
    else if |acc.attempts| == budget then
      ItrOutOfBudget(acc.events)
    else
      var k := |acc.attempts|;
      var events := acc.events + ResetEvent(itr, cfg, cond, rep);
      if cfg.T == 0 then ItrFailed(HorizonEmpty, events)
      else match CreateControlNoise(cfg.noiseType, cfg.noiseSections)
        case Err(e) => ItrFailed(NoiseConfig(e), events)
        case Ok(noise) =>
          match RolloutSpec(cfg.T, env.getCond(k, cond, rep), env.world(k, noise), env.evolve, cfg.labelWithNoise)
          case EmptyHorizon => ItrFailed(HorizonEmpty, events)
          case Rolled(s, t) =>
            var good := env.isGood(k, s, t);
            var acc' := acc.(attempts := acc.attempts + [Attempt(cond, rep, s, t, good)], events := events);
            if !good then Collect(itr, cfg, env, budget, cond, rep, acc')
            else if !env.isFinite(s) then ItrFailed(NonFinite(cond, rep), events)
            else Collect(itr, cfg, env, budget, cond, rep + 1,
                         acc'.(samples := acc.samples + [s],
                               worldInfos := acc.worldInfos + [env.worldInfo(k)],
                               mpcInfos := acc.mpcInfos + [env.mpcInfo(k)]))
  }

  lemma CollectFinish(itr: int, cfg: ItrConfig, env: Env, budget: nat, cond: nat, rep: nat, acc: Acc)
    requires |acc.attempts| <= budget && cond >= cfg.length
    ensures Collect(itr, cfg, env, budget, cond, rep, acc)
         == ItrDone(acc.samples, acc.worldInfos, acc.mpcInfos, acc.events + FinalEvents(itr, acc), acc.attempts)
  {
  }

  lemma CollectNextCond(itr: int, cfg: ItrConfig, env: Env, budget: nat, cond: nat, rep: nat, acc: Acc)
    requires |acc.attempts| <= budget && cond < cfg.length && rep >= cfg.repeats
    ensures Collect(itr, cfg, env, budget, cond, rep, acc) == Collect(itr, cfg, env, budget, cond + 1, 0, acc)
  {
  }

  lemma CollectOutOfBudget(itr: int, cfg: ItrConfig, env: Env, budget: nat, cond: nat, rep: nat, acc: Acc)
    requires |acc.attempts| == budget && cond < cfg.length && rep < cfg.repeats
    ensures Collect(itr, cfg, env, budget, cond, rep, acc) == ItrOutOfBudget(acc.events)
  {
  }

  lemma CollectFailure(itr: int, cfg: ItrConfig, env: Env, budget: nat, cond: nat, rep: nat, acc: Acc, err: ItrError)
    requires |acc.attempts| < budget && cond < cfg.length && rep < cfg.repeats
    requires (cfg.T == 0 && err == HorizonEmpty)
          || (cfg.T > 0 && err.NoiseConfig? && CreateControlNoise(cfg.noiseType, cfg.noiseSections) == Err(err.e))
    ensures Collect(itr, cfg, env, budget, cond, rep, acc)
         == ItrFailed(err, acc.events + ResetEvent(itr, cfg, cond, rep))
  {
  }

  /** One rollout that ran to the end: the result is that of the rest of the iteration, from the
      same slot with the attempt logged (`rejected`) or from the next repetition with the sample
      kept (`accepted`). */
  lemma CollectRolled(itr: int, cfg: ItrConfig, env: Env, budget: nat, cond: nat, rep: nat, acc: Acc,
                      noise: Noise, s: seq<Step>, t: nat, rejected: Acc, accepted: Acc)
    requires |acc.attempts| < budget && cond < cfg.length && rep < cfg.repeats && cfg.T > 0
    requires CreateControlNoise(cfg.noiseType, cfg.noiseSections) == Ok(noise)
    requires RolloutSpec(cfg.T, env.getCond(|acc.attempts|, cond, rep), env.world(|acc.attempts|, noise), env.evolve, cfg.labelWithNoise)
          == Rolled(s, t)
    requires rejected == acc.(attempts := acc.attempts + [Attempt(cond, rep, s, t, env.isGood(|acc.attempts|, s, t))],
                              events := acc.events + ResetEvent(itr, cfg, cond, rep))
    requires accepted == rejected.(samples := acc.samples + [s],
                                   worldInfos := acc.worldInfos + [env.worldInfo(|acc.attempts|)],
                                   mpcInfos := acc.mpcInfos + [env.mpcInfo(|acc.attempts|)])
    ensures !env.isGood(|acc.attempts|, s, t) ==>
              Collect(itr, cfg, env, budget, cond, rep, acc) == Collect(itr, cfg, env, budget, cond, rep, rejected)
    ensures env.isGood(|acc.attempts|, s, t) && !env.isFinite(s) ==>
              Collect(itr, cfg, env, budget, cond, rep, acc) == ItrFailed(NonFinite(cond, rep), rejected.events)
    ensures env.isGood(|acc.attempts|, s, t) && env.isFinite(s) ==>
              Collect(itr, cfg, env, budget, cond, rep, acc) == Collect(itr, cfg, env, budget, cond, rep + 1, accepted)
  {
  }

  const Start: Acc := Acc([], [], [], [], [ResetConditions])

  /** Specification of `_run_itr(itr)` with at most `budget` rollouts. */
  function ItrSpec(itr: int, cfg: ItrConfig, env: Env, budget: nat): ItrOutcome
  {
    Collect(itr, cfg, env, budget, 0, 0, Start)
  }

  /** `_run_itr(itr)`. A rollout beyond the budget's worth is not started (see ItrOutOfBudget). */
  method RunItr(itr: int, cfg: ItrConfig, env: Env, budget: nat) returns (out: ItrOutcome)
    ensures out == ItrSpec(itr, cfg, env, budget)
  {
    var samples: seq<seq<Step>> := [];
    var worldInfos: seq<WorldInfo> := [];
    var mpcInfos: seq<MpcInfo> := [];
    var log: seq<Attempt> := [];
    var events := [ResetConditions];
    ghost var goal := ItrSpec(itr, cfg, env, budget);
    for cond := 0 to cfg.length
      invariant |log| <= budget
      invariant Collect(itr, cfg, env, budget, cond, 0, Acc(log, samples, worldInfos, mpcInfos, events)) == goal
    {
      var rep := 0;
      while rep < cfg.repeats
        invariant |log| <= budget
        invariant Collect(itr, cfg, env, budget, cond, rep, Acc(log, samples, worldInfos, mpcInfos, events)) == goal
        decreases budget - |log|, cfg.repeats - rep
      {
        ghost var acc := Acc(log, samples, worldInfos, mpcInfos, events);
        if |log| == budget {
          CollectOutOfBudget(itr, cfg, env, budget, cond, rep, acc);
          return ItrOutOfBudget(events);
        }
        var k := |log|;
        if (cond == 0 && rep == 0) || cfg.randomize {
          events := events + [ResetWorld(itr, cond, rep)];
        }
        assert events == acc.events + ResetEvent(itr, cfg, cond, rep);
        var x0 := env.getCond(k, cond, rep);
        if cfg.T == 0 {
          CollectFailure(itr, cfg, env, budget, cond, rep, acc, HorizonEmpty);
          return ItrFailed(HorizonEmpty, events);
        }
        var noise := CreateControlNoise(cfg.noiseType, cfg.noiseSections);  // fresh for every rollout
        if noise.Err? {
          CollectFailure(itr, cfg, env, budget, cond, rep, acc, NoiseConfig(noise.error));
          return ItrFailed(NoiseConfig(noise.error), events);
        }
        var r, _ := Roll(cfg.T, x0, env.world(k, noise.value), env.evolve, cfg.labelWithNoise);
        assert r.Rolled?;
        var worldInfo := env.worldInfo(k);
        var mpcInfo := env.mpcInfo(k);
        var good := env.isGood(k, r.sample, r.t);
        ghost var rejected := acc.(attempts := log + [Attempt(cond, rep, r.sample, r.t, good)], events := events);
        CollectRolled(itr, cfg, env, budget, cond, rep, acc, noise.value, r.sample, r.t, rejected,
                      rejected.(samples := samples + [r.sample], worldInfos := worldInfos + [worldInfo],
                                mpcInfos := mpcInfos + [mpcInfo]));
        log := log + [Attempt(cond, rep, r.sample, r.t, good)];
        if !good {
          continue;  // not a good rollout: repeat the same slot
        }
        samples := samples + [r.sample];
        worldInfos := worldInfos + [worldInfo];
        mpcInfos := mpcInfos + [mpcInfo];
        if !env.isFinite(samples[|samples| - 1]) {
          return ItrFailed(NonFinite(cond, rep), events);
        }
        rep := rep + 1;
      }
      CollectNextCond(itr, cfg, env, budget, cond, rep, Acc(log, samples, worldInfos, mpcInfos, events));
    }
    CollectFinish(itr, cfg, env, budget, cfg.length, 0, Acc(log, samples, worldInfos, mpcInfos, events));
    events := events + [SaveSamples(itr, samples), SaveWorlds(itr, worldInfos), SaveMpcs(itr, mpcInfos)];
    events := events + [ResetWorld(itr, 0, 0)];  // leave the world as it was
    out := ItrDone(samples, worldInfos, mpcInfos, events, log);
  }
}

/** What one iteration guarantees: every accepted slot, in condition-major order, exactly once;
    rejected rollouts retried on their own slot; samples, world infos and MPC infos saved as
    parallel lists of the accepted rollouts; and the world resets it performs. */
module IterationProperties {
  import opened Wrappers
  import opened Types
  import opened Effects
  import opened ControlNoise
  import opened Rollout
  import opened Iteration

  /** The indices, in order, of the attempts the quality gate accepted. */
  function AcceptedIdx(A: seq<Attempt>): (r: seq<nat>)
    ensures forall i :: 0 <= i < |r| ==> r[i] < |A| && A[r[i]].good
    ensures forall i, j :: 0 <= i < j < |r| ==> r[i] < r[j]
    ensures forall k :: 0 <= k < |A| && A[k].good ==> k in r
  {
    if A == [] then []
    else AcceptedIdx(A[..|A| - 1]) + (if A[|A| - 1].good then [|A| - 1] else [])
  }

  /** The world resets issued before the attempts of A, in order. */
  function Resets(itr: int, cfg: ItrConfig, A: seq<Attempt>): seq<Event>
  {
    if A == [] then []
    else Resets(itr, cfg, A[..|A| - 1]) + ResetEvent(itr, cfg, A[|A| - 1].cond, A[|A| - 1].rep)
  }

  /** Attempt k was produced by the collaborators: the rollout from the slot's initial state under
      the world of attempt k, the gate's verdict on it, and a finite sample if accepted. */
  ghost predicate AttemptFrom(cfg: ItrConfig, env: Env, k: nat, a: Attempt)
  {
    cfg.T > 0
    && CreateControlNoise(cfg.noiseType, cfg.noiseSections).Ok?
    && RolloutSpec(cfg.T, env.getCond(k, a.cond, a.rep),
                   env.world(k, CreateControlNoise(cfg.noiseType, cfg.noiseSections).value),
                   env.evolve, cfg.labelWithNoise) == Rolled(a.sample, a.t)
    && a.good == env.isGood(k, a.sample, a.t)
    && (a.good ==> env.isFinite(a.sample))
  }

  /** A rejected attempt is followed by another on the same slot. */
  ghost predicate Retried(A: seq<Attempt>)
  {
    forall k :: 0 <= k < |A| - 1 && !A[k].good ==> A[k + 1].cond == A[k].cond && A[k + 1].rep == A[k].rep
  }

  /** The number of slot (c, r) in condition-major order with R repetitions per condition,
      c * R + r (SlotIsProduct), counted without multiplying. */
  function Slot(R: nat, c: nat, r: nat): nat
    decreases c
  {
    if c == 0 then r else R + Slot(R, c - 1, r)
  }

  lemma {:induction false} SlotShift(R: nat, c: nat, r: nat)
    ensures Slot(R, c, r) == Slot(R, c, 0) + r
    decreases c
  {
    if c > 0 {
      SlotShift(R, c - 1, r);
    }
  }

  lemma {:induction false} SlotIsProduct(R: nat, c: nat, r: nat)
    ensures Slot(R, c, r) == c * R + r
    decreases c
  {
    if c > 0 {
      SlotIsProduct(R, c - 1, r);
    }
  }

  /** The i-th accepted attempt fills slot (i / repeats, i % repeats): the slot (c, r) with
      r < repeats and c * repeats + r == i. */
  ghost predicate SlotOrder(cfg: ItrConfig, A: seq<Attempt>, I: seq<nat>)
  {
    forall i :: 0 <= i < |I| && I[i] < |A| ==> Slot(cfg.repeats, A[I[i]].cond, A[I[i]].rep) == i && A[I[i]].rep < cfg.repeats
  }

  /** The three saved lists are index-aligned with the accepted attempts. */
  ghost predicate Aligned(env: Env, A: seq<Attempt>, I: seq<nat>, samples: seq<seq<Step>>,
                          worldInfos: seq<WorldInfo>, mpcInfos: seq<MpcInfo>)
  {
    |samples| == |I| && |worldInfos| == |I| && |mpcInfos| == |I|
    && forall i :: 0 <= i < |I| && I[i] < |A| ==>
         samples[i] == A[I[i]].sample && worldInfos[i] == env.worldInfo(I[i]) && mpcInfos[i] == env.mpcInfo(I[i])
  }

  ghost predicate OnlyResets(evs: seq<Event>)
  {
    forall i :: 0 <= i < |evs| ==> evs[i].ResetConditions? || evs[i].ResetWorld?
  }

  /** The attempts so far: each produced by the collaborators, a rejected one retried on its
      slot, and a rejected last one on the current slot. */
  ghost predicate LogOK(cfg: ItrConfig, env: Env, cond: nat, rep: nat, A: seq<Attempt>)
  {
    (forall k :: 0 <= k < |A| ==> AttemptFrom(cfg, env, k, A[k]))
    && Retried(A)
    && (|A| > 0 && !A[|A| - 1].good ==>
          A[|A| - 1].cond == cond && A[|A| - 1].rep == rep && cond < cfg.length && rep < cfg.repeats)
  }

  /** The accepted attempts fill the slots before (cond, rep), in order, and the three lists
      follow them. */
  ghost predicate SlotsOK(cfg: ItrConfig, env: Env, cond: nat, rep: nat, acc: Acc)
  {
    var I := AcceptedIdx(acc.attempts);
    |I| == Slot(cfg.repeats, cond, rep)
    && SlotOrder(cfg, acc.attempts, I)
    && Aligned(env, acc.attempts, I, acc.samples, acc.worldInfos, acc.mpcInfos)
  }

  /** The calls so far: the condition reset and the resets before the attempts. */
  ghost predicate EventsOK(itr: int, cfg: ItrConfig, acc: Acc)
  {
    acc.events == [ResetConditions] + Resets(itr, cfg, acc.attempts) && OnlyResets(acc.events)
  }

  /** The state of the driver before slot (cond, rep). */
  ghost predicate Inv(itr: int, cfg: ItrConfig, env: Env, cond: nat, rep: nat, acc: Acc)
  {
    cond <= cfg.length && rep <= cfg.repeats && (cond == cfg.length ==> rep == 0)
    && LogOK(cfg, env, cond, rep, acc.attempts)
    && SlotsOK(cfg, env, cond, rep, acc)
    && EventsOK(itr, cfg, acc)
  }

  /** What a completed iteration guarantees. */
  ghost predicate DoneProps(itr: int, cfg: ItrConfig, env: Env, o: ItrOutcome)
    requires o.ItrDone?
  {
    var A := o.attempts;
    var I := AcceptedIdx(A);
    |I| == cfg.length * cfg.repeats
    && (forall k :: 0 <= k < |A| ==> AttemptFrom(cfg, env, k, A[k]))
    && SlotOrder(cfg, A, I)
    && Retried(A)
    && (|A| > 0 ==> A[|A| - 1].good)
    && Aligned(env, A, I, o.samples, o.worldInfos, o.mpcInfos)
    && o.events == [ResetConditions] + Resets(itr, cfg, A)
                   + [SaveSamples(itr, o.samples), SaveWorlds(itr, o.worldInfos), SaveMpcs(itr, o.mpcInfos),
                      ResetWorld(itr, 0, 0)]
  }

  /** What any outcome of an iteration guarantees. */
  ghost predicate Guarantee(itr: int, cfg: ItrConfig, env: Env, o: ItrOutcome)
  {
    (o.ItrDone? ==> DoneProps(itr, cfg, env, o)) && (!o.ItrDone? ==> OnlyResets(o.events))
  }

  lemma AcceptedIdxSnoc(A: seq<Attempt>, a: Attempt)
    ensures AcceptedIdx(A + [a]) == AcceptedIdx(A) + (if a.good then [|A|] else [])
  {
    assert (A + [a])[..|A|] == A;
  }

  lemma ResetsSnoc(itr: int, cfg: ItrConfig, A: seq<Attempt>, a: Attempt)
    ensures Resets(itr, cfg, A + [a]) == Resets(itr, cfg, A) + ResetEvent(itr, cfg, a.cond, a.rep)
  {
    assert (A + [a])[..|A|] == A;
  }

  lemma InvStart(itr: int, cfg: ItrConfig, env: Env)
    ensures Inv(itr, cfg, env, 0, 0, Start)
  {
  }

  lemma InvNextCond(itr: int, cfg: ItrConfig, env: Env, cond: nat, rep: nat, acc: Acc)
    requires Inv(itr, cfg, env, cond, rep, acc) && cond < cfg.length && rep >= cfg.repeats
    ensures Inv(itr, cfg, env, cond + 1, 0, acc)
  {
    SlotShift(cfg.repeats, cond, rep);
  }

  /** The log part of Inv after one more attempt on slot (cond, rep). */
  lemma InvAttemptLog(cfg: ItrConfig, env: Env, cond: nat, rep: nat, A: seq<Attempt>, a: Attempt)
    requires LogOK(cfg, env, cond, rep, A) && cond < cfg.length && rep < cfg.repeats
    requires a.cond == cond && a.rep == rep && AttemptFrom(cfg, env, |A|, a)
    ensures !a.good ==> LogOK(cfg, env, cond, rep, A + [a])
    ensures a.good ==> LogOK(cfg, env, cond, rep + 1, A + [a])
  {
    var A' := A + [a];
    forall k | 0 <= k < |A'|
      ensures AttemptFrom(cfg, env, k, A'[k])
    {
      if k < |A| {
        assert A'[k] == A[k];
      }
    }
    forall k | 0 <= k < |A'| - 1 && !A'[k].good
      ensures A'[k + 1].cond == A'[k].cond && A'[k + 1].rep == A'[k].rep
    {
      assert A'[k] == A[k];
      if k + 1 < |A| {
        assert A'[k + 1] == A[k + 1];
      }
    }
    assert A'[|A'| - 1] == a;
  }

  /** The slot part of Inv after one more attempt, rejected: nothing is appended. */
  lemma InvAttemptRejected(cfg: ItrConfig, env: Env, cond: nat, rep: nat, acc: Acc, a: Attempt)
    requires SlotsOK(cfg, env, cond, rep, acc) && !a.good
    ensures SlotsOK(cfg, env, cond, rep, acc.(attempts := acc.attempts + [a]))
  {
    var A := acc.attempts;
    var A' := A + [a];
    AcceptedIdxSnoc(A, a);
    var I := AcceptedIdx(A);
    assert I + [] == I;
    assert forall i :: 0 <= i < |I| ==> A'[I[i]] == A[I[i]];
  }

  lemma SlotOrderGood(cfg: ItrConfig, A: seq<Attempt>, I: seq<nat>, a: Attempt)
    requires SlotOrder(cfg, A, I) && forall i :: 0 <= i < |I| ==> I[i] < |A|
    requires Slot(cfg.repeats, a.cond, a.rep) == |I| && a.rep < cfg.repeats
    ensures SlotOrder(cfg, A + [a], I + [|A|])
  {
    var A', I' := A + [a], I + [|A|];
    forall i | 0 <= i < |I'| && I'[i] < |A'|
      ensures Slot(cfg.repeats, A'[I'[i]].cond, A'[I'[i]].rep) == i && A'[I'[i]].rep < cfg.repeats
    {
      if i < |I| {
        assert I'[i] == I[i] && A'[I[i]] == A[I[i]];
      } else {
        assert I'[i] == |A| && A'[|A|] == a;
      }
    }
  }

  lemma AlignedGood(env: Env, A: seq<Attempt>, I: seq<nat>, samples: seq<seq<Step>>,
                    worldInfos: seq<WorldInfo>, mpcInfos: seq<MpcInfo>, a: Attempt)
    requires Aligned(env, A, I, samples, worldInfos, mpcInfos) && forall i :: 0 <= i < |I| ==> I[i] < |A|
    ensures Aligned(env, A + [a], I + [|A|], samples + [a.sample], worldInfos + [env.worldInfo(|A|)],
                    mpcInfos + [env.mpcInfo(|A|)])
  {
    var A', I' := A + [a], I + [|A|];
    forall i | 0 <= i < |I'| && I'[i] < |A'|
      ensures (samples + [a.sample])[i] == A'[I'[i]].sample
           && (worldInfos + [env.worldInfo(|A|)])[i] == env.worldInfo(I'[i])
           && (mpcInfos + [env.mpcInfo(|A|)])[i] == env.mpcInfo(I'[i])
    {
      if i < |I| {
        assert I'[i] == I[i] && A'[I[i]] == A[I[i]];
      } else {
        assert I'[i] == |A| && A'[|A|] == a;
      }
    }
  }

  /** The slot part of Inv after one more attempt on slot (cond, rep), accepted. */
  lemma InvAttemptAccepted(cfg: ItrConfig, env: Env, cond: nat, rep: nat, acc: Acc, a: Attempt)
    requires SlotsOK(cfg, env, cond, rep, acc) && rep < cfg.repeats
    requires a.cond == cond && a.rep == rep && a.good
    ensures var k := |acc.attempts|;
            SlotsOK(cfg, env, cond, rep + 1,
                    Acc(acc.attempts + [a], acc.samples + [a.sample], acc.worldInfos + [env.worldInfo(k)],
                        acc.mpcInfos + [env.mpcInfo(k)], acc.events))
  {
    var A := acc.attempts;
    AcceptedIdxSnoc(A, a);
    var I := AcceptedIdx(A);
    SlotShift(cfg.repeats, cond, rep);
    SlotShift(cfg.repeats, cond, rep + 1);
    SlotOrderGood(cfg, A, I, a);
    AlignedGood(env, A, I, acc.samples, acc.worldInfos, acc.mpcInfos, a);
  }

  /** The event part of Inv after one more attempt on slot (cond, rep). */
  lemma InvAttemptEvents(itr: int, cfg: ItrConfig, acc: Acc, a: Attempt, acc': Acc)
    requires EventsOK(itr, cfg, acc)
    requires acc'.attempts == acc.attempts + [a]
    requires acc'.events == acc.events + ResetEvent(itr, cfg, a.cond, a.rep)
    ensures EventsOK(itr, cfg, acc')
  {
    ResetsSnoc(itr, cfg, acc.attempts, a);
    ResetEventIsReset(itr, cfg, acc.events, a.cond, a.rep);
  }

  lemma ResetEventIsReset(itr: int, cfg: ItrConfig, evs: seq<Event>, cond: nat, rep: nat)
    requires OnlyResets(evs)
    ensures OnlyResets(evs + ResetEvent(itr, cfg, cond, rep))
  {
    var evs' := evs + ResetEvent(itr, cfg, cond, rep);
    forall i | 0 <= i < |evs'|
      ensures evs'[i].ResetConditions? || evs'[i].ResetWorld?
    {
      if i >= |evs| {
        assert evs'[i] == ResetEvent(itr, cfg, cond, rep)[i - |evs|];
      }
    }
  }

  /** One more attempt on slot (cond, rep), rejected by the gate. */
  lemma InvRejected(itr: int, cfg: ItrConfig, env: Env, cond: nat, rep: nat, acc: Acc, a: Attempt, rejected: Acc)
    requires Inv(itr, cfg, env, cond, rep, acc) && cond < cfg.length && rep < cfg.repeats
    requires a.cond == cond && a.rep == rep && !a.good && AttemptFrom(cfg, env, |acc.attempts|, a)
    requires rejected == acc.(attempts := acc.attempts + [a], events := acc.events + ResetEvent(itr, cfg, cond, rep))
    ensures Inv(itr, cfg, env, cond, rep, rejected)
  {
    InvAttemptLog(cfg, env, cond, rep, acc.attempts, a);
    InvAttemptRejected(cfg, env, cond, rep, acc, a);
    assert SlotsOK(cfg, env, cond, rep, rejected);
    InvAttemptEvents(itr, cfg, acc, a, rejected);
  }

  /** One more attempt on slot (cond, rep), accepted by the gate. */
  lemma InvAccepted(itr: int, cfg: ItrConfig, env: Env, cond: nat, rep: nat, acc: Acc, a: Attempt, accepted: Acc)
    requires Inv(itr, cfg, env, cond, rep, acc) && cond < cfg.length && rep < cfg.repeats
    requires a.cond == cond && a.rep == rep && a.good && AttemptFrom(cfg, env, |acc.attempts|, a)
    requires accepted == Acc(acc.attempts + [a], acc.samples + [a.sample],
                             acc.worldInfos + [env.worldInfo(|acc.attempts|)],
                             acc.mpcInfos + [env.mpcInfo(|acc.attempts|)],
                             acc.events + ResetEvent(itr, cfg, cond, rep))
    ensures Inv(itr, cfg, env, cond, rep + 1, accepted)
  {
    InvAttemptLog(cfg, env, cond, rep, acc.attempts, a);
    InvAttemptAccepted(cfg, env, cond, rep, acc, a);
    assert SlotsOK(cfg, env, cond, rep + 1, accepted);
    InvAttemptEvents(itr, cfg, acc, a, accepted);
  }

  lemma GuaranteeFinish(itr: int, cfg: ItrConfig, env: Env, budget: nat, cond: nat, rep: nat, acc: Acc)
    requires |acc.attempts| <= budget && cond >= cfg.length
    requires Inv(itr, cfg, env, cond, rep, acc)
    ensures Guarantee(itr, cfg, env, Collect(itr, cfg, env, budget, cond, rep, acc))
  {
    CollectFinish(itr, cfg, env, budget, cond, rep, acc);
    SlotIsProduct(cfg.repeats, cfg.length, 0);
  }

  lemma GuaranteeStop(itr: int, cfg: ItrConfig, env: Env, budget: nat, cond: nat, rep: nat, acc: Acc)
    requires |acc.attempts| <= budget && cond < cfg.length && rep < cfg.repeats
    requires |acc.attempts| == budget || cfg.T == 0 || CreateControlNoise(cfg.noiseType, cfg.noiseSections).Err?
    requires OnlyResets(acc.events)
    ensures Guarantee(itr, cfg, env, Collect(itr, cfg, env, budget, cond, rep, acc))
  {
    ResetEventIsReset(itr, cfg, acc.events, cond, rep);
    var nr := CreateControlNoise(cfg.noiseType, cfg.noiseSections);
    if |acc.attempts| == budget {
      CollectOutOfBudget(itr, cfg, env, budget, cond, rep, acc);
    } else if cfg.T == 0 {
      CollectFailure(itr, cfg, env, budget, cond, rep, acc, HorizonEmpty);
    } else {
      CollectFailure(itr, cfg, env, budget, cond, rep, acc, NoiseConfig(nr.error));
    }
  }

  lemma {:induction false} GuaranteeNextCond(itr: int, cfg: ItrConfig, env: Env, budget: nat, cond: nat, rep: nat, acc: Acc)
    requires |acc.attempts| <= budget && cond < cfg.length && rep >= cfg.repeats
    requires Inv(itr, cfg, env, cond, rep, acc)
    ensures Guarantee(itr, cfg, env, Collect(itr, cfg, env, budget, cond, rep, acc))
    decreases budget - |acc.attempts|, cfg.length - cond, cfg.repeats - rep, 0
  {
    CollectNextCond(itr, cfg, env, budget, cond, rep, acc);
    InvNextCond(itr, cfg, env, cond, rep, acc);
    CollectCorrect(itr, cfg, env, budget, cond + 1, 0, acc);
  }

  lemma {:induction false} GuaranteeRolled(itr: int, cfg: ItrConfig, env: Env, budget: nat, cond: nat, rep: nat, acc: Acc)
    requires |acc.attempts| < budget && cond < cfg.length && rep < cfg.repeats && cfg.T > 0
    requires CreateControlNoise(cfg.noiseType, cfg.noiseSections).Ok?
    requires Inv(itr, cfg, env, cond, rep, acc)
    ensures Guarantee(itr, cfg, env, Collect(itr, cfg, env, budget, cond, rep, acc))
    decreases budget - |acc.attempts|, cfg.length - cond, cfg.repeats - rep, 1
  {
    var noise := CreateControlNoise(cfg.noiseType, cfg.noiseSections).value;
    var k := |acc.attempts|;
    var r := RolloutSpec(cfg.T, env.getCond(k, cond, rep), env.world(k, noise), env.evolve, cfg.labelWithNoise);
    assert r.Rolled?;
    var a := Attempt(cond, rep, r.sample, r.t, env.isGood(k, r.sample, r.t));
    var rejected := acc.(attempts := acc.attempts + [a], events := acc.events + ResetEvent(itr, cfg, cond, rep));
    var accepted := rejected.(samples := acc.samples + [r.sample],
                              worldInfos := acc.worldInfos + [env.worldInfo(k)],
                              mpcInfos := acc.mpcInfos + [env.mpcInfo(k)]);
    CollectRolled(itr, cfg, env, budget, cond, rep, acc, noise, r.sample, r.t, rejected, accepted);
    if !a.good {
      InvRejected(itr, cfg, env, cond, rep, acc, a, rejected);
      GuaranteeNext(itr, cfg, env, budget, cond, rep, acc, cond, rep, rejected);
    } else if env.isFinite(r.sample) {
      InvAccepted(itr, cfg, env, cond, rep, acc, a, accepted);
      GuaranteeNext(itr, cfg, env, budget, cond, rep, acc, cond, rep + 1, accepted);
    } else {
      ResetEventIsReset(itr, cfg, acc.events, cond, rep);
    }
  }

  /** The driver moved on from (cond, rep, acc) to (cond', rep', acc') with one more attempt. */
  lemma {:induction false} GuaranteeNext(itr: int, cfg: ItrConfig, env: Env, budget: nat, cond: nat, rep: nat, acc: Acc,
                                          cond': nat, rep': nat, acc': Acc)
    requires |acc.attempts| < budget && |acc'.attempts| == |acc.attempts| + 1
    requires Inv(itr, cfg, env, cond', rep', acc')
    requires Collect(itr, cfg, env, budget, cond, rep, acc) == Collect(itr, cfg, env, budget, cond', rep', acc')
    ensures Guarantee(itr, cfg, env, Collect(itr, cfg, env, budget, cond, rep, acc))
    decreases budget - |acc.attempts|, cfg.length - cond, cfg.repeats - rep, 0
  {
    CollectCorrect(itr, cfg, env, budget, cond', rep', acc');
  }

  /** The main invariant argument: whatever state satisfying Inv the driver is in, the iteration
      either completes with DoneProps, or stops having issued only world resets. */
  lemma {:induction false} CollectCorrect(itr: int, cfg: ItrConfig, env: Env, budget: nat, cond: nat, rep: nat, acc: Acc)
    requires |acc.attempts| <= budget
    requires Inv(itr, cfg, env, cond, rep, acc)
    ensures Guarantee(itr, cfg, env, Collect(itr, cfg, env, budget, cond, rep, acc))
    decreases budget - |acc.attempts|, cfg.length - cond, cfg.repeats - rep, 2
  {
    if cond >= cfg.length {
      GuaranteeFinish(itr, cfg, env, budget, cond, rep, acc);
    } else if rep >= cfg.repeats {
      GuaranteeNextCond(itr, cfg, env, budget, cond, rep, acc);
    } else if |acc.attempts| == budget || cfg.T == 0 || CreateControlNoise(cfg.noiseType, cfg.noiseSections).Err? {
      GuaranteeStop(itr, cfg, env, budget, cond, rep, acc);
    } else {
      GuaranteeRolled(itr, cfg, env, budget, cond, rep, acc);
    }
  }

  /** `_run_itr`: a completed iteration collected exactly conditions.length * conditions.repeats
      rollouts, one per slot in condition-major order, with everything DoneProps states; an
      iteration that stops early has only reset the world and saved nothing. */
  lemma ItrCorrect(itr: int, cfg: ItrConfig, env: Env, budget: nat)
    ensures var o := ItrSpec(itr, cfg, env, budget);
            (o.ItrDone? ==> DoneProps(itr, cfg, env, o) && |o.samples| == cfg.length * cfg.repeats)
            && (!o.ItrDone? ==> OnlyResets(o.events))
  {
    InvStart(itr, cfg, env);
    CollectCorrect(itr, cfg, env, budget, 0, 0, Start);
  }

  /** When the world is reset before every attempt (always when it is randomized), the resets
      match the attempts one for one, each naming the attempt's slot. */
  lemma {:induction false} ResetsEveryAttempt(itr: int, cfg: ItrConfig, A: seq<Attempt>)
    requires forall k :: 0 <= k < |A| ==> ResetBefore(cfg, A[k].cond, A[k].rep)
    ensures |Resets(itr, cfg, A)| == |A|
    ensures forall k :: 0 <= k < |A| ==> Resets(itr, cfg, A)[k] == ResetWorld(itr, A[k].cond, A[k].rep)
  {
    if A != [] {
      var B := A[..|A| - 1];
      assert forall k :: 0 <= k < |B| ==> B[k] == A[k];
      ResetsEveryAttempt(itr, cfg, B);
    }
  }

  /** The per-attempt resets are world resets only. */
  lemma {:induction false} ResetsAreResets(itr: int, cfg: ItrConfig, A: seq<Attempt>)
    ensures OnlyResets([ResetConditions] + Resets(itr, cfg, A))
  {
    if A != [] {
      var B := A[..|A| - 1];
      ResetsAreResets(itr, cfg, B);
      ResetEventIsReset(itr, cfg, [ResetConditions] + Resets(itr, cfg, B), A[|A| - 1].cond, A[|A| - 1].rep);
      assert [ResetConditions] + Resets(itr, cfg, A)
          == [ResetConditions] + Resets(itr, cfg, B) + ResetEvent(itr, cfg, A[|A| - 1].cond, A[|A| - 1].rep);
    }
  }

  /** The number of attempts made on the first slot (0, 0). */
  function FirstSlotAttempts(A: seq<Attempt>): nat
  {
    if A == [] then 0
    else FirstSlotAttempts(A[..|A| - 1]) + (if A[|A| - 1].cond == 0 && A[|A| - 1].rep == 0 then 1 else 0)
  }

  /** Without randomization the world is reset once per attempt on the first slot (so a rejected
      first rollout is followed by another reset, a rejected later one is not), always to (itr, 0, 0). */
  lemma {:induction false} ResetsFixedWorld(itr: int, cfg: ItrConfig, A: seq<Attempt>)
    requires !cfg.randomize
    ensures |Resets(itr, cfg, A)| == FirstSlotAttempts(A)
    ensures forall i :: 0 <= i < |Resets(itr, cfg, A)| ==> Resets(itr, cfg, A)[i] == ResetWorld(itr, 0, 0)
  {
    if A != [] {
      ResetsFixedWorld(itr, cfg, A[..|A| - 1]);
    }
  }

  /** A noise configuration the factory refuses surfaces at the first rollout, after the
      initial resets, and nothing is saved. */
  lemma NoiseErrorAtFirstRollout(itr: int, cfg: ItrConfig, env: Env, budget: nat)
    requires CreateControlNoise(cfg.noiseType, cfg.noiseSections).Err?
    requires cfg.T > 0 && cfg.length > 0 && cfg.repeats > 0 && budget > 0
    ensures ItrSpec(itr, cfg, env, budget)
         == ItrFailed(NoiseConfig(CreateControlNoise(cfg.noiseType, cfg.noiseSections).error),
                      [ResetConditions, ResetWorld(itr, 0, 0)])
  {
    CollectFailure(itr, cfg, env, budget, 0, 0, Start,
                   NoiseConfig(CreateControlNoise(cfg.noiseType, cfg.noiseSections).error));
  }

  lemma {:induction false} EmptyGridFrom(itr: int, cfg: ItrConfig, env: Env, budget: nat, cond: nat)
    requires cfg.repeats == 0 && cond <= cfg.length
    ensures Collect(itr, cfg, env, budget, cond, 0, Start) == Collect(itr, cfg, env, budget, cfg.length, 0, Start)
    decreases cfg.length - cond
  {
    if cond < cfg.length {
      CollectNextCond(itr, cfg, env, budget, cond, 0, Start);
      EmptyGridFrom(itr, cfg, env, budget, cond + 1);
    }
  }

  /** With no conditions or no repetitions no rollout is run, whatever the configuration (a bad
      noise type goes unnoticed), and three empty lists are saved. */
  lemma NoSlotsNoRollout(itr: int, cfg: ItrConfig, env: Env, budget: nat)
    requires cfg.length == 0 || cfg.repeats == 0
    ensures ItrSpec(itr, cfg, env, budget)
         == ItrDone([], [], [], [ResetConditions, SaveSamples(itr, []), SaveWorlds(itr, []), SaveMpcs(itr, []),
                                 ResetWorld(itr, 0, 0)], [])
  {
    if cfg.length > 0 {
      EmptyGridFrom(itr, cfg, env, budget, 0);
    }
    CollectFinish(itr, cfg, env, budget, cfg.length, 0, Start);
  }

  /** A single slot whose gate rejects the first K rollouts. */
  ghost predicate RejectFirst(cfg: ItrConfig, env: Env, K: nat)
  {
    cfg.length == 1 && cfg.repeats == 1 && cfg.T > 0
    && CreateControlNoise(cfg.noiseType, cfg.noiseSections).Ok?
    && (forall k: nat, s: seq<Step>, t: nat :: env.isGood(k, s, t) == (k >= K))
    && (forall s :: env.isFinite(s))
  }

  lemma {:induction false} RetryFrom(itr: int, cfg: ItrConfig, env: Env, budget: nat, K: nat, acc: Acc)
    requires RejectFirst(cfg, env, K) && K < budget
    requires |acc.attempts| <= K && acc.samples == [] && acc.worldInfos == [] && acc.mpcInfos == []
    requires forall k :: 0 <= k < |acc.attempts| ==> acc.attempts[k].cond == 0 && acc.attempts[k].rep == 0
    ensures var o := Collect(itr, cfg, env, budget, 0, 0, acc);
            o.ItrDone? && |o.attempts| == K + 1
            && (forall k :: 0 <= k < |o.attempts| ==> o.attempts[k].cond == 0 && o.attempts[k].rep == 0)
            && o.samples == [o.attempts[K].sample] && o.worldInfos == [env.worldInfo(K)] && o.mpcInfos == [env.mpcInfo(K)]
    decreases K - |acc.attempts|
  {
    var noise := CreateControlNoise(cfg.noiseType, cfg.noiseSections).value;
    var k := |acc.attempts|;
    var r := RolloutSpec(cfg.T, env.getCond(k, 0, 0), env.world(k, noise), env.evolve, cfg.labelWithNoise);
    assert r.Rolled?;
    var a := Attempt(0, 0, r.sample, r.t, env.isGood(k, r.sample, r.t));
    var rejected := acc.(attempts := acc.attempts + [a], events := acc.events + ResetEvent(itr, cfg, 0, 0));
    var accepted := rejected.(samples := acc.samples + [r.sample],
                              worldInfos := acc.worldInfos + [env.worldInfo(k)],
                              mpcInfos := acc.mpcInfos + [env.mpcInfo(k)]);
    CollectRolled(itr, cfg, env, budget, 0, 0, acc, noise, r.sample, r.t, rejected, accepted);
    assert forall j :: 0 <= j < k ==> rejected.attempts[j] == acc.attempts[j];
    assert rejected.attempts[k] == a;
    if k < K {
      RetryFrom(itr, cfg, env, budget, K, rejected);
    } else {
      CollectNextCond(itr, cfg, env, budget, 0, 1, accepted);
      CollectFinish(itr, cfg, env, budget, 1, 0, accepted);
      assert accepted.attempts[K] == a;
    }
  }

  /** A rollout the gate rejects is repeated on the same slot: with one slot and a gate that rejects
      the first K rollouts, the iteration runs K + 1 rollouts, resets the world before each, and
      saves only the last one with its own world and MPC infos. */
  lemma RetryUntilAccepted(itr: int, cfg: ItrConfig, env: Env, budget: nat, K: nat)
    requires RejectFirst(cfg, env, K) && K < budget
    ensures var o := ItrSpec(itr, cfg, env, budget);
            o.ItrDone? && |o.attempts| == K + 1
            && (forall k :: 0 <= k < K ==> !o.attempts[k].good) && o.attempts[K].good
            && o.samples == [o.attempts[K].sample]
            && o.worldInfos == [env.worldInfo(K)] && o.mpcInfos == [env.mpcInfo(K)]
            && o.events == [ResetConditions] + seq(K + 1, _ => ResetWorld(itr, 0, 0)) + FinalEvents(itr, Start.(samples := o.samples, worldInfos := o.worldInfos, mpcInfos := o.mpcInfos))
  {
    RetryFrom(itr, cfg, env, budget, K, Start);
    ItrCorrect(itr, cfg, env, budget);
    var o := ItrSpec(itr, cfg, env, budget);
    var A := o.attempts;
    forall k | 0 <= k < |A|
      ensures A[k].good == (k >= K)
    {
      assert AttemptFrom(cfg, env, k, A[k]);
    }
    ResetsEveryAttempt(itr, cfg, A);
  }
}
