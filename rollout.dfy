/** The rollout executor: the per-timestep loop of `_run_itr` that fills a sample buffer of
    horizon T, stops at the first collision (keeping that step), advances the state with the
    executed action, and trims the sample to the steps actually taken. */
module Rollout {
  import opened Wrappers
  import opened Types

  /** What the agent, the MPC policy with the noise generator created for this rollout, and the
      world do during one rollout. */
  datatype RolloutWorld = RolloutWorld(
    act: (nat, State) -> (Action, Obs),  // `agent.sample_policy(x, mpc, noise=control_noise)` at step t
    nominal: (nat, State) -> Action,     // `agent.sample_policy(x, mpc, noise=ZeroNoise)` at step t
    collides: (seq<Step>, nat) -> bool)  // `world.is_collision(sample, t)`, given the steps 0..t

  datatype RolloutResult =
    | Rolled(sample: seq<Step>, t: nat)  // the trimmed sample and the loop variable t at exit
    | EmptyHorizon                       // T == 0: the buffer has no slot 0 for the initial state

  /** The action recorded as the label at step t in state x: the executed action when labelling
      with noise, otherwise the answer to a second, noise-free query. */
  function Label(w: RolloutWorld, labelWithNoise: bool, t: nat, x: State): Action
  {
    if labelWithNoise then w.act(t, x).0 else w.nominal(t, x)
  }

  /** Specification of the loop: continue from the recorded steps `acc` in state x. */
  function RollFrom(T: nat, w: RolloutWorld, evolve: (State, Action) -> State, labelWithNoise: bool,
                    acc: seq<Step>, x: State): (seq<Step>, nat)
    requires |acc| < T
    decreases T - |acc|
  {
    var t := |acc|;
    var acc' := acc + [Step(x, Label(w, labelWithNoise, t, x), w.act(t, x).1)];
    if w.collides(acc', t) || t == T - 1 then (acc', t)
    else RollFrom(T, w, evolve, labelWithNoise, acc', evolve(x, w.act(t, x).0))
  }

  /** One unfolding of RollFrom, for the loop that implements it. */
  lemma RollFromUnfold(T: nat, w: RolloutWorld, evolve: (State, Action) -> State, labelWithNoise: bool,
                       acc: seq<Step>, x: State, u: Action, o: Obs, lab: Action)
    requires |acc| < T && (u, o) == w.act(|acc|, x) && lab == Label(w, labelWithNoise, |acc|, x)
    ensures w.collides(acc + [Step(x, lab, o)], |acc|) || |acc| == T - 1 ==>
      RollFrom(T, w, evolve, labelWithNoise, acc, x) == (acc + [Step(x, lab, o)], |acc|)
    ensures !w.collides(acc + [Step(x, lab, o)], |acc|) && |acc| < T - 1 ==>
      RollFrom(T, w, evolve, labelWithNoise, acc, x)
        == RollFrom(T, w, evolve, labelWithNoise, acc + [Step(x, lab, o)], evolve(x, u))
  {
  }

  function RolloutSpec(T: nat, x0: State, w: RolloutWorld, evolve: (State, Action) -> State,
                       labelWithNoise: bool): RolloutResult
  {
    if T == 0 then EmptyHorizon
    else
      var (s, t) := RollFrom(T, w, evolve, labelWithNoise, [], x0);
      Rolled(s, t)
  }

  // ---------------------------------------------------------------------------
  // The sample buffer (`Sample(T=T)` with set_X / set_U / set_O / get_X / match)
  // ---------------------------------------------------------------------------

  datatype Slot = Slot(x: Option<State>, u: Option<Action>, o: Option<Obs>)

  const EmptySlot: Slot := Slot(None, None, None)

  /** Slots 0..n-1 hold a state, a label and an observation. */
  ghost predicate Full(ss: seq<Slot>, n: nat)
  {
    n <= |ss| && forall i :: 0 <= i < n ==> ss[i].x.Some? && ss[i].u.Some? && ss[i].o.Some?
  }

  /** The first n recorded steps of a buffer's contents. */
  function PrefixOf(ss: seq<Slot>, n: nat): (s: seq<Step>)
    requires Full(ss, n)
    ensures |s| == n
  {
    seq(n, i requires 0 <= i < n => Step(ss[i].x.value, ss[i].u.value, ss[i].o.value))
  }

  /** Completing slot t of a buffer full up to t extends its prefix by that step. */
  lemma PrefixExtend(ss: seq<Slot>, t: nat, x: State, u: Action, o: Obs)
    requires Full(ss, t) && t < |ss|
    ensures Full(ss[t := Slot(Some(x), Some(u), Some(o))], t + 1)
    ensures PrefixOf(ss[t := Slot(Some(x), Some(u), Some(o))], t + 1) == PrefixOf(ss, t) + [Step(x, u, o)]
  {
  }

  /** Writing a slot beyond n leaves the first n steps alone. */
  lemma PrefixUnchanged(ss: seq<Slot>, n: nat, j: nat, v: Slot)
    requires Full(ss, n) && n <= j < |ss|
    ensures Full(ss[j := v], n) && PrefixOf(ss[j := v], n) == PrefixOf(ss, n)
  {
  }

  /** No slot after n has been written. */
  ghost predicate EmptyAfter(ss: seq<Slot>, n: nat)
  {
    forall i :: n < i < |ss| ==> ss[i] == EmptySlot
  }

  /** Writing a slot at or before m keeps the slots after m empty. */
  lemma EmptyAfterUpdate(ss: seq<Slot>, n: nat, m: nat, j: nat, v: Slot)
    requires EmptyAfter(ss, n) && n <= m && j <= m && j < |ss|
    ensures EmptyAfter(ss[j := v], m)
  {
  }

  class SampleBuffer {
    const T: nat
    const slots: array<Slot>

    ghost predicate Valid() { slots.Length == T }

    constructor (T: nat)
      ensures Valid() && this.T == T && fresh(slots)
      ensures slots[..] == seq(T, _ => EmptySlot)
    {
      this.T := T;
      slots := new Slot[T](_ => EmptySlot);
    }

    method SetX(x: State, t: nat)
      requires Valid() && t < T
      modifies slots
      ensures slots[..] == old(slots[..])[t := old(slots[t]).(x := Some(x))]
    {
      slots[t] := slots[t].(x := Some(x));
    }

    method SetU(u: Action, t: nat)
      requires Valid() && t < T
      modifies slots
      ensures slots[..] == old(slots[..])[t := old(slots[t]).(u := Some(u))]
    {
      slots[t] := slots[t].(u := Some(u));
    }

    method SetO(o: Obs, t: nat)
      requires Valid() && t < T
      modifies slots
      ensures slots[..] == old(slots[..])[t := old(slots[t]).(o := Some(o))]
    {
      slots[t] := slots[t].(o := Some(o));
    }

    function GetX(t: nat): (x: State)
      reads slots
      requires Valid() && t < T && slots[t].x.Some?
      ensures Some(x) == slots[..][t].x
    {
      slots[t].x.value
    }

    /** `sample.match(slice(0, n))`: the first n recorded steps. */
    function Match(n: nat): (s: seq<Step>)
      reads slots
      requires Valid() && Full(slots[..], n)
      ensures s == PrefixOf(slots[..], n)
    {
      PrefixOf(slots[..], n)
    }
  }

  /** The loop of `_run_itr` over t. `buf` is the sample buffer's final contents: the sample is
      its first t+1 slots, and no slot after t was written. */
  method Roll(T: nat, x0: State, w: RolloutWorld, evolve: (State, Action) -> State, labelWithNoise: bool)
    returns (r: RolloutResult, ghost buf: seq<Slot>)
    ensures r == RolloutSpec(T, x0, w, evolve, labelWithNoise)
    ensures r.Rolled? ==> |buf| == T && Full(buf, r.t + 1) && PrefixOf(buf, r.t + 1) == r.sample
    ensures r.Rolled? ==> EmptyAfter(buf, r.t)
  {
    if T == 0 {
      return EmptyHorizon, [];
    }
    var sample := new SampleBuffer(T);
    sample.SetX(x0, 0);
    ghost var goal := RollFrom(T, w, evolve, labelWithNoise, [], x0);
    ghost var acc: seq<Step> := [];
    var t := 0;
    while true
      invariant t < T && sample.Valid()
      invariant Full(sample.slots[..], t) && sample.slots[t].x.Some?
      invariant acc == PrefixOf(sample.slots[..], t)
      invariant EmptyAfter(sample.slots[..], t)
      invariant RollFrom(T, w, evolve, labelWithNoise, acc, sample.GetX(t)) == goal
      decreases T - t
    {
      var x := sample.GetX(t);
      var uo := w.act(t, x);
      var uLabel := if labelWithNoise then uo.0 else w.nominal(t, x);
      ghost var ss := sample.slots[..];
      sample.SetU(uLabel, t);
      sample.SetO(uo.1, t);
      assert sample.slots[..] == ss[t := Slot(Some(x), Some(uLabel), Some(uo.1))];
      PrefixExtend(ss, t, x, uLabel, uo.1);
      EmptyAfterUpdate(ss, t, t, t, Slot(Some(x), Some(uLabel), Some(uo.1)));
      RollFromUnfold(T, w, evolve, labelWithNoise, acc, x, uo.0, uo.1, uLabel);
      acc := acc + [Step(x, uLabel, uo.1)];
      if w.collides(sample.Match(t + 1), t) {
        break;  // crashed at t: step t is kept
      }
      if t < T - 1 {
        ghost var ss' := sample.slots[..];
        sample.SetX(evolve(x, uo.0), t + 1);
        PrefixUnchanged(ss', t + 1, t + 1, Slot(Some(evolve(x, uo.0)), None, None));
        EmptyAfterUpdate(ss', t, t + 1, t + 1, Slot(Some(evolve(x, uo.0)), None, None));
      }
      if t == T - 1 {
        break;  // the range of t is exhausted; Python leaves t at T - 1
      }
      t := t + 1;
    }
    r := Rolled(sample.Match(t + 1), t);
    buf := sample.slots[..];
  }
}

/** What a rollout promises, stated without the loop: the declarative reference the
    executor is proved equal to. */
module RolloutProperties {
  import opened Types
  import opened Rollout

  /** Step j records the label for its state and the observation of the noisy query. */
  ghost predicate Recorded(w: RolloutWorld, labelWithNoise: bool, s: seq<Step>, j: nat)
    requires j < |s|
  {
    s[j].u == Label(w, labelWithNoise, j, s[j].x) && s[j].o == w.act(j, s[j].x).1
  }

  /** The world reports a collision at step j, given the steps 0..j of s. */
  ghost predicate CollidesAt(w: RolloutWorld, s: seq<Step>, j: nat)
    requires j < |s|
  {
    w.collides(s[..j + 1], j)
  }

  /** s, ending at t, is the rollout from x0: it starts in x0, each step is recorded from its own
      state, no step before t collides, each next state is `evolve` of the previous state and the
      EXECUTED action, and it ends at t either by a collision at t or at the horizon. */
  ghost predicate IsRollout(T: nat, x0: State, w: RolloutWorld, evolve: (State, Action) -> State,
                            labelWithNoise: bool, s: seq<Step>, t: nat)
  {
    && t < T && |s| == t + 1 && s[0].x == x0
    && (forall j :: 0 <= j <= t ==> Recorded(w, labelWithNoise, s, j))
    && (forall j :: 0 <= j < t ==> !CollidesAt(w, s, j))
    && (forall j :: 0 <= j < t ==> s[j + 1].x == evolve(s[j].x, w.act(j, s[j].x).0))
    && (t < T - 1 ==> CollidesAt(w, s, t))
  }

  /** The recorded steps acc are a collision-free beginning of the rollout from x0, and x is the
      state reached after them. */
  ghost predicate GoodStart(T: nat, x0: State, w: RolloutWorld, evolve: (State, Action) -> State,
                            labelWithNoise: bool, acc: seq<Step>, x: State)
  {
    && |acc| < T
    && (if acc == [] then x == x0
        else acc[0].x == x0 && x == evolve(acc[|acc| - 1].x, w.act(|acc| - 1, acc[|acc| - 1].x).0))
    && (forall j :: 0 <= j < |acc| ==> Recorded(w, labelWithNoise, acc, j))
    && (forall j :: 0 <= j < |acc| ==> !CollidesAt(w, acc, j))
    && (forall j :: 0 <= j < |acc| - 1 ==> acc[j + 1].x == evolve(acc[j].x, w.act(j, acc[j].x).0))
  }

  lemma {:induction false} RollFromIsRollout(T: nat, x0: State, w: RolloutWorld, evolve: (State, Action) -> State,
                                             labelWithNoise: bool, acc: seq<Step>, x: State)
    requires GoodStart(T, x0, w, evolve, labelWithNoise, acc, x)
    ensures IsRollout(T, x0, w, evolve, labelWithNoise,
                      RollFrom(T, w, evolve, labelWithNoise, acc, x).0,
                      RollFrom(T, w, evolve, labelWithNoise, acc, x).1)
    decreases T - |acc|
  {
    var t := |acc|;
    var acc' := acc + [Step(x, Label(w, labelWithNoise, t, x), w.act(t, x).1)];
    assert acc'[..t] == acc;
    forall j | 0 <= j <= t ensures Recorded(w, labelWithNoise, acc', j) {
      if j < t { assert acc'[j] == acc[j]; assert Recorded(w, labelWithNoise, acc, j); }
    }
    forall j | 0 <= j < t ensures !CollidesAt(w, acc', j) {
      assert acc'[..j + 1] == acc[..j + 1];
      assert !CollidesAt(w, acc, j);
    }
    assert acc'[..t + 1] == acc';
    forall j | 0 <= j < t ensures acc'[j + 1].x == evolve(acc'[j].x, w.act(j, acc'[j].x).0) {
      if j + 1 < t { assert acc'[j + 1] == acc[j + 1]; }
    }
    if !(w.collides(acc', t) || t == T - 1) {
      RollFromIsRollout(T, x0, w, evolve, labelWithNoise, acc', evolve(x, w.act(t, x).0));
    }
  }

  lemma {:induction false} RolloutFromSuffix(T: nat, x0: State, w: RolloutWorld, evolve: (State, Action) -> State,
                                             labelWithNoise: bool, s: seq<Step>, t: nat, k: nat)
    requires IsRollout(T, x0, w, evolve, labelWithNoise, s, t)
    requires k <= t
    ensures RollFrom(T, w, evolve, labelWithNoise, s[..k], s[k].x) == (s, t)
    decreases t - k
  {
    assert Recorded(w, labelWithNoise, s, k);
    assert s[..k] + [s[k]] == s[..k + 1];
    if k == t {
      assert s[..t + 1] == s;
    } else {
      assert !CollidesAt(w, s, k);
      RolloutFromSuffix(T, x0, w, evolve, labelWithNoise, s, t, k + 1);
    }
  }

  /** The executor's result is exactly the rollout: both directions. So the sample is trimmed to
      the first collision step t* (length t*+1), or has length T when no step collides; states
      advance by the noisy executed action only between kept steps; and labels follow the
      label-with-noise rule while observations always come from the noisy query. */
  lemma RolloutCharacterized(T: nat, x0: State, w: RolloutWorld, evolve: (State, Action) -> State,
                             labelWithNoise: bool, s: seq<Step>, t: nat)
    ensures RolloutSpec(T, x0, w, evolve, labelWithNoise) == Rolled(s, t)
        <==> IsRollout(T, x0, w, evolve, labelWithNoise, s, t)
  {
    if RolloutSpec(T, x0, w, evolve, labelWithNoise) == Rolled(s, t) {
      RollFromIsRollout(T, x0, w, evolve, labelWithNoise, [], x0);
    }
    if IsRollout(T, x0, w, evolve, labelWithNoise, s, t) {
      RolloutFromSuffix(T, x0, w, evolve, labelWithNoise, s, t, 0);
      assert s[..0] == [];
    }
  }

  /** A horizon of at least one step always yields a rollout. */
  lemma RolloutExists(T: nat, x0: State, w: RolloutWorld, evolve: (State, Action) -> State, labelWithNoise: bool)
    ensures RolloutSpec(T, x0, w, evolve, labelWithNoise).Rolled? <==> T > 0
  {
  }

  /** If no step of the rollout collides, the sample has the full horizon length T. */
  lemma NoCollisionFullLength(T: nat, x0: State, w: RolloutWorld, evolve: (State, Action) -> State,
                              labelWithNoise: bool, s: seq<Step>, t: nat)
    requires RolloutSpec(T, x0, w, evolve, labelWithNoise) == Rolled(s, t)
    requires forall j :: 0 <= j < |s| ==> !CollidesAt(w, s, j)
    ensures |s| == T && t == T - 1
  {
    RolloutCharacterized(T, x0, w, evolve, labelWithNoise, s, t);
  }

  /** Noise/label separation: without label_with_noise, the label at every step is the noise-free
      answer at that step's state, while the next state is reached with the noisy action. */
  lemma LabelSeparation(T: nat, x0: State, w: RolloutWorld, evolve: (State, Action) -> State,
                        s: seq<Step>, t: nat, j: nat)
    requires RolloutSpec(T, x0, w, evolve, false) == Rolled(s, t)
    requires j <= t
    ensures |s| == t + 1
    ensures s[j].u == w.nominal(j, s[j].x) && s[j].o == w.act(j, s[j].x).1
    ensures j < t ==> s[j + 1].x == evolve(s[j].x, w.act(j, s[j].x).0)
  {
    RolloutCharacterized(T, x0, w, evolve, false, s, t);
    assert Recorded(w, false, s, j);
  }
}
