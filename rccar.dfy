/** The RC-car specialisation of the driver: the operator's quality gate over two ROS
    "empty message" callbacks, the world reset that waits for the operator before the first
    rollout on hardware, the setup check that the world is randomized, the planner kinds the car
    can build an MPC for, and the name of the bag file each rollout is recorded to. */
module RCcar {
  import opened Wrappers
  import opened Strings
  import opened Paths
  import opened Planners
  import opened Types
  import opened Iteration
  import opened IterationProperties

  // ---------------------------------------------------------------------------------------
  // The operator gate

  /** A subscriber to a topic of empty messages: `get` reports whether a message arrived since
      the previous `get` and forgets it. */
  class RosCallbackEmpty {
    var pending: bool

    constructor ()
      ensures !pending
    {
      pending := false;
    }

    /** A message arrives on the topic. */
    method Receive()
      modifies this
      ensures pending
    {
      pending := true;
    }

    method Get() returns (r: bool)
      modifies this
      ensures r == old(pending) && !pending
    {
      r := pending;
      pending := false;
    }
  }

  /** One round of the poll loop: whether ROS reports shutdown at the loop test, and whether a
      good (A) and a bad (B) message arrived since the previous round. */
  datatype Poll = Poll(shutdown: bool, good: bool, bad: bool)

  /** What the gate returns: a verdict, Python's None when ROS shut down first, or Undecided
      when the given rounds end before either (the source would go on polling). */
  datatype PollResult = Answer(good: bool) | ShutdownNone | Undecided

  /** A round decides when exactly one of the two buttons was pressed. */
  predicate Decisive(p: Poll) { p.good != p.bad }

  /** The first i rounds neither saw shutdown nor decided. */
  predicate Quiet(polls: seq<Poll>, i: nat)
    requires i <= |polls|
  {
    forall j :: 0 <= j < i ==> !polls[j].shutdown && !Decisive(polls[j])
  }

  /** Round i (or the end of the rounds, i == |polls|) is where the loop stops. */
  predicate StopsAt(polls: seq<Poll>, i: nat)
    requires i <= |polls|
  {
    Quiet(polls, i) && (i < |polls| ==> polls[i].shutdown || Decisive(polls[i]))
  }

  /** The result of the loop when it stops at round i. */
  function ResultAt(polls: seq<Poll>, i: nat): PollResult
    requires i <= |polls|
  {
    if i == |polls| then Undecided
    else if polls[i].shutdown then ShutdownNone
    else Answer(polls[i].good)
  }

  /** The poll rule, round by round. */
  function Decide(polls: seq<Poll>): PollResult
    decreases |polls|
  {
    if polls == [] then Undecided
    else if polls[0].shutdown then ShutdownNone
    else if polls[0].good && !polls[0].bad then Answer(true)
    else if polls[0].bad && !polls[0].good then Answer(false)
    else Decide(polls[1..])
  }

  /** The round at which the loop stops. */
  function FirstStop(polls: seq<Poll>): (i: nat)
    ensures i <= |polls| && StopsAt(polls, i)
    decreases |polls|
  {
    if polls == [] || polls[0].shutdown || Decisive(polls[0]) then 0
    else
      var j := FirstStop(polls[1..]);
      assert forall m :: 0 <= m < j ==> polls[1..][m] == polls[m + 1];
      j + 1
  }

  /** The stopping round is unique. */
  lemma StopsAtUnique(polls: seq<Poll>, i: nat, j: nat)
    requires i <= |polls| && j <= |polls| && StopsAt(polls, i) && StopsAt(polls, j)
    ensures i == j
  {
  }

  /** The gate answers as its first stopping round says: true at the first round where only
      good was pressed, false where only bad was, None at a shutdown, and nothing yet when the
      rounds run out; whatever came before that round was both or neither. */
  lemma {:induction false} DecideAt(polls: seq<Poll>, i: nat)
    requires i <= |polls| && StopsAt(polls, i)
    ensures Decide(polls) == ResultAt(polls, i)
    decreases |polls|
  {
    if polls != [] && !polls[0].shutdown && !Decisive(polls[0]) {
      assert i > 0;
      var rest := polls[1..];
      forall m | 0 <= m < i - 1
        ensures !rest[m].shutdown && !Decisive(rest[m])
      {
        assert rest[m] == polls[m + 1];
      }
      DecideAt(rest, i - 1);
    }
  }

  /** Both directions of the poll rule: the gate answers b exactly when the loop stops at a
      round that is not a shutdown and that round's good button reads b. */
  lemma AnswerIff(polls: seq<Poll>, b: bool)
    ensures Decide(polls) == Answer(b) <==>
            exists i :: 0 <= i < |polls| && StopsAt(polls, i) && !polls[i].shutdown && polls[i].good == b
  {
    var f := FirstStop(polls);
    DecideAt(polls, f);
    if exists i :: 0 <= i < |polls| && StopsAt(polls, i) && !polls[i].shutdown && polls[i].good == b {
      var i :| 0 <= i < |polls| && StopsAt(polls, i) && !polls[i].shutdown && polls[i].good == b;
      StopsAtUnique(polls, i, f);
    }
  }

  /** A round where both or neither button was pressed is skipped. */
  lemma SkipIndecisive(p: Poll, polls: seq<Poll>)
    requires !p.shutdown && !Decisive(p)
    ensures Decide([p] + polls) == Decide(polls)
  {
    assert ([p] + polls)[1..] == polls;
  }

  /** The driver's `if not self._is_good_rollout(...)`: only True accepts; False and None reject. */
  predicate DriverAccepts(r: PollResult) { r == Answer(true) }

  /** `_is_good_rollout`: always true in simulation, the operator's poll otherwise. */
  function GateSpec(sim: bool, polls: seq<Poll>): (r: PollResult)
    ensures sim ==> r == Answer(true)
    ensures !sim ==> r == Decide(polls)
  {
    if sim then Answer(true) else Decide(polls)
  }

  /** The operator waits only before the first rollout of an iteration, and only on hardware. */
  predicate WaitsForOperator(sim: bool, cond: nat, rep: nat)
  {
    !sim && cond == 0 && rep == 0
  }

  /** Commands the car and its world receive from the gate and the reset. */
  datatype CarEvent =
    | StopCar                                              // agent.execute_control(None)
    | WorldReset(backUp: bool, itr: int, cond: nat, rep: nat)  // world.reset(back_up, itr, cond, rep)

  /** The part of the RC-car driver that talks to the operator and the world. */
  class ProbcollRCcar {
    const sim: bool
    const goodCallback: RosCallbackEmpty
    const badCallback: RosCallbackEmpty
    var carLog: seq<CarEvent>

    constructor (sim: bool)
      ensures this.sim == sim && carLog == []
      ensures fresh(goodCallback) && fresh(badCallback) && goodCallback != badCallback
      ensures !goodCallback.pending && !badCallback.pending
    {
      this.sim := sim;
      goodCallback := new RosCallbackEmpty();
      badCallback := new RosCallbackEmpty();
      carLog := [];
    }

    /** `_ros_is_good_rollout`: discard pending signals, then poll until one button alone was
        pressed or ROS shuts down. Signals pending before the call play no part (the result is
        a function of the rounds alone), and both callbacks end with nothing pending. */
    method RosIsGoodRollout(polls: seq<Poll>) returns (r: PollResult)
      requires goodCallback != badCallback
      modifies goodCallback, badCallback
      ensures r == Decide(polls)
      ensures !goodCallback.pending && !badCallback.pending
    {
      var _ := goodCallback.Get();
      var _ := badCallback.Get();
      var i := 0;
      while i < |polls|
        invariant 0 <= i <= |polls|
        invariant Decide(polls[i..]) == Decide(polls)
        invariant !goodCallback.pending && !badCallback.pending
      {
        assert polls[i..][1..] == polls[i + 1..];
        if polls[i].shutdown {
          return ShutdownNone;
        }
        if polls[i].good {
          goodCallback.Receive();
        }
        if polls[i].bad {
          badCallback.Receive();
        }
        var good := goodCallback.Get();
        var bad := badCallback.Get();
        if good && !bad {
          return Answer(true);
        } else if bad && !good {
          return Answer(false);
        }
        i := i + 1;
      }
      return Undecided;
    }

    /** `_is_good_rollout`: in simulation accept without asking; on hardware stop the car first,
        then ask the operator. */
    method IsGoodRollout(polls: seq<Poll>) returns (r: PollResult)
      requires goodCallback != badCallback
      modifies this, goodCallback, badCallback
      ensures r == GateSpec(sim, polls)
      ensures carLog == old(carLog) + (if sim then [] else [StopCar])
      ensures sim ==> unchanged(goodCallback, badCallback)
      ensures !sim ==> !goodCallback.pending && !badCallback.pending
    {
      if sim {
        return Answer(true);
      }
      carLog := carLog + [StopCar];
      r := RosIsGoodRollout(polls);
    }

    /** `_reset_world`: on hardware, before the first rollout, wait for the operator (whatever
        the answer); then reset the world without backing up. `done` is false only when the
        wait has not ended within the given rounds, and then the world is not reset yet. */
    method ResetWorld(itr: int, cond: nat, rep: nat, polls: seq<Poll>) returns (done: bool)
      requires goodCallback != badCallback
      modifies this, goodCallback, badCallback
      ensures done == !(WaitsForOperator(sim, cond, rep) && Decide(polls).Undecided?)
      ensures carLog == old(carLog) + (if done then [WorldReset(false, itr, cond, rep)] else [])
      ensures !WaitsForOperator(sim, cond, rep) ==> unchanged(goodCallback, badCallback)
      ensures WaitsForOperator(sim, cond, rep) ==> !goodCallback.pending && !badCallback.pending
    {
      if !sim && cond == 0 && rep == 0 {
        var answer := RosIsGoodRollout(polls);
        if answer.Undecided? {
          return false;
        }
      }
      var backUp := false;
      carLog := carLog + [WorldReset(backUp, itr, cond, rep)];
      return true;
    }
  }

  /** The gate the driver sees when the operator's rounds after rollout k are polls(k). */
  function Gate(sim: bool, polls: nat -> seq<Poll>): (nat, seq<Step>, nat) -> bool
  {
    (k: nat, s: seq<Step>, t: nat) => DriverAccepts(GateSpec(sim, polls(k)))
  }

  /** Hardware: a shutdown before the operator answered counts as a rejection, so the driver
      retries the slot. */
  lemma ShutdownRejects(polls: nat -> seq<Poll>, k: nat, s: seq<Step>, t: nat)
    requires Decide(polls(k)) == ShutdownNone
    ensures !Gate(false, polls)(k, s, t)
  {
  }

  lemma {:induction false} AllGoodAccepted(A: seq<Attempt>)
    requires forall k :: 0 <= k < |A| ==> A[k].good
    ensures |AcceptedIdx(A)| == |A|
    decreases |A|
  {
    if A != [] {
      var B := A[..|A| - 1];
      assert forall k :: 0 <= k < |B| ==> B[k] == A[k];
      AllGoodAccepted(B);
    }
  }

  /** In simulation no rollout is retried: a completed iteration ran exactly one accepted
      rollout per slot. */
  lemma SimNeverRetries(itr: int, cfg: ItrConfig, env: Env, budget: nat, polls: nat -> seq<Poll>)
    requires env.isGood == Gate(true, polls)
    ensures var o := ItrSpec(itr, cfg, env, budget);
            o.ItrDone? ==> |o.attempts| == cfg.length * cfg.repeats
                           && forall k :: 0 <= k < |o.attempts| ==> o.attempts[k].good
  {
    ItrCorrect(itr, cfg, env, budget);
    var o := ItrSpec(itr, cfg, env, budget);
    if o.ItrDone? {
      var A := o.attempts;
      forall k | 0 <= k < |A| ensures A[k].good {
        assert AttemptFrom(cfg, env, k, A[k]);
        assert GateSpec(true, polls(k)) == Answer(true);
        assert A[k].good == Gate(true, polls)(k, A[k].sample, A[k].t);
      }
      AllGoodAccepted(A);
    }
  }

  // ---------------------------------------------------------------------------------------
  // Setup and the MPC

  /** `_setup`'s `assert(self._world.randomize)`. */
  function Setup(randomize: bool): (r: Result<(), ConfigError>)
    ensures r.Ok? <==> randomize
    ensures r.Err? ==> r.error == WorldNotRandomized
  {
    if randomize then Ok(()) else Err(WorldNotRandomized)
  }

  /** With the setup check passed, the world is reset before every rollout of a completed
      iteration, retried ones included, to that rollout's own slot: the events are the
      condition reset, one world reset per attempt, the three saves and the final reset. */
  lemma SetupResetsEveryRollout(itr: int, cfg: ItrConfig, env: Env, budget: nat)
    requires Setup(cfg.randomize).Ok?
    ensures var o := ItrSpec(itr, cfg, env, budget);
            o.ItrDone? ==>
              |o.events| == |o.attempts| + 5
              && o.events[0] == Effects.ResetConditions
              && (forall k :: 0 <= k < |o.attempts| ==>
                    o.events[k + 1] == Effects.ResetWorld(itr, o.attempts[k].cond, o.attempts[k].rep))
              && o.events[|o.events| - 1] == Effects.ResetWorld(itr, 0, 0)
  {
    ItrCorrect(itr, cfg, env, budget);
    var o := ItrSpec(itr, cfg, env, budget);
    if o.ItrDone? {
      var A := o.attempts;
      ResetsEveryAttempt(itr, cfg, A);
      var R := Resets(itr, cfg, A);
      forall k | 0 <= k < |A| ensures o.events[k + 1] == Effects.ResetWorld(itr, A[k].cond, A[k].rep) {
        assert o.events[k + 1] == R[k];
      }
    }
  }

  /** The policy the car runs: an open-loop policy over motion primitives. */
  datatype Mpc = OpenLoopPrimitives

  datatype MpcError = NotImplemented(message: string)

  /** `_create_mpc`: only the primitives planner is available on the car. */
  function CreateMpc(p: Planner): (r: Result<Mpc, MpcError>)
    ensures r.Ok? <==> p == Primitives
    ensures r.Err? ==> r.error.message == "planner_type " + p.Name() + " not implemented for rccar"
  {
    if p == Primitives then Ok(OpenLoopPrimitives)
    else Err(NotImplemented("planner_type " + p.Name() + " not implemented for rccar"))
  }

  /** Of the eight names the driver's constructor admits, the car builds a policy for one. */
  lemma OnlyPrimitivesOnCar(name: string)
    ensures (CheckPlannerType(name).Ok? && CreateMpc(CheckPlannerType(name).value).Ok?)
            <==> name == "primitives"
  {
  }

  // ---------------------------------------------------------------------------------------
  // Bag files

  const BagPrefix: string := "bagfile_itr"
  const CondTag: string := "_cond"
  const RepTag: string := "_rep"
  const BagExt: string := ".bag"

  /** `'bagfile_itr{0}_cond{1}_rep{2}.bag'.format(itr, cond, rep)`. */
  function BagName(itr: int, cond: nat, rep: nat): string
  {
    BagPrefix + IntToString(itr) + CondTag + IntToString(cond) + RepTag + IntToString(rep) + BagExt
  }

  /** `_bag_file`: the bag of one rollout lives in its iteration's directory. The directory is
      the inherited `_itr_dir`, taken to be the driver's `Paths.ItrDir`. */
  function BagFile(saveDir: string, itr: int, cond: nat, rep: nat): string
  {
    Join(ItrDir(saveDir, itr), BagName(itr, cond, rep))
  }

  /** The rest of s after tag, if s starts with it. */
  function ReadTag(tag: string, s: string): (r: Option<string>)
    ensures r.Some? <==> |tag| <= |s| && s[..|tag|] == tag
    ensures r.Some? ==> s == tag + r.value
  {
    if |tag| <= |s| && s[..|tag|] == tag then Some(s[|tag|..]) else None
  }

  /** A natural number at the front of s and the rest of s. */
  function ReadNat(s: string): Option<(nat, string)>
  {
    var n := SpanDigits(s);
    match ParseNat(s[..n])
    case Some(v) => Some((v, s[n..]))
    case None => None
  }

  /** An integer, with an optional '-', at the front of s and the rest of s. */
  function ReadInt(s: string): Option<(int, string)>
  {
    if |s| > 0 && s[0] == '-' then
      match ReadNat(s[1..])
      case Some((v, rest)) => var i: int := v; Some((-i, rest))
      case None => None
    else
      match ReadNat(s)
      case Some((v, rest)) => Some((v as int, rest))
      case None => None
  }

  /** Reads the iteration, condition and repetition back out of a bag-file name. */
  function ParseBagName(name: string): Option<(int, nat, nat)>
  {
    match ReadTag(BagPrefix, name)
    case None => None
    case Some(s1) =>
      match ReadInt(s1)
      case None => None
      case Some((itr, s2)) =>
        match ReadTag(CondTag, s2)
        case None => None
        case Some(s3) =>
          match ReadNat(s3)
          case None => None
          case Some((cond, s4)) =>
            match ReadTag(RepTag, s4)
            case None => None
            case Some(s5) =>
              match ReadNat(s5)
              case None => None
              case Some((rep, s6)) => if s6 == BagExt then Some((itr, cond, rep)) else None
  }

  lemma ReadTagAppend(tag: string, rest: string)
    ensures ReadTag(tag, tag + rest) == Some(rest)
  {
    assert (tag + rest)[..|tag|] == tag;
    assert (tag + rest)[|tag|..] == rest;
  }

  lemma ReadNatAppend(n: nat, rest: string)
    requires rest == [] || !IsDigit(rest[0])
    ensures ReadNat(NatToString(n) + rest) == Some((n, rest))
  {
    var d := NatToString(n);
    NatToStringDigits(n);
    SpanDigitsPrefix(d, rest);
    assert (d + rest)[..|d|] == d;
    assert (d + rest)[|d|..] == rest;
  }

  lemma ReadIntAppend(i: int, rest: string)
    requires rest == [] || !IsDigit(rest[0])
    ensures ReadInt(IntToString(i) + rest) == Some((i, rest))
  {
    if i < 0 {
      var s := IntToString(i) + rest;
      assert s == "-" + (NatToString(-i) + rest);
      assert s[1..] == NatToString(-i) + rest;
      ReadNatAppend(-i, rest);
    } else {
      NatToStringDigits(i);
      assert (IntToString(i) + rest)[0] == NatToString(i)[0];
      ReadNatAppend(i, rest);
    }
  }

  /** The bag-file name records its iteration, condition and repetition. */
  lemma BagNameRoundTrip(itr: int, cond: nat, rep: nat)
    ensures ParseBagName(BagName(itr, cond, rep)) == Some((itr, cond, rep))
  {
    var I := IntToString(itr);
    var C := IntToString(cond);
    var R := IntToString(rep);
    var s5 := R + BagExt;
    var s4 := RepTag + s5;
    var s3 := C + s4;
    var s2 := CondTag + s3;
    var s1 := I + s2;
    assert BagName(itr, cond, rep) == BagPrefix + s1;
    ReadTagAppend(BagPrefix, s1);
    ReadIntAppend(itr, s2);
    ReadTagAppend(CondTag, s3);
    ReadNatAppend(cond, s4);
    ReadTagAppend(RepTag, s5);
    ReadNatAppend(rep, BagExt);
  }

  lemma BagNameNoSlash(itr: int, cond: nat, rep: nat)
    ensures '/' !in BagName(itr, cond, rep)
  {
    IntToStringNoSlash(itr);
    IntToStringNoSlash(cond);
    IntToStringNoSlash(rep);
  }

  /** Distinct rollouts are recorded to distinct bag files, and the file's last component
      is the bag name. */
  lemma BagFileInjective(saveDir: string, itr: int, cond: nat, rep: nat, itr': int, cond': nat, rep': nat)
    requires BagFile(saveDir, itr, cond, rep) == BagFile(saveDir, itr', cond', rep')
    ensures itr == itr' && cond == cond' && rep == rep'
    ensures Basename(BagFile(saveDir, itr, cond, rep)) == BagName(itr, cond, rep)
  {
    BagNameNoSlash(itr, cond, rep);
    BagNameNoSlash(itr', cond', rep');
    BasenameOfJoin(ItrDir(saveDir, itr), BagName(itr, cond, rep));
    BasenameOfJoin(ItrDir(saveDir, itr'), BagName(itr', cond', rep'));
    BagNameRoundTrip(itr, cond, rep);
    BagNameRoundTrip(itr', cond', rep');
  }
}
