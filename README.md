# DAgger data collection and resume, with its RC-car specialisation, in Dafny

This project models the orchestration layer of a learning-based collision-avoidance system.
The driver runs DAgger iterations. In each iteration it collects `conditions.length x conditions.repeats`
accepted rollouts from an MPC policy with injected control noise. An operator or simulator
gate may reject a rollout, and a rejected rollout is retried on the same slot. The driver saves
the samples, world infos and MPC infos of each iteration, then trains the next probability-of-collision
checkpoint from the previous one. On start it resumes from whatever the save directory holds.

The network, world, agent, dynamics and disk are collaborators, and the model treats them abstractly:
- Function-valued fields of a datatype stand for the agent's two policy queries, the collision
  test, `evolve`, the gate, `isfinite`, `get_cond` and the info getters. Those that may answer
  differently from one rollout to the next (`get_cond`, the policy queries and collision test,
  the gate and the info getters) are indexed by the rollout number within the iteration, so a
  retried slot may start from a fresh initial state. `evolve` and `isfinite` are functions of
  their arguments alone. The run indexes the collaborators by iteration as well.
- The calls `run` and `_run_itr` make on the world and the aggregator (`conditions.reset`,
  `world.reset`, saves, `load`, `add_data`, `train`) are returned as a trace of `Effects.Event`s.
- The save directory is a set of `(kind, iteration)` file identifiers. The path builders are proved
  injective, so a set of identifiers stands for a set of paths.

The modules and what each holds:
- `Strings`, `Paths`: `'{0}'.format`, `os.path.join`/`basename`, and the per-iteration file names,
  with parse round trips.
- `ControlNoise`: `_create_control_noise`.
- `Planners`: the constructor's `planner_type` check.
- `Rollout`, `RolloutProperties`: the per-timestep loop over an array-backed sample buffer, proved
  equal to a declarative description of a rollout.
- `Iteration`, `IterationProperties`: `_run_itr` with its retry loop.
- `Resume`, `ResumeProperties`: the downward scans, the within-one assertion and the catch-up
  training.
- `Dagger`, `DaggerProperties`: the training loop and a crash-safety theorem for resume.
- `RCcar`: the RC-car gate, world reset, setup check, MPC dispatch and bag-file names.

`ProbcollRCcar` (robots/rccar/algorithm/probcoll_rccar.py:25) subclasses `Probcoll` from
`general.algorithm.probcoll`, a driver that is not part of this model. The car's own `_setup`
assigns `_max_iter` and `_world` (lines 38 and 41). From the driver it inherits `_planner_type`
(line 118), `_itr_dir` (line 62), `_logger` (lines 74, 88 and 113) and `_read_only` (line 47).
Three lemmas combine the car's overrides with the planner check and the reset rule of
`general/algorithms/dagger_prediction.py`: `RCcar.OnlyPrimitivesOnCar`, `RCcar.SetupResetsEveryRollout`
and `RCcar.SimNeverRetries`. They hold on the assumption that `Probcoll` checks the planner, resets
the world and retries rejected rollouts the way `DaggerPrediction` does. `RCcar.BagFile` likewise
assumes that the inherited `_itr_dir` is `DaggerPrediction._itr_dir`
(general/algorithms/dagger_prediction.py:83-90, modelled as `Paths.ItrDir`). `RCcar.BagFileInjective`
does not depend on that assumption, since it holds for any directory the bag name is joined to.

The decisions below follow the code:
- The catch-up training is seeded as line 184 writes it: with no old model when
  `samples_start_itr <= 0`, and otherwise with `_itr_model_file(model_start_itr)`, the checkpoint
  the same call writes. The reading that seeds it from the checkpoint just loaded is modelled
  beside it, as a finding (see "## Findings").
- The catch-up training runs when `model_start_itr == samples_start_itr - 1`, or when both are 0 and
  an initial dataset is configured. It does not run when a checkpoint exists without samples, the
  (1, 0) case the assertion admits.
- An unknown noise type is not detected when the driver is constructed. The factory is first called
  inside `_run_itr`, so the error surfaces at the first rollout, after the world resets.
- The factory then reads `cn_params[cn_params['type']]` with the raw type string. A missing section
  is therefore an error of its own, `MissingNoiseParams`.
- `_ros_is_good_rollout` falls off its loop on shutdown and returns `None`. The driver tests
  `not self._is_good_rollout(...)`, so `None` is a rejection and the slot is retried.

## Model

| member | source | states |
|---|---|---|
| Strings.NatToStringRoundTrip | general/algorithms/dagger_prediction.py:94 | parsing the decimal rendering of a natural number gives the number back |
| Strings.IntToStringRoundTrip | general/algorithms/dagger_prediction.py:207 | the rendering round-trips for every integer, the -1 the first training asks for included |
| Strings.IntToStringInjective | general/algorithms/dagger_prediction.py:101 | distinct iteration numbers render differently |
| Strings.NatToStringDigits | general/algorithms/dagger_prediction.py:94 | the rendering is a non-empty digit string whose value is the number |
| Strings.SpanDigitsPrefix | robots/rccar/algorithm/probcoll_rccar.py:62 | reading digits in front of a non-digit stops exactly at the end of the digits |
| Strings.Lower | general/algorithms/dagger_prediction.py:306-308 | `str.lower()` keeps the length and lowers each ASCII letter |
| Strings.BasenameOfJoin | general/algorithms/dagger_prediction.py:93-94 | the last component of `os.path.join(dir, name)` is name, for a name without '/' |
| Paths.IntToStringNoSlash | general/algorithms/dagger_prediction.py:85 | a rendered iteration number holds no '/', so `itr{n}` is one path component |
| Paths.IndexedRoundTrip | general/algorithms/dagger_prediction.py:92-101 | `prefix + str(i) + suffix` parses back to i |
| Paths.PrefixMismatch | general/algorithms/dagger_prediction.py:92-111 | a file name of one kind never parses as another kind |
| Paths.FileNameRoundTrip | general/algorithms/dagger_prediction.py:92-111 | a samples, stats, model, worlds or mpcs file name determines its kind and iteration |
| Paths.BasenameOfItrFile | general/algorithms/dagger_prediction.py:83-111 | a per-iteration path ends in its own file name, whatever the save directory |
| Paths.ItrFileRoundTrip | general/algorithms/dagger_prediction.py:83-111 | kind and iteration can be read back from the full path |
| Paths.ItrFileInjective | general/algorithms/dagger_prediction.py:83-111 | two per-iteration paths under one save directory coincide only for the same kind and iteration |
| ControlNoise.CreateControlNoise | general/algorithms/dagger_prediction.py:297-313 | succeeds iff the type is exactly zero/gaussian/uniform or lower-cases to ou/smoothedgaussian, and its parameter section exists; otherwise the unknown-type or missing-parameters error |
| ControlNoise.LowerIsOU | general/algorithms/dagger_prediction.py:306 | exactly the four spellings of "ou" lower-case to it |
| ControlNoise.FactoryKind | general/algorithms/dagger_prediction.py:300-313 | each noise class is chosen by exactly its own spelling rule, and its parameters come from the section of the raw type string |
| ControlNoise.CaseSensitivityExamples | general/algorithms/dagger_prediction.py:300-309 | "Zero" and "GAUSSIAN" are refused while "OU" is accepted |
| Planners.CheckPlannerType | general/algorithms/dagger_prediction.py:20-27 | a planner name is accepted iff it is one of the eight names, and the accepted planner has that name |
| Planners.PlannerNameRoundTrip | general/algorithms/dagger_prediction.py:20-27 | every planner's own name is accepted as that planner |
| Rollout.RollFromUnfold | general/algorithms/dagger_prediction.py:236-262 | one timestep: stop after recording the step on a collision or at the last step, else continue from `evolve(x, u)` with the executed u |
| Rollout.PrefixOf | general/algorithms/dagger_prediction.py:271 | the steps read out of a buffer filled up to n are n steps |
| Rollout.PrefixExtend | general/algorithms/dagger_prediction.py:253-254 | completing slot t of the buffer extends the recorded prefix by that step |
| Rollout.PrefixUnchanged | general/algorithms/dagger_prediction.py:262 | writing the next state slot leaves the recorded prefix alone |
| Rollout.SampleBuffer.constructor | general/algorithms/dagger_prediction.py:229 | a buffer of T empty slots |
| Rollout.SampleBuffer.SetX | general/algorithms/dagger_prediction.py:230 | writes the state of slot t and nothing else |
| Rollout.SampleBuffer.SetU | general/algorithms/dagger_prediction.py:253 | writes the action of slot t and nothing else |
| Rollout.SampleBuffer.SetO | general/algorithms/dagger_prediction.py:254 | writes the observation of slot t and nothing else |
| Rollout.Roll | general/algorithms/dagger_prediction.py:229-271 | the in-place loop over the buffer returns the rollout specification; the sample is the buffer's first t+1 slots and every slot after t is left empty |
| RolloutProperties.RollFromIsRollout | general/algorithms/dagger_prediction.py:236-262 | continuing a collision-free beginning produces a rollout in the declarative sense |
| RolloutProperties.RolloutFromSuffix | general/algorithms/dagger_prediction.py:236-262 | continuing any prefix of a rollout reproduces that rollout |
| RolloutProperties.RolloutCharacterized | general/algorithms/dagger_prediction.py:236-271 | the executor returns (s, t) iff s starts in x0, every step holds its label and noisy observation, no step before t collides, each state is evolve of the previous state and executed action, and the rollout stopped at t on a collision or at T-1; so the sample is trimmed to t+1 |
| RolloutProperties.RolloutExists | general/algorithms/dagger_prediction.py:229-230 | a rollout exists iff T > 0 |
| RolloutProperties.NoCollisionFullLength | general/algorithms/dagger_prediction.py:258-271 | when no step of the rollout collides, the sample has all T steps |
| RolloutProperties.LabelSeparation | general/algorithms/dagger_prediction.py:243-262 | without label_with_noise each label is the noise-free query's action, the observation comes from the noisy query, and the state advances with the noisy action |
| Iteration.RunItr | general/algorithms/dagger_prediction.py:211-295 | the nested condition/repetition loop returns the iteration specification |
| IterationProperties.AcceptedIdx | general/algorithms/dagger_prediction.py:275-281 | the accepted attempts, in increasing order, and all of them |
| IterationProperties.AcceptedIdxSnoc | general/algorithms/dagger_prediction.py:275-281 | a new attempt joins the accepted ones exactly when the gate accepted it |
| IterationProperties.ResetsSnoc | general/algorithms/dagger_prediction.py:225-226 | each attempt adds the reset its slot calls for |
| IterationProperties.InvStart | general/algorithms/dagger_prediction.py:215-219 | the empty lists after `conditions.reset()` meet the driver invariant |
| IterationProperties.InvNextCond | general/algorithms/dagger_prediction.py:220-222 | moving to the next condition keeps the invariant |
| IterationProperties.SlotIsProduct | general/algorithms/dagger_prediction.py:220-222 | the slot reached after `cond` full conditions and `rep` repetitions is `cond * repeats + rep` |
| IterationProperties.InvAttemptLog | general/algorithms/dagger_prediction.py:265-277 | a rejected rollout leaves the driver on its own slot; an accepted one moves it to the next repetition |
| IterationProperties.InvAttemptRejected | general/algorithms/dagger_prediction.py:275-277 | a rejected rollout adds nothing to the accepted attempts or the three lists |
| IterationProperties.InvAttemptAccepted | general/algorithms/dagger_prediction.py:279-289 | an accepted rollout becomes the accepted attempt of its slot and its sample, world info and MPC info are appended in step |
| IterationProperties.InvRejected | general/algorithms/dagger_prediction.py:275-277 | a rejected rollout keeps the invariant on the same slot, with nothing appended |
| IterationProperties.InvAccepted | general/algorithms/dagger_prediction.py:279-289 | an accepted rollout appends to the three lists in step and advances rep |
| IterationProperties.CollectCorrect | general/algorithms/dagger_prediction.py:220-295 | from any state meeting the invariant, the outcome meets the iteration guarantee |
| IterationProperties.ItrCorrect | general/algorithms/dagger_prediction.py:219-295 | a completed iteration has `length * repeats` samples, one accepted attempt per slot in condition-major order; rejected attempts are retried on their slot; the three lists are index-aligned; the events are the condition reset, one reset per attempt as the rule says, the three saves and the final `(itr, 0, 0)` reset. An iteration that stops early has only reset |
| IterationProperties.ResetsEveryAttempt | general/algorithms/dagger_prediction.py:225-226 | when the rule calls for a reset before every attempt, each attempt is preceded by a reset to its own slot |
| IterationProperties.ResetsAreResets | general/algorithms/dagger_prediction.py:219-226 | before the saves, an iteration only resets the conditions and the world |
| IterationProperties.ResetsFixedWorld | general/algorithms/dagger_prediction.py:225-226 | without randomization the world is reset once per attempt on slot (0, 0), always to (itr, 0, 0) |
| IterationProperties.NoiseErrorAtFirstRollout | general/algorithms/dagger_prediction.py:219-233 | a refused noise configuration fails the first rollout, after exactly the two initial resets |
| IterationProperties.EmptyGridFrom | general/algorithms/dagger_prediction.py:220-222 | with zero repeats every condition is skipped |
| IterationProperties.NoSlotsNoRollout | general/algorithms/dagger_prediction.py:220-222 | with no slots the iteration saves three empty lists without any rollout |
| IterationProperties.RetryFrom | general/algorithms/dagger_prediction.py:222-277 | on a first slot whose first K rollouts are rejected, the driver keeps retrying that slot |
| IterationProperties.RetryUntilAccepted | general/algorithms/dagger_prediction.py:222-289 | on a single slot, with the gate rejecting the first K rollouts, the iteration runs K+1 attempts, resets before each, and saves only the last |
| Resume.Mark | general/algorithms/dagger_prediction.py:143-155 | the scan result is 0 or one past an index below n whose file is present |
| Resume.MarkIsHighest | general/algorithms/dagger_prediction.py:143-155 | no file of that kind is present between the scan result and n |
| Resume.ScanDown | general/algorithms/dagger_prediction.py:143-155 | the for/else scan leaves its variable unbound iff max_iter <= 0, else one past the highest present index below max_iter, or 0 |
| Resume.InitFiles | general/algorithms/dagger_prediction.py:172-179 | the listed names containing the samples extension, joined onto the folder, and no others |
| Resume.Resolve | general/algorithms/dagger_prediction.py:142-188 | the two downward scans, the within-one assertion, the loads and the catch-up training, with its seed as line 184 writes it, give the resolver's specification |
| ResumeProperties.ResolveAccepts | general/algorithms/dagger_prediction.py:143-159 | resolution succeeds iff max_iter > 0 and the two scan results are within one |
| ResumeProperties.ResumeStart | general/algorithms/dagger_prediction.py:151-155 | the loop starts one past the last samples file, and none is present after it |
| ResumeProperties.ResumeReloads | general/algorithms/dagger_prediction.py:143-170 | when a checkpoint is present, the last one is loaded, first and as the only load; when none is present, nothing is loaded; all earlier samples are added |
| ResumeProperties.CatchUpTrain | general/algorithms/dagger_prediction.py:180-187 | the resolver trains exactly when the data has not been trained on, as its last call, writing checkpoint model_start_itr; the old model is None exactly when samples_start_itr <= 0, and otherwise is that same checkpoint |
| ResumeProperties.CatchUpSeedAsWrittenAbsent | general/algorithms/dagger_prediction.py:182-187 | a catch-up after some iteration is seeded from the checkpoint it is about to write, which is absent |
| ResumeProperties.CatchUpSeedExample | general/algorithms/dagger_prediction.py:182-187 | a directory holding only samples_itr_0 is resolved to (0, 1) with the calls add_data([samples_itr_0]) and train(old model_itr_0, new model_itr_0), and model_itr_0 is absent |
| ResumeProperties.MarkAbsent | general/algorithms/dagger_prediction.py:148-149 | with no file of the kind present the scan result is 0 |
| ResumeProperties.MarkTop | general/algorithms/dagger_prediction.py:145-147 | the scan result is one past the highest present index |
| ResumeProperties.CatchUpSeedLoaded | general/algorithms/dagger_prediction.py:182-187 | corrected: the catch-up is seeded from the checkpoint just loaded, when there is one |
| Dagger.LoopFromStep | general/algorithms/dagger_prediction.py:191-209 | one loop step runs the iteration, then adds its samples and trains from itr-1 to itr; a failed iteration ends the run |
| Dagger.Run | general/algorithms/dagger_prediction.py:142-209 | `run` returns its specification: resolution, then iterations samples_start .. max_iter-1 in order |
| DaggerProperties.MarkAdd | general/algorithms/dagger_prediction.py:143-155 | writing a file moves a scan result up to one past it, if it is in range |
| DaggerProperties.ApplyEventMarks | general/algorithms/dagger_prediction.py:143-155 | the scan results after one call are computed from those before |
| DaggerProperties.ApplyEventsMarks | general/algorithms/dagger_prediction.py:143-155 | the same for a sequence of calls |
| DaggerProperties.StepAllAppend | general/algorithms/dagger_prediction.py:191-209 | stepping the scan results over two segments is stepping over each in turn |
| DaggerProperties.AlongAppend | general/algorithms/dagger_prediction.py:191-209 | two segments that each keep every prefix resumable do so together |
| DaggerProperties.NeutralStep | general/algorithms/dagger_prediction.py:219-226 | resets and loads leave the scan results alone |
| DaggerProperties.NeutralAlong | general/algorithms/dagger_prediction.py:219-226 | a run of resets keeps every prefix resumable |
| DaggerProperties.AlongCons | general/algorithms/dagger_prediction.py:191-209 | a consistent call followed by a good segment is a good segment |
| DaggerProperties.ItrDoneEvents | general/algorithms/dagger_prediction.py:291-295 | a completed iteration's calls are resets, the three saves and the final reset |
| DaggerProperties.StepCons | general/algorithms/dagger_prediction.py:191-209 | stepping over a call then a segment |
| DaggerProperties.ItrTail | general/algorithms/dagger_prediction.py:203-209 | saving samples itr then training checkpoint itr keeps every prefix resumable |
| DaggerProperties.ItrSegmentDone | general/algorithms/dagger_prediction.py:197-209 | a completed iteration with its training keeps every prefix resumable and leaves the directory ready for itr+1 |
| DaggerProperties.LoopSafe | general/algorithms/dagger_prediction.py:191-209 | the training loop keeps every prefix of its calls resumable |
| DaggerProperties.ResolveSegment | general/algorithms/dagger_prediction.py:161-188 | the resolver's own loads and catch-up keep the directory resumable and ready |
| DaggerProperties.CrashResume | general/algorithms/dagger_prediction.py:142-209 | for a planner that trains, after every call of a run the save directory is one the resolver accepts |
| DaggerProperties.RandomWalkBreaksResume | general/algorithms/dagger_prediction.py:157-159 | with the random-walk planner, two completed iterations from an empty directory leave one the resolver refuses with scan results (0, 2) |
| RCcar.RosCallbackEmpty.constructor | robots/rccar/algorithm/probcoll_rccar.py:53-55 | a subscriber starts with nothing pending |
| RCcar.RosCallbackEmpty.Receive | robots/rccar/algorithm/probcoll_rccar.py:53-55 | a message arrives |
| RCcar.RosCallbackEmpty.Get | robots/rccar/algorithm/probcoll_rccar.py:92-96 | reports whether a message is pending and clears it |
| RCcar.FirstStop | robots/rccar/algorithm/probcoll_rccar.py:94-101 | every sequence of poll rounds has a round where the loop stops: all before it neither shut down nor decided |
| RCcar.StopsAtUnique | robots/rccar/algorithm/probcoll_rccar.py:94-101 | that round is unique |
| RCcar.DecideAt | robots/rccar/algorithm/probcoll_rccar.py:94-101 | the gate's result is read off the stopping round: True on good alone, False on bad alone, None at shutdown |
| RCcar.AnswerIff | robots/rccar/algorithm/probcoll_rccar.py:94-100 | the gate answers b iff its stopping round is not a shutdown and has good == b |
| RCcar.SkipIndecisive | robots/rccar/algorithm/probcoll_rccar.py:97-101 | a round with both or neither button is skipped |
| RCcar.ProbcollRCcar.constructor | robots/rccar/algorithm/probcoll_rccar.py:53-55 | two distinct callbacks with nothing pending |
| RCcar.ProbcollRCcar.RosIsGoodRollout | robots/rccar/algorithm/probcoll_rccar.py:91-101 | the poll loop returns the poll rule's result whatever was pending before, and leaves nothing pending |
| RCcar.GateSpec | robots/rccar/algorithm/probcoll_rccar.py:83-89 | True in simulation, the poll rule on hardware |
| RCcar.ProbcollRCcar.IsGoodRollout | robots/rccar/algorithm/probcoll_rccar.py:83-89 | in simulation accepts without touching the callbacks; on hardware sends one stop command, then polls, leaving nothing pending |
| RCcar.ProbcollRCcar.ResetWorld | robots/rccar/algorithm/probcoll_rccar.py:71-78 | waits for the operator only on hardware at (0, 0), ignoring the answer, then resets the world with back_up False and the given itr, cond, rep; after a wait nothing is pending |
| RCcar.ShutdownRejects | robots/rccar/algorithm/probcoll_rccar.py:94-101 | a shutdown before a decision is a rejection to the driver |
| RCcar.AllGoodAccepted | general/algorithms/dagger_prediction.py:275-281 | when every attempt is good, every attempt is accepted |
| RCcar.SimNeverRetries | robots/rccar/algorithm/probcoll_rccar.py:84-85 | in simulation a completed iteration ran exactly `length * repeats` rollouts, all accepted |
| RCcar.Setup | robots/rccar/algorithm/probcoll_rccar.py:44 | setup succeeds iff the world is randomized |
| RCcar.SetupResetsEveryRollout | robots/rccar/algorithm/probcoll_rccar.py:44 | after setup, every rollout of a completed iteration, retries included, is preceded by a reset to its own slot |
| RCcar.CreateMpc | robots/rccar/algorithm/probcoll_rccar.py:118-157 | succeeds iff the planner is primitives, else NotImplementedError with its message |
| RCcar.OnlyPrimitivesOnCar | robots/rccar/algorithm/probcoll_rccar.py:118-157 | of all names, only "primitives" passes both the driver's check and the car's dispatch |
| RCcar.ReadTag | robots/rccar/algorithm/probcoll_rccar.py:62 | a literal part of the bag name is recognised exactly when present |
| RCcar.ReadTagAppend | robots/rccar/algorithm/probcoll_rccar.py:62 | recognising a literal part leaves the rest |
| RCcar.ReadNatAppend | robots/rccar/algorithm/probcoll_rccar.py:62 | a rendered condition or repetition reads back, leaving the rest |
| RCcar.ReadIntAppend | robots/rccar/algorithm/probcoll_rccar.py:62 | a rendered iteration reads back, leaving the rest |
| RCcar.BagNameRoundTrip | robots/rccar/algorithm/probcoll_rccar.py:61-62 | `bagfile_itr{itr}_cond{cond}_rep{rep}.bag` reads back as (itr, cond, rep) |
| RCcar.BagNameNoSlash | robots/rccar/algorithm/probcoll_rccar.py:62 | the bag name is a single path component |
| RCcar.BagFileInjective | robots/rccar/algorithm/probcoll_rccar.py:61-62 | distinct rollouts get distinct bag files in their iteration's directory, named by the bag name |

## Left out

- Neural-network work: `PredictionModel.checkpoint_exists`, `bootstrap.load`, `add_data` and `train`
  are recorded as events. The disk model says a training writes its new checkpoint.
- File I/O: pickle and npz writes, `os.makedirs` in `_itr_dir`, `os.path.abspath` of the save
  directory and `os.path.exists` are not modelled. The save directory is a set of file identifiers,
  and the path functions take the directory as a parameter.
- The `os.listdir` of the initial dataset is a given sequence of names, in the order `os.listdir`
  returns them.
- The generator `assert` over the previous samples files at line 169 is always truthy, so it is not
  modelled as a check.
- The `type(itr) is int` assertion in `_itr_dir` always holds here, because iterations are `int`.
- Floating point: noise-generator internals, `Sample.isfinite` (an abstract predicate), timing and
  the real-time-factor log line, and all logging.
- The visualization hook at lines 264-265 is left out: it runs whenever the policy has a
  `_curr_traj` attribute, but it only draws and changes nothing the model tracks. The
  `itr == 0 and False` branch at line 199 can never run.
- The `control_noise is False` disjunct at line 248 is left out. The noise factory always returns
  a noise object, never `False`, so only `label_with_noise` decides the label.
- `_img_dir`, `_img_file` and `_itr_stats_file` are never used by the core. The stats path is
  modelled; the image paths are not.
- Iteration.RunItr: the source's retry loop is unbounded. The model takes a per-iteration attempt
  budget and reports `ItrOutOfBudget` where the source would still be retrying.
- Dagger.Run: run-level `OutOfBudget` outcomes inherit this bound.
- RCcar.ProbcollRCcar.RosIsGoodRollout: the poll rounds are a finite sequence of readings of ROS
  shutdown and button arrivals. `Undecided` stands for the source still polling when the readings
  end.
- `rospy.sleep(0.1)` and `rospy.init_node` are left out, as is the timing of asynchronous message
  delivery between the two `get` calls.
- RCcar.ProbcollRCcar.ResetWorld: when the operator wait is still undecided at the end of the
  readings, the model reports it and does not reset. The source would still be waiting.
- RCcar.Gate maps `Undecided` to a rejection.
- Strings.Lower lowers ASCII letters only: the noise type string is taken as an ASCII byte string.
  A unicode type string would be lowered by `unicode.lower()`, which also lowers non-ASCII letters,
  so a name such as `smoothedgaussİan` (with U+0130) would select a noise class there, while the
  model reports an unknown type.
- Creating the MPC inside `_run_itr`: the driver model takes the controller of each rollout from
  its collaborator, which cannot fail. `RCcar.CreateMpc` states on its own when the car's
  `_create_mpc` fails. Its preliminary `_update_world` is a no-op on the car.
- The per-step hook `self._update_world(sample_T, t)` at general/algorithms/dagger_prediction.py:239
  is left out: the model has no per-step world update. It is abstract in the driver (lines 60-61)
  and does nothing on the car (robots/rccar/algorithm/probcoll_rccar.py:80-81). `_get_world_info`,
  which also ends the bag recording, is the collaborator's world info; bag recording itself is
  not modelled.
- The `coll_callback` and the commented-out back-up decision are not modelled. `back_up` is always
  False.
- On the car, `_itr_save_worlds` is overridden to do nothing (probcoll_rccar.py:64-65), while the
  generic disk model writes a worlds file for a `SaveWorlds` event. The resolver reads only
  checkpoints and samples files, so no proved property depends on this.
- Exceptions raised inside collaborators, and the abstract base methods that raise
  `NotImplementedError`, are left out.
- The noise object is created afresh for each rollout as in the source. As a value it carries only
  its kind and parameter section, so any generator state is part of the per-rollout collaborator.

## Findings

| source | as written | input that shows it | evidently intended | confidence | as-written member | corrected member |
|---|---|---|---|---|---|---|
| general/algorithms/dagger_prediction.py:184 | the catch-up is told to start from `_itr_model_file(model_start_itr)`, the checkpoint it is about to write, which does not exist | a save directory holding only `samples_itr_0.npz` (model_start_itr 0, samples_start_itr 1): training is seeded from the absent `model_itr_0.ckpt` | start from the checkpoint just loaded, `model_start_itr - 1`, or from none when there is none | low: the training loop's first call (line 207) also names an absent checkpoint, `model_itr_-1`, so `train` evidently tolerates a missing old model and the impact is unknown; the resolver follows the code as written; not executed | ResumeProperties.CatchUpSeedAsWrittenAbsent | ResumeProperties.CatchUpSeedLoaded |
