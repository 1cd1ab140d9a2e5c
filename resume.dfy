/** The resume resolver at the top of `run`: scan the save directory downward for the last
    checkpoint and the last samples file, refuse a directory whose two are more than one iteration
    apart, reload what is there, and catch up on training when the saved data has not been trained on. */
module Resume {
  import opened Wrappers
  import opened Strings
  import opened Paths
  import opened Effects

  /** A per-iteration file under the save directory, named by its kind and iteration: the file at
      `ItrFilePath(kind, saveDir, itr)`. Distinct names are distinct paths under one save directory
      (Paths.ItrFileInjective), so a set of these stands for the set of paths present. */
  datatype FileId = FileId(kind: ItrFile, itr: int)

  /** The per-iteration files present on disk. */
  type Disk = set<FileId>

  predicate Present(disk: Disk, k: ItrFile, i: int)
  {
    FileId(k, i) in disk
  }

  /** One plus the highest iteration below n whose file of kind k is present, or 0 when there is
      none: the value the downward scan leaves in its loop variable. */
  function Mark(disk: Disk, k: ItrFile, n: int): (r: nat)
    ensures r == 0 || (r <= n && Present(disk, k, r - 1))
    decreases n
  {
    if n <= 0 then 0
    else if Present(disk, k, n - 1) then n
    else Mark(disk, k, n - 1)
  }

  /** No file of kind k is present between the mark and n. */
  lemma {:induction false} MarkIsHighest(disk: Disk, k: ItrFile, n: int)
    ensures forall j :: Mark(disk, k, n) <= j < n ==> !Present(disk, k, j)
    decreases n
  {
    if n > 0 && !Present(disk, k, n - 1) {
      MarkIsHighest(disk, k, n - 1);
    }
  }

  datatype Scan = Unbound | Scanned(start: nat, found: bool)

  /** `for start in xrange(max_iter-1, -1, -1): if exists(file(start)): start += 1; break`.
      When max_iter <= 0 the loop variable is never bound; when nothing is found it keeps its last
      value, 0. */
  method ScanDown(disk: Disk, k: ItrFile, maxIter: int) returns (r: Scan)
    ensures r.Unbound? <==> maxIter <= 0
    ensures r.Scanned? ==> (r.found <==> r.start > 0)
    ensures r.Scanned? && r.found ==> r.start <= maxIter && Present(disk, k, r.start - 1)
    ensures r.Scanned? ==> forall j :: r.start <= j < maxIter ==> !Present(disk, k, j)
    ensures r.Scanned? ==> r.start == Mark(disk, k, maxIter)
  {
    if maxIter <= 0 {
      return Unbound;
    }
    var itr := maxIter - 1;
    while itr >= 0
      invariant -1 <= itr < maxIter
      invariant Mark(disk, k, maxIter) == Mark(disk, k, itr + 1)
      invariant forall j :: itr < j < maxIter ==> !Present(disk, k, j)
      decreases itr
    {
      if FileId(k, itr) in disk {
        return Scanned(itr + 1, true);
      }
      itr := itr - 1;
    }
    return Scanned(0, false);
  }

  /** The external bootstrap dataset: its folder and the folder's listing, in `os.listdir` order. */
  datatype InitData = InitData(folder: string, listing: seq<string>)

  datatype ResumeConfig = ResumeConfig(
    maxIter: int,               // max_iter
    initData: Option<InitData>, // params['prediction']['dagger'].get('init_data', None)
    epochs: nat)                // bootstrap.epochs

  datatype ResumeError =
    | MaxIterUnbound                              // max_iter <= 0: NameError at the assert
    | NotWithinOne(modelStart: nat, samplesStart: nat)

  /** The resolved starting point and the calls on the aggregator made while resolving it. */
  datatype Resumed = Resumed(modelStart: nat, samplesStart: nat, events: seq<Event>)

  /** The consistency rule the resolver asserts between the two scans. */
  predicate WithinOne(m: int, s: int)
  {
    m == s || m == s - 1 || (m == 1 && s == 0)
  }

  /** The files of the bootstrap dataset handed to the aggregator: those whose name contains the
      samples extension (anywhere in the name, not only at its end), joined to the folder. */
  function InitFiles(folder: string, listing: seq<string>): (r: seq<DataFile>)
    ensures |r| <= |listing|
    ensures forall f :: f in r <==>
              exists i :: 0 <= i < |listing| && Contains(listing[i], SamplesExt) && f == InitFile(Join(folder, listing[i]))
  {
    if listing == [] then []
    else
      var rest := InitFiles(folder, listing[1..]);
      assert forall i :: 1 <= i < |listing| ==> listing[i] == listing[1..][i - 1];
      if Contains(listing[0], SamplesExt) then [InitFile(Join(folder, listing[0]))] + rest else rest
  }

  /** The samples files of iterations 0 .. s-1, in order. */
  function PrevSamples(s: nat): (r: seq<DataFile>)
    ensures |r| == s && forall i :: 0 <= i < s ==> r[i] == ItrSamples(i)
  {
    seq(s, i => ItrSamples(i))
  }

  /** The saved data has not been trained on: one samples file more than checkpoints, or no
      iteration at all but a bootstrap dataset. */
  predicate NeedsCatchUp(m: int, s: int, hasInit: bool)
  {
    m == s - 1 || (s == 0 && m == 0 && hasInit)
  }

  /** The checkpoint the catch-up training starts from, as written: `None if samples_start_itr <= 0
      else _itr_model_file(model_start_itr)`, which is the checkpoint it is about to write. */
  function SeedAsWritten(m: int, s: int): Option<int>
  {
    if s <= 0 then None else Some(m)
  }

  /** The checkpoint the catch-up training evidently should start from: the one just loaded, if any.
      The resolver follows the code and uses SeedAsWritten; this is the corrected reading. */
  function Seed(m: int): Option<int>
  {
    if m > 0 then Some(m - 1) else None
  }

  function ResumeEvents(m: nat, s: nat, cfg: ResumeConfig): seq<Event>
  {
    (if m > 0 then [LoadModel(m - 1)] else [])
    + (if s > 0 then [AddData(PrevSamples(s))] else [])
    + (match cfg.initData
       case None => []
       case Some(d) => [AddData(InitFiles(d.folder, d.listing))])
    + (if NeedsCatchUp(m, s, cfg.initData.Some?) then [Train(SeedAsWritten(m, s), m, cfg.epochs)] else [])
  }

  /** Specification of the resolver. */
  function ResolveSpec(disk: Disk, cfg: ResumeConfig): Result<Resumed, ResumeError>
  {
    if cfg.maxIter <= 0 then Err(MaxIterUnbound)
    else
      var m := Mark(disk, ModelFile, cfg.maxIter);
      var s := Mark(disk, SamplesFile, cfg.maxIter);
      if !WithinOne(m, s) then Err(NotWithinOne(m, s))
      else Ok(Resumed(m, s, ResumeEvents(m, s, cfg)))
  }

  /** Lines 142-188 of `run`. */
  method Resolve(disk: Disk, cfg: ResumeConfig) returns (r: Result<Resumed, ResumeError>)
    ensures r == ResolveSpec(disk, cfg)
  {
    var models := ScanDown(disk, ModelFile, cfg.maxIter);
    var samples := ScanDown(disk, SamplesFile, cfg.maxIter);
    if models.Unbound? || samples.Unbound? {
      return Err(MaxIterUnbound);
    }
    var m: int, s: int := models.start, samples.start;
    if !(m == s || m == s - 1 || (m == 1 && s == 0)) {
      return Err(NotWithinOne(m, s));
    }
    var events: seq<Event> := [];
    if models.found {
      events := events + [LoadModel(m - 1)];
    }
    if s > 0 {
      events := events + [AddData(PrevSamples(s))];
    }
    if cfg.initData.Some? {
      events := events + [AddData(InitFiles(cfg.initData.value.folder, cfg.initData.value.listing))];
    }
    if m == s - 1 || (s == 0 && m == 0 && cfg.initData.Some?) {
      events := events + [Train(SeedAsWritten(m, s), m, cfg.epochs)];
    }
    assert events == ResumeEvents(m, s, cfg);
    return Ok(Resumed(m, s, events));
  }
}

module ResumeProperties {
  import opened Wrappers
  import opened Strings
  import opened Paths
  import opened Effects
  import opened Resume

  /** The resolver accepts a directory exactly when max_iter is positive and the last checkpoint
      and the last samples file are within one iteration of each other (or only checkpoint 0 exists). */
  lemma ResolveAccepts(disk: Disk, cfg: ResumeConfig)
    ensures ResolveSpec(disk, cfg).Ok? <==>
              cfg.maxIter > 0
              && WithinOne(Mark(disk, ModelFile, cfg.maxIter), Mark(disk, SamplesFile, cfg.maxIter))
  {
  }

  /** The run resumes at the first iteration after the last saved samples: that one is present
      (when there is one) and none after it below max_iter. */
  lemma {:induction false} ResumeStart(disk: Disk, cfg: ResumeConfig)
    requires ResolveSpec(disk, cfg).Ok?
    ensures var s := ResolveSpec(disk, cfg).value.samplesStart;
            s <= cfg.maxIter
            && (s > 0 ==> Present(disk, SamplesFile, s - 1))
            && forall j :: s <= j < cfg.maxIter ==> !Present(disk, SamplesFile, j)
  {
    MarkIsHighest(disk, SamplesFile, cfg.maxIter);
  }

  /** The checkpoint reloaded is the last one present, and every earlier samples file is handed to
      the aggregator, in order. */
  lemma {:induction false} ResumeReloads(disk: Disk, cfg: ResumeConfig)
    requires ResolveSpec(disk, cfg).Ok?
    ensures var r := ResolveSpec(disk, cfg).value;
            (r.modelStart == 0 ==> forall i :: 0 <= i < |r.events| ==> !r.events[i].LoadModel?)
            && (r.modelStart > 0 ==> r.events[0] == LoadModel(r.modelStart - 1)
                                     && forall i :: 1 <= i < |r.events| ==> !r.events[i].LoadModel?)
            && (r.modelStart > 0 ==> Present(disk, ModelFile, r.modelStart - 1))
            && (forall j :: r.modelStart <= j < cfg.maxIter ==> !Present(disk, ModelFile, j))
            && (r.samplesStart > 0 ==> AddData(PrevSamples(r.samplesStart)) in r.events)
  {
    MarkIsHighest(disk, ModelFile, cfg.maxIter);
  }

  /** The catch-up training is the resolver's last call exactly when the saved data has not been
      trained on. It writes checkpoint model_start_itr, and its old model is None exactly when
      samples_start_itr <= 0; otherwise it names that same checkpoint. No other call trains. */
  lemma CatchUpTrain(disk: Disk, cfg: ResumeConfig)
    requires ResolveSpec(disk, cfg).Ok?
    ensures var r := ResolveSpec(disk, cfg).value;
            var cu := NeedsCatchUp(r.modelStart, r.samplesStart, cfg.initData.Some?);
            (cu <==> exists i :: 0 <= i < |r.events| && r.events[i].Train?)
            && (cu ==> var t := r.events[|r.events| - 1];
                       t.Train? && t.newModel == r.modelStart && t.epochs == cfg.epochs
                       && (t.oldModel.None? <==> r.samplesStart <= 0)
                       && (t.oldModel.Some? ==> t.oldModel.value == r.modelStart))
  {
    var r := ResolveSpec(disk, cfg).value;
    var m, s := r.modelStart, r.samplesStart;
    var pre := (if m > 0 then [LoadModel(m - 1)] else [])
               + (if s > 0 then [AddData(PrevSamples(s))] else [])
               + (match cfg.initData
                  case None => []
                  case Some(d) => [AddData(InitFiles(d.folder, d.listing))]);
    assert forall i :: 0 <= i < |pre| ==> !pre[i].Train?;
    if NeedsCatchUp(m, s, cfg.initData.Some?) {
      assert r.events == pre + [Train(SeedAsWritten(m, s), m, cfg.epochs)];
      assert r.events[|r.events| - 1].Train?;
    } else {
      assert r.events == pre;
    }
  }

  /** As written, whenever the catch-up runs after some iteration, it is told to start from the
      checkpoint it is about to write, which the scan has just found absent. */
  lemma {:induction false} CatchUpSeedAsWrittenAbsent(disk: Disk, cfg: ResumeConfig)
    requires ResolveSpec(disk, cfg).Ok?
    requires var r := ResolveSpec(disk, cfg).value;
             NeedsCatchUp(r.modelStart, r.samplesStart, cfg.initData.Some?) && r.samplesStart > 0
    ensures var r := ResolveSpec(disk, cfg).value;
            r.events[|r.events| - 1] == Train(Some(r.modelStart), r.modelStart, cfg.epochs)
            && !Present(disk, ModelFile, r.modelStart)
  {
    MarkIsHighest(disk, ModelFile, cfg.maxIter);
    CatchUpTrain(disk, cfg);
  }

  /** A directory holding only the samples of iteration 0 shows it: the catch-up starts from
      checkpoint 0, which does not exist. */
  lemma CatchUpSeedExample(maxIter: int)
    requires maxIter > 0
    ensures var disk := {FileId(SamplesFile, 0)};
            var cfg := ResumeConfig(maxIter, None, 1);
            ResolveSpec(disk, cfg).Ok?
            && ResolveSpec(disk, cfg).value.modelStart == 0
            && ResolveSpec(disk, cfg).value.samplesStart == 1
            && ResolveSpec(disk, cfg).value.events == [AddData([ItrSamples(0)]), Train(Some(0), 0, 1)]
            && !Present(disk, ModelFile, 0)
  {
    var disk := {FileId(SamplesFile, 0)};
    MarkAbsent(disk, ModelFile, maxIter);
    MarkTop(disk, SamplesFile, maxIter, 0);
    assert PrevSamples(1) == [ItrSamples(0)];
  }

  lemma {:induction false} MarkAbsent(disk: Disk, k: ItrFile, n: int)
    requires forall j :: 0 <= j < n ==> !Present(disk, k, j)
    ensures Mark(disk, k, n) == 0
    decreases n
  {
    if n > 0 {
      MarkAbsent(disk, k, n - 1);
    }
  }

  /** The mark is one past the highest present index. */
  lemma {:induction false} MarkTop(disk: Disk, k: ItrFile, n: int, i: int)
    requires 0 <= i < n && Present(disk, k, i)
    requires forall j :: i < j < n ==> !Present(disk, k, j)
    ensures Mark(disk, k, n) == i + 1
    decreases n
  {
    if n - 1 > i {
      MarkTop(disk, k, n - 1, i);
    }
  }

  /** Corrected: the catch-up starts from the checkpoint just reloaded, when there is one, which is
      on disk. */
  lemma CatchUpSeedLoaded(disk: Disk, cfg: ResumeConfig)
    requires ResolveSpec(disk, cfg).Ok?
    requires var r := ResolveSpec(disk, cfg).value;
             NeedsCatchUp(r.modelStart, r.samplesStart, cfg.initData.Some?)
    ensures var r := ResolveSpec(disk, cfg).value;
            match Seed(r.modelStart)
            case None => r.modelStart == 0
            case Some(c) => c == r.modelStart - 1 && Present(disk, ModelFile, c) && LoadModel(c) in r.events
  {
  }
}
