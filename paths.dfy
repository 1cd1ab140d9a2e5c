/** The per-iteration run directory and the artifacts it holds (`_itr_dir`, `_itr_samples_file`,
    `_itr_stats_file`, `_itr_model_file` and the world/mpc info files of the saves). Every
    artifact name records its kind and its iteration index, and both can be read back. */
module Paths {
  import opened Wrappers
  import opened Strings

  /** The artifacts kept per iteration. */
  datatype ItrFile = SamplesFile | StatsFile | ModelFile | WorldsFile | MpcsFile

  /** The extension of a samples file; the bootstrap-data scan filters on it. */
  const SamplesExt: string := ".npz"

  function Prefix(k: ItrFile): string
  {
    match k
    case SamplesFile => "samples_itr_"
    case StatsFile => "stats_itr_"
    case ModelFile => "model_itr_"
    case WorldsFile => "worlds_itr_"
    case MpcsFile => "mpcs_itr_"
  }

  function Suffix(k: ItrFile): string
  {
    match k
    case SamplesFile => SamplesExt
    case StatsFile => ".pkl"
    case ModelFile => ".ckpt"
    case WorldsFile => ".pkl"
    case MpcsFile => ".pkl"
  }

  /** `'itr{0}'.format(itr)`, the directory of one iteration under the save directory. */
  function ItrDir(saveDir: string, itr: int): string
  {
    Join(saveDir, "itr" + IntToString(itr))
  }

  /** The file name of artifact k of iteration itr, e.g. `model_itr_3.ckpt`. */
  function FileName(k: ItrFile, itr: int): string
  {
    Prefix(k) + IntToString(itr) + Suffix(k)
  }

  /** The full path of artifact k of iteration itr. */
  function ItrFilePath(k: ItrFile, saveDir: string, itr: int): string
  {
    Join(ItrDir(saveDir, itr), FileName(k, itr))
  }

  function ItrSamplesFile(saveDir: string, itr: int): string { ItrFilePath(SamplesFile, saveDir, itr) }

  function ItrStatsFile(saveDir: string, itr: int): string { ItrFilePath(StatsFile, saveDir, itr) }

  function ItrModelFile(saveDir: string, itr: int): string { ItrFilePath(ModelFile, saveDir, itr) }

  function ItrWorldsFile(saveDir: string, itr: int): string { ItrFilePath(WorldsFile, saveDir, itr) }

  function ItrMpcsFile(saveDir: string, itr: int): string { ItrFilePath(MpcsFile, saveDir, itr) }

  /** Reads the index back from `prefix + index + suffix`. */
  function ParseIndexed(prefix: string, suffix: string, name: string): Option<int>
  {
    if |name| >= |prefix| + |suffix| && name[..|prefix|] == prefix && name[|name| - |suffix|..] == suffix
    then ParseInt(name[|prefix|..|name| - |suffix|])
    else None
  }

  /** Reads kind and index back from an artifact's file name. */
  function ParseFileName(name: string): Option<(ItrFile, int)>
  {
    var kinds := [SamplesFile, StatsFile, ModelFile, WorldsFile, MpcsFile];
    ParseFirst(kinds, name)
  }

  function ParseFirst(kinds: seq<ItrFile>, name: string): Option<(ItrFile, int)>
    decreases |kinds|
  {
    if kinds == [] then None
    else match ParseIndexed(Prefix(kinds[0]), Suffix(kinds[0]), name)
      case Some(i) => Some((kinds[0], i))
      case None => ParseFirst(kinds[1..], name)
  }

  lemma IntToStringNoSlash(i: int)
    ensures '/' !in IntToString(i)
  {
    NatToStringDigits(if i < 0 then -i else i);
    var s := IntToString(i);
    forall j | 0 <= j < |s| ensures s[j] != '/' {
      if i < 0 && j > 0 { assert s[j] == NatToString(-i)[j - 1]; }
    }
  }

  lemma IndexedRoundTrip(prefix: string, suffix: string, i: int)
    ensures ParseIndexed(prefix, suffix, prefix + IntToString(i) + suffix) == Some(i)
  {
    var name := prefix + IntToString(i) + suffix;
    assert name[..|prefix|] == prefix;
    assert name[|name| - |suffix|..] == suffix;
    assert name[|prefix|..|name| - |suffix|] == IntToString(i);
    IntToStringRoundTrip(i);
  }

  /** A name of kind k never parses as one of an earlier-listed other kind: the prefixes differ. */
  lemma PrefixMismatch(k: ItrFile, k': ItrFile, i: int)
    requires k != k'
    ensures ParseIndexed(Prefix(k'), Suffix(k'), FileName(k, i)) == None
  {
    var name := FileName(k, i);
    var p, p' := Prefix(k), Prefix(k');
    if |name| >= |p'| + |Suffix(k')| {
      assert name[..|p'|][0] == p[0] && name[..|p'|][1] == p[1];
      assert name[..|p'|] != p';
    }
  }

  /** The file name of an artifact determines its kind and its iteration. */
  lemma FileNameRoundTrip(k: ItrFile, i: int)
    ensures ParseFileName(FileName(k, i)) == Some((k, i))
  {
    var name := FileName(k, i);
    IndexedRoundTrip(Prefix(k), Suffix(k), i);
    var kinds := [SamplesFile, StatsFile, ModelFile, WorldsFile, MpcsFile];
    assert kinds[1..] == [StatsFile, ModelFile, WorldsFile, MpcsFile];
    assert kinds[2..] == [ModelFile, WorldsFile, MpcsFile];
    assert kinds[3..] == [WorldsFile, MpcsFile];
    assert kinds[4..] == [MpcsFile];
    if k != SamplesFile { PrefixMismatch(k, SamplesFile, i); }
    if k != StatsFile { PrefixMismatch(k, StatsFile, i); }
    if k != ModelFile { PrefixMismatch(k, ModelFile, i); }
    if k != WorldsFile { PrefixMismatch(k, WorldsFile, i); }
  }

  /** An artifact's path ends in its own file name, whatever the save directory is. */
  lemma BasenameOfItrFile(k: ItrFile, saveDir: string, i: int)
    ensures Basename(ItrFilePath(k, saveDir, i)) == FileName(k, i)
  {
    IntToStringNoSlash(i);
    var name := FileName(k, i);
    var n := |Prefix(k)|;
    var m := |IntToString(i)|;
    forall j | 0 <= j < |name| ensures name[j] != '/' {
      if j < n { assert name[j] == Prefix(k)[j]; }
      else if j < n + m { assert name[j] == IntToString(i)[j - n]; }
      else { assert name[j] == Suffix(k)[j - n - m]; }
    }
    BasenameOfJoin(ItrDir(saveDir, i), name);
  }

  /** Kind and iteration can be read back from an artifact's full path. */
  lemma ItrFileRoundTrip(k: ItrFile, saveDir: string, i: int)
    ensures ParseFileName(Basename(ItrFilePath(k, saveDir, i))) == Some((k, i))
  {
    BasenameOfItrFile(k, saveDir, i);
    FileNameRoundTrip(k, i);
  }

  /** Two artifact paths under one save directory coincide only for the same kind and iteration;
      so checkpoint `itr` and samples `itr` are told apart, and iteration -1 names no real one. */
  lemma ItrFileInjective(k: ItrFile, i: int, k': ItrFile, j: int, saveDir: string)
    requires ItrFilePath(k, saveDir, i) == ItrFilePath(k', saveDir, j)
    ensures k == k' && i == j
  {
    ItrFileRoundTrip(k, saveDir, i);
    ItrFileRoundTrip(k', saveDir, j);
  }
}
