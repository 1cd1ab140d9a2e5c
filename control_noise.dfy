/** `_create_control_noise`: selects the noise process from the configured type string.
    'zero', 'gaussian' and 'uniform' must match exactly; 'ou' and 'smoothedgaussian' match
    after lower-casing. The parameters are then looked up under the type string as written. */
module ControlNoise {
  import opened Wrappers
  import opened Strings

  datatype NoiseKind = Zero | Gaussian | Uniform | OU | SmoothedGaussian

  /** A fresh noise generator: its kind and the configuration section its parameters come from. */
  datatype Noise = Noise(kind: NoiseKind, section: string)

  datatype NoiseError =
    | UnknownNoiseType(noiseType: string)  // `raise Exception('Control noise type ... not valid')`
    | MissingNoiseParams(noiseType: string) // `cn_params[cn_params['type']]` raises KeyError

  /** The class selection of the if/elif chain; None for the final `else`. */
  function SelectKind(noiseType: string): Option<NoiseKind>
  {
    if noiseType == "zero" then Some(Zero)
    else if noiseType == "gaussian" then Some(Gaussian)
    else if noiseType == "uniform" then Some(Uniform)
    else if Lower(noiseType) == "ou" then Some(OU)
    else if Lower(noiseType) == "smoothedgaussian" then Some(SmoothedGaussian)
    else None
  }

  /** `sections` are the keys of the `control_noise` configuration dictionary. The factory accepts a
      type exactly when it names one of the five kinds (the last two in any letter case) and the
      configuration has a section under that very string. */
  function CreateControlNoise(noiseType: string, sections: set<string>): (r: Result<Noise, NoiseError>)
    ensures r.Ok? <==>
      (noiseType in {"zero", "gaussian", "uniform"} || Lower(noiseType) in {"ou", "smoothedgaussian"})
      && noiseType in sections
    ensures r.Err? ==>
      r == if SelectKind(noiseType) == None then Err(UnknownNoiseType(noiseType)) else Err(MissingNoiseParams(noiseType))
  {
    match SelectKind(noiseType)
    case None => Err(UnknownNoiseType(noiseType))
    case Some(kind) =>
      if noiseType in sections then Ok(Noise(kind, noiseType)) else Err(MissingNoiseParams(noiseType))
  }

  /** The strings that lower-case to "ou" are exactly the four spellings of it. */
  lemma LowerIsOU(s: string)
    ensures Lower(s) == "ou" <==> s in {"ou", "oU", "Ou", "OU"}
  {
    if Lower(s) == "ou" {
      assert |s| == 2 && LowerChar(s[0]) == 'o' && LowerChar(s[1]) == 'u';
      assert s[0] in {'o', 'O'} && s[1] in {'u', 'U'};
      assert s == [s[0], s[1]];
    }
  }

  /** Each kind is produced by exactly its own spelling rule: the first three are case-sensitive,
      the last two are not, and the generator is configured from the section named as written. */
  lemma FactoryKind(noiseType: string, sections: set<string>, n: Noise)
    requires CreateControlNoise(noiseType, sections) == Ok(n)
    ensures n.section == noiseType
    ensures n.kind == Zero <==> noiseType == "zero"
    ensures n.kind == Gaussian <==> noiseType == "gaussian"
    ensures n.kind == Uniform <==> noiseType == "uniform"
    ensures n.kind == OU <==> Lower(noiseType) == "ou"
    ensures n.kind == SmoothedGaussian <==> Lower(noiseType) == "smoothedgaussian"
  {
    // Lower keeps the length, and the five names have pairwise different lengths.
    assert |Lower(noiseType)| == |noiseType|;
  }

  /** Upper-case spellings are refused for the exact-match kinds but accepted for OU. */
  lemma CaseSensitivityExamples(sections: set<string>)
    requires "OU" in sections
    ensures CreateControlNoise("Zero", sections) == Err(UnknownNoiseType("Zero"))
    ensures CreateControlNoise("GAUSSIAN", sections) == Err(UnknownNoiseType("GAUSSIAN"))
    ensures CreateControlNoise("OU", sections) == Ok(Noise(OU, "OU"))
  {
    assert Lower("Zero") == "zero";
    assert Lower("GAUSSIAN") == "gaussian";
    assert Lower("OU") == "ou";
  }
}
