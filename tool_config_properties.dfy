/** What each of the nine tool-specific builders of blastConfig does: which
    reads can fail and in what order, which fields it adds, which it keeps,
    and what it stores. */
module ToolConfigProperties {
  import opened Wrappers
  import opened Json
  import opened MultiBlastServiceParams

  /** One half of an integer-pair parameter, as a JSON number. */
  function PairPart(params: Params, p: ParamName, first: bool): Option<Json> {
    var r := GetIntPairParamValue(params, p);
    if r.Failure? then None
    else if first then Some(JNumber(r.value.0))
    else Some(JNumber(r.value.1))
  }

  /** An integer parameter, as a JSON number. */
  function IntValue(params: Params, p: ParamName): Option<Json> {
    var r := GetIntParamValue(params, p);
    if r.Success? then Some(JNumber(r.value)) else None
  }

  /** A text parameter, normalised, as a JSON string. */
  function TextValue(params: Params, p: ParamName): Option<Json> {
    if Name(p) in params then Some(JString(NormalizedOf(params, p))) else None
  }

  /** `ParamsToBlastNConfig` fails exactly when one of its reads fails, with the
      error of the first read that does. */
  lemma BlastNConfigErrors(config: map<Key, Json>, params: Params)
    ensures var r := ParamsToBlastNConfig(config, params);
      && (r.Success? <==> FirstFailure(ToolReadErrors(BlastN, params)).None?)
      && (r.Failure? ==> FirstFailure(ToolReadErrors(BlastN, params)) == Some(r.error))
  {
    var errors := ToolReadErrors(BlastN, params);
    assert FirstFailure(errors) == if errors[0].Some? then errors[0] else FirstFailure(errors[1..]);
    assert FirstFailure(errors[1..]) == if errors[1].Some? then errors[1] else FirstFailure(errors[2..]);
    assert FirstFailure(errors[2..]) == if errors[2].Some? then errors[2] else FirstFailure(errors[3..]);
    assert FirstFailure(errors[3..]) == if errors[3].Some? then errors[3] else FirstFailure(errors[4..]);
    assert errors[4..] == [];
  }

  /** Proof step for the `BlastNConfig` lemmas below, not a property of its
      own: on success every read of `ParamsToBlastNConfig` succeeded, and
      the result is the given fields updated with what they read. */
  lemma BlastNConfigValue(config: map<Key, Json>, params: Params, out: map<Key, Json>)
    requires ParamsToBlastNConfig(config, params) == Success(out)
    ensures GetIntPairParamValue(params, GapCosts).Success?
    ensures GetIntPairParamValue(params, MatchMismatchScore).Success?
    ensures GetIntParamValue(params, ParamName.WordSize).Success?
    ensures ParseLowComplexityFilter(params).Success?
    ensures
      var gapCosts := GetIntPairParamValue(params, GapCosts).value;
      var mismatch := GetIntPairParamValue(params, MatchMismatchScore).value;
      var wordSize := GetIntParamValue(params, ParamName.WordSize).value;
      var filter := ParseLowComplexityFilter(params).value;
      out == config[Tool := JString("blastn")][Task := JString("blastn")]
        [GapOpen := JNumber(gapCosts.0)][GapExtend := JNumber(gapCosts.1)]
        [Reward := JNumber(mismatch.0)][Penalty := JNumber(mismatch.1)]
        [Key.WordSize := JNumber(wordSize)][Dust := filter]
  {
  }

  /** `ParamsToBlastNConfig` adds the blastn fields and keeps every other field. */
  lemma BlastNConfigShape(config: map<Key, Json>, params: Params, out: map<Key, Json>)
    requires ParamsToBlastNConfig(config, params) == Success(out)
    ensures out.Keys == config.Keys + ToolKeys(BlastN)
    ensures forall k :: k in config && k !in ToolKeys(BlastN) ==> out[k] == config[k]
  {
    BlastNConfigValue(config, params, out);
  }

  /** The numbers `ParamsToBlastNConfig` stores, each parsed from its parameter. */
  lemma BlastNConfigNumbers(config: map<Key, Json>, params: Params, out: map<Key, Json>)
    requires ParamsToBlastNConfig(config, params) == Success(out)
    ensures GapOpen in out && Some(out[GapOpen]) == PairPart(params, GapCosts, true)
    ensures GapExtend in out && Some(out[GapExtend]) == PairPart(params, GapCosts, false)
    ensures Reward in out && Some(out[Reward]) == PairPart(params, MatchMismatchScore, true)
    ensures Penalty in out && Some(out[Penalty]) == PairPart(params, MatchMismatchScore, false)
    ensures Key.WordSize in out && Some(out[Key.WordSize]) == IntValue(params, ParamName.WordSize)
  {
    BlastNConfigValue(config, params, out);
  }

  /** The tool name, the text parameters and the filter `ParamsToBlastNConfig` stores. */
  lemma BlastNConfigText(config: map<Key, Json>, params: Params, out: map<Key, Json>)
    requires ParamsToBlastNConfig(config, params) == Success(out)
    ensures Tool in out && out[Tool] == JString("blastn")
    ensures Task in out && out[Task] == JString("blastn")
    ensures Name(FilterLowComplex) in params
    ensures Dust in out && out[Dust] == FilterJson(NormalizedOf(params, FilterLowComplex))
  {
    BlastNConfigValue(config, params, out);
  }

  /** `ParamsToBlastPConfig` fails exactly when one of its reads fails, with the
      error of the first read that does. */
  lemma BlastPConfigErrors(config: map<Key, Json>, params: Params)
    ensures var r := ParamsToBlastPConfig(config, params);
      && (r.Success? <==> FirstFailure(ToolReadErrors(BlastP, params)).None?)
      && (r.Failure? ==> FirstFailure(ToolReadErrors(BlastP, params)) == Some(r.error))
  {
    var errors := ToolReadErrors(BlastP, params);
    assert FirstFailure(errors) == if errors[0].Some? then errors[0] else FirstFailure(errors[1..]);
    assert FirstFailure(errors[1..]) == if errors[1].Some? then errors[1] else FirstFailure(errors[2..]);
    assert FirstFailure(errors[2..]) == if errors[2].Some? then errors[2] else FirstFailure(errors[3..]);
    assert FirstFailure(errors[3..]) == if errors[3].Some? then errors[3] else FirstFailure(errors[4..]);
    assert FirstFailure(errors[4..]) == if errors[4].Some? then errors[4] else FirstFailure(errors[5..]);
    assert errors[5..] == [];
  }

  /** Proof step for the `BlastPConfig` lemmas below, not a property of its
      own: on success every read of `ParamsToBlastPConfig` succeeded, and
      the result is the given fields updated with what they read. */
  lemma BlastPConfigValue(config: map<Key, Json>, params: Params, out: map<Key, Json>)
    requires ParamsToBlastPConfig(config, params) == Success(out)
    ensures GetIntPairParamValue(params, GapCosts).Success?
    ensures GetIntParamValue(params, ParamName.WordSize).Success?
    ensures GetNormalizedParamValue(params, ScoringMatrix).Success?
    ensures GetNormalizedParamValue(params, CompAdjust).Success?
    ensures ParseLowComplexityFilter(params).Success?
    ensures
      var gapCosts := GetIntPairParamValue(params, GapCosts).value;
      var wordSize := GetIntParamValue(params, ParamName.WordSize).value;
      var matrix := GetNormalizedParamValue(params, ScoringMatrix).value;
      var compBasedStats := GetNormalizedParamValue(params, CompAdjust).value;
      var filter := ParseLowComplexityFilter(params).value;
      out == config[Tool := JString("blastp")][Task := JString("blastp")]
        [GapOpen := JNumber(gapCosts.0)][GapExtend := JNumber(gapCosts.1)]
        [Key.WordSize := JNumber(wordSize)][Matrix := JString(matrix)]
        [CompBasedStats := JString(compBasedStats)][Seg := filter]
  {
  }

  /** `ParamsToBlastPConfig` adds the blastp fields and keeps every other field. */
  lemma BlastPConfigShape(config: map<Key, Json>, params: Params, out: map<Key, Json>)
    requires ParamsToBlastPConfig(config, params) == Success(out)
    ensures out.Keys == config.Keys + ToolKeys(BlastP)
    ensures forall k :: k in config && k !in ToolKeys(BlastP) ==> out[k] == config[k]
  {
    BlastPConfigValue(config, params, out);
  }

  /** The numbers `ParamsToBlastPConfig` stores, each parsed from its parameter. */
  lemma BlastPConfigNumbers(config: map<Key, Json>, params: Params, out: map<Key, Json>)
    requires ParamsToBlastPConfig(config, params) == Success(out)
    ensures GapOpen in out && Some(out[GapOpen]) == PairPart(params, GapCosts, true)
    ensures GapExtend in out && Some(out[GapExtend]) == PairPart(params, GapCosts, false)
    ensures Key.WordSize in out && Some(out[Key.WordSize]) == IntValue(params, ParamName.WordSize)
  {
    BlastPConfigValue(config, params, out);
  }

  /** The tool name, the text parameters and the filter `ParamsToBlastPConfig` stores. */
  lemma BlastPConfigText(config: map<Key, Json>, params: Params, out: map<Key, Json>)
    requires ParamsToBlastPConfig(config, params) == Success(out)
    ensures Tool in out && out[Tool] == JString("blastp")
    ensures Task in out && out[Task] == JString("blastp")
    ensures Matrix in out && Some(out[Matrix]) == TextValue(params, ScoringMatrix)
    ensures CompBasedStats in out && Some(out[CompBasedStats]) == TextValue(params, CompAdjust)
    ensures Name(FilterLowComplex) in params
    ensures Seg in out && out[Seg] == FilterJson(NormalizedOf(params, FilterLowComplex))
  {
    BlastPConfigValue(config, params, out);
  }

  /** `ParamsToBlastXConfig` fails exactly when one of its reads fails, with the
      error of the first read that does. */
  lemma BlastXConfigErrors(config: map<Key, Json>, params: Params)
    ensures var r := ParamsToBlastXConfig(config, params);
      && (r.Success? <==> FirstFailure(ToolReadErrors(BlastX, params)).None?)
      && (r.Failure? ==> FirstFailure(ToolReadErrors(BlastX, params)) == Some(r.error))
  {
    var errors := ToolReadErrors(BlastX, params);
    assert FirstFailure(errors) == if errors[0].Some? then errors[0] else FirstFailure(errors[1..]);
    assert FirstFailure(errors[1..]) == if errors[1].Some? then errors[1] else FirstFailure(errors[2..]);
    assert FirstFailure(errors[2..]) == if errors[2].Some? then errors[2] else FirstFailure(errors[3..]);
    assert FirstFailure(errors[3..]) == if errors[3].Some? then errors[3] else FirstFailure(errors[4..]);
    assert FirstFailure(errors[4..]) == if errors[4].Some? then errors[4] else FirstFailure(errors[5..]);
    assert errors[5..] == [];
  }

  /** Proof step for the `BlastXConfig` lemmas below, not a property of its
      own: on success every read of `ParamsToBlastXConfig` succeeded, and
      the result is the given fields updated with what they read. */
  lemma BlastXConfigValue(config: map<Key, Json>, params: Params, out: map<Key, Json>)
    requires ParamsToBlastXConfig(config, params) == Success(out)
    ensures GetIntPairParamValue(params, GapCosts).Success?
    ensures GetIntParamValue(params, ParamName.WordSize).Success?
    ensures GetNormalizedParamValue(params, ScoringMatrix).Success?
    ensures GetNormalizedParamValue(params, CompAdjust).Success?
    ensures ParseLowComplexityFilter(params).Success?
    ensures
      var gapCosts := GetIntPairParamValue(params, GapCosts).value;
      var wordSize := GetIntParamValue(params, ParamName.WordSize).value;
      var matrix := GetNormalizedParamValue(params, ScoringMatrix).value;
      var compBasedStats := GetNormalizedParamValue(params, CompAdjust).value;
      var filter := ParseLowComplexityFilter(params).value;
      out == config[Tool := JString("blastx")][Task := JString("blastx")]
        [GapOpen := JNumber(gapCosts.0)][GapExtend := JNumber(gapCosts.1)]
        [Key.WordSize := JNumber(wordSize)][Matrix := JString(matrix)]
        [CompBasedStats := JString(compBasedStats)][Seg := filter]
  {
  }

  /** `ParamsToBlastXConfig` adds the blastx fields and keeps every other field. */
  lemma BlastXConfigShape(config: map<Key, Json>, params: Params, out: map<Key, Json>)
    requires ParamsToBlastXConfig(config, params) == Success(out)
    ensures out.Keys == config.Keys + ToolKeys(BlastX)
    ensures forall k :: k in config && k !in ToolKeys(BlastX) ==> out[k] == config[k]
  {
    BlastXConfigValue(config, params, out);
  }

  /** The numbers `ParamsToBlastXConfig` stores, each parsed from its parameter. */
  lemma BlastXConfigNumbers(config: map<Key, Json>, params: Params, out: map<Key, Json>)
    requires ParamsToBlastXConfig(config, params) == Success(out)
    ensures GapOpen in out && Some(out[GapOpen]) == PairPart(params, GapCosts, true)
    ensures GapExtend in out && Some(out[GapExtend]) == PairPart(params, GapCosts, false)
    ensures Key.WordSize in out && Some(out[Key.WordSize]) == IntValue(params, ParamName.WordSize)
  {
    BlastXConfigValue(config, params, out);
  }

  /** The tool name, the text parameters and the filter `ParamsToBlastXConfig` stores. */
  lemma BlastXConfigText(config: map<Key, Json>, params: Params, out: map<Key, Json>)
    requires ParamsToBlastXConfig(config, params) == Success(out)
    ensures Tool in out && out[Tool] == JString("blastx")
    ensures Task in out && out[Task] == JString("blastx")
    ensures Matrix in out && Some(out[Matrix]) == TextValue(params, ScoringMatrix)
    ensures CompBasedStats in out && Some(out[CompBasedStats]) == TextValue(params, CompAdjust)
    ensures Name(FilterLowComplex) in params
    ensures Seg in out && out[Seg] == FilterJson(NormalizedOf(params, FilterLowComplex))
  {
    BlastXConfigValue(config, params, out);
  }

  /** `ParamsToTBlastNConfig` fails exactly when one of its reads fails, with the
      error of the first read that does. */
  lemma TBlastNConfigErrors(config: map<Key, Json>, params: Params)
    ensures var r := ParamsToTBlastNConfig(config, params);
      && (r.Success? <==> FirstFailure(ToolReadErrors(TBlastN, params)).None?)
      && (r.Failure? ==> FirstFailure(ToolReadErrors(TBlastN, params)) == Some(r.error))
  {
    var errors := ToolReadErrors(TBlastN, params);
    assert FirstFailure(errors) == if errors[0].Some? then errors[0] else FirstFailure(errors[1..]);
    assert FirstFailure(errors[1..]) == if errors[1].Some? then errors[1] else FirstFailure(errors[2..]);
    assert FirstFailure(errors[2..]) == if errors[2].Some? then errors[2] else FirstFailure(errors[3..]);
    assert FirstFailure(errors[3..]) == if errors[3].Some? then errors[3] else FirstFailure(errors[4..]);
    assert FirstFailure(errors[4..]) == if errors[4].Some? then errors[4] else FirstFailure(errors[5..]);
    assert errors[5..] == [];
  }

  /** Proof step for the `TBlastNConfig` lemmas below, not a property of its
      own: on success every read of `ParamsToTBlastNConfig` succeeded, and
      the result is the given fields updated with what they read. */
  lemma TBlastNConfigValue(config: map<Key, Json>, params: Params, out: map<Key, Json>)
    requires ParamsToTBlastNConfig(config, params) == Success(out)
    ensures GetIntPairParamValue(params, GapCosts).Success?
    ensures GetIntParamValue(params, ParamName.WordSize).Success?
    ensures GetNormalizedParamValue(params, ScoringMatrix).Success?
    ensures GetNormalizedParamValue(params, CompAdjust).Success?
    ensures ParseLowComplexityFilter(params).Success?
    ensures
      var gapCosts := GetIntPairParamValue(params, GapCosts).value;
      var wordSize := GetIntParamValue(params, ParamName.WordSize).value;
      var matrix := GetNormalizedParamValue(params, ScoringMatrix).value;
      var compBasedStats := GetNormalizedParamValue(params, CompAdjust).value;
      var filter := ParseLowComplexityFilter(params).value;
      out == config[Tool := JString("tblastn")][Task := JString("tblastn")]
        [GapOpen := JNumber(gapCosts.0)][GapExtend := JNumber(gapCosts.1)]
        [Key.WordSize := JNumber(wordSize)][Matrix := JString(matrix)]
        [CompBasedStats := JString(compBasedStats)][Seg := filter]
  {
  }

  /** `ParamsToTBlastNConfig` adds the tblastn fields and keeps every other field. */
  lemma TBlastNConfigShape(config: map<Key, Json>, params: Params, out: map<Key, Json>)
    requires ParamsToTBlastNConfig(config, params) == Success(out)
    ensures out.Keys == config.Keys + ToolKeys(TBlastN)
    ensures forall k :: k in config && k !in ToolKeys(TBlastN) ==> out[k] == config[k]
  {
    TBlastNConfigValue(config, params, out);
  }

  /** The numbers `ParamsToTBlastNConfig` stores, each parsed from its parameter. */
  lemma TBlastNConfigNumbers(config: map<Key, Json>, params: Params, out: map<Key, Json>)
    requires ParamsToTBlastNConfig(config, params) == Success(out)
    ensures GapOpen in out && Some(out[GapOpen]) == PairPart(params, GapCosts, true)
    ensures GapExtend in out && Some(out[GapExtend]) == PairPart(params, GapCosts, false)
    ensures Key.WordSize in out && Some(out[Key.WordSize]) == IntValue(params, ParamName.WordSize)
  {
    TBlastNConfigValue(config, params, out);
  }

  /** The tool name, the text parameters and the filter `ParamsToTBlastNConfig` stores. */
  lemma TBlastNConfigText(config: map<Key, Json>, params: Params, out: map<Key, Json>)
    requires ParamsToTBlastNConfig(config, params) == Success(out)
    ensures Tool in out && out[Tool] == JString("tblastn")
    ensures Task in out && out[Task] == JString("tblastn")
    ensures Matrix in out && Some(out[Matrix]) == TextValue(params, ScoringMatrix)
    ensures CompBasedStats in out && Some(out[CompBasedStats]) == TextValue(params, CompAdjust)
    ensures Name(FilterLowComplex) in params
    ensures Seg in out && out[Seg] == FilterJson(NormalizedOf(params, FilterLowComplex))
  {
    TBlastNConfigValue(config, params, out);
  }

  /** `ParamsToTBlastXConfig` fails exactly when one of its reads fails, with the
      error of the first read that does. */
  lemma TBlastXConfigErrors(config: map<Key, Json>, params: Params)
    ensures var r := ParamsToTBlastXConfig(config, params);
      && (r.Success? <==> FirstFailure(ToolReadErrors(TBlastX, params)).None?)
      && (r.Failure? ==> FirstFailure(ToolReadErrors(TBlastX, params)) == Some(r.error))
  {
    var errors := ToolReadErrors(TBlastX, params);
    assert FirstFailure(errors) == if errors[0].Some? then errors[0] else FirstFailure(errors[1..]);
    assert FirstFailure(errors[1..]) == if errors[1].Some? then errors[1] else FirstFailure(errors[2..]);
    assert FirstFailure(errors[2..]) == if errors[2].Some? then errors[2] else FirstFailure(errors[3..]);
    assert errors[3..] == [];
  }

  /** Proof step for the `TBlastXConfig` lemmas below, not a property of its
      own: on success every read of `ParamsToTBlastXConfig` succeeded, and
      the result is the given fields updated with what they read. */
  lemma TBlastXConfigValue(config: map<Key, Json>, params: Params, out: map<Key, Json>)
    requires ParamsToTBlastXConfig(config, params) == Success(out)
    ensures GetIntParamValue(params, ParamName.WordSize).Success?
    ensures GetNormalizedParamValue(params, ScoringMatrix).Success?
    ensures ParseLowComplexityFilter(params).Success?
    ensures
      var wordSize := GetIntParamValue(params, ParamName.WordSize).value;
      var matrix := GetNormalizedParamValue(params, ScoringMatrix).value;
      var filter := ParseLowComplexityFilter(params).value;
      out == config[Tool := JString("tblastx")]
        [Key.WordSize := JNumber(wordSize)][Matrix := JString(matrix)][Seg := filter]
  {
  }

  /** `ParamsToTBlastXConfig` adds the tblastx fields and keeps every other field. */
  lemma TBlastXConfigShape(config: map<Key, Json>, params: Params, out: map<Key, Json>)
    requires ParamsToTBlastXConfig(config, params) == Success(out)
    ensures out.Keys == config.Keys + ToolKeys(TBlastX)
    ensures forall k :: k in config && k !in ToolKeys(TBlastX) ==> out[k] == config[k]
  {
    TBlastXConfigValue(config, params, out);
  }

  /** The numbers `ParamsToTBlastXConfig` stores, each parsed from its parameter. */
  lemma TBlastXConfigNumbers(config: map<Key, Json>, params: Params, out: map<Key, Json>)
    requires ParamsToTBlastXConfig(config, params) == Success(out)
    ensures Key.WordSize in out && Some(out[Key.WordSize]) == IntValue(params, ParamName.WordSize)
  {
    TBlastXConfigValue(config, params, out);
  }

  /** The tool name, the text parameters and the filter `ParamsToTBlastXConfig` stores. */
  lemma TBlastXConfigText(config: map<Key, Json>, params: Params, out: map<Key, Json>)
    requires ParamsToTBlastXConfig(config, params) == Success(out)
    ensures Tool in out && out[Tool] == JString("tblastx")
    ensures Matrix in out && Some(out[Matrix]) == TextValue(params, ScoringMatrix)
    ensures Name(FilterLowComplex) in params
    ensures Seg in out && out[Seg] == FilterJson(NormalizedOf(params, FilterLowComplex))
  {
    TBlastXConfigValue(config, params, out);
  }

  /** `ParamsToDeltaBlastConfig` fails exactly when one of its reads fails, with the
      error of the first read that does. */
  lemma DeltaBlastConfigErrors(config: map<Key, Json>, params: Params)
    ensures var r := ParamsToDeltaBlastConfig(config, params);
      && (r.Success? <==> FirstFailure(ToolReadErrors(DeltaBlast, params)).None?)
      && (r.Failure? ==> FirstFailure(ToolReadErrors(DeltaBlast, params)) == Some(r.error))
  {
    var errors := ToolReadErrors(DeltaBlast, params);
    assert FirstFailure(errors) == if errors[0].Some? then errors[0] else FirstFailure(errors[1..]);
    assert FirstFailure(errors[1..]) == if errors[1].Some? then errors[1] else FirstFailure(errors[2..]);
    assert FirstFailure(errors[2..]) == if errors[2].Some? then errors[2] else FirstFailure(errors[3..]);
    assert FirstFailure(errors[3..]) == if errors[3].Some? then errors[3] else FirstFailure(errors[4..]);
    assert FirstFailure(errors[4..]) == if errors[4].Some? then errors[4] else FirstFailure(errors[5..]);
    assert errors[5..] == [];
  }

  /** Proof step for the `DeltaBlastConfig` lemmas below, not a property of its
      own: on success every read of `ParamsToDeltaBlastConfig` succeeded, and
      the result is the given fields updated with what they read. */
  lemma DeltaBlastConfigValue(config: map<Key, Json>, params: Params, out: map<Key, Json>)
    requires ParamsToDeltaBlastConfig(config, params) == Success(out)
    ensures GetIntPairParamValue(params, GapCosts).Success?
    ensures GetIntParamValue(params, ParamName.WordSize).Success?
    ensures GetNormalizedParamValue(params, ScoringMatrix).Success?
    ensures GetNormalizedParamValue(params, CompAdjust).Success?
    ensures ParseLowComplexityFilter(params).Success?
    ensures
      var gapCosts := GetIntPairParamValue(params, GapCosts).value;
      var wordSize := GetIntParamValue(params, ParamName.WordSize).value;
      var matrix := GetNormalizedParamValue(params, ScoringMatrix).value;
      var compBasedStats := GetNormalizedParamValue(params, CompAdjust).value;
      var filter := ParseLowComplexityFilter(params).value;
      out == config[Tool := JString("deltablast")]
        [GapOpen := JNumber(gapCosts.0)][GapExtend := JNumber(gapCosts.1)]
        [Key.WordSize := JNumber(wordSize)][Matrix := JString(matrix)]
        [CompBasedStats := JString(compBasedStats)][Seg := filter]
  {
  }

  /** `ParamsToDeltaBlastConfig` adds the deltablast fields and keeps every other field. */
  lemma DeltaBlastConfigShape(config: map<Key, Json>, params: Params, out: map<Key, Json>)
    requires ParamsToDeltaBlastConfig(config, params) == Success(out)
    ensures out.Keys == config.Keys + ToolKeys(DeltaBlast)
    ensures forall k :: k in config && k !in ToolKeys(DeltaBlast) ==> out[k] == config[k]
  {
    DeltaBlastConfigValue(config, params, out);
  }

  /** The numbers `ParamsToDeltaBlastConfig` stores, each parsed from its parameter. */
  lemma DeltaBlastConfigNumbers(config: map<Key, Json>, params: Params, out: map<Key, Json>)
    requires ParamsToDeltaBlastConfig(config, params) == Success(out)
    ensures GapOpen in out && Some(out[GapOpen]) == PairPart(params, GapCosts, true)
    ensures GapExtend in out && Some(out[GapExtend]) == PairPart(params, GapCosts, false)
    ensures Key.WordSize in out && Some(out[Key.WordSize]) == IntValue(params, ParamName.WordSize)
  {
    DeltaBlastConfigValue(config, params, out);
  }

  /** The tool name, the text parameters and the filter `ParamsToDeltaBlastConfig` stores. */
  lemma DeltaBlastConfigText(config: map<Key, Json>, params: Params, out: map<Key, Json>)
    requires ParamsToDeltaBlastConfig(config, params) == Success(out)
    ensures Tool in out && out[Tool] == JString("deltablast")
    ensures Matrix in out && Some(out[Matrix]) == TextValue(params, ScoringMatrix)
    ensures CompBasedStats in out && Some(out[CompBasedStats]) == TextValue(params, CompAdjust)
    ensures Name(FilterLowComplex) in params
    ensures Seg in out && out[Seg] == FilterJson(NormalizedOf(params, FilterLowComplex))
  {
    DeltaBlastConfigValue(config, params, out);
  }

  /** `ParamsToPsiBlastConfig` fails exactly when one of its reads fails, with the
      error of the first read that does. */
  lemma PsiBlastConfigErrors(config: map<Key, Json>, params: Params)
    ensures var r := ParamsToPsiBlastConfig(config, params);
      && (r.Success? <==> FirstFailure(ToolReadErrors(PsiBlast, params)).None?)
      && (r.Failure? ==> FirstFailure(ToolReadErrors(PsiBlast, params)) == Some(r.error))
  {
    var errors := ToolReadErrors(PsiBlast, params);
    assert FirstFailure(errors) == if errors[0].Some? then errors[0] else FirstFailure(errors[1..]);
    assert FirstFailure(errors[1..]) == if errors[1].Some? then errors[1] else FirstFailure(errors[2..]);
    assert FirstFailure(errors[2..]) == if errors[2].Some? then errors[2] else FirstFailure(errors[3..]);
    assert FirstFailure(errors[3..]) == if errors[3].Some? then errors[3] else FirstFailure(errors[4..]);
    assert FirstFailure(errors[4..]) == if errors[4].Some? then errors[4] else FirstFailure(errors[5..]);
    assert errors[5..] == [];
  }

  /** Proof step for the `PsiBlastConfig` lemmas below, not a property of its
      own: on success every read of `ParamsToPsiBlastConfig` succeeded, and
      the result is the given fields updated with what they read. */
  lemma PsiBlastConfigValue(config: map<Key, Json>, params: Params, out: map<Key, Json>)
    requires ParamsToPsiBlastConfig(config, params) == Success(out)
    ensures GetIntPairParamValue(params, GapCosts).Success?
    ensures GetIntParamValue(params, ParamName.WordSize).Success?
    ensures GetNormalizedParamValue(params, ScoringMatrix).Success?
    ensures GetNormalizedParamValue(params, CompAdjust).Success?
    ensures ParseLowComplexityFilter(params).Success?
    ensures
      var gapCosts := GetIntPairParamValue(params, GapCosts).value;
      var wordSize := GetIntParamValue(params, ParamName.WordSize).value;
      var matrix := GetNormalizedParamValue(params, ScoringMatrix).value;
      var compBasedStats := GetNormalizedParamValue(params, CompAdjust).value;
      var filter := ParseLowComplexityFilter(params).value;
      out == config[Tool := JString("psiblast")]
        [GapOpen := JNumber(gapCosts.0)][GapExtend := JNumber(gapCosts.1)]
        [Key.WordSize := JNumber(wordSize)][Matrix := JString(matrix)]
        [CompBasedStats := JString(compBasedStats)][Seg := filter]
  {
  }

  /** `ParamsToPsiBlastConfig` adds the psiblast fields and keeps every other field. */
  lemma PsiBlastConfigShape(config: map<Key, Json>, params: Params, out: map<Key, Json>)
    requires ParamsToPsiBlastConfig(config, params) == Success(out)
    ensures out.Keys == config.Keys + ToolKeys(PsiBlast)
    ensures forall k :: k in config && k !in ToolKeys(PsiBlast) ==> out[k] == config[k]
  {
    PsiBlastConfigValue(config, params, out);
  }

  /** The numbers `ParamsToPsiBlastConfig` stores, each parsed from its parameter. */
  lemma PsiBlastConfigNumbers(config: map<Key, Json>, params: Params, out: map<Key, Json>)
    requires ParamsToPsiBlastConfig(config, params) == Success(out)
    ensures GapOpen in out && Some(out[GapOpen]) == PairPart(params, GapCosts, true)
    ensures GapExtend in out && Some(out[GapExtend]) == PairPart(params, GapCosts, false)
    ensures Key.WordSize in out && Some(out[Key.WordSize]) == IntValue(params, ParamName.WordSize)
  {
    PsiBlastConfigValue(config, params, out);
  }

  /** The tool name, the text parameters and the filter `ParamsToPsiBlastConfig` stores. */
  lemma PsiBlastConfigText(config: map<Key, Json>, params: Params, out: map<Key, Json>)
    requires ParamsToPsiBlastConfig(config, params) == Success(out)
    ensures Tool in out && out[Tool] == JString("psiblast")
    ensures Matrix in out && Some(out[Matrix]) == TextValue(params, ScoringMatrix)
    ensures CompBasedStats in out && Some(out[CompBasedStats]) == TextValue(params, CompAdjust)
    ensures Name(FilterLowComplex) in params
    ensures Seg in out && out[Seg] == FilterJson(NormalizedOf(params, FilterLowComplex))
  {
    PsiBlastConfigValue(config, params, out);
  }

  /** `ParamsToRpsBlastConfig` fails exactly when one of its reads fails, with the
      error of the first read that does. */
  lemma RpsBlastConfigErrors(config: map<Key, Json>, params: Params)
    ensures var r := ParamsToRpsBlastConfig(config, params);
      && (r.Success? <==> FirstFailure(ToolReadErrors(RpsBlast, params)).None?)
      && (r.Failure? ==> FirstFailure(ToolReadErrors(RpsBlast, params)) == Some(r.error))
  {
    var errors := ToolReadErrors(RpsBlast, params);
    assert FirstFailure(errors) == if errors[0].Some? then errors[0] else FirstFailure(errors[1..]);
    assert FirstFailure(errors[1..]) == if errors[1].Some? then errors[1] else FirstFailure(errors[2..]);
    assert errors[2..] == [];
  }

  /** Proof step for the `RpsBlastConfig` lemmas below, not a property of its
      own: on success every read of `ParamsToRpsBlastConfig` succeeded, and
      the result is the given fields updated with what they read. */
  lemma RpsBlastConfigValue(config: map<Key, Json>, params: Params, out: map<Key, Json>)
    requires ParamsToRpsBlastConfig(config, params) == Success(out)
    ensures GetNormalizedParamValue(params, CompAdjust).Success?
    ensures ParseLowComplexityFilter(params).Success?
    ensures
      var compBasedStats := GetNormalizedParamValue(params, CompAdjust).value;
      var filter := ParseLowComplexityFilter(params).value;
      out == config[Tool := JString("rpsblast")]
        [CompBasedStats := JString(compBasedStats)][Seg := filter]
  {
  }

  /** `ParamsToRpsBlastConfig` adds the rpsblast fields and keeps every other field. */
  lemma RpsBlastConfigShape(config: map<Key, Json>, params: Params, out: map<Key, Json>)
    requires ParamsToRpsBlastConfig(config, params) == Success(out)
    ensures out.Keys == config.Keys + ToolKeys(RpsBlast)
    ensures forall k :: k in config && k !in ToolKeys(RpsBlast) ==> out[k] == config[k]
  {
    RpsBlastConfigValue(config, params, out);
  }

  /** The tool name, the text parameters and the filter `ParamsToRpsBlastConfig` stores. */
  lemma RpsBlastConfigText(config: map<Key, Json>, params: Params, out: map<Key, Json>)
    requires ParamsToRpsBlastConfig(config, params) == Success(out)
    ensures Tool in out && out[Tool] == JString("rpsblast")
    ensures CompBasedStats in out && Some(out[CompBasedStats]) == TextValue(params, CompAdjust)
    ensures Name(FilterLowComplex) in params
    ensures Seg in out && out[Seg] == FilterJson(NormalizedOf(params, FilterLowComplex))
  {
    RpsBlastConfigValue(config, params, out);
  }

  /** `ParamsToRpsTBlastNConfig` fails exactly when one of its reads fails, with the
      error of the first read that does. */
  lemma RpsTBlastNConfigErrors(config: map<Key, Json>, params: Params)
    ensures var r := ParamsToRpsTBlastNConfig(config, params);
      && (r.Success? <==> FirstFailure(ToolReadErrors(RpsTBlastN, params)).None?)
      && (r.Failure? ==> FirstFailure(ToolReadErrors(RpsTBlastN, params)) == Some(r.error))
  {
    var errors := ToolReadErrors(RpsTBlastN, params);
    assert FirstFailure(errors) == if errors[0].Some? then errors[0] else FirstFailure(errors[1..]);
    assert FirstFailure(errors[1..]) == if errors[1].Some? then errors[1] else FirstFailure(errors[2..]);
    assert errors[2..] == [];
  }

  /** Proof step for the `RpsTBlastNConfig` lemmas below, not a property of its
      own: on success every read of `ParamsToRpsTBlastNConfig` succeeded, and
      the result is the given fields updated with what they read. */
  lemma RpsTBlastNConfigValue(config: map<Key, Json>, params: Params, out: map<Key, Json>)
    requires ParamsToRpsTBlastNConfig(config, params) == Success(out)
    ensures GetNormalizedParamValue(params, CompAdjust).Success?
    ensures ParseLowComplexityFilter(params).Success?
    ensures
      var compBasedStats := GetNormalizedParamValue(params, CompAdjust).value;
      var filter := ParseLowComplexityFilter(params).value;
      out == config[Tool := JString("rpstblastn")]
        [CompBasedStats := JString(compBasedStats)][Seg := filter]
  {
  }

  /** `ParamsToRpsTBlastNConfig` adds the rpstblastn fields and keeps every other field. */
  lemma RpsTBlastNConfigShape(config: map<Key, Json>, params: Params, out: map<Key, Json>)
    requires ParamsToRpsTBlastNConfig(config, params) == Success(out)
    ensures out.Keys == config.Keys + ToolKeys(RpsTBlastN)
    ensures forall k :: k in config && k !in ToolKeys(RpsTBlastN) ==> out[k] == config[k]
  {
    RpsTBlastNConfigValue(config, params, out);
  }

  /** The tool name, the text parameters and the filter `ParamsToRpsTBlastNConfig` stores. */
  lemma RpsTBlastNConfigText(config: map<Key, Json>, params: Params, out: map<Key, Json>)
    requires ParamsToRpsTBlastNConfig(config, params) == Success(out)
    ensures Tool in out && out[Tool] == JString("rpstblastn")
    ensures CompBasedStats in out && Some(out[CompBasedStats]) == TextValue(params, CompAdjust)
    ensures Name(FilterLowComplex) in params
    ensures Seg in out && out[Seg] == FilterJson(NormalizedOf(params, FilterLowComplex))
  {
    RpsTBlastNConfigValue(config, params, out);
  }

  /** The `switch (tool)` fails exactly when the chosen builder's first
      failing read does. */
  lemma ToolConfigErrors(t: BlastTool, config: map<Key, Json>, params: Params)
    ensures var r := ToolConfig(t, config, params);
      && (r.Success? <==> FirstFailure(ToolReadErrors(t, params)).None?)
      && (r.Failure? ==> FirstFailure(ToolReadErrors(t, params)) == Some(r.error))
  {
    match t
    case BlastN => BlastNConfigErrors(config, params);
    case BlastP => BlastPConfigErrors(config, params);
    case BlastX => BlastXConfigErrors(config, params);
    case TBlastN => TBlastNConfigErrors(config, params);
    case TBlastX => TBlastXConfigErrors(config, params);
    case DeltaBlast => DeltaBlastConfigErrors(config, params);
    case PsiBlast => PsiBlastConfigErrors(config, params);
    case RpsBlast => RpsBlastConfigErrors(config, params);
    case RpsTBlastN => RpsTBlastNConfigErrors(config, params);
  }

  /** On success the chosen builder adds exactly its tool's fields to the
      fields it is given, keeps the others, names the tool under `tool`, and
      stores the low-complexity filter under `dust` for blastn and `seg`
      otherwise. */
  lemma ToolConfigShape(t: BlastTool, config: map<Key, Json>, params: Params, out: map<Key, Json>)
    requires ToolConfig(t, config, params) == Success(out)
    ensures out.Keys == config.Keys + ToolKeys(t)
    ensures forall k :: k in config && k !in ToolKeys(t) ==> out[k] == config[k]
    ensures Tool in out && out[Tool] == JString(ToolName(t))
    ensures Name(FilterLowComplex) in params
    ensures MaskKey(t) in out && out[MaskKey(t)] == FilterJson(NormalizedOf(params, FilterLowComplex))
  {
    match t
    case BlastN =>
      BlastNConfigShape(config, params, out);
      BlastNConfigText(config, params, out);
    case BlastP =>
      BlastPConfigShape(config, params, out);
      BlastPConfigText(config, params, out);
    case BlastX =>
      BlastXConfigShape(config, params, out);
      BlastXConfigText(config, params, out);
    case TBlastN =>
      TBlastNConfigShape(config, params, out);
      TBlastNConfigText(config, params, out);
    case TBlastX =>
      TBlastXConfigShape(config, params, out);
      TBlastXConfigText(config, params, out);
    case DeltaBlast =>
      DeltaBlastConfigShape(config, params, out);
      DeltaBlastConfigText(config, params, out);
    case PsiBlast =>
      PsiBlastConfigShape(config, params, out);
      PsiBlastConfigText(config, params, out);
    case RpsBlast =>
      RpsBlastConfigShape(config, params, out);
      RpsBlastConfigText(config, params, out);
    case RpsTBlastN =>
      RpsTBlastNConfigShape(config, params, out);
      RpsTBlastNConfigText(config, params, out);
  }
}
