/** Properties of the whole job body: jobConfig is built before blastConfig,
    so its errors come first; on success the body holds exactly the two
    configs; and every missing-parameter error names one of the parameters
    `getAllParamNames` lists. */
module JobBodyProperties {
  import opened Wrappers
  import opened JavaLang
  import opened Json
  import opened MultiBlastServiceParams
  import opened TargetProperties
  import opened QueryConfigProperties

  // -------------------------------------------------------------------------
  // jobConfig
  // -------------------------------------------------------------------------

  /** `paramValuesToBlastJobConfig` fails exactly when one of its three
      reads does, with the error of the first read that does. */
  lemma JobConfigErrors(projectID: string, params: Params)
    ensures var r := ParamValuesToBlastJobConfig(projectID, params);
      && (r.Success? <==> FirstFailure(JobReadErrors(params)).None?)
      && (r.Failure? ==> FirstFailure(JobReadErrors(params)) == Some(r.error))
  {
    var errors := JobReadErrors(params);
    TargetJsonResult(params);
    assert FirstFailure(errors) == if errors[0].Some? then errors[0] else FirstFailure(errors[1..]);
    assert FirstFailure(errors[1..]) == if errors[1].Some? then errors[1] else FirstFailure(errors[2..]);
    assert FirstFailure(errors[2..]) == if errors[2].Some? then errors[2] else FirstFailure(errors[3..]);
    assert errors[3..] == [];
  }

  /** On success jobConfig holds the site, the targets, the normalised query
      and a false addToUserCollection, and nothing else. */
  lemma JobConfigShape(projectID: string, params: Params)
    requires ParamValuesToBlastJobConfig(projectID, params).Success?
    ensures Name(DatabaseOrganism) in params && Name(DatabaseType) in params && Name(QuerySequence) in params
    ensures var r := ParamValuesToBlastJobConfig(projectID, params).value;
      && r.JObject? && r.fields.Keys == {Site, Targets, Query, AddToUserCollection}
      && r.fields[Site] == JString(projectID)
      && r.fields[Targets] == JArray(TargetsJson(
           LongTokens(SplitAll(params[Name(DatabaseOrganism)], ',')),
           TargetFileSuffix(params[Name(DatabaseType)])))
      && r.fields[Query] == JString(NormalizedOf(params, QuerySequence))
      && r.fields[AddToUserCollection] == JBool(false)
  {
    TargetJsonResult(params);
  }

  // -------------------------------------------------------------------------
  // buildBlastCreateJobBody
  // -------------------------------------------------------------------------

  /** `buildBlastCreateJobBody` fails exactly when one of its steps does,
      with the error of the first step that does; the steps of jobConfig
      come before those of blastConfig. */
  lemma JobBodyErrors(projectID: string, params: Params)
    ensures var r := BuildBlastCreateJobBody(projectID, params);
      var errors := JobReadErrors(params) + QueryReadErrors(params);
      && (r.Success? <==> FirstFailure(errors).None?)
      && (r.Failure? ==> FirstFailure(errors) == Some(r.error))
  {
    FirstFailureAppend(JobReadErrors(params), QueryReadErrors(params));
    JobConfigErrors(projectID, params);
    QueryConfigErrors(params);
  }

  /** On success the body holds exactly jobConfig and blastConfig. */
  lemma JobBodyShape(projectID: string, params: Params)
    requires BuildBlastCreateJobBody(projectID, params).Success?
    ensures ParamValuesToBlastJobConfig(projectID, params).Success?
    ensures ParamValuesToBlastQueryConfig(params).Success?
    ensures var r := BuildBlastCreateJobBody(projectID, params).value;
      && r.JObject? && r.fields.Keys == {JobConfig, BlastConfig}
      && r.fields[JobConfig] == ParamValuesToBlastJobConfig(projectID, params).value
      && r.fields[BlastConfig] == ParamValuesToBlastQueryConfig(params).value
  {
  }

  // -------------------------------------------------------------------------
  // getAllParamNames covers every read
  // -------------------------------------------------------------------------

  /** A read's error, if it reports a missing parameter, names a parameter
      of the form. */
  predicate NamesFormParam(e: Option<Error>) {
    e.Some? && e.value.MissingParameter? ==> exists p: ParamName :: Name(p) == e.value.name
  }

  /** A pair that does not convert never reports a missing parameter. */
  lemma IntPairErrorNotMissing(v: string)
    ensures var r := ParamValueToIntPair(v); r.Failure? ==> !r.error.MissingParameter?
  {
  }

  /** Each text reader reports only its own parameter as missing. */
  lemma TextReadersNameFormParams(params: Params, p: ParamName)
    ensures NamesFormParam(ErrorOf(GetRawParamValue(params, p)))
    ensures NamesFormParam(ErrorOf(GetNormalizedParamValue(params, p)))
    ensures NamesFormParam(ErrorOf(GetBooleanParamValue(params, p)))
  {
  }

  /** The integer reader reports only its own parameter as missing. */
  lemma IntReaderNamesFormParam(params: Params, p: ParamName)
    ensures NamesFormParam(ErrorOf(GetIntParamValue(params, p)))
  {
  }

  /** The pair reader reports only its own parameter as missing. */
  lemma PairReaderNamesFormParam(params: Params, p: ParamName)
    ensures NamesFormParam(ErrorOf(GetIntPairParamValue(params, p)))
  {
    if Name(p) in params {
      IntPairErrorNotMissing(NormalizedOf(params, p));
    }
  }

  /** The low-complexity filter reports only its own parameter as missing. */
  lemma FilterReaderNamesFormParam(params: Params)
    ensures NamesFormParam(ErrorOf(ParseLowComplexityFilter(params)))
  {
  }

  /** Every read in a run reports only form parameters. */
  predicate AllNameFormParams(errors: seq<Option<Error>>) {
    forall k :: 0 <= k < |errors| ==> NamesFormParam(errors[k])
  }

  /** Two runs of reads that each name only form parameters, run one after
      the other. */
  lemma AllNameFormParamsAppend(a: seq<Option<Error>>, b: seq<Option<Error>>)
    requires AllNameFormParams(a) && AllNameFormParams(b)
    ensures AllNameFormParams(a + b)
  {
    forall k | 0 <= k < |a + b|
      ensures NamesFormParam((a + b)[k])
    {
      if k >= |a| {
        assert (a + b)[k] == b[k - |a|];
      }
    }
  }

  /** Every read of every tool's builder reports only form parameters. */
  lemma ToolReadsNameFormParams(t: BlastTool, params: Params)
    ensures AllNameFormParams(ToolReadErrors(t, params))
  {
    FilterReaderNamesFormParam(params);
    match t
    case BlastN =>
      PairReaderNamesFormParam(params, GapCosts);
      PairReaderNamesFormParam(params, MatchMismatchScore);
      IntReaderNamesFormParam(params, ParamName.WordSize);
    case BlastP | BlastX | TBlastN | DeltaBlast | PsiBlast =>
      PairReaderNamesFormParam(params, GapCosts);
      IntReaderNamesFormParam(params, ParamName.WordSize);
      TextReadersNameFormParams(params, ScoringMatrix);
      TextReadersNameFormParams(params, CompAdjust);
    case TBlastX =>
      IntReaderNamesFormParam(params, ParamName.WordSize);
      TextReadersNameFormParams(params, ScoringMatrix);
    case RpsBlast | RpsTBlastN =>
      TextReadersNameFormParams(params, CompAdjust);
  }

  /** Every read of the common fields reports only form parameters. */
  lemma CommonReadsNameFormParams(params: Params)
    ensures AllNameFormParams(CommonReadErrors(params))
  {
    TextReadersNameFormParams(params, ExpectationValue);
    TextReadersNameFormParams(params, SoftMask);
    TextReadersNameFormParams(params, LowerCaseMask);
    IntReaderNamesFormParam(params, NumQueryResults);
    IntReaderNamesFormParam(params, MaxMatchesQueryRange);
  }

  /** Every step of blastConfig reports only form parameters. */
  lemma QueryReadsNameFormParams(params: Params)
    ensures AllNameFormParams(QueryReadErrors(params))
  {
    var tool := GetNormalizedParamValue(params, Algorithm);
    var rest := if tool.Failure? then [] else match ParseTool(tool.value)
      case None => [Some(PluginUser(UnknownToolMessage(tool.value)))]
      case Some(t) => ToolReadErrors(t, params);
    assert QueryReadErrors(params) == [ErrorOf(tool)] + CommonReadErrors(params) + rest;
    TextReadersNameFormParams(params, Algorithm);
    CommonReadsNameFormParams(params);
    AllNameFormParamsAppend([ErrorOf(tool)], CommonReadErrors(params));
    if tool.Success? && ParseTool(tool.value).Some? {
      ToolReadsNameFormParams(ParseTool(tool.value).value, params);
    }
    AllNameFormParamsAppend([ErrorOf(tool)] + CommonReadErrors(params), rest);
  }

  /** Every read of jobConfig reports only form parameters. */
  lemma JobReadsNameFormParams(params: Params)
    ensures AllNameFormParams(JobReadErrors(params))
  {
    TextReadersNameFormParams(params, DatabaseOrganism);
    TextReadersNameFormParams(params, DatabaseType);
    TextReadersNameFormParams(params, QuerySequence);
  }

  /** A missing parameter the conversion reports is a parameter of the
      form. */
  lemma MissingParameterIsFormParam(projectID: string, params: Params)
    requires BuildBlastCreateJobBody(projectID, params).Failure?
    requires BuildBlastCreateJobBody(projectID, params).error.MissingParameter?
    ensures exists p: ParamName :: Name(p) == BuildBlastCreateJobBody(projectID, params).error.name
  {
    var errors := JobReadErrors(params) + QueryReadErrors(params);
    JobBodyErrors(projectID, params);
    JobReadsNameFormParams(params);
    QueryReadsNameFormParams(params);
    AllNameFormParamsAppend(JobReadErrors(params), QueryReadErrors(params));
    FirstFailureIsAnError(errors);
  }

  /** Every form name is listed by `getAllParamNames`. */
  lemma FormParamIsListed(name: string)
    requires exists p: ParamName :: Name(p) == name
    ensures name in AllParamNames()
  {
    var p: ParamName :| Name(p) == name;
    assert Name(p) in AllParamNames();
  }

  /** `getAllParamNames` lists every parameter the body reads: a missing
      parameter the conversion reports is always one of them. */
  lemma MissingParameterIsListed(projectID: string, params: Params)
    requires BuildBlastCreateJobBody(projectID, params).Failure?
    requires BuildBlastCreateJobBody(projectID, params).error.MissingParameter?
    ensures BuildBlastCreateJobBody(projectID, params).error.name in AllParamNames()
  {
    MissingParameterIsFormParam(projectID, params);
    FormParamIsListed(BuildBlastCreateJobBody(projectID, params).error.name);
  }
}
