/** Properties of blastConfig as `paramValuesToBlastQueryConfig` builds it:
    the tool name is read first, then the five common fields, and only then
    is the tool looked up, so a bad common field is reported even for an
    unknown tool; on success the object holds the common fields and exactly
    the chosen tool's fields, and names the tool as the form gave it. */
module QueryConfigProperties {
  import opened Wrappers
  import opened JavaLang
  import opened Json
  import opened MultiBlastServiceParams
  import opened ToolConfigProperties

  // -------------------------------------------------------------------------
  // Reads in order
  // -------------------------------------------------------------------------

  /** The first failure of two runs of reads is the first run's, if any. */
  lemma {:induction false} FirstFailureAppend(a: seq<Option<Error>>, b: seq<Option<Error>>)
    ensures FirstFailure(a + b) == if FirstFailure(a).Some? then FirstFailure(a) else FirstFailure(b)
  {
    if |a| > 0 {
      assert (a + b)[1..] == a[1..] + b;
      FirstFailureAppend(a[1..], b);
    } else {
      assert a + b == b;
    }
  }

  /** Reads succeed together exactly when each of them does. */
  lemma {:induction false} FirstFailureNone(errors: seq<Option<Error>>)
    ensures FirstFailure(errors).None? <==> forall k :: 0 <= k < |errors| ==> errors[k].None?
  {
    if |errors| > 0 {
      FirstFailureNone(errors[1..]);
      assert forall k :: 1 <= k < |errors| ==> errors[k] == errors[1..][k - 1];
    }
  }

  /** The error that escapes is one of the errors of the reads. */
  lemma {:induction false} FirstFailureIsAnError(errors: seq<Option<Error>>)
    requires FirstFailure(errors).Some?
    ensures FirstFailure(errors) in errors
  {
    if errors[0].None? {
      FirstFailureIsAnError(errors[1..]);
    }
  }

  /** The common fields fail exactly when one of their five reads does, with
      the error of the first read that does. */
  lemma CommonQueryConfigErrors(params: Params)
    ensures var r := CommonQueryConfig(params);
      && (r.Success? <==> FirstFailure(CommonReadErrors(params)).None?)
      && (r.Failure? ==> FirstFailure(CommonReadErrors(params)) == Some(r.error))
  {
    var errors := CommonReadErrors(params);
    assert FirstFailure(errors) == if errors[0].Some? then errors[0] else FirstFailure(errors[1..]);
    assert FirstFailure(errors[1..]) == if errors[1].Some? then errors[1] else FirstFailure(errors[2..]);
    assert FirstFailure(errors[2..]) == if errors[2].Some? then errors[2] else FirstFailure(errors[3..]);
    assert FirstFailure(errors[3..]) == if errors[3].Some? then errors[3] else FirstFailure(errors[4..]);
    assert FirstFailure(errors[4..]) == if errors[4].Some? then errors[4] else FirstFailure(errors[5..]);
    assert errors[5..] == [];
  }

  /** The e-value and the two masking flags of the common fields. */
  lemma CommonQueryConfigText(params: Params)
    requires CommonQueryConfig(params).Success?
    ensures Name(ExpectationValue) in params && Name(SoftMask) in params && Name(LowerCaseMask) in params
    ensures var c := CommonQueryConfig(params).value;
      && c[EValue] == JString(NormalizedOf(params, ExpectationValue))
      && c[SoftMasking] == JBool(NormalizedOf(params, SoftMask) == "true")
      && c[LowercaseMasking] == JBool(NormalizedOf(params, LowerCaseMask) == "true")
  {
  }

  /** The two counts of the common fields, each parsed from its parameter. */
  lemma CommonQueryConfigNumbers(params: Params)
    requires CommonQueryConfig(params).Success?
    ensures Name(NumQueryResults) in params && Name(MaxMatchesQueryRange) in params
    ensures ParseInt(NormalizedOf(params, NumQueryResults)).Some?
    ensures ParseInt(NormalizedOf(params, MaxMatchesQueryRange)).Some?
    ensures var c := CommonQueryConfig(params).value;
      && c[MaxTargetSequences] == JNumber(ParseInt(NormalizedOf(params, NumQueryResults)).value)
      && c[MaxHSPs] == JNumber(ParseInt(NormalizedOf(params, MaxMatchesQueryRange)).value)
  {
  }

  // -------------------------------------------------------------------------
  // Tools
  // -------------------------------------------------------------------------

  /** Every tool is selected by its own name... */
  lemma ParseToolName(t: BlastTool)
    ensures ParseTool(ToolName(t)) == Some(t)
  {
  }

  /** ...and a name selects a tool only when it is that tool's name. */
  lemma ToolNameParseTool(name: string)
    requires ParseTool(name).Some?
    ensures ToolName(ParseTool(name).value) == name
  {
  }

  /** The name "blastn", and only it, selects blastn. */
  lemma BlastNByName(name: string)
    requires ParseTool(name).Some?
    ensures ParseTool(name).value == BlastN <==> name == "blastn"
  {
  }

  /** No tool overwrites a common field. */
  lemma CommonKeysDisjoint(t: BlastTool)
    ensures CommonKeys() !! ToolKeys(t)
  {
  }

  /** Only blastn has a `dust` field, and every other tool a `seg` field. */
  lemma MaskKeyOfTool(t: BlastTool)
    ensures MaskKey(t) in ToolKeys(t)
    ensures Dust in ToolKeys(t) <==> t == BlastN
    ensures Seg in ToolKeys(t) <==> t != BlastN
    ensures Dust !in CommonKeys() && Seg !in CommonKeys()
  {
  }

  // -------------------------------------------------------------------------
  // paramValuesToBlastQueryConfig
  // -------------------------------------------------------------------------

  /** Once the common fields are read, the dispatch fails with the
      unknown-tool error or with the first failing read of the tool. */
  lemma DispatchErrors(params: Params, tool: string, config: map<Key, Json>)
    ensures var r: Result<Json, Error> := match ParseTool(tool)
        case None => Failure(PluginUser(UnknownToolMessage(tool)))
        case Some(t) => (var c :- ToolConfig(t, config, params); Success(JObject(c)));
      var errors := match ParseTool(tool)
        case None => [Some(PluginUser(UnknownToolMessage(tool)))]
        case Some(t) => ToolReadErrors(t, params);
      && (r.Success? <==> FirstFailure(errors).None?)
      && (r.Failure? ==> FirstFailure(errors) == Some(r.error))
  {
    match ParseTool(tool)
    case None =>
    case Some(t) => ToolConfigErrors(t, config, params);
  }

  /** `paramValuesToBlastQueryConfig` fails exactly when one of its steps
      does, with the error of the first step that does. */
  lemma QueryConfigErrors(params: Params)
    ensures var r := ParamValuesToBlastQueryConfig(params);
      && (r.Success? <==> FirstFailure(QueryReadErrors(params)).None?)
      && (r.Failure? ==> FirstFailure(QueryReadErrors(params)) == Some(r.error))
  {
    var tool := GetNormalizedParamValue(params, Algorithm);
    var common := CommonReadErrors(params);
    var rest := if tool.Failure? then [] else match ParseTool(tool.value)
      case None => [Some(PluginUser(UnknownToolMessage(tool.value)))]
      case Some(t) => ToolReadErrors(t, params);
    assert QueryReadErrors(params) == [ErrorOf(tool)] + common + rest;
    FirstFailureAppend([ErrorOf(tool)] + common, rest);
    FirstFailureAppend([ErrorOf(tool)], common);
    assert FirstFailure([ErrorOf(tool)]) == ErrorOf(tool);
    CommonQueryConfigErrors(params);
    if tool.Success? && CommonQueryConfig(params).Success? {
      DispatchErrors(params, tool.value, CommonQueryConfig(params).value);
    }
  }

  /** The tool name is read first: without it nothing else matters. */
  lemma MissingToolFirst(params: Params)
    requires Name(Algorithm) !in params
    ensures ParamValuesToBlastQueryConfig(params) == Failure(MissingParameter(Name(Algorithm)))
  {
  }

  /** The common fields are read before the tool is looked up, so their
      error wins even over an unknown tool. */
  lemma CommonFieldsBeforeDispatch(params: Params)
    requires Name(Algorithm) in params && CommonQueryConfig(params).Failure?
    ensures ParamValuesToBlastQueryConfig(params) == Failure(CommonQueryConfig(params).error)
  {
  }

  /** A tool name the switch does not know is rejected with its message,
      once the common fields are read. */
  lemma UnknownToolRejected(params: Params)
    requires Name(Algorithm) in params && CommonQueryConfig(params).Success?
    requires ParseTool(NormalizedOf(params, Algorithm)).None?
    ensures ParamValuesToBlastQueryConfig(params) ==
      Failure(PluginUser("Unknown blast tool: " + NormalizedOf(params, Algorithm)))
  {
  }

  /** On success the tool name is one of the nine, blastConfig holds the
      common fields and exactly that tool's fields, and names the tool as
      the form gave it. */
  lemma QueryConfigShape(params: Params)
    requires ParamValuesToBlastQueryConfig(params).Success?
    ensures Name(Algorithm) in params && ParseTool(NormalizedOf(params, Algorithm)).Some?
    ensures var t := ParseTool(NormalizedOf(params, Algorithm)).value;
      var r := ParamValuesToBlastQueryConfig(params).value;
      && r.JObject? && r.fields.Keys == CommonKeys() + ToolKeys(t)
      && r.fields[Tool] == JString(NormalizedOf(params, Algorithm))
  {
    var t := ParseTool(NormalizedOf(params, Algorithm)).value;
    var common := CommonQueryConfig(params).value;
    ToolConfigShape(t, common, params, ToolConfig(t, common, params).value);
    ToolNameParseTool(NormalizedOf(params, Algorithm));
  }

  /** On success the common fields are stored as read, untouched by the
      tool's builder. */
  lemma QueryConfigKeepsCommon(params: Params)
    requires ParamValuesToBlastQueryConfig(params).Success?
    ensures CommonQueryConfig(params).Success?
    ensures var r := ParamValuesToBlastQueryConfig(params).value;
      && r.JObject?
      && forall k :: k in CommonKeys() ==> k in r.fields && r.fields[k] == CommonQueryConfig(params).value[k]
  {
    var t := ParseTool(NormalizedOf(params, Algorithm)).value;
    var common := CommonQueryConfig(params).value;
    ToolConfigShape(t, common, params, ToolConfig(t, common, params).value);
    CommonKeysDisjoint(t);
  }

  /** On success the low-complexity filter is stored under the tool's mask
      key. */
  lemma QueryConfigFilter(params: Params)
    requires ParamValuesToBlastQueryConfig(params).Success?
    ensures Name(Algorithm) in params && ParseTool(NormalizedOf(params, Algorithm)).Some?
    ensures Name(FilterLowComplex) in params
    ensures var t := ParseTool(NormalizedOf(params, Algorithm)).value;
      var r := ParamValuesToBlastQueryConfig(params).value;
      && r.JObject? && MaskKey(t) in r.fields
      && r.fields[MaskKey(t)] == FilterJson(NormalizedOf(params, FilterLowComplex))
  {
    var t := ParseTool(NormalizedOf(params, Algorithm)).value;
    var common := CommonQueryConfig(params).value;
    ToolConfigShape(t, common, params, ToolConfig(t, common, params).value);
  }

  /** On success the low-complexity filter is stored under `dust` exactly
      when the tool is blastn, and under `seg` otherwise. */
  lemma QueryConfigMask(params: Params)
    requires ParamValuesToBlastQueryConfig(params).Success?
    ensures Name(Algorithm) in params && Name(FilterLowComplex) in params
    ensures var r := ParamValuesToBlastQueryConfig(params).value;
      var filter := FilterJson(NormalizedOf(params, FilterLowComplex));
      var key := if NormalizedOf(params, Algorithm) == "blastn" then Dust else Seg;
      var other := if key == Dust then Seg else Dust;
      && r.JObject? && key in r.fields && r.fields[key] == filter && other !in r.fields
  {
    QueryConfigShape(params);
    QueryConfigFilter(params);
    var t := ParseTool(NormalizedOf(params, Algorithm)).value;
    BlastNByName(NormalizedOf(params, Algorithm));
    MaskKeyOfTool(t);
  }
}
