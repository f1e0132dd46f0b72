/** The conversion of multi-blast search-form parameters (name to raw string,
    as the question form holds them) into the JSON body that creates a job on
    the multi-blast service: `{jobConfig, blastConfig}`.

    A Java exception becomes a `Failure`: a missing parameter
    (`NullPointerException` on `params.get(name)`), an integer that does not
    parse (`NumberFormatException`), a pair without a second part
    (`ArrayIndexOutOfBoundsException`) and an unknown tool
    (`PluginUserException`). Every function reads the parameters in the order
    the Java code does, so the error is the one the Java code throws first. */
module MultiBlastServiceParams {
  import opened Wrappers
  import opened JavaLang
  import opened Json

  // -------------------------------------------------------------------------
  // Parameter names
  // -------------------------------------------------------------------------

  /** The fifteen parameters of the multi-blast question form. */
  datatype ParamName =
    | DatabaseOrganism | DatabaseType | QuerySequence | Algorithm
    | ExpectationValue | NumQueryResults | MaxMatchesQueryRange
    | WordSize | ScoringMatrix | CompAdjust
    | FilterLowComplex | SoftMask | LowerCaseMask
    | GapCosts | MatchMismatchScore

  /** The name under which the question form passes each parameter. */
  function Name(p: ParamName): string {
    match p
    case DatabaseOrganism => "BlastDatabaseOrganism"
    case DatabaseType => "MultiBlastDatabaseType"
    case QuerySequence => "BlastQuerySequence"
    case Algorithm => "BlastAlgorithm"
    case ExpectationValue => "ExpectationValue"
    case NumQueryResults => "NumQueryResults"
    case MaxMatchesQueryRange => "MaxMatchesQueryRange"
    case WordSize => "WordSize"
    case ScoringMatrix => "ScoringMatrix"
    case CompAdjust => "CompAdjust"
    case FilterLowComplex => "FilterLowComplex"
    case SoftMask => "SoftMask"
    case LowerCaseMask => "LowerCaseMask"
    case GapCosts => "GapCosts"
    case MatchMismatchScore => "MatchMismatchScore"
  }

  /** `getAllParamNames()`: every parameter name once, in the source's order. */
  function AllParamNames(): (names: seq<string>)
    ensures |names| == 15
    ensures forall i, j :: 0 <= i < j < |names| ==> names[i] != names[j]
    ensures forall p :: Name(p) in names
  {
    [Name(DatabaseType), Name(Algorithm), Name(DatabaseOrganism), Name(QuerySequence),
     Name(ExpectationValue), Name(NumQueryResults), Name(MaxMatchesQueryRange),
     Name(ParamName.WordSize), Name(ScoringMatrix), Name(MatchMismatchScore), Name(GapCosts),
     Name(CompAdjust), Name(FilterLowComplex), Name(SoftMask), Name(LowerCaseMask)]
  }

  type Params = map<string, string>

  datatype Error =
    | MissingParameter(name: string)
    | NumberFormat(input: string)
    | IndexOutOfBounds(input: string)
    | PluginUser(message: string)

  // -------------------------------------------------------------------------
  // Normalisation: `value.replaceAll("^'|'$", "")`
  // -------------------------------------------------------------------------

  /** The line terminators of `java.util.regex` outside UNIX_LINES mode. */
  predicate IsLineTerminator(c: char) {
    c == '\n' || c == '\r' || c == '\U{0085}' || c == '\U{2028}' || c == '\U{2029}'
  }

  /** Where `$` matches without MULTILINE: at the end of the input, or just
      before a line terminator that ends the input (a `\r\n` counts as one,
      and `$` does not match between its two characters). */
  predicate EndAnchorAt(s: string, i: nat)
    requires i <= |s|
  {
    || i == |s|
    || (i == |s| - 1 && IsLineTerminator(s[i]) && !(s[i] == '\n' && i > 0 && s[i - 1] == '\r'))
    || (i == |s| - 2 && s[i] == '\r' && s[i + 1] == '\n')
  }

  /** Whether the replacement removes the character at `i`: a quote at the
      start (`^'`) or a quote just before the end anchor (`'$`). Each match is
      one character and the scan goes left to right, so the matches are
      exactly these positions. */
  predicate Removed(s: string, i: nat)
    requires i < |s|
  {
    s[i] == '\'' && (i == 0 || EndAnchorAt(s, i + 1))
  }

  /** The characters from `i` on that the replacement keeps, in order. */
  function StripFrom(s: string, i: nat): string
    requires i <= |s|
    decreases |s| - i
  {
    if i == |s| then ""
    else (if Removed(s, i) then "" else [s[i]]) + StripFrom(s, i + 1)
  }

  /** `value.replaceAll("^'|'$", "")`. */
  function Normalize(s: string): string {
    StripFrom(s, 0)
  }

  // -------------------------------------------------------------------------
  // Reading parameters
  // -------------------------------------------------------------------------

  /** `params.get(name)`, dereferenced. */
  function GetRawParamValue(params: Params, p: ParamName): (r: Result<string, Error>)
    ensures r.Success? <==> Name(p) in params
    ensures r.Success? ==> r.value == params[Name(p)]
    ensures r.Failure? ==> r.error == MissingParameter(Name(p))
  {
    if Name(p) in params then Success(params[Name(p)]) else Failure(MissingParameter(Name(p)))
  }

  /** The normalised value of a parameter that is present. */
  function NormalizedOf(params: Params, p: ParamName): string
    requires Name(p) in params
  {
    Normalize(params[Name(p)])
  }

  /** `getNormalizedParamValue`. */
  function GetNormalizedParamValue(params: Params, p: ParamName): (r: Result<string, Error>)
    ensures r.Success? <==> Name(p) in params
    ensures r.Success? ==> r.value == NormalizedOf(params, p)
    ensures r.Failure? ==> r.error == MissingParameter(Name(p))
  {
    var raw :- GetRawParamValue(params, p);
    Success(Normalize(raw))
  }

  /** `paramValueToBoolean`: strict equality with "true". */
  function ParamValueToBoolean(v: string): bool {
    v == "true"
  }

  /** `paramValueToInt`, that is `Integer.parseInt`. */
  function ParamValueToInt(v: string): (r: Result<Int32, Error>)
    ensures r.Success? <==> ParseInt(v).Some?
    ensures r.Success? ==> r.value == ParseInt(v).value
    ensures r.Failure? ==> r.error == NumberFormat(v)
  {
    match ParseInt(v)
    case Some(n) => Success(n)
    case None => Failure(NumberFormat(v))
  }

  /** `paramValueToIntPair`: `value.split(",", 2)` and `Integer.parseInt` of
      both parts; the first part is parsed before the second part is looked
      up, so a malformed first part wins over a missing second part. */
  function ParamValueToIntPair(v: string): Result<(Int32, Int32), Error> {
    var parts := SplitLimit2(v, ',');
    var first :- ParamValueToInt(parts[0]);
    if |parts| < 2 then Failure(IndexOutOfBounds(v))
    else
      var second :- ParamValueToInt(parts[1]);
      Success((first, second))
  }

  /** `getBooleanParamValue`. */
  function GetBooleanParamValue(params: Params, p: ParamName): (r: Result<bool, Error>)
    ensures r.Success? <==> Name(p) in params
    ensures r.Success? ==> r.value == (NormalizedOf(params, p) == "true")
    ensures r.Failure? ==> r.error == MissingParameter(Name(p))
  {
    var v :- GetNormalizedParamValue(params, p);
    Success(ParamValueToBoolean(v))
  }

  /** `getIntParamValue`. */
  function GetIntParamValue(params: Params, p: ParamName): (r: Result<Int32, Error>)
    ensures r.Success? <==> Name(p) in params && ParseInt(NormalizedOf(params, p)).Some?
    ensures r.Success? ==> r.value == ParseInt(NormalizedOf(params, p)).value
    ensures r.Failure? ==> r.error == if Name(p) in params then NumberFormat(NormalizedOf(params, p))
                                      else MissingParameter(Name(p))
  {
    var v :- GetNormalizedParamValue(params, p);
    ParamValueToInt(v)
  }

  /** `paramValueToIntPair(getNormalizedParamValue(params, name))`, which the
      builders write out in full. */
  function GetIntPairParamValue(params: Params, p: ParamName): (r: Result<(Int32, Int32), Error>)
    ensures Name(p) !in params ==> r == Failure(MissingParameter(Name(p)))
    ensures Name(p) in params ==> r == ParamValueToIntPair(NormalizedOf(params, p))
  {
    var v :- GetNormalizedParamValue(params, p);
    ParamValueToIntPair(v)
  }

  /** The `{enabled}` object of both `parseDust` and `parseSeg`: enabled
      unless the normalised FilterLowComplex value starts with "no". */
  function FilterJson(v: string): Json {
    JObject(map[Enabled := JBool(!StartsWith(v, "no"))])
  }

  /** `parseDust` and `parseSeg`, which differ only in the key the caller
      stores the result under. */
  function ParseLowComplexityFilter(params: Params): (r: Result<Json, Error>)
    ensures r.Success? <==> Name(FilterLowComplex) in params
    ensures r.Success? ==> r.value == FilterJson(NormalizedOf(params, FilterLowComplex))
    ensures r.Failure? ==> r.error == MissingParameter(Name(FilterLowComplex))
  {
    var v :- GetNormalizedParamValue(params, FilterLowComplex);
    Success(FilterJson(v))
  }

  /** The error of a read, if it failed. */
  function ErrorOf<T>(r: Result<T, Error>): Option<Error> {
    match r
    case Success(_) => None
    case Failure(e) => Some(e)
  }

  /** The first error among reads performed in order: the exception that
      escapes. */
  function FirstFailure(errors: seq<Option<Error>>): Option<Error> {
    if |errors| == 0 then None
    else if errors[0].Some? then errors[0]
    else FirstFailure(errors[1..])
  }

  // -------------------------------------------------------------------------
  // jobConfig
  // -------------------------------------------------------------------------

  /** The database type named in the target file: "PopSet" databases are
      stored as "Isolates", every other type under its own name. */
  function TargetFileSuffix(databaseType: string): string {
    if databaseType == "PopSet" then "Isolates" else databaseType
  }

  /** The organisms whose names are longer than three characters, in order. */
  function LongTokens(tokens: seq<string>): (r: seq<string>)
    ensures |r| <= |tokens|
    ensures forall k :: 0 <= k < |r| ==> |r[k]| > 3 && r[k] in tokens
    ensures forall k :: 0 <= k < |tokens| && |tokens[k]| > 3 ==> tokens[k] in r
  {
    if |tokens| == 0 then []
    else
      var rest := LongTokens(tokens[1..]);
      assert forall k :: 1 <= k < |tokens| ==> tokens[k] == tokens[1..][k - 1];
      if |tokens[0]| > 3 then [tokens[0]] + rest else rest
  }

  /** One entry of the targets array. */
  function TargetJson(organism: string, suffix: string): Json {
    JObject(map[TargetDisplayName := JString(organism), TargetFile := JString(organism + suffix)])
  }

  function TargetsJson(organisms: seq<string>, suffix: string): (r: seq<Json>)
    ensures |r| == |organisms|
    ensures forall k :: 0 <= k < |r| ==> r[k] == TargetJson(organisms[k], suffix)
  {
    seq(|organisms|, k requires 0 <= k < |organisms| => TargetJson(organisms[k], suffix))
  }

  /** `buildNewJobRequestTargetJson`: the raw (not normalised) organism list
      is split on every comma, and the raw database type picks the file
      suffix; the organism list is dereferenced first. */
  function BuildNewJobRequestTargetJson(params: Params): Result<Json, Error> {
    var organisms :- GetRawParamValue(params, DatabaseOrganism);
    var tokens := Split(organisms, ',');
    var databaseType :- GetRawParamValue(params, DatabaseType);
    Success(JArray(TargetsJson(LongTokens(tokens), TargetFileSuffix(databaseType))))
  }

  /** `paramValuesToBlastJobConfig`: targets are built before the query is read. */
  function ParamValuesToBlastJobConfig(projectID: string, params: Params): Result<Json, Error> {
    var targets :- BuildNewJobRequestTargetJson(params);
    var query :- GetNormalizedParamValue(params, QuerySequence);
    Success(JObject(map[
      Site := JString(projectID),
      Targets := targets,
      Query := JString(query),
      AddToUserCollection := JBool(false)]))
  }

  /** The reads of the job config, in order, and how each one failed. */
  function JobReadErrors(params: Params): seq<Option<Error>> {
    [ErrorOf(GetRawParamValue(params, DatabaseOrganism)),
     ErrorOf(GetRawParamValue(params, DatabaseType)),
     ErrorOf(GetNormalizedParamValue(params, QuerySequence))]
  }

  // -------------------------------------------------------------------------
  // Tools: what each one puts in blastConfig
  // -------------------------------------------------------------------------

  datatype BlastTool =
    BlastN | BlastP | BlastX | TBlastN | TBlastX | DeltaBlast | PsiBlast | RpsBlast | RpsTBlastN

  /** The value of the BlastAlgorithm parameter that selects each tool. */
  function ToolName(t: BlastTool): string {
    match t
    case BlastN => "blastn"
    case BlastP => "blastp"
    case BlastX => "blastx"
    case TBlastN => "tblastn"
    case TBlastX => "tblastx"
    case DeltaBlast => "deltablast"
    case PsiBlast => "psiblast"
    case RpsBlast => "rpsblast"
    case RpsTBlastN => "rpstblastn"
  }

  /** The cases of the `switch (tool)` in `paramValuesToBlastQueryConfig`. */
  function ParseTool(name: string): Option<BlastTool> {
    match name
    case "blastn" => Some(BlastN)
    case "blastp" => Some(BlastP)
    case "blastx" => Some(BlastX)
    case "tblastn" => Some(TBlastN)
    case "tblastx" => Some(TBlastX)
    case "deltablast" => Some(DeltaBlast)
    case "psiblast" => Some(PsiBlast)
    case "rpsblast" => Some(RpsBlast)
    case "rpstblastn" => Some(RpsTBlastN)
    case _ => None
  }

  /** blastn calls its low-complexity filter `dust`, every other tool `seg`. */
  function MaskKey(t: BlastTool): Key {
    if t == BlastN then Dust else Seg
  }

  /** The fields of blastConfig filled in before the dispatch. */
  function CommonKeys(): set<Key> {
    {EValue, SoftMasking, LowercaseMasking, MaxTargetSequences, MaxHSPs}
  }

  /** The fields each tool's builder puts into blastConfig. */
  function ToolKeys(t: BlastTool): set<Key> {
    match t
    case BlastN => {Tool, Task, GapOpen, GapExtend, Reward, Penalty, Key.WordSize, Dust}
    case BlastP | BlastX | TBlastN =>
      {Tool, Task, GapOpen, GapExtend, Key.WordSize, Matrix, CompBasedStats, Seg}
    case TBlastX => {Tool, Key.WordSize, Matrix, Seg}
    case DeltaBlast | PsiBlast => {Tool, GapOpen, GapExtend, Key.WordSize, Matrix, CompBasedStats, Seg}
    case RpsBlast | RpsTBlastN => {Tool, CompBasedStats, Seg}
  }

  /** The reads each tool's builder performs, in order, and how each one
      failed: the gap-cost pair, the match/mismatch pair, the word size, the
      scoring matrix, the composition adjustment and the low-complexity
      filter, each for the tools that use it. */
  function ToolReadErrors(t: BlastTool, params: Params): seq<Option<Error>> {
    var gapCosts := ErrorOf(GetIntPairParamValue(params, GapCosts));
    var mismatch := ErrorOf(GetIntPairParamValue(params, MatchMismatchScore));
    var wordSize := ErrorOf(GetIntParamValue(params, ParamName.WordSize));
    var matrix := ErrorOf(GetNormalizedParamValue(params, ScoringMatrix));
    var compAdjust := ErrorOf(GetNormalizedParamValue(params, CompAdjust));
    var filter := ErrorOf(ParseLowComplexityFilter(params));
    match t
    case BlastN => [gapCosts, mismatch, wordSize, filter]
    case BlastP | BlastX | TBlastN | DeltaBlast | PsiBlast => [gapCosts, wordSize, matrix, compAdjust, filter]
    case TBlastX => [wordSize, matrix, filter]
    case RpsBlast | RpsTBlastN => [compAdjust, filter]
  }

  // -------------------------------------------------------------------------
  // The nine tool-specific config builders
  // -------------------------------------------------------------------------

  function ParamsToBlastNConfig(config: map<Key, Json>, params: Params): Result<map<Key, Json>, Error> {
    var gapCosts :- GetIntPairParamValue(params, GapCosts);
    var mismatch :- GetIntPairParamValue(params, MatchMismatchScore);
    var wordSize :- GetIntParamValue(params, ParamName.WordSize);
    var dust :- ParseLowComplexityFilter(params);
    Success(config[Tool := JString("blastn")][Task := JString("blastn")]
      [GapOpen := JNumber(gapCosts.0)][GapExtend := JNumber(gapCosts.1)]
      [Reward := JNumber(mismatch.0)][Penalty := JNumber(mismatch.1)]
      [Key.WordSize := JNumber(wordSize)][Dust := dust])
  }

  function ParamsToBlastPConfig(config: map<Key, Json>, params: Params): Result<map<Key, Json>, Error> {
    var gapCosts :- GetIntPairParamValue(params, GapCosts);
    var wordSize :- GetIntParamValue(params, ParamName.WordSize);
    var matrix :- GetNormalizedParamValue(params, ScoringMatrix);
    var compBasedStats :- GetNormalizedParamValue(params, CompAdjust);
    var seg :- ParseLowComplexityFilter(params);
    Success(config[Tool := JString("blastp")][Task := JString("blastp")]
      [GapOpen := JNumber(gapCosts.0)][GapExtend := JNumber(gapCosts.1)]
      [Key.WordSize := JNumber(wordSize)][Matrix := JString(matrix)]
      [CompBasedStats := JString(compBasedStats)][Seg := seg])
  }

  function ParamsToBlastXConfig(config: map<Key, Json>, params: Params): Result<map<Key, Json>, Error> {
    var gapCosts :- GetIntPairParamValue(params, GapCosts);
    var wordSize :- GetIntParamValue(params, ParamName.WordSize);
    var matrix :- GetNormalizedParamValue(params, ScoringMatrix);
    var compBasedStats :- GetNormalizedParamValue(params, CompAdjust);
    var seg :- ParseLowComplexityFilter(params);
    Success(config[Tool := JString("blastx")][Task := JString("blastx")]
      [GapOpen := JNumber(gapCosts.0)][GapExtend := JNumber(gapCosts.1)]
      [Key.WordSize := JNumber(wordSize)][Matrix := JString(matrix)]
      [CompBasedStats := JString(compBasedStats)][Seg := seg])
  }

  function ParamsToTBlastNConfig(config: map<Key, Json>, params: Params): Result<map<Key, Json>, Error> {
    var gapCosts :- GetIntPairParamValue(params, GapCosts);
    var wordSize :- GetIntParamValue(params, ParamName.WordSize);
    var matrix :- GetNormalizedParamValue(params, ScoringMatrix);
    var compBasedStats :- GetNormalizedParamValue(params, CompAdjust);
    var seg :- ParseLowComplexityFilter(params);
    Success(config[Tool := JString("tblastn")][Task := JString("tblastn")]
      [GapOpen := JNumber(gapCosts.0)][GapExtend := JNumber(gapCosts.1)]
      [Key.WordSize := JNumber(wordSize)][Matrix := JString(matrix)]
      [CompBasedStats := JString(compBasedStats)][Seg := seg])
  }

  function ParamsToTBlastXConfig(config: map<Key, Json>, params: Params): Result<map<Key, Json>, Error> {
    var wordSize :- GetIntParamValue(params, ParamName.WordSize);
    var matrix :- GetNormalizedParamValue(params, ScoringMatrix);
    var seg :- ParseLowComplexityFilter(params);
    Success(config[Tool := JString("tblastx")]
      [Key.WordSize := JNumber(wordSize)][Matrix := JString(matrix)][Seg := seg])
  }

  function ParamsToDeltaBlastConfig(config: map<Key, Json>, params: Params): Result<map<Key, Json>, Error> {
    var gapCosts :- GetIntPairParamValue(params, GapCosts);
    var wordSize :- GetIntParamValue(params, ParamName.WordSize);
    var matrix :- GetNormalizedParamValue(params, ScoringMatrix);
    var compBasedStats :- GetNormalizedParamValue(params, CompAdjust);
    var seg :- ParseLowComplexityFilter(params);
    Success(config[Tool := JString("deltablast")]
      [GapOpen := JNumber(gapCosts.0)][GapExtend := JNumber(gapCosts.1)]
      [Key.WordSize := JNumber(wordSize)][Matrix := JString(matrix)]
      [CompBasedStats := JString(compBasedStats)][Seg := seg])
  }

  function ParamsToPsiBlastConfig(config: map<Key, Json>, params: Params): Result<map<Key, Json>, Error> {
    var gapCosts :- GetIntPairParamValue(params, GapCosts);
    var wordSize :- GetIntParamValue(params, ParamName.WordSize);
    var matrix :- GetNormalizedParamValue(params, ScoringMatrix);
    var compBasedStats :- GetNormalizedParamValue(params, CompAdjust);
    var seg :- ParseLowComplexityFilter(params);
    Success(config[Tool := JString("psiblast")]
      [GapOpen := JNumber(gapCosts.0)][GapExtend := JNumber(gapCosts.1)]
      [Key.WordSize := JNumber(wordSize)][Matrix := JString(matrix)]
      [CompBasedStats := JString(compBasedStats)][Seg := seg])
  }

  function ParamsToRpsBlastConfig(config: map<Key, Json>, params: Params): Result<map<Key, Json>, Error> {
    var compBasedStats :- GetNormalizedParamValue(params, CompAdjust);
    var seg :- ParseLowComplexityFilter(params);
    Success(config[Tool := JString("rpsblast")]
      [CompBasedStats := JString(compBasedStats)][Seg := seg])
  }

  function ParamsToRpsTBlastNConfig(config: map<Key, Json>, params: Params): Result<map<Key, Json>, Error> {
    var compBasedStats :- GetNormalizedParamValue(params, CompAdjust);
    var seg :- ParseLowComplexityFilter(params);
    Success(config[Tool := JString("rpstblastn")]
      [CompBasedStats := JString(compBasedStats)][Seg := seg])
  }

  // -------------------------------------------------------------------------
  // blastConfig and the job body
  // -------------------------------------------------------------------------

  /** The five fields every tool shares, read in this order before the
      dispatch. */
  function CommonQueryConfig(params: Params): (r: Result<map<Key, Json>, Error>)
    ensures r.Success? ==> r.value.Keys == CommonKeys()
  {
    var eValue :- GetNormalizedParamValue(params, ExpectationValue);
    var softMasking :- GetBooleanParamValue(params, SoftMask);
    var lowercaseMasking :- GetBooleanParamValue(params, LowerCaseMask);
    var maxTargetSequences :- GetIntParamValue(params, NumQueryResults);
    var maxHSPs :- GetIntParamValue(params, MaxMatchesQueryRange);
    Success(map[
      EValue := JString(eValue),
      SoftMasking := JBool(softMasking),
      LowercaseMasking := JBool(lowercaseMasking),
      MaxTargetSequences := JNumber(maxTargetSequences),
      MaxHSPs := JNumber(maxHSPs)])
  }

  /** The reads of the common fields, in order, and how each one failed. */
  function CommonReadErrors(params: Params): seq<Option<Error>> {
    [ErrorOf(GetNormalizedParamValue(params, ExpectationValue)),
     ErrorOf(GetBooleanParamValue(params, SoftMask)),
     ErrorOf(GetBooleanParamValue(params, LowerCaseMask)),
     ErrorOf(GetIntParamValue(params, NumQueryResults)),
     ErrorOf(GetIntParamValue(params, MaxMatchesQueryRange))]
  }

  /** The `switch (tool)`, once the tool is known. */
  function ToolConfig(t: BlastTool, config: map<Key, Json>, params: Params): Result<map<Key, Json>, Error> {
    match t
    case BlastN => ParamsToBlastNConfig(config, params)
    case BlastP => ParamsToBlastPConfig(config, params)
    case BlastX => ParamsToBlastXConfig(config, params)
    case TBlastN => ParamsToTBlastNConfig(config, params)
    case TBlastX => ParamsToTBlastXConfig(config, params)
    case DeltaBlast => ParamsToDeltaBlastConfig(config, params)
    case PsiBlast => ParamsToPsiBlastConfig(config, params)
    case RpsBlast => ParamsToRpsBlastConfig(config, params)
    case RpsTBlastN => ParamsToRpsTBlastNConfig(config, params)
  }

  /** The message of the `PluginUserException` for a tool name the switch
      does not know. */
  function UnknownToolMessage(tool: string): string {
    "Unknown blast tool: " + tool
  }

  /** `paramValuesToBlastQueryConfig`: the tool name is read first, then the
      common fields, and only then is the tool looked up. */
  function ParamValuesToBlastQueryConfig(params: Params): Result<Json, Error> {
    var tool :- GetNormalizedParamValue(params, Algorithm);
    var config :- CommonQueryConfig(params);
    match ParseTool(tool)
    case None => Failure(PluginUser(UnknownToolMessage(tool)))
    case Some(t) =>
      var blastConfig :- ToolConfig(t, config, params);
      Success(JObject(blastConfig))
  }

  /** The steps of blastConfig that can fail, in order: the tool name, the
      common fields, then either the unknown-tool error or the tool's own
      reads. */
  function QueryReadErrors(params: Params): seq<Option<Error>> {
    var tool := GetNormalizedParamValue(params, Algorithm);
    [ErrorOf(tool)] + CommonReadErrors(params)
    + if tool.Failure? then []
      else match ParseTool(tool.value)
        case None => [Some(PluginUser(UnknownToolMessage(tool.value)))]
        case Some(t) => ToolReadErrors(t, params)
  }

  /** `buildBlastCreateJobBody`: the job config is built before blastConfig. */
  function BuildBlastCreateJobBody(projectID: string, params: Params): Result<Json, Error> {
    var jobConfig :- ParamValuesToBlastJobConfig(projectID, params);
    var blastConfig :- ParamValuesToBlastQueryConfig(params);
    Success(JObject(map[JobConfig := jobConfig, BlastConfig := blastConfig]))
  }
}
