# MultiBlastServiceParams in Dafny

This project models `MultiBlastServiceParams`, the class in the EuPathDB
WSF plugin that turns the values of the BLAST search form into the JSON body
sent to the multi-BLAST service to create a job. It then proves properties of
that model.

The form arrives as a map from parameter name to raw string value. Reading a
parameter has two steps. First the form value is looked up; a missing name
fails. Then one quote is removed from each end with
`replaceAll("^'|'$", "")`. The value is then converted:

- A boolean is true only for the exact text `true`.
- An integer goes through `Integer.parseInt`: an optional sign and decimal digits whose value fits in an `int` (`JavaLang.ParseIntMeaning`), so an oversized WordSize such as `"2147483648"` fails with a number-format error.
- An integer pair is split at the first comma into two `int`s. So `"4,5,6"` is not read as `(4, 5)`: `split(",", 2)` leaves `"5,6"` as the second part, which `Integer.parseInt` rejects, so the read fails with a number-format error on `"5,6"` (`ParamValueProperties.IntPairRejectedExamples`).
- The low-complexity filter is `{enabled}`. It is false exactly when the value starts with `no`.

The job body has two parts:

- `jobConfig` holds the site, the targets, the query sequence and `addToUserCollection: false`.
  The targets come from the comma-separated organism list. Only organisms whose names are longer than three characters are kept, in order. Each target names the organism's file for the database type, with `PopSet` stored as `Isolates`.
- `blastConfig` holds the tool name and five common fields. After them come exactly the fields of one of the nine tools. The tool is chosen by name; an unknown name fails with `Unknown blast tool: <name>`.

Every failure becomes one `Error` value. The Java code reports the first
failure it meets, so the order of reads matters. The model keeps that order,
and lemmas state which read's error escapes.

Modules:

- `Wrappers`: `Option` and `Result`.
- `Json`: the JSON keys the class writes, and JSON values.
- `JavaLang`: the JDK behaviour the class depends on. This covers `Integer.parseInt` on 32-bit `int`s, `indexOf`, `split(",", 2)` and `split(",")`. It also defines `FormatInt`, the decimal writing of an `int` as `Integer.toString` does it. The class never calls `Integer.toString`; `FormatInt` is there only as the inverse for the `parseInt` round trip.
- `MultiBlastServiceParams`: the parameter names, the reads and conversions, the target list, the nine tool builders, `blastConfig`, `jobConfig` and the job body.
- `NormalizeProperties`: what quote removal does. It removes the quote at the start and the quote before the `$` anchor. The `$` anchor also matches before a final line terminator.
- `ParamValueProperties`: strict booleans, integer round trips, integer pairs and the filter.
- `TargetProperties`: filtering, order and file names of the targets.
- `ToolConfigProperties`: for each tool builder, its error order, its exact key set and its values.
- `QueryConfigProperties`: the read order, the dispatch and the shape of `blastConfig`.
- `JobBodyProperties`: the job body. It also proves that every parameter the body can report missing is among the names `getAllParamNames` lists.

## Model

| member | source | states |
|---|---|---|
| MultiBlastServiceParams.AllParamNames | WSFPlugin/src/main/java/org/eupathdb/websvccommon/wsfplugin/blast/MultiBlastServiceParams.java:56-74 | fifteen names, pairwise distinct, including the name of every parameter of the form |
| MultiBlastServiceParams.Name | WSFPlugin/src/main/java/org/eupathdb/websvccommon/wsfplugin/blast/MultiBlastServiceParams.java:32-54 | the form name of each of the fifteen parameters; `AllParamNames` states they are distinct and all listed |
| MultiBlastServiceParams.TargetJson | WSFPlugin/src/main/java/org/eupathdb/websvccommon/wsfplugin/blast/MultiBlastServiceParams.java:280-282 | one target object; `TargetProperties.TargetFileNames` states its two keys, the display name and the file name |
| MultiBlastServiceParams.ParseTool | WSFPlugin/src/main/java/org/eupathdb/websvccommon/wsfplugin/blast/MultiBlastServiceParams.java:101-119 | the `switch` labels; `QueryConfigProperties.ParseToolName` and `ToolNameParseTool` state that exactly the nine tool names select a tool, each its own |
| MultiBlastServiceParams.UnknownToolMessage | WSFPlugin/src/main/java/org/eupathdb/websvccommon/wsfplugin/blast/MultiBlastServiceParams.java:120-121 | the message of the `PluginUserException`; `QueryConfigProperties.UnknownToolRejected` states it is "Unknown blast tool: " followed by the name |
| MultiBlastServiceParams.GetRawParamValue | WSFPlugin/src/main/java/org/eupathdb/websvccommon/wsfplugin/blast/MultiBlastServiceParams.java:265-268 | `params.get(name)` dereferenced: succeeds exactly when the name is present, with its raw value; otherwise the missing parameter is reported |
| MultiBlastServiceParams.GetNormalizedParamValue | WSFPlugin/src/main/java/org/eupathdb/websvccommon/wsfplugin/blast/MultiBlastServiceParams.java:233-235 | succeeds exactly when the name is present, with the value after quote removal; otherwise the missing parameter is reported |
| MultiBlastServiceParams.GetBooleanParamValue | WSFPlugin/src/main/java/org/eupathdb/websvccommon/wsfplugin/blast/MultiBlastServiceParams.java:237-239 | succeeds exactly when the name is present; true exactly when the normalised value is "true" |
| MultiBlastServiceParams.GetIntParamValue | WSFPlugin/src/main/java/org/eupathdb/websvccommon/wsfplugin/blast/MultiBlastServiceParams.java:241-243 | succeeds exactly when the name is present and its normalised value parses as an `int`; a missing name is reported before a malformed number |
| MultiBlastServiceParams.ParamValueToInt | WSFPlugin/src/main/java/org/eupathdb/websvccommon/wsfplugin/blast/MultiBlastServiceParams.java:294-296 | succeeds exactly when `Integer.parseInt` accepts the value, with its value; otherwise a number-format error carrying the value |
| MultiBlastServiceParams.GetIntPairParamValue | WSFPlugin/src/main/java/org/eupathdb/websvccommon/wsfplugin/blast/MultiBlastServiceParams.java:132-133 | a missing name is reported first; otherwise the result is the pair conversion of the normalised value |
| MultiBlastServiceParams.ParseLowComplexityFilter | WSFPlugin/src/main/java/org/eupathdb/websvccommon/wsfplugin/blast/MultiBlastServiceParams.java:245-253 | succeeds exactly when FilterLowComplex is present, giving `{enabled}` for its normalised value |
| MultiBlastServiceParams.LongTokens | WSFPlugin/src/main/java/org/eupathdb/websvccommon/wsfplugin/blast/MultiBlastServiceParams.java:277-278 | keeps only names longer than three characters, each taken from the list, never more than the list holds, and keeps every long one |
| MultiBlastServiceParams.TargetsJson | WSFPlugin/src/main/java/org/eupathdb/websvccommon/wsfplugin/blast/MultiBlastServiceParams.java:279-286 | one target per organism, in order, each naming the organism and the organism followed by the suffix |
| MultiBlastServiceParams.CommonQueryConfig | WSFPlugin/src/main/java/org/eupathdb/websvccommon/wsfplugin/blast/MultiBlastServiceParams.java:94-99 | on success exactly the five common keys |
| MultiBlastServiceParams.Normalize | WSFPlugin/src/main/java/org/eupathdb/websvccommon/wsfplugin/blast/MultiBlastServiceParams.java:234 | `replaceAll("^'|'$", "")`; its meaning is stated by `NormalizeProperties.NormalizeIsUnquoted` (the opening quote and the closing quote go, each when present) and `NormalizeOnlyRemovesQuotes` |
| MultiBlastServiceParams.StripFrom | WSFPlugin/src/main/java/org/eupathdb/websvccommon/wsfplugin/blast/MultiBlastServiceParams.java:234 | the left-to-right scan of the regex's matches; `NormalizeProperties.RemovedIsQuote` states which positions it removes, `StripFromKeepsOthers` that it keeps every other character in order |
| MultiBlastServiceParams.ParamValueToBoolean | WSFPlugin/src/main/java/org/eupathdb/websvccommon/wsfplugin/blast/MultiBlastServiceParams.java:290-292 | `paramValue.equals("true")`; through quote removal, `ParamValueProperties.BooleanTrueExactly` gives the four raw spellings read as true |
| MultiBlastServiceParams.ParamValueToIntPair | WSFPlugin/src/main/java/org/eupathdb/websvccommon/wsfplugin/blast/MultiBlastServiceParams.java:298-305 | `split(",", 2)` then two `parseInt`s; `ParamValueProperties.IntPairSuccess`, `IntPairFailure` and `IntPairRoundTrip` state when it succeeds, which error it raises, and that it reads back any two ints |
| MultiBlastServiceParams.FilterJson | WSFPlugin/src/main/java/org/eupathdb/websvccommon/wsfplugin/blast/MultiBlastServiceParams.java:245-253 | `{enabled: !startsWith("no")}`; `ParamValueProperties.FilterEnabledUnlessNo` states its one key and when it is false |
| MultiBlastServiceParams.TargetFileSuffix | WSFPlugin/src/main/java/org/eupathdb/websvccommon/wsfplugin/blast/MultiBlastServiceParams.java:273-275 | PopSet becomes Isolates; `TargetProperties.TargetFileNames` states the file name each target gets |
| MultiBlastServiceParams.BuildNewJobRequestTargetJson | WSFPlugin/src/main/java/org/eupathdb/websvccommon/wsfplugin/blast/MultiBlastServiceParams.java:264-287 | `TargetProperties.TargetJsonResult` states its errors and value, `TargetsOfOrganismList` the long organisms in order, `TargetsAtMostPieces` the bound |
| MultiBlastServiceParams.ParamValuesToBlastJobConfig | WSFPlugin/src/main/java/org/eupathdb/websvccommon/wsfplugin/blast/MultiBlastServiceParams.java:83-89 | `JobBodyProperties.JobConfigErrors` states its error order, `JobConfigShape` its four keys and their values |
| MultiBlastServiceParams.ParamsToBlastNConfig | WSFPlugin/src/main/java/org/eupathdb/websvccommon/wsfplugin/blast/MultiBlastServiceParams.java:131-143 | `ToolConfigProperties.BlastNConfigErrors`, `BlastNConfigShape`, `BlastNConfigNumbers` and `BlastNConfigText` state its reads in order, its keys and its values |
| MultiBlastServiceParams.ParamsToBlastPConfig | WSFPlugin/src/main/java/org/eupathdb/websvccommon/wsfplugin/blast/MultiBlastServiceParams.java:145-156 | `ToolConfigProperties.BlastPConfigErrors`, `BlastPConfigShape`, `BlastPConfigNumbers` and `BlastPConfigText` state its reads in order, its keys and its values |
| MultiBlastServiceParams.ParamsToBlastXConfig | WSFPlugin/src/main/java/org/eupathdb/websvccommon/wsfplugin/blast/MultiBlastServiceParams.java:158-169 | `ToolConfigProperties.BlastXConfigErrors`, `BlastXConfigShape`, `BlastXConfigNumbers` and `BlastXConfigText` state its reads in order, its keys and its values |
| MultiBlastServiceParams.ParamsToTBlastNConfig | WSFPlugin/src/main/java/org/eupathdb/websvccommon/wsfplugin/blast/MultiBlastServiceParams.java:171-182 | `ToolConfigProperties.TBlastNConfigErrors`, `TBlastNConfigShape`, `TBlastNConfigNumbers` and `TBlastNConfigText` state its reads in order, its keys and its values |
| MultiBlastServiceParams.ParamsToTBlastXConfig | WSFPlugin/src/main/java/org/eupathdb/websvccommon/wsfplugin/blast/MultiBlastServiceParams.java:184-189 | `ToolConfigProperties.TBlastXConfigErrors`, `TBlastXConfigShape`, `TBlastXConfigNumbers` and `TBlastXConfigText` state its reads in order, its keys and its values |
| MultiBlastServiceParams.ParamsToDeltaBlastConfig | WSFPlugin/src/main/java/org/eupathdb/websvccommon/wsfplugin/blast/MultiBlastServiceParams.java:191-201 | `ToolConfigProperties.DeltaBlastConfigErrors`, `DeltaBlastConfigShape`, `DeltaBlastConfigNumbers` and `DeltaBlastConfigText` state its reads in order, its keys and its values |
| MultiBlastServiceParams.ParamsToPsiBlastConfig | WSFPlugin/src/main/java/org/eupathdb/websvccommon/wsfplugin/blast/MultiBlastServiceParams.java:203-213 | `ToolConfigProperties.PsiBlastConfigErrors`, `PsiBlastConfigShape`, `PsiBlastConfigNumbers` and `PsiBlastConfigText` state its reads in order, its keys and its values |
| MultiBlastServiceParams.ParamsToRpsBlastConfig | WSFPlugin/src/main/java/org/eupathdb/websvccommon/wsfplugin/blast/MultiBlastServiceParams.java:215-219 | `ToolConfigProperties.RpsBlastConfigErrors`, `RpsBlastConfigShape` and `RpsBlastConfigText` state its reads in order, its keys and its values |
| MultiBlastServiceParams.ParamsToRpsTBlastNConfig | WSFPlugin/src/main/java/org/eupathdb/websvccommon/wsfplugin/blast/MultiBlastServiceParams.java:221-225 | `ToolConfigProperties.RpsTBlastNConfigErrors`, `RpsTBlastNConfigShape` and `RpsTBlastNConfigText` state its reads in order, its keys and its values |
| MultiBlastServiceParams.ToolConfig | WSFPlugin/src/main/java/org/eupathdb/websvccommon/wsfplugin/blast/MultiBlastServiceParams.java:101-122 | the `switch (tool)` over the nine builders; `ToolConfigProperties.ToolConfigErrors` and `ToolConfigShape` state its errors, keys, tool name and mask key |
| MultiBlastServiceParams.ParamValuesToBlastQueryConfig | WSFPlugin/src/main/java/org/eupathdb/websvccommon/wsfplugin/blast/MultiBlastServiceParams.java:91-123 | `QueryConfigProperties.QueryConfigErrors` states its error order, `QueryConfigShape` its keys and tool, `QueryConfigKeepsCommon` the common values, `QueryConfigMask` dust or seg, `UnknownToolRejected` the unknown-tool message |
| MultiBlastServiceParams.BuildBlastCreateJobBody | WSFPlugin/src/main/java/org/eupathdb/websvccommon/wsfplugin/blast/MultiBlastServiceParams.java:76-81 | `JobBodyProperties.JobBodyErrors` states its error order, `JobBodyShape` its two keys, `MissingParameterIsListed` that a missing parameter it reports is always listed |
| JavaLang.ParseInt | WSFPlugin/src/main/java/org/eupathdb/websvccommon/wsfplugin/blast/MultiBlastServiceParams.java:295 | `Integer.parseInt` on 32-bit `int`s; `ParseIntMeaning` states its result on every input, `ParseIntFormatInt` that it reads back every `int` |
| JavaLang.ParseIntMeaning | WSFPlugin/src/main/java/org/eupathdb/websvccommon/wsfplugin/blast/MultiBlastServiceParams.java:295 | `Integer.parseInt` returns the value of an optionally signed decimal numeral, leading zeros and a `+` included, exactly when that value fits in an `int`, and fails on every other text, out-of-range numerals included |
| JavaLang.ParseIntNonCanonical | WSFPlugin/src/main/java/org/eupathdb/websvccommon/wsfplugin/blast/MultiBlastServiceParams.java:295 | "+7" and "007" read as 7, "-0" as 0, and "-" and "+-1" fail |
| JavaLang.ParseIntRangeEdges | WSFPlugin/src/main/java/org/eupathdb/websvccommon/wsfplugin/blast/MultiBlastServiceParams.java:295 | "2147483648" and "+2147483648" fail as out of range, while "-2147483648" reads as the least `int` |
| JavaLang.ParseIntAccepts | WSFPlugin/src/main/java/org/eupathdb/websvccommon/wsfplugin/blast/MultiBlastServiceParams.java:295 | whatever `Integer.parseInt` accepts is non-empty and all decimal digits after at most one leading sign |
| JavaLang.ParseIntFormatInt | WSFPlugin/src/main/java/org/eupathdb/websvccommon/wsfplugin/blast/MultiBlastServiceParams.java:295 | `Integer.parseInt` reads back every `int` written in decimal by `FormatInt` |
| JavaLang.ParseIntHasNoComma | WSFPlugin/src/main/java/org/eupathdb/websvccommon/wsfplugin/blast/MultiBlastServiceParams.java:302-303 | an accepted integer never holds a comma |
| JavaLang.SplitLimit2 | WSFPlugin/src/main/java/org/eupathdb/websvccommon/wsfplugin/blast/MultiBlastServiceParams.java:299 | `split(",", 2)` gives one or two pieces |
| JavaLang.SplitLimit2Pieces | WSFPlugin/src/main/java/org/eupathdb/websvccommon/wsfplugin/blast/MultiBlastServiceParams.java:299 | one piece exactly when there is no comma, and then the input; otherwise the comma-free text before the first comma and all the rest, which rejoin to the input |
| JavaLang.IndexOf | WSFPlugin/src/main/java/org/eupathdb/websvccommon/wsfplugin/blast/MultiBlastServiceParams.java:299 | the first position of the character, or none when it does not occur |
| JavaLang.SplitAll | WSFPlugin/src/main/java/org/eupathdb/websvccommon/wsfplugin/blast/MultiBlastServiceParams.java:268 | at least one piece, none containing the separator |
| JavaLang.JoinSplitAll | WSFPlugin/src/main/java/org/eupathdb/websvccommon/wsfplugin/blast/MultiBlastServiceParams.java:268 | the pieces of `split` rejoined with commas give the input back |
| JavaLang.SplitAllJoin | WSFPlugin/src/main/java/org/eupathdb/websvccommon/wsfplugin/blast/MultiBlastServiceParams.java:268 | splitting comma-joined comma-free pieces gives the pieces back |
| JavaLang.Split | WSFPlugin/src/main/java/org/eupathdb/websvccommon/wsfplugin/blast/MultiBlastServiceParams.java:268 | `split(",")` is a prefix of all pieces, and every dropped piece is empty |
| JavaLang.DropTrailingEmpty | WSFPlugin/src/main/java/org/eupathdb/websvccommon/wsfplugin/blast/MultiBlastServiceParams.java:268 | a prefix of the pieces that ends in a non-empty piece; everything dropped is empty |
| Json.KeyOfKeyName | WSFPlugin/src/main/java/org/eupathdb/websvccommon/wsfplugin/blast/MultiBlastServiceParams.java:135-142 | every JSON key reads back from its wire name |
| Json.KeyNameInjective | WSFPlugin/src/main/java/org/eupathdb/websvccommon/wsfplugin/blast/MultiBlastServiceParams.java:135-142 | distinct keys have distinct wire names, so no `put` of one key overwrites another |
| NormalizeProperties.RemovedIsQuote | WSFPlugin/src/main/java/org/eupathdb/websvccommon/wsfplugin/blast/MultiBlastServiceParams.java:234 | the scan removes exactly the quote at the start and the quote before the end anchor |
| NormalizeProperties.NormalizeIsUnquoted | WSFPlugin/src/main/java/org/eupathdb/websvccommon/wsfplugin/blast/MultiBlastServiceParams.java:234 | `replaceAll("^'|'$", "")` equals cutting out the opening quote and the closing quote, each when present |
| NormalizeProperties.NormalizeWithoutClosingQuote | WSFPlugin/src/main/java/org/eupathdb/websvccommon/wsfplugin/blast/MultiBlastServiceParams.java:234 | without a closing quote only the opening quote goes |
| NormalizeProperties.NormalizeWithClosingQuote | WSFPlugin/src/main/java/org/eupathdb/websvccommon/wsfplugin/blast/MultiBlastServiceParams.java:234 | with a closing quote it goes too, and a final line terminator after it stays |
| NormalizeProperties.StripFromClosingQuote | WSFPlugin/src/main/java/org/eupathdb/websvccommon/wsfplugin/blast/MultiBlastServiceParams.java:234 | the closing quote is removed and everything after it kept |
| NormalizeProperties.NormalizeNotLonger | WSFPlugin/src/main/java/org/eupathdb/websvccommon/wsfplugin/blast/MultiBlastServiceParams.java:234 | quote removal never lengthens a value |
| NormalizeProperties.StripFromNotLonger | WSFPlugin/src/main/java/org/eupathdb/websvccommon/wsfplugin/blast/MultiBlastServiceParams.java:234 | the scan from any position never lengthens its input |
| NormalizeProperties.NormalizeRemovesAtMostTwo | WSFPlugin/src/main/java/org/eupathdb/websvccommon/wsfplugin/blast/MultiBlastServiceParams.java:234 | quote removal removes at most two characters |
| NormalizeProperties.NormalizeOnlyRemovesQuotes | WSFPlugin/src/main/java/org/eupathdb/websvccommon/wsfplugin/blast/MultiBlastServiceParams.java:234 | quote removal only removes characters, and only quotes: every other character stays, in order |
| NormalizeProperties.StripFromSubMultiset | WSFPlugin/src/main/java/org/eupathdb/websvccommon/wsfplugin/blast/MultiBlastServiceParams.java:234 | the scan keeps a sub-multiset of the characters |
| NormalizeProperties.StripFromKeepsOthers | WSFPlugin/src/main/java/org/eupathdb/websvccommon/wsfplugin/blast/MultiBlastServiceParams.java:234 | the scan keeps every character other than a quote, in order |
| NormalizeProperties.NormalizeQuoted | WSFPlugin/src/main/java/org/eupathdb/websvccommon/wsfplugin/blast/MultiBlastServiceParams.java:234 | a value quoted at both ends loses exactly its two quotes |
| NormalizeProperties.NormalizeLeadingOnly | WSFPlugin/src/main/java/org/eupathdb/websvccommon/wsfplugin/blast/MultiBlastServiceParams.java:234 | a lone leading quote is removed |
| NormalizeProperties.NormalizeTrailingOnly | WSFPlugin/src/main/java/org/eupathdb/websvccommon/wsfplugin/blast/MultiBlastServiceParams.java:234 | a lone trailing quote is removed |
| NormalizeProperties.NormalizeUnquotedValue | WSFPlugin/src/main/java/org/eupathdb/websvccommon/wsfplugin/blast/MultiBlastServiceParams.java:234 | a value without quotes is unchanged |
| NormalizeProperties.NormalizeBeforeFinalTerminator | WSFPlugin/src/main/java/org/eupathdb/websvccommon/wsfplugin/blast/MultiBlastServiceParams.java:234 | a quote before a final line terminator is removed and the terminator kept |
| NormalizeProperties.NormalizeBeforeFinalCrLf | WSFPlugin/src/main/java/org/eupathdb/websvccommon/wsfplugin/blast/MultiBlastServiceParams.java:234 | a quote before a final `\r\n` is removed and the `\r\n` kept |
| NormalizeProperties.NormalizeOneQuotePerEnd | WSFPlugin/src/main/java/org/eupathdb/websvccommon/wsfplugin/blast/MultiBlastServiceParams.java:234 | only one quote goes from each end: `''1e-5''` becomes `'1e-5'` |
| ParamValueProperties.UnquotedTrue | WSFPlugin/src/main/java/org/eupathdb/websvccommon/wsfplugin/blast/MultiBlastServiceParams.java:237-239 | only "true" with at most one quote at each end loses its quotes to leave "true" |
| ParamValueProperties.TrueSpellingsBare | WSFPlugin/src/main/java/org/eupathdb/websvccommon/wsfplugin/blast/MultiBlastServiceParams.java:237-239 | "true" and "'true" normalise to "true" |
| ParamValueProperties.TrueSpellingsQuoted | WSFPlugin/src/main/java/org/eupathdb/websvccommon/wsfplugin/blast/MultiBlastServiceParams.java:237-239 | "true'" and "'true'" normalise to "true" |
| ParamValueProperties.NormalizeIsTrue | WSFPlugin/src/main/java/org/eupathdb/websvccommon/wsfplugin/blast/MultiBlastServiceParams.java:237-239 | a value normalises to "true" exactly when it is one of those four spellings |
| ParamValueProperties.BooleanTrueExactly | WSFPlugin/src/main/java/org/eupathdb/websvccommon/wsfplugin/blast/MultiBlastServiceParams.java:290-292 | a boolean parameter is true exactly for those four raw spellings |
| ParamValueProperties.BooleanOtherSpellings | WSFPlugin/src/main/java/org/eupathdb/websvccommon/wsfplugin/blast/MultiBlastServiceParams.java:290-292 | "True", "''true''" and "'true'" followed by a line break read as false |
| ParamValueProperties.FormatIntHasNoQuote | WSFPlugin/src/main/java/org/eupathdb/websvccommon/wsfplugin/blast/MultiBlastServiceParams.java:295 | a decimal `int` holds no quote, so normalisation leaves it alone |
| ParamValueProperties.IntParamRoundTrip | WSFPlugin/src/main/java/org/eupathdb/websvccommon/wsfplugin/blast/MultiBlastServiceParams.java:241-243 | an integer parameter reads back any `int` written in decimal, quoted or not |
| ParamValueProperties.IntPairRoundTrip | WSFPlugin/src/main/java/org/eupathdb/websvccommon/wsfplugin/blast/MultiBlastServiceParams.java:298-305 | the pair conversion reads back any two `int`s written with a comma between them |
| ParamValueProperties.IntPairSuccess | WSFPlugin/src/main/java/org/eupathdb/websvccommon/wsfplugin/blast/MultiBlastServiceParams.java:298-305 | a pair that converts has exactly one comma, and its numbers are the texts on either side of it |
| ParamValueProperties.IntPairFailure | WSFPlugin/src/main/java/org/eupathdb/websvccommon/wsfplugin/blast/MultiBlastServiceParams.java:298-305 | failure exactly when the first part, the comma or the second part is bad, reported in that order with the offending text |
| ParamValueProperties.IntPairRejectsThreeParts | WSFPlugin/src/main/java/org/eupathdb/websvccommon/wsfplugin/blast/MultiBlastServiceParams.java:298-305 | three comma-separated parts never convert |
| ParamValueProperties.IntPairExamples | WSFPlugin/src/main/java/org/eupathdb/websvccommon/wsfplugin/blast/MultiBlastServiceParams.java:298-305 | "4,5" gives (4, 5); "4" gives an index-out-of-bounds error |
| ParamValueProperties.IntPairRejectedExamples | WSFPlugin/src/main/java/org/eupathdb/websvccommon/wsfplugin/blast/MultiBlastServiceParams.java:298-305 | "4,5,6" fails on "5,6"; "x" fails on "x" before the missing comma is noticed |
| ParamValueProperties.IntPairQuoted | WSFPlugin/src/main/java/org/eupathdb/websvccommon/wsfplugin/blast/MultiBlastServiceParams.java:132-133 | a quoted pair reads like the bare pair |
| ParamValueProperties.FilterEnabledUnlessNo | WSFPlugin/src/main/java/org/eupathdb/websvccommon/wsfplugin/blast/MultiBlastServiceParams.java:245-253 | the filter object has only `enabled`, false exactly when the value starts with "no" |
| ParamValueProperties.FilterQuotedNo | WSFPlugin/src/main/java/org/eupathdb/websvccommon/wsfplugin/blast/MultiBlastServiceParams.java:245-253 | a quoted "no" disables the filter |
| ParamValueProperties.FilterCapitalNo | WSFPlugin/src/main/java/org/eupathdb/websvccommon/wsfplugin/blast/MultiBlastServiceParams.java:245-253 | "No" leaves the filter enabled: the test is case-sensitive |
| TargetProperties.LongTokensAppend | WSFPlugin/src/main/java/org/eupathdb/websvccommon/wsfplugin/blast/MultiBlastServiceParams.java:277-278 | the length filter works piece by piece, so order is kept |
| TargetProperties.LongTokensOfShort | WSFPlugin/src/main/java/org/eupathdb/websvccommon/wsfplugin/blast/MultiBlastServiceParams.java:278 | names of at most three characters all go |
| TargetProperties.LongTokensOfSplit | WSFPlugin/src/main/java/org/eupathdb/websvccommon/wsfplugin/blast/MultiBlastServiceParams.java:268-278 | dropping trailing empty pieces changes no target |
| TargetProperties.TargetJsonResult | WSFPlugin/src/main/java/org/eupathdb/websvccommon/wsfplugin/blast/MultiBlastServiceParams.java:264-287 | fails exactly when the organism list or database type is missing, organism list first; otherwise the long pieces of the organism list, with the suffix |
| TargetProperties.TargetsOfOrganismList | WSFPlugin/src/main/java/org/eupathdb/websvccommon/wsfplugin/blast/MultiBlastServiceParams.java:264-287 | for comma-joined organisms, the targets are the organisms longer than three characters, in the order listed |
| TargetProperties.TargetsAtMostPieces | WSFPlugin/src/main/java/org/eupathdb/websvccommon/wsfplugin/blast/MultiBlastServiceParams.java:277-286 | never more targets than pieces between commas |
| TargetProperties.TargetFileNames | WSFPlugin/src/main/java/org/eupathdb/websvccommon/wsfplugin/blast/MultiBlastServiceParams.java:273-283 | each target names the organism and its file: the organism followed by the database type, with PopSet becoming Isolates |
| TargetProperties.TargetsDropShortOne | WSFPlugin/src/main/java/org/eupathdb/websvccommon/wsfplugin/blast/MultiBlastServiceParams.java:264-287 | of three organisms a short middle one is dropped, and PopSet names the Isolates files |
| ToolConfigProperties.BlastNConfigErrors | WSFPlugin/src/main/java/org/eupathdb/websvccommon/wsfplugin/blast/MultiBlastServiceParams.java:131-143 | fails exactly when one of the builder's reads fails, with the error of the first failing read |
| ToolConfigProperties.BlastNConfigShape | WSFPlugin/src/main/java/org/eupathdb/websvccommon/wsfplugin/blast/MultiBlastServiceParams.java:131-143 | on success adds exactly the tool's keys and keeps every other field it is given |
| ToolConfigProperties.BlastNConfigNumbers | WSFPlugin/src/main/java/org/eupathdb/websvccommon/wsfplugin/blast/MultiBlastServiceParams.java:131-143 | gapOpen and gapExtend are the halves of GapCosts, reward and penalty the halves of MatchMismatchScore, and wordSize the parsed WordSize |
| ToolConfigProperties.BlastNConfigText | WSFPlugin/src/main/java/org/eupathdb/websvccommon/wsfplugin/blast/MultiBlastServiceParams.java:131-143 | stores the tool name, the normalised text parameters, and the filter under the tool's mask key |
| ToolConfigProperties.BlastPConfigErrors | WSFPlugin/src/main/java/org/eupathdb/websvccommon/wsfplugin/blast/MultiBlastServiceParams.java:145-156 | fails exactly when one of the builder's reads fails, with the error of the first failing read |
| ToolConfigProperties.BlastPConfigShape | WSFPlugin/src/main/java/org/eupathdb/websvccommon/wsfplugin/blast/MultiBlastServiceParams.java:145-156 | on success adds exactly the tool's keys and keeps every other field it is given |
| ToolConfigProperties.BlastPConfigNumbers | WSFPlugin/src/main/java/org/eupathdb/websvccommon/wsfplugin/blast/MultiBlastServiceParams.java:145-156 | gapOpen and gapExtend are the halves of GapCosts, and wordSize the parsed WordSize |
| ToolConfigProperties.BlastPConfigText | WSFPlugin/src/main/java/org/eupathdb/websvccommon/wsfplugin/blast/MultiBlastServiceParams.java:145-156 | stores the tool name, the normalised text parameters, and the filter under the tool's mask key |
| ToolConfigProperties.BlastXConfigErrors | WSFPlugin/src/main/java/org/eupathdb/websvccommon/wsfplugin/blast/MultiBlastServiceParams.java:158-169 | fails exactly when one of the builder's reads fails, with the error of the first failing read |
| ToolConfigProperties.BlastXConfigShape | WSFPlugin/src/main/java/org/eupathdb/websvccommon/wsfplugin/blast/MultiBlastServiceParams.java:158-169 | on success adds exactly the tool's keys and keeps every other field it is given |
| ToolConfigProperties.BlastXConfigNumbers | WSFPlugin/src/main/java/org/eupathdb/websvccommon/wsfplugin/blast/MultiBlastServiceParams.java:158-169 | gapOpen and gapExtend are the halves of GapCosts, and wordSize the parsed WordSize |
| ToolConfigProperties.BlastXConfigText | WSFPlugin/src/main/java/org/eupathdb/websvccommon/wsfplugin/blast/MultiBlastServiceParams.java:158-169 | stores the tool name, the normalised text parameters, and the filter under the tool's mask key |
| ToolConfigProperties.TBlastNConfigErrors | WSFPlugin/src/main/java/org/eupathdb/websvccommon/wsfplugin/blast/MultiBlastServiceParams.java:171-182 | fails exactly when one of the builder's reads fails, with the error of the first failing read |
| ToolConfigProperties.TBlastNConfigShape | WSFPlugin/src/main/java/org/eupathdb/websvccommon/wsfplugin/blast/MultiBlastServiceParams.java:171-182 | on success adds exactly the tool's keys and keeps every other field it is given |
| ToolConfigProperties.TBlastNConfigNumbers | WSFPlugin/src/main/java/org/eupathdb/websvccommon/wsfplugin/blast/MultiBlastServiceParams.java:171-182 | gapOpen and gapExtend are the halves of GapCosts, and wordSize the parsed WordSize |
| ToolConfigProperties.TBlastNConfigText | WSFPlugin/src/main/java/org/eupathdb/websvccommon/wsfplugin/blast/MultiBlastServiceParams.java:171-182 | stores the tool name, the normalised text parameters, and the filter under the tool's mask key |
| ToolConfigProperties.TBlastXConfigErrors | WSFPlugin/src/main/java/org/eupathdb/websvccommon/wsfplugin/blast/MultiBlastServiceParams.java:184-189 | fails exactly when one of the builder's reads fails, with the error of the first failing read |
| ToolConfigProperties.TBlastXConfigShape | WSFPlugin/src/main/java/org/eupathdb/websvccommon/wsfplugin/blast/MultiBlastServiceParams.java:184-189 | on success adds exactly the tool's keys and keeps every other field it is given |
| ToolConfigProperties.TBlastXConfigNumbers | WSFPlugin/src/main/java/org/eupathdb/websvccommon/wsfplugin/blast/MultiBlastServiceParams.java:184-189 | wordSize is the parsed WordSize value, the only number tblastx stores |
| ToolConfigProperties.TBlastXConfigText | WSFPlugin/src/main/java/org/eupathdb/websvccommon/wsfplugin/blast/MultiBlastServiceParams.java:184-189 | stores the tool name, the normalised text parameters, and the filter under the tool's mask key |
| ToolConfigProperties.DeltaBlastConfigErrors | WSFPlugin/src/main/java/org/eupathdb/websvccommon/wsfplugin/blast/MultiBlastServiceParams.java:191-201 | fails exactly when one of the builder's reads fails, with the error of the first failing read |
| ToolConfigProperties.DeltaBlastConfigShape | WSFPlugin/src/main/java/org/eupathdb/websvccommon/wsfplugin/blast/MultiBlastServiceParams.java:191-201 | on success adds exactly the tool's keys and keeps every other field it is given |
| ToolConfigProperties.DeltaBlastConfigNumbers | WSFPlugin/src/main/java/org/eupathdb/websvccommon/wsfplugin/blast/MultiBlastServiceParams.java:191-201 | gapOpen and gapExtend are the halves of GapCosts, and wordSize the parsed WordSize |
| ToolConfigProperties.DeltaBlastConfigText | WSFPlugin/src/main/java/org/eupathdb/websvccommon/wsfplugin/blast/MultiBlastServiceParams.java:191-201 | stores the tool name, the normalised text parameters, and the filter under the tool's mask key |
| ToolConfigProperties.PsiBlastConfigErrors | WSFPlugin/src/main/java/org/eupathdb/websvccommon/wsfplugin/blast/MultiBlastServiceParams.java:203-213 | fails exactly when one of the builder's reads fails, with the error of the first failing read |
| ToolConfigProperties.PsiBlastConfigShape | WSFPlugin/src/main/java/org/eupathdb/websvccommon/wsfplugin/blast/MultiBlastServiceParams.java:203-213 | on success adds exactly the tool's keys and keeps every other field it is given |
| ToolConfigProperties.PsiBlastConfigNumbers | WSFPlugin/src/main/java/org/eupathdb/websvccommon/wsfplugin/blast/MultiBlastServiceParams.java:203-213 | gapOpen and gapExtend are the halves of GapCosts, and wordSize the parsed WordSize |
| ToolConfigProperties.PsiBlastConfigText | WSFPlugin/src/main/java/org/eupathdb/websvccommon/wsfplugin/blast/MultiBlastServiceParams.java:203-213 | stores the tool name, the normalised text parameters, and the filter under the tool's mask key |
| ToolConfigProperties.RpsBlastConfigErrors | WSFPlugin/src/main/java/org/eupathdb/websvccommon/wsfplugin/blast/MultiBlastServiceParams.java:215-219 | fails exactly when one of the builder's reads fails, with the error of the first failing read |
| ToolConfigProperties.RpsBlastConfigShape | WSFPlugin/src/main/java/org/eupathdb/websvccommon/wsfplugin/blast/MultiBlastServiceParams.java:215-219 | on success adds exactly the tool's keys and keeps every other field it is given |
| ToolConfigProperties.RpsBlastConfigText | WSFPlugin/src/main/java/org/eupathdb/websvccommon/wsfplugin/blast/MultiBlastServiceParams.java:215-219 | stores the tool name, the normalised text parameters, and the filter under the tool's mask key |
| ToolConfigProperties.RpsTBlastNConfigErrors | WSFPlugin/src/main/java/org/eupathdb/websvccommon/wsfplugin/blast/MultiBlastServiceParams.java:221-225 | fails exactly when one of the builder's reads fails, with the error of the first failing read |
| ToolConfigProperties.RpsTBlastNConfigShape | WSFPlugin/src/main/java/org/eupathdb/websvccommon/wsfplugin/blast/MultiBlastServiceParams.java:221-225 | on success adds exactly the tool's keys and keeps every other field it is given |
| ToolConfigProperties.RpsTBlastNConfigText | WSFPlugin/src/main/java/org/eupathdb/websvccommon/wsfplugin/blast/MultiBlastServiceParams.java:221-225 | stores the tool name, the normalised text parameters, and the filter under the tool's mask key |
| ToolConfigProperties.ToolConfigErrors | WSFPlugin/src/main/java/org/eupathdb/websvccommon/wsfplugin/blast/MultiBlastServiceParams.java:101-119 | the chosen builder fails exactly when its first failing read does |
| ToolConfigProperties.ToolConfigShape | WSFPlugin/src/main/java/org/eupathdb/websvccommon/wsfplugin/blast/MultiBlastServiceParams.java:101-119 | the chosen builder adds exactly its tool's keys, keeps the others, names the tool, and stores the filter under `dust` for blastn and `seg` otherwise |
| QueryConfigProperties.FirstFailureAppend | WSFPlugin/src/main/java/org/eupathdb/websvccommon/wsfplugin/blast/MultiBlastServiceParams.java:91-123 | the first failure of two runs of reads is the first run's, if any |
| QueryConfigProperties.FirstFailureNone | WSFPlugin/src/main/java/org/eupathdb/websvccommon/wsfplugin/blast/MultiBlastServiceParams.java:91-123 | reads succeed together exactly when each of them does |
| QueryConfigProperties.FirstFailureIsAnError | WSFPlugin/src/main/java/org/eupathdb/websvccommon/wsfplugin/blast/MultiBlastServiceParams.java:91-123 | the error that escapes is the error of one of the reads |
| QueryConfigProperties.CommonQueryConfigErrors | WSFPlugin/src/main/java/org/eupathdb/websvccommon/wsfplugin/blast/MultiBlastServiceParams.java:94-99 | the common fields fail exactly when one of their five reads does, with the first error |
| QueryConfigProperties.CommonQueryConfigText | WSFPlugin/src/main/java/org/eupathdb/websvccommon/wsfplugin/blast/MultiBlastServiceParams.java:95-97 | eValue is the normalised ExpectationValue; the masking flags are the two booleans |
| QueryConfigProperties.CommonQueryConfigNumbers | WSFPlugin/src/main/java/org/eupathdb/websvccommon/wsfplugin/blast/MultiBlastServiceParams.java:98-99 | maxTargetSequences and maxHSPs are the parsed integers |
| QueryConfigProperties.ParseToolName | WSFPlugin/src/main/java/org/eupathdb/websvccommon/wsfplugin/blast/MultiBlastServiceParams.java:101-119 | every tool is selected by its own name |
| QueryConfigProperties.ToolNameParseTool | WSFPlugin/src/main/java/org/eupathdb/websvccommon/wsfplugin/blast/MultiBlastServiceParams.java:101-119 | a name selects a tool only when it is that tool's name |
| QueryConfigProperties.BlastNByName | WSFPlugin/src/main/java/org/eupathdb/websvccommon/wsfplugin/blast/MultiBlastServiceParams.java:101-103 | only "blastn" selects blastn |
| QueryConfigProperties.CommonKeysDisjoint | WSFPlugin/src/main/java/org/eupathdb/websvccommon/wsfplugin/blast/MultiBlastServiceParams.java:94-99 | no tool overwrites a common field |
| QueryConfigProperties.MaskKeyOfTool | WSFPlugin/src/main/java/org/eupathdb/websvccommon/wsfplugin/blast/MultiBlastServiceParams.java:142 | only blastn has `dust`; every other tool has `seg` |
| QueryConfigProperties.DispatchErrors | WSFPlugin/src/main/java/org/eupathdb/websvccommon/wsfplugin/blast/MultiBlastServiceParams.java:101-122 | after the common fields, the dispatch fails with the unknown-tool error or with the tool's first failing read |
| QueryConfigProperties.QueryConfigErrors | WSFPlugin/src/main/java/org/eupathdb/websvccommon/wsfplugin/blast/MultiBlastServiceParams.java:91-123 | blastConfig fails exactly when a step does, with the first error in the order tool name, common fields, dispatch |
| QueryConfigProperties.MissingToolFirst | WSFPlugin/src/main/java/org/eupathdb/websvccommon/wsfplugin/blast/MultiBlastServiceParams.java:92 | without BlastAlgorithm nothing else is read |
| QueryConfigProperties.CommonFieldsBeforeDispatch | WSFPlugin/src/main/java/org/eupathdb/websvccommon/wsfplugin/blast/MultiBlastServiceParams.java:94-101 | a bad common field is reported even for an unknown tool |
| QueryConfigProperties.UnknownToolRejected | WSFPlugin/src/main/java/org/eupathdb/websvccommon/wsfplugin/blast/MultiBlastServiceParams.java:120-121 | an unknown tool fails with "Unknown blast tool: " followed by the name |
| QueryConfigProperties.QueryConfigShape | WSFPlugin/src/main/java/org/eupathdb/websvccommon/wsfplugin/blast/MultiBlastServiceParams.java:91-123 | on success the tool is one of the nine, the keys are the common keys plus exactly the tool's keys, and `tool` echoes the name given |
| QueryConfigProperties.QueryConfigKeepsCommon | WSFPlugin/src/main/java/org/eupathdb/websvccommon/wsfplugin/blast/MultiBlastServiceParams.java:94-123 | on success the common fields are stored as read |
| QueryConfigProperties.QueryConfigFilter | WSFPlugin/src/main/java/org/eupathdb/websvccommon/wsfplugin/blast/MultiBlastServiceParams.java:142 | on success the filter is stored under the tool's mask key |
| QueryConfigProperties.QueryConfigMask | WSFPlugin/src/main/java/org/eupathdb/websvccommon/wsfplugin/blast/MultiBlastServiceParams.java:142 | on success the filter is under `dust` exactly when the tool is blastn, under `seg` otherwise, and never under both |
| JobBodyProperties.JobConfigErrors | WSFPlugin/src/main/java/org/eupathdb/websvccommon/wsfplugin/blast/MultiBlastServiceParams.java:83-89 | jobConfig fails exactly when one of its three reads does, with the first error |
| JobBodyProperties.JobConfigShape | WSFPlugin/src/main/java/org/eupathdb/websvccommon/wsfplugin/blast/MultiBlastServiceParams.java:83-89 | on success exactly site, targets, the normalised query and a false addToUserCollection |
| JobBodyProperties.JobBodyErrors | WSFPlugin/src/main/java/org/eupathdb/websvccommon/wsfplugin/blast/MultiBlastServiceParams.java:76-81 | the body fails exactly when a step does, with jobConfig's steps before blastConfig's |
| JobBodyProperties.JobBodyShape | WSFPlugin/src/main/java/org/eupathdb/websvccommon/wsfplugin/blast/MultiBlastServiceParams.java:76-81 | on success exactly jobConfig and blastConfig |
| JobBodyProperties.IntPairErrorNotMissing | WSFPlugin/src/main/java/org/eupathdb/websvccommon/wsfplugin/blast/MultiBlastServiceParams.java:298-305 | a failed pair conversion never reports a missing parameter |
| JobBodyProperties.TextReadersNameFormParams | WSFPlugin/src/main/java/org/eupathdb/websvccommon/wsfplugin/blast/MultiBlastServiceParams.java:233-239 | the text and boolean readers report only their own parameter as missing |
| JobBodyProperties.IntReaderNamesFormParam | WSFPlugin/src/main/java/org/eupathdb/websvccommon/wsfplugin/blast/MultiBlastServiceParams.java:241-243 | the integer reader reports only its own parameter as missing |
| JobBodyProperties.PairReaderNamesFormParam | WSFPlugin/src/main/java/org/eupathdb/websvccommon/wsfplugin/blast/MultiBlastServiceParams.java:132-133 | the pair reader reports only its own parameter as missing |
| JobBodyProperties.FilterReaderNamesFormParam | WSFPlugin/src/main/java/org/eupathdb/websvccommon/wsfplugin/blast/MultiBlastServiceParams.java:245-253 | the filter reader reports only FilterLowComplex as missing |
| JobBodyProperties.ToolReadsNameFormParams | WSFPlugin/src/main/java/org/eupathdb/websvccommon/wsfplugin/blast/MultiBlastServiceParams.java:131-225 | every read of every builder reports only form parameters |
| JobBodyProperties.CommonReadsNameFormParams | WSFPlugin/src/main/java/org/eupathdb/websvccommon/wsfplugin/blast/MultiBlastServiceParams.java:94-99 | every read of the common fields reports only form parameters |
| JobBodyProperties.QueryReadsNameFormParams | WSFPlugin/src/main/java/org/eupathdb/websvccommon/wsfplugin/blast/MultiBlastServiceParams.java:91-123 | every step of blastConfig reports only form parameters |
| JobBodyProperties.JobReadsNameFormParams | WSFPlugin/src/main/java/org/eupathdb/websvccommon/wsfplugin/blast/MultiBlastServiceParams.java:83-89 | every read of jobConfig reports only form parameters |
| JobBodyProperties.MissingParameterIsFormParam | WSFPlugin/src/main/java/org/eupathdb/websvccommon/wsfplugin/blast/MultiBlastServiceParams.java:76-81 | a missing parameter reported by the body is a form parameter |
| JobBodyProperties.FormParamIsListed | WSFPlugin/src/main/java/org/eupathdb/websvccommon/wsfplugin/blast/MultiBlastServiceParams.java:56-74 | every name of a form parameter is listed |
| JobBodyProperties.MissingParameterIsListed | WSFPlugin/src/main/java/org/eupathdb/websvccommon/wsfplugin/blast/MultiBlastServiceParams.java:56-81 | the names listed cover every read: a missing parameter the body reports is always among them |

## Left out

- Java exceptions: `NullPointerException` from a missing parameter, `NumberFormatException`, `ArrayIndexOutOfBoundsException` and `PluginUserException` all become one `Error` value. A missing parameter is recorded with its name as `MissingParameter`, where Java throws a bare `NullPointerException`.
- A null `projectID` or a null form value is not modelled: both are strings here. With a null `projectID`, `JSONObject.put` would leave out the `site` key. With a null form value, the read would throw as if the name were missing.
- `JavaLang.ParseInt`: only the ASCII digits `0`-`9` are accepted. `Integer.parseInt` goes through `Character.digit` and also accepts other Unicode decimal digits, so `"١٢٣"` is 123 in Java and rejected here.
- `ParamValueToInt`, and every integer and pair read built on it: the same ASCII-only restriction, inherited from `JavaLang.ParseInt`.
- `LongTokens`: length is counted in characters, not in UTF-16 code units as `String.length()` counts them. The two differ only for characters outside the Basic Multilingual Plane.
- JSON serialisation by `org.json` is left out: key order, number formatting and escaping. A JSON object is modelled as a map from key to value.
- Logging through `LOG` is left out. It has no effect on the result.
- `PluginUtilities` is not part of this model. The form's names are taken as the constants at lines 32-54.
- The TypeScript original of this logic (`params-query.ts`), which this class transcribes and must be kept in sync with, is not modelled.
- `TwoTuple` is modelled as a Dafny pair.
