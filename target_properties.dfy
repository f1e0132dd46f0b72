/** Properties of the targets array of jobConfig: one entry per organism
    whose name is longer than three characters, in the order the organisms
    are listed, each naming the organism's file for the database type. */
module TargetProperties {
  import opened Wrappers
  import opened JavaLang
  import opened Json
  import opened MultiBlastServiceParams

  /** The filter works piece by piece, so it keeps the order of the list. */
  lemma {:induction false} LongTokensAppend(a: seq<string>, b: seq<string>)
    ensures LongTokens(a + b) == LongTokens(a) + LongTokens(b)
  {
    if |a| > 0 {
      assert (a + b)[1..] == a[1..] + b;
      LongTokensAppend(a[1..], b);
    } else {
      assert a + b == b;
    }
  }

  /** Names of three characters or fewer all go. */
  lemma {:induction false} LongTokensOfShort(tokens: seq<string>)
    requires forall k :: 0 <= k < |tokens| ==> |tokens[k]| <= 3
    ensures LongTokens(tokens) == []
  {
    if |tokens| > 0 {
      LongTokensOfShort(tokens[1..]);
    }
  }

  /** Dropping the trailing empty pieces, as `String.split` does, changes no
      target: the targets are those of every piece between commas. */
  lemma LongTokensOfSplit(s: string)
    ensures LongTokens(Split(s, ',')) == LongTokens(SplitAll(s, ','))
  {
    var all := SplitAll(s, ',');
    var kept := Split(s, ',');
    assert all == kept + all[|kept|..];
    LongTokensAppend(kept, all[|kept|..]);
    LongTokensOfShort(all[|kept|..]);
  }

  /** `buildNewJobRequestTargetJson` fails exactly when the organism list or
      the database type is missing, the organism list first; otherwise its
      targets are the long pieces of the organism list. */
  lemma TargetJsonResult(params: Params)
    ensures var r := BuildNewJobRequestTargetJson(params);
      r.Success? <==> Name(DatabaseOrganism) in params && Name(DatabaseType) in params
    ensures Name(DatabaseOrganism) !in params ==>
      BuildNewJobRequestTargetJson(params) == Failure(MissingParameter(Name(DatabaseOrganism)))
    ensures Name(DatabaseOrganism) in params && Name(DatabaseType) !in params ==>
      BuildNewJobRequestTargetJson(params) == Failure(MissingParameter(Name(DatabaseType)))
    ensures Name(DatabaseOrganism) in params && Name(DatabaseType) in params ==>
      BuildNewJobRequestTargetJson(params) == Success(JArray(TargetsJson(
        LongTokens(SplitAll(params[Name(DatabaseOrganism)], ',')),
        TargetFileSuffix(params[Name(DatabaseType)]))))
  {
    if Name(DatabaseOrganism) in params {
      LongTokensOfSplit(params[Name(DatabaseOrganism)]);
    }
  }

  /** For organisms listed with commas between them, the targets are the
      organisms with names longer than three characters, in the order
      listed, each with its display name and its file name. */
  lemma TargetsOfOrganismList(params: Params, organisms: seq<string>)
    requires |organisms| > 0
    requires forall k :: 0 <= k < |organisms| ==> ',' !in organisms[k]
    requires Name(DatabaseOrganism) in params && params[Name(DatabaseOrganism)] == Join(organisms, ',')
    requires Name(DatabaseType) in params
    ensures var suffix := TargetFileSuffix(params[Name(DatabaseType)]);
      BuildNewJobRequestTargetJson(params) == Success(JArray(TargetsJson(LongTokens(organisms), suffix)))
  {
    TargetJsonResult(params);
    SplitAllJoin(organisms, ',');
  }

  /** There are never more targets than pieces between commas. */
  lemma TargetsAtMostPieces(params: Params)
    requires BuildNewJobRequestTargetJson(params).Success?
    ensures BuildNewJobRequestTargetJson(params).value.JArray?
    ensures |BuildNewJobRequestTargetJson(params).value.items| <= |SplitAll(params[Name(DatabaseOrganism)], ',')|
  {
    TargetJsonResult(params);
  }

  /** Each target names the organism and its file: the organism followed by
      the database type, with "PopSet" databases stored as "Isolates". */
  lemma TargetFileNames(organism: string, databaseType: string)
    ensures var t := TargetJson(organism, TargetFileSuffix(databaseType));
      && t.JObject? && t.fields.Keys == {TargetDisplayName, TargetFile}
      && t.fields[TargetDisplayName] == JString(organism)
      && t.fields[TargetFile] == JString(organism + (if databaseType == "PopSet" then "Isolates" else databaseType))
  {
  }

  /** Three pieces joined with commas. */
  lemma JoinThree(a: string, b: string, c: string)
    ensures Join([a, b, c], ',') == a + "," + b + "," + c
  {
    assert [a, b, c][1..] == [b, c] && [b, c][1..] == [c];
    assert Join([b, c], ',') == b + "," + c;
    assert Join([a, b, c], ',') == a + "," + (b + "," + c);
  }

  /** Of three names, a short middle one is dropped. */
  lemma LongTokensDropMiddle(a: string, b: string, c: string)
    requires |a| > 3 && |b| <= 3 && |c| > 3
    ensures LongTokens([a, b, c]) == [a, c]
  {
    assert [a, b, c][1..] == [b, c] && [b, c][1..] == [c];
  }

  /** Of three organisms, a short one in the middle is dropped, and a
      PopSet database names the Isolates files. */
  lemma TargetsDropShortOne(params: Params, a: string, b: string, c: string)
    requires ',' !in a && ',' !in b && ',' !in c
    requires |a| > 3 && |b| <= 3 && |c| > 3
    requires Name(DatabaseOrganism) in params && params[Name(DatabaseOrganism)] == a + "," + b + "," + c
    requires Name(DatabaseType) in params && params[Name(DatabaseType)] == "PopSet"
    ensures BuildNewJobRequestTargetJson(params) ==
      Success(JArray([TargetJson(a, "Isolates"), TargetJson(c, "Isolates")]))
  {
    JoinThree(a, b, c);
    TargetsOfOrganismList(params, [a, b, c]);
    LongTokensDropMiddle(a, b, c);
    var targets := TargetsJson([a, c], "Isolates");
    assert targets == [targets[0], targets[1]];
  }
}
