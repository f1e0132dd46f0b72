/** JSON values as the mapper builds them with `JSONObject` and `JSONArray`.

    A `JSONObject` is unordered and putting a key again replaces its value,
    so an object is a map. Its keys are drawn from the fixed vocabulary the
    multi-blast job body uses; `KeyName` gives each key's text on the wire. */
module Json {
  import opened Wrappers

  datatype Key =
    | JobConfig | BlastConfig
    | Site | Targets | Query | AddToUserCollection
    | TargetDisplayName | TargetFile
    | EValue | SoftMasking | LowercaseMasking | MaxTargetSequences | MaxHSPs
    | Tool | Task | GapOpen | GapExtend | Reward | Penalty | WordSize | Matrix | CompBasedStats
    | Dust | Seg | Enabled

  datatype Json =
    | JBool(b: bool)
    | JNumber(n: int)
    | JString(s: string)
    | JArray(items: seq<Json>)
    | JObject(fields: map<Key, Json>)

  function KeyName(k: Key): string {
    match k
    case JobConfig => "jobConfig"
    case BlastConfig => "blastConfig"
    case Site => "site"
    case Targets => "targets"
    case Query => "query"
    case AddToUserCollection => "addToUserCollection"
    case TargetDisplayName => "targetDisplayName"
    case TargetFile => "targetFile"
    case EValue => "eValue"
    case SoftMasking => "softMasking"
    case LowercaseMasking => "lowercaseMasking"
    case MaxTargetSequences => "maxTargetSequences"
    case MaxHSPs => "maxHSPs"
    case Tool => "tool"
    case Task => "task"
    case GapOpen => "gapOpen"
    case GapExtend => "gapExtend"
    case Reward => "reward"
    case Penalty => "penalty"
    case WordSize => "wordSize"
    case Matrix => "matrix"
    case CompBasedStats => "compBasedStats"
    case Dust => "dust"
    case Seg => "seg"
    case Enabled => "enabled"
  }

  /** The key a wire name stands for, if any. */
  function KeyOf(name: string): Option<Key> {
    match name
    case "jobConfig" => Some(JobConfig)
    case "blastConfig" => Some(BlastConfig)
    case "site" => Some(Site)
    case "targets" => Some(Targets)
    case "query" => Some(Query)
    case "addToUserCollection" => Some(AddToUserCollection)
    case "targetDisplayName" => Some(TargetDisplayName)
    case "targetFile" => Some(TargetFile)
    case "eValue" => Some(EValue)
    case "softMasking" => Some(SoftMasking)
    case "lowercaseMasking" => Some(LowercaseMasking)
    case "maxTargetSequences" => Some(MaxTargetSequences)
    case "maxHSPs" => Some(MaxHSPs)
    case "tool" => Some(Tool)
    case "task" => Some(Task)
    case "gapOpen" => Some(GapOpen)
    case "gapExtend" => Some(GapExtend)
    case "reward" => Some(Reward)
    case "penalty" => Some(Penalty)
    case "wordSize" => Some(WordSize)
    case "matrix" => Some(Matrix)
    case "compBasedStats" => Some(CompBasedStats)
    case "dust" => Some(Dust)
    case "seg" => Some(Seg)
    case "enabled" => Some(Enabled)
    case _ => None
  }

  /** Every key reads back from its wire name. */
  lemma KeyOfKeyName(k: Key)
    ensures KeyOf(KeyName(k)) == Some(k)
  {
    match k
    case JobConfig =>
    case BlastConfig =>
    case Site =>
    case Targets =>
    case Query =>
    case AddToUserCollection =>
    case TargetDisplayName =>
    case TargetFile =>
    case EValue =>
    case SoftMasking =>
    case LowercaseMasking =>
    case MaxTargetSequences =>
    case MaxHSPs =>
    case Tool =>
    case Task =>
    case GapOpen =>
    case GapExtend =>
    case Reward =>
    case Penalty =>
    case WordSize =>
    case Matrix =>
    case CompBasedStats =>
    case Dust =>
    case Seg =>
    case Enabled =>
  }

  /** Distinct keys have distinct wire names, so an object written out has
      no repeated field. */
  lemma KeyNameInjective(a: Key, b: Key)
    requires KeyName(a) == KeyName(b)
    ensures a == b
  {
    KeyOfKeyName(a);
    KeyOfKeyName(b);
  }
}
