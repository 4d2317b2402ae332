/**
 * The result schema a Gradescope autograder writes (`results.json`): every
 * field of a grader result and of a test result is optional, and the
 * visibility settings are one of four names in snake_case.
 */
module Gradescope {
  import opened Wrappers

  /** Rust's `u32`, the type of `execution_time`. */
  newtype uint32 = x: int | 0 <= x < 0x1_0000_0000

  /** A JSON value as `serde_json::Value` holds it; the model never looks inside. */
  datatype JsonValue =
    | JNull
    | JBool(b: bool)
    | JNumber(n: real)
    | JString(s: string)
    | JArray(items: seq<JsonValue>)
    | JObject(members: seq<(string, JsonValue)>)

  datatype Visibility = Hidden | AfterPublished | AfterDueDate | Visible

  /** The four names a visibility is written as in the JSON. */
  const VisibilityNames: set<string> := {"hidden", "after_published", "after_due_date", "visible"}

  /** The snake_case name of a variant (`rename_all = "snake_case"`). */
  function VisibilityName(v: Visibility): (s: string)
    ensures s in VisibilityNames
  {
    match v
    case Hidden => "hidden"
    case AfterPublished => "after_published"
    case AfterDueDate => "after_due_date"
    case Visible => "visible"
  }

  /** Decoding a JSON string into a visibility: exactly the four names are accepted. */
  function ParseVisibility(s: string): (r: Option<Visibility>)
    ensures r.Some? <==> s in VisibilityNames
    ensures r.Some? ==> VisibilityName(r.value) == s
  {
    if s == "hidden" then Some(Hidden)
    else if s == "after_published" then Some(AfterPublished)
    else if s == "after_due_date" then Some(AfterDueDate)
    else if s == "visible" then Some(Visible)
    else None
  }

  /** Decoding the name of a variant gives the variant back. */
  lemma VisibilityRoundTrip(v: Visibility)
    ensures ParseVisibility(VisibilityName(v)) == Some(v)
  {
  }

  /** Distinct variants have distinct names. */
  lemma VisibilityNameInjective(v: Visibility, w: Visibility)
    ensures VisibilityName(v) == VisibilityName(w) ==> v == w
  {
    VisibilityRoundTrip(v);
    VisibilityRoundTrip(w);
  }

  /** One test case of a grader result; every field may be absent. */
  datatype TestResult = TestResult(
    score: Option<real>,
    maxScore: Option<real>,
    name: Option<string>,
    number: Option<string>,
    output: Option<string>,
    tags: Option<seq<string>>,
    visibility: Option<Visibility>,
    extraData: Option<JsonValue>)

  /** The whole grader result; every field may be absent, and there is no leaderboard. */
  datatype GraderResult = GraderResult(
    score: Option<real>,
    executionTime: Option<uint32>,
    output: Option<string>,
    visibility: Option<Visibility>,
    stdoutVisibility: Option<Visibility>,
    extraData: Option<JsonValue>,
    tests: Option<seq<TestResult>>)

  /** The `GraderResult` of the JSON object `{}`: every field absent. */
  function EmptyGraderResult(): GraderResult
  {
    GraderResult(None, None, None, None, None, None, None)
  }
}
