/**
 * The result viewer: a two-message state machine that keeps the path of a
 * results file and the `GraderResult` last read from it, and the rules that
 * turn a grader result into what is shown, namely the headline score and
 * one entry per test.
 *
 * Reading the file and parsing its JSON are passed in as functions (`read`,
 * `parse`), and so is the rendering of an `f32` as text (`render`).
 * An `unwrap()` of an absent value panics; each such call becomes a
 * precondition here.
 */
module Results {
  import opened Wrappers
  import opened Gradescope

  type Bytes = seq<bv8>

  datatype Message = RetrieveResults | PathChanged(path: string)

  /** The part of the viewer's state that is not widget state. */
  datatype State = State(graderResult: Option<GraderResult>, retrievePath: string)

  /** `fs::read` followed by `serde_json::from_slice(..).ok()`: a failed read or a failed parse gives no result. */
  function Load(path: string, read: string -> Result<Bytes, string>,
                parse: Bytes -> Result<GraderResult, string>): (r: Option<GraderResult>)
    ensures r.Some? <==> read(path).Success? && parse(read(path).value).Success?
    ensures r.Some? ==> r.value == parse(read(path).value).value
  {
    match read(path)
    case Success(bytes) => parse(bytes).ToOption()
    case Failure(_) => None
  }

  /** What one message does to the state. */
  function Step(s: State, m: Message, read: string -> Result<Bytes, string>,
                parse: Bytes -> Result<GraderResult, string>): (r: State)
    ensures m.PathChanged? ==> r.retrievePath == m.path && r.graderResult == s.graderResult
    ensures m.RetrieveResults? ==> r.retrievePath == s.retrievePath
    ensures m.RetrieveResults? ==> r.graderResult == Load(s.retrievePath, read, parse)
  {
    match m
    case RetrieveResults => s.(graderResult := Load(s.retrievePath, read, parse))
    case PathChanged(p) => s.(retrievePath := p)
  }

  /** After a retrieval the previous result is gone: two states on the same path end up equal. */
  lemma RetrieveForgetsPrevious(s: State, t: State, read: string -> Result<Bytes, string>,
                                parse: Bytes -> Result<GraderResult, string>)
    requires s.retrievePath == t.retrievePath
    ensures Step(s, RetrieveResults, read, parse) == Step(t, RetrieveResults, read, parse)
  {
  }

  /** Retrieving twice from an unchanged file is retrieving once. */
  lemma RetrieveIdempotent(s: State, read: string -> Result<Bytes, string>,
                           parse: Bytes -> Result<GraderResult, string>)
    ensures var once := Step(s, RetrieveResults, read, parse);
            Step(once, RetrieveResults, read, parse) == once
  {
  }

  /** Of two path changes in a row only the last one counts. */
  lemma PathChangedLastWins(s: State, p: string, q: string, read: string -> Result<Bytes, string>,
                            parse: Bytes -> Result<GraderResult, string>)
    ensures Step(Step(s, PathChanged(p), read, parse), PathChanged(q), read, parse)
         == Step(s, PathChanged(q), read, parse)
  {
  }

  /** The viewer: its result cache and the path it reads from. */
  class Visualizer {
    var graderResult: Option<GraderResult>
    var retrievePath: string

    /** `Visualizer::default()`: no result and an empty path. */
    constructor ()
      ensures graderResult == None && retrievePath == ""
    {
      graderResult := None;
      retrievePath := "";
    }

    function Snapshot(): State
      reads this
    {
      State(graderResult, retrievePath)
    }

    method Update(message: Message, read: string -> Result<Bytes, string>,
                  parse: Bytes -> Result<GraderResult, string>)
      modifies this
      ensures Snapshot() == Step(old(Snapshot()), message, read, parse)
    {
      match message {
        case RetrieveResults =>
          graderResult := match read(retrievePath) {
            case Success(bytes) => parse(bytes).ToOption()
            case Failure(_) => None
          };
        case PathChanged(path) =>
          retrievePath := path;
      }
    }
  }

  /** Every test has a score, so that the fold over the tests does not panic. */
  predicate AllScored(tests: seq<TestResult>)
  {
    forall i :: 0 <= i < |tests| ==> tests[i].score.Some?
  }

  /** The sum of the test scores, by recursion from the right: the reference for the fold. */
  function TotalScore(tests: seq<TestResult>): real
    requires AllScored(tests)
  {
    if tests == [] then 0.0 else tests[0].score.value + TotalScore(tests[1..])
  }

  /** The total of a concatenation is the sum of the totals. */
  lemma {:induction false} TotalScoreAppend(a: seq<TestResult>, b: seq<TestResult>)
    requires AllScored(a) && AllScored(b)
    ensures AllScored(a + b)
    ensures TotalScore(a + b) == TotalScore(a) + TotalScore(b)
  {
    if a == [] {
      assert a + b == b;
    } else {
      assert (a + b)[1..] == a[1..] + b;
      TotalScoreAppend(a[1..], b);
    }
  }

  /** The left fold `acc + t1.score + t2.score + ...` of `view_result`. */
  function ScoreFold(acc: real, tests: seq<TestResult>): (r: real)
    requires AllScored(tests)
    ensures r == acc + TotalScore(tests)
    decreases |tests|
  {
    if tests == [] then acc else ScoreFold(acc + tests[0].score.value, tests[1..])
  }

  /** The headline score is defined (nothing panics): a top-level score, or a list of scored tests. */
  predicate HeadlineDefined(result: GraderResult)
  {
    result.score.Some? || (result.tests.Some? && AllScored(result.tests.value))
  }

  /** The headline score: the top-level score if present, else the fold of the test scores from 0. */
  function HeadlineScore(result: GraderResult): (r: real)
    requires HeadlineDefined(result)
    ensures result.score.Some? ==> r == result.score.value
    ensures result.score.None? ==> r == TotalScore(result.tests.value)
  {
    match result.score
    case Some(s) => s
    case None => ScoreFold(0.0, result.tests.value)
  }

  /** A result whose tests are all scored has the same headline score as one that gives their total directly. */
  lemma HeadlineScoreGivenOrDerived(result: GraderResult)
    requires result.tests.Some? && AllScored(result.tests.value)
    ensures HeadlineScore(result.(score := None))
         == HeadlineScore(result.(score := Some(TotalScore(result.tests.value))))
  {
  }

  /** Appending a scored test to a result without a top-level score raises the headline by that test's score. */
  lemma HeadlineScoreAddTest(result: GraderResult, t: TestResult)
    requires result.score.None? && result.tests.Some? && AllScored(result.tests.value)
    requires t.score.Some?
    ensures HeadlineDefined(result.(tests := Some(result.tests.value + [t])))
    ensures HeadlineScore(result.(tests := Some(result.tests.value + [t])))
         == HeadlineScore(result) + t.score.value
  {
    TotalScoreAppend(result.tests.value, [t]);
  }

  /** The result of the JSON object `{}` is a valid value, yet its headline score is undefined: `view_result` panics on it. */
  lemma EmptyResultHasNoHeadline()
    ensures !HeadlineDefined(EmptyGraderResult())
  {
  }

  /** `create_test_header` does not panic: the number, score and maximum score are present. */
  predicate HeaderDefined(t: TestResult)
  {
    t.number.Some? && t.score.Some? && t.maxScore.Some?
  }

  /** `view_test` does not panic: the header is defined and the output is present. */
  predicate Renderable(t: TestResult)
  {
    HeaderDefined(t) && t.output.Some?
  }

  function NameOrEmpty(t: TestResult): string
  {
    match t.name
    case Some(n) => n
    case None => ""
  }

  /**
   * `create_test_header`: the header line shown above a test's output. It
   * starts with the test's number and ends with ")"; `TestHeaderLayout`
   * places every part.
   */
  function TestHeader(t: TestResult, render: real -> string): (r: string)
    requires HeaderDefined(t)
    ensures |r| == |t.number.value| + |NameOrEmpty(t)| + |render(t.score.value)| + |render(t.maxScore.value)| + 7
    ensures r[..|t.number.value|] == t.number.value
    ensures r[|r| - 1] == ')'
  {
    t.number.value + ") " + NameOrEmpty(t) + "(" + render(t.score.value) + " / " + render(t.maxScore.value) + ")"
  }

  /**
   * The layout of a header: the test's number, ") ", its name (empty if
   * absent), "(", its score, " / ", its maximum score and ")", with no space
   * before "(".
   */
  lemma TestHeaderLayout(t: TestResult, render: real -> string)
    requires HeaderDefined(t)
    ensures var r := TestHeader(t, render);
            var n, a, s, m := t.number.value, NameOrEmpty(t), render(t.score.value), render(t.maxScore.value);
            && |r| == |n| + |a| + |s| + |m| + 7
            && r[..|n|] == n
            && r[|n|..|n| + 2] == ") "
            && r[|n| + 2..|n| + 2 + |a|] == a
            && r[|n| + 2 + |a|] == '('
            && r[|n| + 3 + |a|..|n| + 3 + |a| + |s|] == s
            && r[|n| + 3 + |a| + |s|..|n| + 6 + |a| + |s|] == " / "
            && r[|n| + 6 + |a| + |s|..|r| - 1] == m
            && r[|r| - 1] == ')'
  {
  }

  /** An absent name and an empty name give the same header. */
  lemma HeaderAbsentNameIsEmpty(t: TestResult, render: real -> string)
    requires HeaderDefined(t)
    ensures TestHeader(t.(name := None), render) == TestHeader(t.(name := Some("")), render)
  {
  }

  /** One entry of the test column: a plain label, or a test's header above its output. */
  datatype Entry = Label(text: string) | TestEntry(header: string, output: string)

  const NoTestsLabel: string := "No Tests"
  const ScoreLabel: string := "Score: "

  /** What `view_test` shows for one test. */
  function ViewTest(t: TestResult, render: real -> string): (e: Entry)
    requires Renderable(t)
    ensures e.TestEntry? && e.header == TestHeader(t, render) && e.output == t.output.value
  {
    TestEntry(TestHeader(t, render), t.output.value)
  }

  /** The fold of `view_result` that pushes one entry per test onto the column. */
  function PushTests(column: seq<Entry>, tests: seq<TestResult>, render: real -> string): (r: seq<Entry>)
    requires forall i :: 0 <= i < |tests| ==> Renderable(tests[i])
    ensures |r| == |column| + |tests|
    ensures r[..|column|] == column
    ensures forall j :: |column| <= j < |r| ==> r[j] == ViewTest(tests[j - |column|], render)
    decreases |tests|
  {
    if tests == [] then column
    else PushTests(column + [ViewTest(tests[0], render)], tests[1..], render)
  }

  /** The test column: one "No Tests" label when there are no tests, otherwise one entry per test in order. */
  function TestColumn(tests: Option<seq<TestResult>>, render: real -> string): (r: seq<Entry>)
    requires tests.Some? ==> forall i :: 0 <= i < |tests.value| ==> Renderable(tests.value[i])
    ensures tests.None? ==> r == [Label(NoTestsLabel)]
    ensures tests.Some? ==> |r| == |tests.value|
    ensures tests.Some? ==> forall i :: 0 <= i < |r| ==> r[i] == ViewTest(tests.value[i], render)
  {
    match tests
    case Some(ts) => PushTests([], ts, render)
    case None => [Label(NoTestsLabel)]
  }

  /** What `view_result` shows: the score row and the test column. */
  datatype ResultView = ResultView(headline: real, scoreRow: seq<string>, entries: seq<Entry>)

  /** `view_result` does not panic: the headline score and every test's entry are defined. */
  predicate Viewable(result: GraderResult)
  {
    && HeadlineDefined(result)
    && (result.tests.Some? ==> forall i :: 0 <= i < |result.tests.value| ==> Renderable(result.tests.value[i]))
  }

  function ViewResult(result: GraderResult, render: real -> string): (v: ResultView)
    requires Viewable(result)
    ensures v.headline == if result.score.Some? then result.score.value else TotalScore(result.tests.value)
    ensures v.scoreRow == [ScoreLabel, render(v.headline)]
    ensures result.tests.None? ==> v.entries == [Label(NoTestsLabel)]
    ensures result.tests.Some? ==> |v.entries| == |result.tests.value|
    ensures result.tests.Some? ==> forall i :: 0 <= i < |v.entries| ==>
              v.entries[i] == TestEntry(TestHeader(result.tests.value[i], render), result.tests.value[i].output.value)
  {
    var score := HeadlineScore(result);
    ResultView(score, [ScoreLabel, render(score)], TestColumn(result.tests, render))
  }

  /** `view_result` panics exactly when there is neither a top-level score nor a test list, or some test lacks a number, score, maximum score or output. */
  lemma ViewableIff(result: GraderResult)
    ensures Viewable(result) <==>
              && (result.score.Some? || result.tests.Some?)
              && (result.tests.Some? ==> forall i :: 0 <= i < |result.tests.value| ==> Renderable(result.tests.value[i]))
  {
  }

  /** `{"score": null, "tests": [{"score": 5}, {"score": 3}]}` and `{"score": 8}` both have headline score 8. */
  lemma HeadlineScoreExample()
    ensures var t := TestResult(None, None, None, None, None, None, None, None);
            var derived := EmptyGraderResult().(tests := Some([t.(score := Some(5.0)), t.(score := Some(3.0))]));
            var given := EmptyGraderResult().(score := Some(8.0));
            HeadlineScore(derived) == HeadlineScore(given) == 8.0
  {
    var t := TestResult(None, None, None, None, None, None, None, None);
    var tests := [t.(score := Some(5.0)), t.(score := Some(3.0))];
    assert tests[1..][1..] == [];
    assert TotalScore(tests[1..]) == 3.0 + TotalScore(tests[1..][1..]);
  }

  /** Test "1" named "t1" scoring 9.5 of 10 has the header `1) t1(9.5 / 10)`, given the rendering of its numbers. */
  lemma HeaderExample(render: real -> string)
    requires render(9.5) == "9.5" && render(10.0) == "10"
    ensures TestHeader(TestResult(Some(9.5), Some(10.0), Some("t1"), Some("1"), Some("ok"), None, None, None), render)
         == "1) t1(9.5 / 10)"
  {
  }
}
