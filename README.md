# gradescope_local: result schema and result viewer

This project models the core of `gradescope_local`, a tool for inspecting the
`results.json` a Gradescope autograder produces. It covers two source files.

- `src/gradescope.rs` is the result schema. A `GraderResult` and each of its
  `TestResult`s are records whose every field is optional. `execution_time` is
  a `u32`, modelled as the newtype `uint32` (a natural number below 2^32).
  `tests` is an ordered sequence, and there is no leaderboard field.
  `Visibility` has four variants, written in JSON in snake_case. The model
  gives the name mapping both ways and proves that it round-trips.
- `src/results.rs` is the result viewer. The class `Visualizer` keeps the
  path of a results file and the last grader result it retrieved. Its
  `Update` handles two messages. `PathChanged` stores a path. `RetrieveResults`
  replaces the cached result with "read, then parse, or nothing". The pure part
  of `view_result` is modelled too: the headline score (the top-level score,
  otherwise the left fold of the test scores from 0), the test column (one
  "No Tests" label, or one entry per test in order) and the test header
  string of `create_test_header`.

Every `unwrap()` in the viewer panics on an absent value. Each one is a
precondition here: `HeadlineDefined`, `HeaderDefined`, `Renderable` and
`Viewable` say exactly when the code does not panic.

Where the code panics, the model has a precondition and invents no fallback.
- When `score` and `tests` are both absent, the code panics at `unwrap` (src/results.rs:66). See `EmptyResultHasNoHeadline`.
- An absent test number, score or maximum score panics (src/results.rs:147-148), and so does an absent test output (src/results.rs:142).

The header has no space before `(`, giving `1) t1(9.5 / 10)`. See `HeaderExample`.

`src/main.rs:19` declares only `mod gradescope;`, so `results.rs` is not part of the built program. The model follows `results.rs` as written.

## Model

| member | source | states |
|---|---|---|
| `Wrappers.Result.ToOption` | src/results.rs:48 | `Result::ok` gives a value exactly when the parse succeeded, and it is the parsed value |
| `Gradescope.VisibilityName` | src/gradescope.rs:33-40 | every variant is written as one of the four snake_case names |
| `Gradescope.ParseVisibility` | src/gradescope.rs:33-40 | a string decodes exactly when it is one of `hidden`, `after_published`, `after_due_date`, `visible`; a decoded variant's name is the input string |
| `Gradescope.VisibilityRoundTrip` | src/gradescope.rs:34-39 | decoding the name of any variant gives that variant back |
| `Gradescope.VisibilityNameInjective` | src/gradescope.rs:34-39 | distinct variants have distinct names |
| `Results.Load` | src/results.rs:46-53 | the loaded result is present exactly when the read and the parse both succeed, and it is then the parsed result |
| `Results.Step` | src/results.rs:43-59 | `PathChanged(p)` sets the path to `p` and keeps the result; `RetrieveResults` keeps the path and sets the result to the load from that path |
| `Results.RetrieveForgetsPrevious` | src/results.rs:45-54 | after `RetrieveResults` the state depends only on the path, never on the previous result |
| `Results.RetrieveIdempotent` | src/results.rs:45-54 | retrieving twice from an unchanged file is the same as retrieving once |
| `Results.PathChangedLastWins` | src/results.rs:55-57 | of two path changes in a row only the last one counts |
| `Results.Visualizer.constructor` | src/results.rs:28-39 | the default viewer has no result and an empty path |
| `Results.Visualizer.Update` | src/results.rs:43-59 | the new result and path are those `Step` gives for the old ones |
| `Results.TotalScoreAppend` | src/results.rs:64-71 | the test-score total of a concatenation is the sum of the two totals |
| `Results.ScoreFold` | src/results.rs:68-71 | the left fold from `acc` equals `acc` plus the total of the test scores |
| `Results.HeadlineScore` | src/results.rs:62-72 | a present top-level score is the headline whatever the tests hold; otherwise the headline is the total of the test scores (0 for no tests) |
| `Results.HeadlineScoreGivenOrDerived` | src/results.rs:62-72 | the headline is the same whether the total is given as `score` or only derived from the tests |
| `Results.HeadlineScoreAddTest` | src/results.rs:64-71 | without a top-level score, appending a scored test raises the headline by that test's score |
| `Results.HeadlineScoreExample` | src/results.rs:62-72 | tests scoring 5 and 3 with no top-level score, and a top-level score of 8, both give headline 8 |
| `Results.EmptyResultHasNoHeadline` | src/results.rs:62-72 | the all-absent result is a valid value, but its headline score is undefined, so `view_result` panics on it |
| `Results.TestHeaderLayout` | src/results.rs:146-149 | the header is the number, `) `, the name (empty if absent), `(`, the score, ` / `, the maximum score and `)`, at those exact positions |
| `Results.TestHeader` | src/results.rs:146-149 | the header starts with the test's number, ends with `)` and is 7 characters longer than its parts; `TestHeaderLayout` places every part |
| `Results.ViewTest` | src/results.rs:139-144 | a test's entry is its header above its output; it requires `Renderable`, since an absent output or header field panics |
| `Results.HeaderAbsentNameIsEmpty` | src/results.rs:147 | an absent name contributes the empty string |
| `Results.HeaderExample` | src/results.rs:146-149 | test `1` named `t1` scoring 9.5 of 10 has header `1) t1(9.5 / 10)` |
| `Results.PushTests` | src/results.rs:73-78 | the fold keeps the column it starts from and appends one entry per test, in input order |
| `Results.TestColumn` | src/results.rs:73-83 | absent tests give exactly one "No Tests" label; present tests give one entry per test, in order, with its header and output |
| `Results.ViewResult` | src/results.rs:61-98 | the view shows "Score: " and the headline score, then the test column |
| `Results.ViewableIff` | src/results.rs:61-98 | `view_result` does not panic exactly when `score` or `tests` is present and every test has a number, score, maximum score and output |

## Left out

- Reading the file (`fs::read`) and parsing the JSON (`serde_json::from_slice`) are foreign library calls. They are the parameters `read` and `parse` of `Load`, `Step` and `Visualizer.Update`. Accepting a visibility written as `{"hidden": null}` is part of that parsing.
- `f32` is modelled as `real`. `HeadlineScore`, `ScoreFold` and `TotalScoreAppend` use exact addition, so they do not capture `f32` rounding. With `f32` the left fold's result can depend on the order of the tests.
- `f32::to_string` is the parameter `render` of `TestHeader`, `TestColumn` and `ViewResult`.
- `extra_data` (`serde_json::Value`) is the datatype `JsonValue`, which nothing inspects.
- Widget construction is not modelled: `view` and its "No Results Loaded" fallback (src/results.rs:100-137), spacing and padding, and the button, text input and scrollable state fields of `Visualizer`.
- `src/docker.rs` is not modelled. It is a GUI page whose `RunDocker` does nothing and which only displays the Dockerfile template.
- `src/main.rs` is not modelled. It is application boilerplate with a constant title and view.
- The local container pipeline (workspace resolution, Dockerfile generation, running the container, removing the artifact) is not in these source files, so it is not modelled.
