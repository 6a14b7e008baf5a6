/**
 * The sequential runner: `asyncForEach(params, callback)` of src/index.js
 * together with its callback. Each test is awaited before the next starts;
 * the module-level counter starts at 1, numbers the test being run, and is
 * incremented once that test has finished.
 */
module Runner {
  import opened Wrappers
  import opened Json
  import opened Evaluator

  /** What the run records of one test: its number, its title, and its evaluation. */
  datatype Report = Report(number: int, title: Value, evaluation: Evaluation)

  predicate Threw(r: Report) {
    r.evaluation.outcome.TypeErrorThrown?
  }

  /**
   * Runs every test in index order. `transport(n)` is how the transport
   * answers while test number `n` runs. A test whose evaluation rejects ends
   * the loop, as the rejection leaves `asyncForEach` before the counter moves.
   */
  method RunTests(tests: seq<Test>, transport: nat -> (Call -> Response))
    returns (reports: seq<Report>, counter: int)
    ensures |reports| <= |tests|
    ensures forall k :: 0 <= k < |reports| ==>
              reports[k] == Report(k + 1, tests[k].title, Testing(tests[k], transport(k + 1)))
    ensures forall k :: 0 <= k < |reports| - 1 ==> !Threw(reports[k])
    ensures |reports| < |tests| ==> reports != [] && Threw(reports[|reports| - 1])
    ensures (forall k :: 0 <= k < |tests| ==> !Testing(tests[k], transport(k + 1)).outcome.TypeErrorThrown?)
              ==> |reports| == |tests|
    ensures counter == if reports != [] && Threw(reports[|reports| - 1]) then |reports| else |reports| + 1
  {
    reports, counter := [], 1;
    var i := 0;
    while i < |tests|
      invariant 0 <= i <= |tests|
      invariant |reports| == i && counter == i + 1
      invariant forall k :: 0 <= k < i ==>
                  reports[k] == Report(k + 1, tests[k].title, Testing(tests[k], transport(k + 1)))
      invariant forall k :: 0 <= k < i ==> !Threw(reports[k])
    {
      var evaluation := Testing(tests[i], transport(counter));
      reports := reports + [Report(counter, tests[i].title, evaluation)];
      if evaluation.outcome.TypeErrorThrown? {
        return;
      }
      counter := counter + 1;
      i := i + 1;
    }
  }
}
