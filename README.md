# http-request-axios-tester, modelled in Dafny

The tool reads a list of test definitions, issues one HTTP request per test
through axios, and compares each response with an expected value under one of
six operators (`eq`, `ne`, `gt`, `gte`, `lt`, `lte`). This project models its
test-evaluation engine, `testing` in `src/index.js`, and the sequential runner
around it (`asyncForEach` and its callback), and proves what they promise.

Layout, one module per file:

- `wrappers.dfy` (`Wrappers`): `Option`.
- `text.dfy` (`Text`): ASCII lower-casing (`toLowerCase` on a method name) and
  the order JavaScript's `<` puts on strings, with its order laws.
- `json.dfy` (`Json`): JavaScript values (`Undefined` marks an absent property),
  truthiness, `typeof v == "object"`, and `JSON.stringify` as `Serialize`.
- `evaluator.dfy` (`Evaluator`): validation, argument binding, normalisation,
  the six comparisons, the conditional chain as written, the outcome and the
  status code. The transport is a parameter `Call -> Response`: the request
  the evaluator issues, and how it settles (`Ok(data)` or `Err(message)`).
- `properties.dfy` (`Properties`): lemmas over all tests and all transports.
- `runner.dfy` (`Runner`): the loop with its two counters.
- `scenarios.dfy` (`Scenarios`): concrete tests and their outcomes.

How the code behaves at its edges, and how the model follows it:

- Presence is truthiness: the code guards on `!test.method` (line 76),
  `test.operator &&` (line 87) and `if(test.expect)` (line 108), and the
  operator chain starts with `!test.operator` (line 112). So `0`, `false`, `""` and `null` count as missing, and
  a falsy operator means `eq`.
- A truthy `method` that is not a string stops the whole run. Calling
  `toUpperCase` or `toLowerCase` on it (lines 40 and 80) throws a TypeError.
  The callback then rejects before `i++`, and `asyncForEach` stops at that
  test. The model calls this `TypeErrorThrown`, and `RunTests` ends there.
- The failure line prints `JSON.stringify(resp.data)` (line 151), the raw
  payload and not its normalised form. The model's `Failed` carries that raw
  payload. The printing itself is left out.
- The chain of `if`s (lines 112-141) tests the operator with JavaScript's loose
  `==`, so an operator such as `["gt"]` would take the `gt` branch. Validation
  (line 87) refuses every such operator first, so only the six names reach the
  chain. `Evaluator.Chain` models the loose test as written.

## Model

| member | source | states |
|---|---|---|
| Text.Lower | src/index.js:80 | lower-casing keeps the length, maps each character by itself, and leaves no capital letter |
| Text.LowerIdempotent | src/index.js:80 | lower-casing an already lower-cased method changes nothing |
| Text.LessIrreflexive | src/index.js:123-131 | no string is `<` itself |
| Text.LessAsymmetric | src/index.js:123-131 | `a < b` and `b < a` never both hold |
| Text.LessTotal | src/index.js:123-141 | of two different strings one is `<` the other |
| Text.LessTransitive | src/index.js:123-131 | string `<` is transitive |
| Text.Less | src/index.js:123-141 | string `<` holds exactly when the first string is a proper prefix of the second or is smaller at the first position where they differ |
| Json.Truthy | src/index.js:76-112 | a value is truthy exactly when it is none of `undefined`, `null`, `false`, `0`, `""` |
| Json.IsObjectTyped | src/index.js:113-141 | `typeof v == "object"` holds exactly for null, arrays and objects |
| Json.Serialize | src/index.js:113-151 | `JSON.stringify` never yields an empty text; null gives "null", a number starts with a digit or a minus sign, and strings, arrays and objects are delimited by quotes, brackets and braces |
| Evaluator.ParseVerb | src/index.js:80-84 | a method string names verb v exactly when its lower-cased form is v's name |
| Evaluator.ParseOp | src/index.js:87 | an operator value names op exactly when it is the string op's name, case-sensitive |
| Evaluator.EffectiveOp | src/index.js:112 | a falsy operator means `eq`; a truthy valid one means the operator it names |
| Evaluator.Validate | src/index.js:76-91 | a test proceeds exactly when its method is a string naming a verb and its operator is falsy or valid; a falsy method aborts with NoMethod; a truthy non-string method throws; otherwise a halt is an abort |
| Evaluator.Bind | src/index.js:94-105 | the four-row table: (body, options), (body, null), (options, null), (null, null) by truthiness |
| Evaluator.Normalise | src/index.js:113-115 | object-typed values (null included) become their serialisation; every other value is left as it is |
| Evaluator.Compare | src/index.js:110-142 | the comparison is undecided exactly when a string meets a number or a boolean; with `undefined` on either side only `eq`/`ne` can hold, as equality; equal defined values satisfy exactly `eq`, `gte` and `lte` |
| Evaluator.Chain | src/index.js:110-142 | for every operator that passes validation, the conditional chain as written gives the comparison of the operator it names (`eq` when falsy) |
| Evaluator.Conclude | src/index.js:106-160 | a falsy expected value gives NoExpect with the payload; otherwise the outcome is Succeeded exactly when the chain gives true, Failed with the normalised expectation and the raw payload exactly when it gives false, and Incomparable exactly when it decides nothing |
| Evaluator.Testing | src/index.js:74-167 | a request is issued exactly when validation passes, otherwise the outcome is the validation's halt; the request carries the url, the verb parsed from the method and the bound arguments; a rejection is reported with its message, and an answer is judged by `Conclude` on its payload |
| Evaluator.Status | src/index.js:76-166 | the status is 0 or 1, and 1 exactly for an abort or a rejected request |
| Properties.MissingMethodAborts | src/index.js:76-79 | a falsy method aborts with status 1 and issues nothing, whatever the transport |
| Properties.UnknownMethodAborts | src/index.js:80-84 | a method naming no verb in any case aborts with status 1 and issues nothing |
| Properties.NonStringMethodThrows | src/index.js:80 | a truthy non-string method makes `testing` reject before any request |
| Properties.MethodCaseIgnored | src/index.js:80 | a method whose lower-cased form names a verb issues that verb |
| Properties.UpperCaseVerbAccepted | src/index.js:80 | any capitalisation of a verb's name parses to that verb |
| Properties.UnknownOperatorAborts | src/index.js:87-91 | a truthy operator that is not exactly one of the six names aborts with status 1 and issues nothing |
| Properties.UpperCaseOperatorRefused | src/index.js:87 | "EQ" does not pass the operator check |
| Properties.FalsyOperatorIsEq | src/index.js:112 | a test with a falsy operator evaluates exactly like the same test with "eq" |
| Properties.BindKeepsTruthyArguments | src/index.js:94-105 | a truthy body is always second, a truthy options is always passed, and no falsy value other than null is passed |
| Properties.VerbDoesNotChangeBinding | src/index.js:94-105 | two tests that differ only in their verb issue requests with the same url and arguments |
| Properties.NoExpectSucceeds | src/index.js:108-160 | with a falsy expected value any response gives NoExpect and status 0 |
| Properties.ResponseJudged | src/index.js:94-160 | once validation passes and the issued request is answered, the outcome is the judgement of that payload |
| Properties.StatusFollowsTransport | src/index.js:160-166 | an arriving response gives status 0 whatever the comparison says; a rejection gives status 1 with its message |
| Properties.SelfExpectSucceeds | src/index.js:108-116 | expecting exactly the payload that arrives, under the default operator, succeeds |
| Properties.NeNegatesEqOutcome | src/index.js:112-121 | on the same test and response, "ne" fails exactly where "eq" succeeds and succeeds exactly where it fails |
| Properties.ChainFallsBackToLte | src/index.js:112-141 | a truthy operator loosely equal to none of "eq", "ne", "gt", "lt", "gte" falls to the "lte" branch, and of all such operators validation lets only "lte" through |
| Properties.ArrayOperatorTakesItsBranch | src/index.js:87-126 | the array `["gt"]` takes the "gt" branch of the chain, because it is loosely equal to "gt", yet validation refuses it |
| Properties.EqReflexive | src/index.js:112-116 | every normalised value is `eq` to itself |
| Properties.NeNegatesEq | src/index.js:117-121 | "ne" is decided exactly where "eq" is and gives the opposite answer |
| Properties.LessIsConverse | src/index.js:123-141 | "lt" is "gt" swapped and "lte" is "gte" swapped |
| Properties.GteIsGtOrEq | src/index.js:133-141 | on defined comparable values "gte" is "gt" or "eq", and "lte" is not "gt" |
| Properties.Trichotomy | src/index.js:110-142 | exactly one of "lt", "eq", "gt" holds between defined comparable values |
| Properties.GtTransitive | src/index.js:123-126 | "gt" is transitive, on serialised structures as well as on numbers |
| Properties.StructuredComparedAsText | src/index.js:113-141 | two object-typed operands are always compared, as their serialisations, by string order |
| Properties.NormaliseIdempotent | src/index.js:113-115 | normalising a normalised value gives it back |
| Runner.RunTests | src/index.js:35-59 | every test runs once, in index order, as test number k+1 with the transport of that moment; only a rejecting `testing` ends the run early; the counter ends one past the number of finished tests |
| Scenarios.StructuralMatchSucceeds | src/index.js:106-116 | a get expecting `{id:1}` and receiving `{id:1}` succeeds under the default operator |
| Scenarios.StructuralMismatchFails | src/index.js:106-152 | a get expecting `{id:d1}` and receiving `{id:d2}` for different digits fails, reporting the expectation as the text `{"id":d1}` |
| Scenarios.BodyAndOptionsBound | src/index.js:94-105 | a post with an object body and object options issues (url, body, options) |
| Scenarios.GreaterThanOnNumbers | src/index.js:123-126 | a get with "gt" against 5 succeeds on 10 and fails on 3 |
| Scenarios.BogusVerbAborts | src/index.js:80-84 | "bogus" aborts without a request |
| Scenarios.RejectionReported | src/index.js:162-166 | a rejection "timeout" is reported with that message and status 1 |
| Scenarios.CapitalVerbAccepted | src/index.js:80-94 | "GET" issues a get |
| Scenarios.ArraysCompareAsText | src/index.js:123-126 | `[10]` "gt" `[9]` fails, because "[10]" sorts before "[9]" |

## Left out

- Console output: the header, the outcome lines and their wording (lines 38-42 and 144-158). The model records only the outcome kind and what it carries.
- Loading `parameters.json` (line 29): the test list is a parameter of `RunTests`.
- axios: connections, headers, status-code handling and promises. A request is a `Call`, and its settlement is `Ok(data)` or `Err(message)`, given by a parameter.
- `Evaluator.Conclude`: a string compared with a number or a boolean goes through JavaScript's string-to-number conversion. The model does not decide it and yields `Incomparable`. The status is still 0, as in the source. Comparisons involving `undefined`, booleans and numbers are modelled exactly.
- Numbers are integers: no floating point, no `NaN`, and no exponent notation in `JSON.stringify` for magnitudes of 1e21 and above.
- Strings are sequences of Unicode scalar values. JavaScript compares UTF-16 code units, which orders supplementary characters against U+E000 to U+FFFF differently.
- `Text.Lower` lower-cases ASCII letters only. This is exact for the verb check, since no other character lower-cases to a letter of the five verb names.
- `Json.Serialize`: object members keep their stored order. JavaScript would list integer-like keys first. Duplicate keys, `toJSON` and `JSON.stringify(undefined)` at the top level (never reached here) are not modelled.
