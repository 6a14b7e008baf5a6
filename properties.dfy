/**
 * What `testing` promises, stated over all test definitions and all
 * transports: when it aborts, which request it issues, what each operator
 * means, and which status it resolves with.
 */
module Properties {
  import opened Wrappers
  import opened Text
  import opened Json
  import opened Evaluator

  // ----- Validation -----

  /** A falsy method aborts with status 1 before any request. */
  lemma MissingMethodAborts(t: Test, transport: Call -> Response)
    requires !Truthy(t.httpMethod)
    ensures Testing(t, transport) == Evaluation(None, Aborted(NoMethod))
    ensures Status(Testing(t, transport).outcome) == 1
  {
  }

  /** A method string that names none of the five verbs, in any case, aborts with status 1 before any request. */
  lemma UnknownMethodAborts(t: Test, m: string, transport: Call -> Response)
    requires t.httpMethod == Str(m) && m != ""
    requires forall v :: Lower(m) != VerbName(v)
    ensures Testing(t, transport) == Evaluation(None, Aborted(UnknownMethod(m)))
    ensures Status(Testing(t, transport).outcome) == 1
  {
  }

  /** A truthy method that is not a string makes `testing` reject before any request. */
  lemma NonStringMethodThrows(t: Test, transport: Call -> Response)
    requires Truthy(t.httpMethod) && !t.httpMethod.Str?
    ensures Testing(t, transport) == Evaluation(None, TypeErrorThrown)
  {
  }

  /** The method check ignores case: a method whose lower-cased form names a verb issues that verb. */
  lemma MethodCaseIgnored(t: Test, m: string, v: Verb, transport: Call -> Response)
    requires t.httpMethod == Str(m) && Lower(m) == VerbName(v)
    requires ValidOperator(t.operator)
    ensures Testing(t, transport).issued.Some?
    ensures Testing(t, transport).issued.value.verb == v
  {
  }

  /** Upper-casing a verb's name does not stop it from passing validation. */
  lemma UpperCaseVerbAccepted(v: Verb, m: string)
    requires |m| == |VerbName(v)|
    requires forall i :: 0 <= i < |m| ==> LowerChar(m[i]) == VerbName(v)[i]
    ensures ParseVerb(m) == Some(v)
  {
  }

  /** A truthy operator that is not exactly one of the six names aborts with status 1 before any request. */
  lemma UnknownOperatorAborts(t: Test, m: string, v: Verb, transport: Call -> Response)
    requires t.httpMethod == Str(m) && Lower(m) == VerbName(v)
    requires Truthy(t.operator) && forall op :: t.operator != Str(OpName(op))
    ensures Testing(t, transport) == Evaluation(None, Aborted(UnknownOperator(t.operator)))
    ensures Status(Testing(t, transport).outcome) == 1
  {
  }

  /** The operator check is case-sensitive: "EQ" is refused. */
  lemma UpperCaseOperatorRefused()
    ensures !ValidOperator(Str("EQ"))
  {
  }

  /** A falsy operator evaluates exactly as "eq" does. */
  lemma FalsyOperatorIsEq(t: Test, transport: Call -> Response)
    requires !Truthy(t.operator)
    ensures Testing(t, transport) == Testing(t.(operator := Str("eq")), transport)
  {
  }

  // ----- Argument binding -----

  /** No truthy argument is lost, a body always comes first, and a falsy one is always passed as null. */
  lemma BindKeepsTruthyArguments(body: Value, options: Value)
    ensures Truthy(body) ==> Bind(body, options).0 == body
    ensures Truthy(options) ==> options == Bind(body, options).0 || options == Bind(body, options).1
    ensures Bind(body, options).0 == Null || Truthy(Bind(body, options).0)
    ensures Bind(body, options).1 == Null || Truthy(Bind(body, options).1)
  {
  }

  /** Two tests that differ only in their (valid) verb issue requests with the same arguments. */
  lemma VerbDoesNotChangeBinding(t: Test, m1: string, m2: string, transport: Call -> Response)
    requires t.httpMethod == Str(m1) && ParseVerb(m1).Some? && ParseVerb(m2).Some?
    requires ValidOperator(t.operator)
    ensures
      var e1 := Testing(t, transport);
      var e2 := Testing(t.(httpMethod := Str(m2)), transport);
      e1.issued.Some? && e2.issued.Some? &&
      e1.issued.value.(verb := Get) == e2.issued.value.(verb := Get)
  {
  }

  // ----- Outcomes and status -----

  /** A response with no truthy expected value succeeds with status 0, with no comparison. */
  lemma NoExpectSucceeds(t: Test, data: Value, transport: Call -> Response)
    requires Validate(t).Proceed? && !Truthy(t.expected)
    requires forall c :: transport(c) == Ok(data)
    ensures Testing(t, transport).outcome == NoExpect(data)
    ensures Status(Testing(t, transport).outcome) == 0
  {
  }

  /** Once validation passes and the response arrives, the outcome is the judgement of its payload. */
  lemma ResponseJudged(t: Test, verb: Verb, op: Op, data: Value, transport: Call -> Response)
    requires Validate(t) == Proceed(verb, op)
    requires transport(Call(verb, t.url, Bind(t.body, t.options).0, Bind(t.body, t.options).1)) == Ok(data)
    ensures Testing(t, transport).outcome == Conclude(t, op, data)
  {
  }

  /** Every response that arrives gives status 0, whatever the comparison said; every rejection gives 1. */
  lemma StatusFollowsTransport(t: Test, transport: Call -> Response)
    requires Validate(t).Proceed?
    ensures var e := Testing(t, transport);
            e.issued.Some? &&
            (transport(e.issued.value).Ok? ==> Status(e.outcome) == 0) &&
            (transport(e.issued.value).Err? ==>
               e.outcome == RequestFailed(transport(e.issued.value).message) && Status(e.outcome) == 1)
  {
  }

  /** Expecting exactly the payload that arrives, with the default operator, always succeeds. */
  lemma SelfExpectSucceeds(t: Test, transport: Call -> Response)
    requires Validate(t).Proceed? && Truthy(t.expected)
    requires !Truthy(t.operator) || t.operator == Str("eq")
    requires forall c :: transport(c) == Ok(t.expected)
    ensures Testing(t, transport).outcome == Succeeded(Eq)
  {
    EqReflexive(Normalise(t.expected));
  }

  /** "ne" fails exactly where "eq" succeeds, on the same test and the same response. */
  lemma NeNegatesEqOutcome(t: Test, transport: Call -> Response)
    requires Validate(t).Proceed? && Truthy(t.expected) && t.operator == Str("eq")
    requires forall c :: transport(c).Ok?
    ensures var eq := Testing(t, transport).outcome;
            var ne := Testing(t.(operator := Str("ne")), transport).outcome;
            (eq.Succeeded? <==> ne.Failed?) && (eq.Failed? <==> ne.Succeeded?)
  {
    var call := Testing(t, transport).issued.value;
    var l, r := Normalise(transport(call).data), Normalise(t.expected);
    NeNegatesEq(l, r);
  }

  // ----- The comparison -----

  /**
   * Every other truthy operator falls to "lte" in the chain; of those, only
   * "lte" itself passes validation.
   */
  lemma ChainFallsBackToLte(operator: Value, l: Scalar, r: Scalar)
    requires Truthy(operator)
    requires !LooselyEquals(operator, "eq") && !LooselyEquals(operator, "ne")
    requires !LooselyEquals(operator, "gt") && !LooselyEquals(operator, "lt")
    requires !LooselyEquals(operator, "gte")
    ensures Chain(operator, l, r) == Compare(Lte, l, r)
    ensures ValidOperator(operator) <==> operator == Str("lte")
  {
  }

  /** `["gt"]` is loosely equal to "gt", so the chain takes the "gt" branch for it; validation refuses it first. */
  lemma ArrayOperatorTakesItsBranch(l: Scalar, r: Scalar)
    ensures Chain(Arr([Str("gt")]), l, r) == Compare(Gt, l, r)
    ensures !ValidOperator(Arr([Str("gt")]))
  {
    assert ArrayText([Str("gt")]) == "gt";
  }

  /** Every normalised value equals itself. */
  lemma EqReflexive(x: Scalar)
    ensures Compare(Eq, x, x) == Some(true)
  {
  }

  /** "ne" is decided exactly where "eq" is, and gives the opposite answer. */
  lemma NeNegatesEq(l: Scalar, r: Scalar)
    ensures Compare(Ne, l, r).Some? <==> Compare(Eq, l, r).Some?
    ensures Compare(Eq, l, r).Some? ==> Compare(Ne, l, r).value == !Compare(Eq, l, r).value
  {
  }

  /** "lt" is "gt" with the operands swapped, and "lte" is "gte" swapped. */
  lemma LessIsConverse(l: Scalar, r: Scalar)
    ensures Compare(Lt, l, r) == Compare(Gt, r, l)
    ensures Compare(Lte, l, r) == Compare(Gte, r, l)
  {
  }

  /** On two defined values, "gte" is "gt" or "eq", and "lte" is the negation of "gt". */
  lemma GteIsGtOrEq(l: Scalar, r: Scalar)
    requires !l.SUndefined? && !r.SUndefined?
    requires Compare(Eq, l, r).Some?
    ensures Compare(Gte, l, r) == Some(Compare(Gt, l, r).value || Compare(Eq, l, r).value)
    ensures Compare(Lte, l, r) == Some(!Compare(Gt, l, r).value)
  {
    if l.SStr? {
      LessTotal(l.s, r.s);
      LessAsymmetric(l.s, r.s);
      LessIrreflexive(l.s);
    }
  }

  /** Exactly one of "lt", "eq", "gt" holds between two defined values that can be compared. */
  lemma Trichotomy(l: Scalar, r: Scalar)
    requires !l.SUndefined? && !r.SUndefined?
    requires Compare(Eq, l, r).Some?
    ensures Compare(Lt, l, r).value || Compare(Eq, l, r).value || Compare(Gt, l, r).value
    ensures !(Compare(Lt, l, r).value && Compare(Gt, l, r).value)
    ensures Compare(Eq, l, r).value ==> !Compare(Lt, l, r).value && !Compare(Gt, l, r).value
  {
    if l.SStr? {
      LessTotal(l.s, r.s);
      LessAsymmetric(l.s, r.s);
      LessIrreflexive(l.s);
    }
  }

  /** "gt" is transitive on defined values, strings included. */
  lemma GtTransitive(a: Scalar, b: Scalar, c: Scalar)
    requires Compare(Gt, a, b) == Some(true) && Compare(Gt, b, c) == Some(true)
    ensures Compare(Gt, a, c) == Some(true)
  {
    if a.SStr? {
      LessTransitive(c.s, b.s, a.s);
    }
  }

  /** Two object-typed values are always compared, and compared as their serialisations. */
  lemma StructuredComparedAsText(op: Op, a: Value, b: Value)
    requires IsObjectTyped(a) && IsObjectTyped(b)
    ensures Compare(op, Normalise(a), Normalise(b)) == Some(TextHolds(op, Serialize(a), Serialize(b)))
  {
  }

  /** Normalising is idempotent: a normalised value, read back as a value, normalises to itself. */
  lemma NormaliseIdempotent(v: Value)
    ensures Normalise(Lift(Normalise(v))) == Normalise(v)
  {
  }
}
