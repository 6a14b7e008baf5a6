/** Concrete test definitions and the outcome `testing` gives each. */
module Scenarios {
  import opened Wrappers
  import opened Json
  import opened Evaluator
  import Properties
  import opened Text

  function IdObject(id: int): Value {
    Obj([("id", Num(id))])
  }

  lemma GetParses()
    ensures ParseVerb("get") == Some(Get)
  {
    assert Lower("get") == "get";
  }

  /** Expecting `{id:1}` and receiving `{id:1}` succeeds. */
  lemma StructuralMatchSucceeds(t: Test, transport: Call -> Response)
    requires t.httpMethod == Str("get") && t.operator == Undefined && t.expected == IdObject(1)
    requires forall c :: transport(c) == Ok(IdObject(1))
    ensures Testing(t, transport).outcome == Succeeded(Eq)
  {
    GetParses();
    Properties.SelfExpectSucceeds(t, transport);
  }

  lemma SingleMemberText(key: string, v: Value)
    requires !v.Undefined?
    ensures Serialize(Obj([(key, v)])) == "{" + Quote(key) + ":" + Serialize(v) + "}"
  {
    assert [(key, v)][1..] == [];
    assert SerializeMembers([(key, v)]) == [Quote(key) + ":" + Serialize(v)];
  }

  lemma SingleElementText(v: Value)
    ensures Serialize(Arr([v])) == "[" + Serialize(v) + "]"
  {
    assert [v][1..] == [];
    assert SerializeElems([v]) == [Serialize(v)];
  }

  /** `JSON.stringify({id: d})` for a single digit d. */
  lemma IdObjectText(d: nat)
    requires d < 10
    ensures Serialize(IdObject(d)) == IdText(d)
  {
    SingleMemberText("id", Num(d));
    assert Escape("id") == "id" by {
      assert Escape("d") == "d";
    }
    assert Quote("id") == "\"id\"";
  }

  function IdText(d: nat): string
    requires d < 10
  {
    "{\"id\":" + [DigitChar(d)] + "}"
  }

  lemma IdTextsDiffer(d1: nat, d2: nat)
    requires d1 < 10 && d2 < 10 && d1 != d2
    ensures IdText(d1) != IdText(d2)
  {
    assert IdText(d1)[6] == DigitChar(d1);
    assert IdText(d2)[6] == DigitChar(d2);
  }

  /** Under `eq`, two different texts compare false. */
  lemma DefaultEqOnTexts(a: string, b: string)
    requires a != b
    ensures Chain(Undefined, SStr(a), SStr(b)) == Some(false)
  {
    assert ValidOperator(Undefined) && EffectiveOp(Undefined) == Eq;
  }

  /** Under `eq`, a payload `{id: d2}` does not match an expectation `{id: d1}` with another digit. */
  lemma IdObjectsDiffer(d1: nat, d2: nat)
    requires d1 < 10 && d2 < 10 && d1 != d2
    ensures Normalise(IdObject(d1)) == SStr(IdText(d1))
    ensures Chain(Undefined, Normalise(IdObject(d2)), Normalise(IdObject(d1))) == Some(false)
  {
    IdObjectText(d1);
    IdObjectText(d2);
    IdTextsDiffer(d2, d1);
    DefaultEqOnTexts(IdText(d2), IdText(d1));
  }

  /**
   * Expecting `{id: d1}` and receiving `{id: d2}` fails, with the expectation
   * reported as its serialisation: `{id:1}` against `{id:2}` reports `{"id":1}`.
   */
  lemma StructuralMismatchFails(t: Test, d1: nat, d2: nat, transport: Call -> Response)
    requires d1 < 10 && d2 < 10 && d1 != d2
    requires t.httpMethod == Str("get") && t.operator == Undefined && t.expected == IdObject(d1)
    requires forall c :: transport(c) == Ok(IdObject(d2))
    ensures Testing(t, transport).outcome == Failed(Eq, SStr(IdText(d1)), IdObject(d2))
  {
    GetParses();
    assert Validate(t) == Proceed(Get, Eq);
    Properties.ResponseJudged(t, Get, Eq, IdObject(d2), transport);
    IdObjectsDiffer(d1, d2);
  }

  lemma ReportedTextOfIdOne()
    ensures IdText(1) == "{\"id\":1}"
  {
  }

  /**
   * A post with an object body and object options, such as `{a:1}` and
   * `{headers:{X:1}}`, passes both, in that order, to the post verb.
   */
  lemma BodyAndOptionsBound(t: Test, transport: Call -> Response)
    requires t.httpMethod == Str("post") && t.operator == Undefined
    requires t.body.Obj? && t.options.Obj?
    ensures Testing(t, transport).issued == Some(Call(Post, t.url, t.body, t.options))
  {
    assert Lower("post") == "post";
  }

  /** "gt" against 5: a response of 10 succeeds and one of 3 fails. */
  lemma GreaterThanOnNumbers(t: Test, transport: Call -> Response)
    requires t.httpMethod == Str("get") && t.operator == Str("gt") && t.expected == Num(5)
    ensures var call := Call(Get, t.url, Bind(t.body, t.options).0, Bind(t.body, t.options).1);
            (transport(call) == Ok(Num(10)) ==> Testing(t, transport).outcome == Succeeded(Gt)) &&
            (transport(call) == Ok(Num(3)) ==> Testing(t, transport).outcome == Failed(Gt, SNum(5), Num(3)))
  {
    GetParses();
    assert ParseOp(Str("gt")) == Some(Gt);
  }

  /** An unknown verb aborts, and no request is made. */
  lemma BogusVerbAborts(t: Test, transport: Call -> Response)
    requires t.httpMethod == Str("bogus")
    ensures Testing(t, transport) == Evaluation(None, Aborted(UnknownMethod("bogus")))
  {
    BogusDoesNotParse();
  }

  lemma BogusDoesNotParse()
    ensures ParseVerb("bogus") == None
  {
    assert Lower("bogus") == "bogus";
  }

  /** A rejected request is reported with its message and status 1. */
  lemma RejectionReported(t: Test, transport: Call -> Response)
    requires t.httpMethod == Str("get") && t.operator == Undefined
    requires forall c :: transport(c) == Err("timeout")
    ensures Testing(t, transport).outcome == RequestFailed("timeout")
    ensures Status(Testing(t, transport).outcome) == 1
  {
    GetParses();
  }

  /** "GET" in capitals passes validation and issues a get. */
  lemma CapitalVerbAccepted(t: Test, transport: Call -> Response)
    requires t.httpMethod == Str("GET") && t.operator == Undefined
    ensures Testing(t, transport).issued.Some?
    ensures Testing(t, transport).issued.value.verb == Get
  {
    Properties.UpperCaseVerbAccepted(Get, "GET");
  }

  lemma ArrayTexts()
    ensures Normalise(Arr([Num(10)])) == SStr("[10]")
    ensures Normalise(Arr([Num(9)])) == SStr("[9]")
  {
    SingleElementText(Num(10));
    SingleElementText(Num(9));
    assert NatToString(10) == "10";
  }

  /** "[10]" sorts before "[9]": the second characters decide, and '1' is below '9'. */
  lemma TenSortsBeforeNine()
    ensures Less("[10]", "[9]") && !Less("[9]", "[10]")
  {
    assert "[9]"[1..] == "9]" && "[10]"[1..] == "10]";
  }

  /** Under "gt", the text "[10]" against "[9]" does not hold. */
  lemma TenNotAboveNine()
    ensures Chain(Str("gt"), SStr("[10]"), SStr("[9]")) == Some(false)
  {
    TenSortsBeforeNine();
    assert ParseOp(Str("gt")) == Some(Gt);
  }

  /** Under "gt", `[10]` against `[9]` does not hold. */
  lemma ArraysOrderedAsText()
    ensures Normalise(Arr([Num(9)])) == SStr("[9]")
    ensures Chain(Str("gt"), Normalise(Arr([Num(10)])), Normalise(Arr([Num(9)]))) == Some(false)
  {
    ArrayTexts();
    TenNotAboveNine();
  }

  /**
   * Structured values compare as text: `[10] > [9]` is false, because the
   * string "[10]" sorts before "[9]".
   */
  lemma ArraysCompareAsText(t: Test, transport: Call -> Response)
    requires t.httpMethod == Str("get") && t.operator == Str("gt") && t.expected == Arr([Num(9)])
    requires forall c :: transport(c) == Ok(Arr([Num(10)]))
    ensures Testing(t, transport).outcome == Failed(Gt, SStr("[9]"), Arr([Num(10)]))
  {
    GetParses();
    assert ParseOp(Str("gt")) == Some(Gt);
    assert Validate(t) == Proceed(Get, Gt);
    Properties.ResponseJudged(t, Get, Gt, Arr([Num(10)]), transport);
    ArraysOrderedAsText();
  }
}
