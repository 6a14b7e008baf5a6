/**
 * The test evaluator: `testing(test)` of src/index.js. It validates one test
 * definition, issues one request through the transport, and judges the
 * response against the expected value with one of six operators.
 *
 * The transport (axios) is a parameter: a function from the request the
 * evaluator issues to the way that request settles, `Ok(data)` for a
 * response and `Err(message)` for a rejection.
 */
module Evaluator {
  import opened Wrappers
  import opened Text
  import opened Json

  // ----- Test definitions, requests, outcomes -----

  /** One entry of the test list; a property the entry does not have is `Undefined`. */
  datatype Test = Test(
    title: Value,
    httpMethod: Value,
    url: Value,
    body: Value,
    options: Value,
    expected: Value,
    operator: Value)

  datatype Verb = Get | Put | Post | Delete | Patch

  datatype Op = Eq | Ne | Gt | Gte | Lt | Lte

  /** `axios[verb](url, second, third)`. */
  datatype Call = Call(verb: Verb, url: Value, second: Value, third: Value)

  /** How the transport's promise settles. */
  datatype Response = Ok(data: Value) | Err(message: string)

  datatype Abort =
    | NoMethod
    | UnknownMethod(name: string)
    | UnknownOperator(operator: Value)

  /** A value after normalisation: object-typed values have become strings. */
  datatype Scalar = SUndefined | SBool(b: bool) | SNum(n: int) | SStr(s: string)

  datatype Outcome =
    | Aborted(reason: Abort)
      /** `toLowerCase` called on a method that is not a string: `testing` rejects. */
    | TypeErrorThrown
    | RequestFailed(message: string)
      /** The response arrived and there was nothing to compare it with. */
    | NoExpect(data: Value)
    | Succeeded(op: Op)
    | Failed(op: Op, expected: Scalar, got: Value)
      /** A string against a number or a boolean, which this model does not decide. */
    | Incomparable(op: Op, expected: Scalar, actual: Scalar)

  /** What one evaluation did: the request it issued, if any, and how it ended. */
  datatype Evaluation = Evaluation(issued: Option<Call>, outcome: Outcome)

  // ----- Validation -----

  function VerbName(v: Verb): string {
    match v
    case Get => "get"
    case Put => "put"
    case Post => "post"
    case Delete => "delete"
    case Patch => "patch"
  }

  function OpName(op: Op): string {
    match op
    case Eq => "eq"
    case Ne => "ne"
    case Gt => "gt"
    case Gte => "gte"
    case Lt => "lt"
    case Lte => "lte"
  }

  /** The verb a method string names, ignoring case. */
  function ParseVerb(s: string): (r: Option<Verb>)
    ensures forall v :: r == Some(v) <==> Lower(s) == VerbName(v)
  {
    var l := Lower(s);
    if l == "get" then Some(Get)
    else if l == "put" then Some(Put)
    else if l == "post" then Some(Post)
    else if l == "delete" then Some(Delete)
    else if l == "patch" then Some(Patch)
    else None
  }

  /** The operator a value names: only the exact lower-case strings are accepted. */
  function ParseOp(v: Value): (r: Option<Op>)
    ensures forall op :: r == Some(op) <==> v == Str(OpName(op))
  {
    if !v.Str? then None
    else if v.s == "eq" then Some(Eq)
    else if v.s == "ne" then Some(Ne)
    else if v.s == "gt" then Some(Gt)
    else if v.s == "gte" then Some(Gte)
    else if v.s == "lt" then Some(Lt)
    else if v.s == "lte" then Some(Lte)
    else None
  }

  /** An operator property that passes validation: falsy, or one of the six names. */
  predicate ValidOperator(operator: Value) {
    !Truthy(operator) || ParseOp(operator).Some?
  }

  /** The operator in force: `eq` when the property is falsy. */
  function EffectiveOp(operator: Value): (op: Op)
    requires ValidOperator(operator)
    ensures Truthy(operator) ==> operator == Str(OpName(op))
    ensures !Truthy(operator) ==> op == Eq
  {
    if Truthy(operator) then ParseOp(operator).value else Eq
  }

  datatype Verdict = Proceed(verb: Verb, op: Op) | Halt(outcome: Outcome)

  /** The method check, then the operator check, in that order. */
  function Validate(t: Test): (r: Verdict)
    ensures r.Proceed? <==>
              t.httpMethod.Str? && ParseVerb(t.httpMethod.s).Some? && ValidOperator(t.operator)
    ensures r.Proceed? ==>
              ParseVerb(t.httpMethod.s) == Some(r.verb) && r.op == EffectiveOp(t.operator)
    ensures r == Halt(Aborted(NoMethod)) <==> !Truthy(t.httpMethod)
    ensures r == Halt(TypeErrorThrown) <==> Truthy(t.httpMethod) && !t.httpMethod.Str?
    ensures r.Halt? ==> r.outcome.Aborted? || r.outcome.TypeErrorThrown?
  {
    if !Truthy(t.httpMethod) then Halt(Aborted(NoMethod))
    else if !t.httpMethod.Str? then Halt(TypeErrorThrown)
    else if ParseVerb(t.httpMethod.s).None? then Halt(Aborted(UnknownMethod(t.httpMethod.s)))
    else if Truthy(t.operator) && ParseOp(t.operator).None? then Halt(Aborted(UnknownOperator(t.operator)))
    else Proceed(ParseVerb(t.httpMethod.s).value, EffectiveOp(t.operator))
  }

  // ----- Argument binding -----

  /** The second and third positional arguments of the transport call. */
  function Bind(body: Value, options: Value): (args: (Value, Value))
    ensures Truthy(body) && Truthy(options) ==> args == (body, options)
    ensures Truthy(body) && !Truthy(options) ==> args == (body, Null)
    ensures !Truthy(body) && Truthy(options) ==> args == (options, Null)
    ensures !Truthy(body) && !Truthy(options) ==> args == (Null, Null)
  {
    (if Truthy(body) then body else if Truthy(options) then options else Null,
     if Truthy(body) && Truthy(options) then options else Null)
  }

  // ----- Normalisation and comparison -----

  /** The value a normalised scalar stands for. */
  function Lift(s: Scalar): Value {
    match s
    case SUndefined => Undefined
    case SBool(b) => Bool(b)
    case SNum(n) => Num(n)
    case SStr(x) => Str(x)
  }

  /** `typeof v == "object" ? JSON.stringify(v) : v`. */
  function Normalise(v: Value): (r: Scalar)
    ensures IsObjectTyped(v) ==> r == SStr(Serialize(v))
    ensures !IsObjectTyped(v) ==> Lift(r) == v
  {
    match v
    case Undefined => SUndefined
    case Bool(b) => SBool(b)
    case Num(n) => SNum(n)
    case Str(s) => SStr(s)
    case _ => SStr(Serialize(v))
  }

  /** The relation an operator denotes on two strings; `>=` is "not `<`". */
  predicate TextHolds(op: Op, a: string, b: string) {
    match op
    case Eq => a == b
    case Ne => a != b
    case Gt => Less(b, a)
    case Gte => !Less(a, b)
    case Lt => Less(a, b)
    case Lte => !Less(b, a)
  }

  /** The relation an operator denotes on two numbers. */
  predicate NumberHolds(op: Op, x: int, y: int) {
    match op
    case Eq => x == y
    case Ne => x != y
    case Gt => x > y
    case Gte => x >= y
    case Lt => x < y
    case Lte => x <= y
  }

  /** A boolean or a number as the number JavaScript converts it to. */
  function AsNumber(s: Scalar): int
    requires s.SBool? || s.SNum?
  {
    if s.SBool? then (if s.b then 1 else 0) else s.n
  }

  /**
   * `l <op> r` on two normalised values. `undefined` equals only itself and
   * makes every ordering false; booleans compare as 0 and 1; a string
   * against a number or a boolean is left undecided (`None`).
   */
  function Compare(op: Op, l: Scalar, r: Scalar): (res: Option<bool>)
    ensures res.None? <==> (l.SStr? && (r.SBool? || r.SNum?)) || (r.SStr? && (l.SBool? || l.SNum?))
    ensures l.SUndefined? || r.SUndefined? ==>
              res == Some((op == Eq && l == r) || (op == Ne && l != r))
    ensures l == r && !l.SUndefined? ==> res == Some(op == Eq || op == Gte || op == Lte)
  {
    if l.SUndefined? || r.SUndefined? then
      Some(match op case Eq => l == r case Ne => l != r case _ => false)
    else if l.SStr? && r.SStr? then Some(TextHolds(op, l.s, r.s))
    else if !l.SStr? && !r.SStr? then Some(NumberHolds(op, AsNumber(l), AsNumber(r)))
    else None
  }

  /**
   * JavaScript's loose `v == name` for an operator name. Such a name reads
   * as no number, so a number, a boolean, `null` or `undefined` never equals
   * it; an array equals it when the array's text does, as `["gt"]` does.
   */
  predicate LooselyEquals(v: Value, name: string)
    requires name in {"eq", "ne", "gt", "lt", "gte"}
  {
    match v
    case Str(s) => s == name
    case Arr(elems) => ArrayText(elems) == name
    case Obj(_) => name == "[object Object]"
    case _ => false
  }

  /**
   * The chain of conditional expressions as the source writes it, with its
   * loose `==` tests: a falsy operator or "eq" first, then "ne", "gt", "lt",
   * "gte", and anything else treated as "lte".
   */
  function Chain(operator: Value, l: Scalar, r: Scalar): (res: Option<bool>)
    ensures ValidOperator(operator) ==> res == Compare(EffectiveOp(operator), l, r)
  {
    if !Truthy(operator) || LooselyEquals(operator, "eq") then Compare(Eq, l, r)
    else if LooselyEquals(operator, "ne") then Compare(Ne, l, r)
    else if LooselyEquals(operator, "gt") then Compare(Gt, l, r)
    else if LooselyEquals(operator, "lt") then Compare(Lt, l, r)
    else if LooselyEquals(operator, "gte") then Compare(Gte, l, r)
    else Compare(Lte, l, r)
  }

  // ----- Judging a response -----

  /** The outcome once the response has arrived with payload `data`. */
  function Conclude(t: Test, op: Op, data: Value): (o: Outcome)
    ensures !Truthy(t.expected) ==> o == NoExpect(data)
    ensures Truthy(t.expected) ==>
              (o == Succeeded(op) <==> Chain(t.operator, Normalise(data), Normalise(t.expected)) == Some(true))
    ensures Truthy(t.expected) ==>
              (o == Failed(op, Normalise(t.expected), data) <==>
                 Chain(t.operator, Normalise(data), Normalise(t.expected)) == Some(false))
    ensures Truthy(t.expected) ==>
              (o.Incomparable? <==> Chain(t.operator, Normalise(data), Normalise(t.expected)).None?)
    ensures o.Failed? ==> o == Failed(op, Normalise(t.expected), data)
  {
    if !Truthy(t.expected) then NoExpect(data)
    else
      var l, r := Normalise(data), Normalise(t.expected);
      match Chain(t.operator, l, r)
      case Some(true) => Succeeded(op)
      case Some(false) => Failed(op, r, data)
      case None => Incomparable(op, r, l)
  }

  /** `testing(test)`: validate, issue one request, judge its answer. */
  function Testing(t: Test, transport: Call -> Response): (e: Evaluation)
    ensures e.issued.Some? <==> Validate(t).Proceed?
    ensures Validate(t).Halt? ==> e.outcome == Validate(t).outcome
    ensures e.issued.None? <==> e.outcome.Aborted? || e.outcome.TypeErrorThrown?
    ensures e.issued.Some? ==>
              e.issued.value.url == t.url &&
              t.httpMethod.Str? && Some(e.issued.value.verb) == ParseVerb(t.httpMethod.s) &&
              (e.issued.value.second, e.issued.value.third) == Bind(t.body, t.options)
    ensures e.issued.Some? && transport(e.issued.value).Err? ==>
              e.outcome == RequestFailed(transport(e.issued.value).message)
    ensures e.issued.Some? && transport(e.issued.value).Ok? ==>
              e.outcome == Conclude(t, Validate(t).op, transport(e.issued.value).data)
  {
    match Validate(t)
    case Halt(o) => Evaluation(None, o)
    case Proceed(verb, op) =>
      var (second, third) := Bind(t.body, t.options);
      var call := Call(verb, t.url, second, third);
      var outcome := match transport(call)
        case Err(message) => RequestFailed(message)
        case Ok(data) => Conclude(t, op, data);
      Evaluation(Some(call), outcome)
  }

  /** The number `testing` resolves with; it has none when it rejects. */
  function Status(o: Outcome): (code: int)
    requires !o.TypeErrorThrown?
    ensures code == 0 || code == 1
    ensures code == 1 <==> o.Aborted? || o.RequestFailed?
  {
    match o
    case Aborted(_) => 1
    case RequestFailed(_) => 1
    case _ => 0
  }
}
