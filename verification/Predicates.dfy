/** The meaning of predicates over observed state (crates/agentverify-engine/src/engine.rs). */
module Predicates {
  import opened Common
  import opened Json
  import opened Verdicts

  datatype CountOperator = Eq | Ne | Lt | Le | Gt | Ge

  datatype Predicate =
    | Exists(path: string)
    | NotExists(path: string)
    | Equals(path: string, value: Value)
    | NotEquals(path: string, value: Value)
    | Contains(path: string, value: Value)
    | Matches(path: string, pattern: string)
    | GreaterThan(path: string, value: Value)
    | LessThan(path: string, value: Value)
    | Count(path: string, operator: CountOperator, expected: int)
    | IsEmpty(path: string)
    | IsNotEmpty(path: string)
    | All(predicates: seq<Predicate>)
    | Any(predicates: seq<Predicate>)
    | Not(inner: Predicate)
    | Implies(antecedent: Predicate, consequent: Predicate)

  /** A compiled regular expression and a compile error: both opaque to this model. */
  type Regex = nat
  type RegexError = nat

  /** The library functions whose internals are not modelled. */
  datatype Library = Library(
    compile: string -> Result<Regex, RegexError>,
    isMatch: (Regex, string) -> bool,
    asF64: Number -> Option<real>,
    serialise: map<string, Value> -> string
  )

  const ARGS_PREFIX := "$args."

  /** Replace a `$args.` reference by what it names; a dangling reference stays as it is. */
  function ResolveValue(v: Value, args: Value): Value {
    if v.Str? && ARGS_PREFIX <= v.s then
      match GetPath(args, v.s[|ARGS_PREFIX|..])
      case Some(w) => w
      case None => v
    else v
  }

  predicate Substring(s: string, t: string) {
    exists i :: 0 <= i <= |s| && t <= s[i..]
  }

  /** Byte-wise order of UTF-8 strings, which is the order of their code points. */
  predicate StringLess(s: string, t: string) {
    if t == "" then false
    else if s == "" then true
    else if s[0] != t[0] then s[0] < t[0]
    else StringLess(s[1..], t[1..])
  }

  function Utf8Width(c: char): nat {
    var n := c as int;
    if n < 0x80 then 1 else if n < 0x800 then 2 else if n < 0x1_0000 then 3 else 4
  }

  /** `str::len` counts bytes. */
  function Utf8Length(s: string): nat {
    if s == "" then 0 else Utf8Width(s[0]) + Utf8Length(s[1..])
  }

  predicate HoldsContains(lib: Library, actual: Option<Value>, value: Value) {
    match actual
    case Some(Str(s)) => Substring(s, if value.Str? then value.s else "")
    case Some(Array(items)) => value in items
    case Some(Object(fields)) => value.Str? && Substring(lib.serialise(fields), value.s)
    case _ => false
  }

  predicate HoldsGreater(lib: Library, actual: Option<Value>, value: Value) {
    match actual
    case Some(Num(a)) =>
      value.Num? && lib.asF64(a).Some? && lib.asF64(value.num).Some?
      && lib.asF64(a).value > lib.asF64(value.num).value
    case Some(Str(s)) => value.Str? && StringLess(value.s, s)
    case _ => false
  }

  predicate HoldsLess(lib: Library, actual: Option<Value>, value: Value) {
    match actual
    case Some(Num(a)) =>
      value.Num? && lib.asF64(a).Some? && lib.asF64(value.num).Some?
      && lib.asF64(a).value < lib.asF64(value.num).value
    case Some(Str(s)) => value.Str? && StringLess(s, value.s)
    case _ => false
  }

  /** The size of a collection; a missing path counts as zero, a scalar has no size. */
  function SizeOf(actual: Option<Value>): Option<int> {
    match actual
    case Some(Array(items)) => Some(|items|)
    case Some(Object(fields)) => Some(|fields|)
    case Some(Str(s)) => Some(Utf8Length(s))
    case None => Some(0)
    case _ => None
  }

  predicate Compare(op: CountOperator, count: int, expected: int) {
    match op
    case Eq => count == expected
    case Ne => count != expected
    case Lt => count < expected
    case Le => count <= expected
    case Gt => count > expected
    case Ge => count >= expected
  }

  predicate HoldsEmpty(actual: Option<Value>) {
    match actual
    case Some(Array(items)) => |items| == 0
    case Some(Object(fields)) => |fields| == 0
    case Some(Str(s)) => s == ""
    case Some(Null) => true
    case None => true
    case _ => false
  }

  function VerdictOf(b: bool): Verdict {
    if b then Verified else Failed
  }

  predicate IsLeaf(p: Predicate) {
    !p.All? && !p.Any? && !p.Not? && !p.Implies?
  }

  /** The truth of a leaf other than `Matches`. */
  predicate HoldsLeaf(lib: Library, p: Predicate, state: Value, args: Value)
    requires IsLeaf(p) && !p.Matches?
  {
    var actual := GetPath(state, p.path);
    match p
    case Exists(_) => actual.Some?
    case NotExists(_) => actual.None?
    case Equals(_, v) => actual == Some(ResolveValue(v, args))
    case NotEquals(_, v) => actual.Some? && actual.value != ResolveValue(v, args)
    case Contains(_, v) => HoldsContains(lib, actual, ResolveValue(v, args))
    case GreaterThan(_, v) => HoldsGreater(lib, actual, ResolveValue(v, args))
    case LessThan(_, v) => HoldsLess(lib, actual, ResolveValue(v, args))
    case Count(_, op, n) => SizeOf(actual).Some? && Compare(op, SizeOf(actual).value, n)
    case IsEmpty(_) => HoldsEmpty(actual)
    case IsNotEmpty(_) => !HoldsEmpty(actual)
  }

  /** A pattern is compiled only when the path names a string. */
  function EvalMatches(lib: Library, path: string, pattern: string, state: Value): Result<Verdict, RegexError> {
    var actual := GetPath(state, path);
    if actual.Some? && actual.value.Str? then
      match lib.compile(pattern)
      case Ok(regex) => Ok(VerdictOf(lib.isMatch(regex, actual.value.s)))
      case Err(e) => Err(e)
    else Ok(Failed)
  }

  function Negation(r: Result<Verdict, RegexError>): Result<Verdict, RegexError> {
    if r.Err? then r
    else if r.value.Verified? then Ok(Failed)
    else if r.value.Failed? then Ok(Verified)
    else Ok(Unknown)
  }

  /** The consequent, and its error, matter only under a verified antecedent. */
  function Implication(a: Result<Verdict, RegexError>, c: Result<Verdict, RegexError>): Result<Verdict, RegexError> {
    if a.Err? then a
    else if !a.value.Verified? then Ok(Verified)
    else if c.Err? then c
    else Ok(VerdictOf(c.value.Verified?))
  }

  /** Evaluation without a cache: left to right, stopping at the first deciding part or error. */
  function Eval(lib: Library, p: Predicate, state: Value, args: Value): Result<Verdict, RegexError>
    decreases p, 0
  {
    match p
    case All(ps) => EvalAll(lib, ps, state, args)
    case Any(ps) => EvalAny(lib, ps, state, args)
    case Not(q) => Negation(Eval(lib, q, state, args))
    case Implies(a, c) => Implication(Eval(lib, a, state, args), Eval(lib, c, state, args))
    case Matches(path, pattern) => EvalMatches(lib, path, pattern, state)
    case _ => Ok(VerdictOf(HoldsLeaf(lib, p, state, args)))
  }

  function EvalAll(lib: Library, ps: seq<Predicate>, state: Value, args: Value): Result<Verdict, RegexError>
    decreases ps, 0
  {
    if ps == [] then Ok(Verified)
    else
      match Eval(lib, ps[0], state, args)
      case Err(e) => Err(e)
      case Ok(v) => if v.Verified? then EvalAll(lib, ps[1..], state, args) else Ok(Failed)
  }

  function EvalAny(lib: Library, ps: seq<Predicate>, state: Value, args: Value): Result<Verdict, RegexError>
    decreases ps, 0
  {
    if ps == [] then Ok(Failed)
    else
      match Eval(lib, ps[0], state, args)
      case Err(e) => Err(e)
      case Ok(v) => if v.Verified? then Ok(Verified) else EvalAny(lib, ps[1..], state, args)
  }

  /** A settled answer is `Verified`, `Failed` or a compile error. */
  predicate Settled(r: Result<Verdict, RegexError>) {
    r.Err? || r.value.Verified? || r.value.Failed?
  }

  /** No predicate, state and arguments make evaluation indeterminate. */
  lemma {:induction false} EvaluationIsSettled(lib: Library, p: Predicate, state: Value, args: Value)
    ensures Settled(Eval(lib, p, state, args))
    decreases p, 0
  {
    match p
    case All(ps) => ListsAreSettled(lib, ps, state, args);
    case Any(ps) => ListsAreSettled(lib, ps, state, args);
    case Not(q) => EvaluationIsSettled(lib, q, state, args);
    case Implies(a, c) =>
    case _ =>
  }

  lemma {:induction false} ListsAreSettled(lib: Library, ps: seq<Predicate>, state: Value, args: Value)
    ensures Settled(EvalAll(lib, ps, state, args)) && Settled(EvalAny(lib, ps, state, args))
    decreases ps, 0
  {
    if ps != [] {
      ListsAreSettled(lib, ps[1..], state, args);
    }
  }
}
