/** JSON documents and dot-separated path lookup (crates/agentverify-engine/src/engine.rs). */
module Json {
  import opened Common

  datatype Number = PosInt(n: nat) | NegInt(i: int) | Float(r: real)

  datatype Value =
    | Null
    | Bool(b: bool)
    | Num(num: Number)
    | Str(s: string)
    | Array(items: seq<Value>)
    | Object(fields: map<string, Value>)

  const USIZE_MAX: nat := 0xffff_ffff_ffff_ffff

  /** Split at every separator; the result is never empty, as for Rust's `str::split`. */
  function Split(s: string, sep: char): (parts: seq<string>)
    ensures |parts| >= 1
  {
    if s == "" then [""]
    else
      var rest := Split(s[1..], sep);
      if s[0] == sep then [""] + rest
      else [[s[0]] + rest[0]] + rest[1..]
  }

  /** The inverse of `Split`. */
  function Join(parts: seq<string>, sep: char): string
    requires |parts| >= 1
  {
    if |parts| == 1 then parts[0] else parts[0] + [sep] + Join(parts[1..], sep)
  }

  predicate IsDigit(c: char) {
    '0' <= c <= '9'
  }

  /** The value of a run of decimal digits, `None` on any other character. */
  function Digits(s: string): Option<nat> {
    if s == "" then Some(0)
    else
      var last := s[|s| - 1];
      match Digits(s[..|s| - 1])
      case None => None
      case Some(high) => if IsDigit(last) then Some(10 * high + (last as int - '0' as int)) else None
  }

  /** Rust's unsigned `parse`: an optional `+`, at least one digit, no overflow. */
  function ParseUnsigned(s: string, limit: nat): (r: Option<nat>)
    ensures r.Some? ==> r.value <= limit
  {
    var body := if s != "" && s[0] == '+' then s[1..] else s;
    if body == "" then None
    else
      match Digits(body)
      case Some(n) => if n <= limit then Some(n) else None
      case None => None
  }

  /** A number in decimal digits, without leading zeros. */
  function Decimal(n: nat): string {
    if n < 10 then ['0' + n as char] else Decimal(n / 10) + ['0' + (n % 10) as char]
  }

  /** One step of a path: a member of an object, or an element of an array. */
  function Child(v: Value, segment: string): Option<Value> {
    match v
    case Object(fields) => if segment in fields then Some(fields[segment]) else None
    case Array(items) =>
      (match ParseUnsigned(segment, USIZE_MAX)
       case Some(i) => if i < |items| then Some(items[i]) else None
       case None => None)
    case _ => None
  }

  function Walk(v: Value, segments: seq<string>): Option<Value> {
    if segments == [] then Some(v)
    else
      match Child(v, segments[0])
      case Some(w) => Walk(w, segments[1..])
      case None => None
  }

  function GetPath(v: Value, path: string): Option<Value> {
    Walk(v, Split(path, '.'))
  }

  /** The loop of the source, which stops at the first missing segment. */
  method LookUp(value: Value, path: string) returns (found: Option<Value>)
    ensures found == GetPath(value, path)
  {
    var current := value;
    var segments := Split(path, '.');
    for i := 0 to |segments|
      invariant Walk(current, segments[i..]) == Walk(value, segments)
    {
      var next := Child(current, segments[i]);
      if next.None? {
        return None;
      }
      current := next.value;
      assert segments[i..][1..] == segments[i + 1..];
    }
    return Some(current);
  }

  lemma {:induction false} SplitOfJoined(p: string, q: string, sep: char)
    ensures Split(p + [sep] + q, sep) == Split(p, sep) + Split(q, sep)
  {
    var s := p + [sep] + q;
    if p == "" {
      assert s[1..] == q;
    } else {
      assert s[1..] == p[1..] + [sep] + q;
      SplitOfJoined(p[1..], q, sep);
    }
  }

  lemma {:induction false} JoinOfSplit(s: string, sep: char)
    ensures Join(Split(s, sep), sep) == s
  {
    if s != "" {
      JoinOfSplit(s[1..], sep);
      var rest := Split(s[1..], sep);
      if s[0] == sep {
        assert ([""] + rest)[1..] == rest;
      } else {
        assert ([[s[0]] + rest[0]] + rest[1..])[1..] == rest[1..];
      }
    }
  }

  lemma {:induction false} WalkOfConcatenation(v: Value, a: seq<string>, b: seq<string>)
    ensures Walk(v, a + b) ==
            match Walk(v, a) case Some(w) => Walk(w, b) case None => None
  {
    if a == [] {
      assert a + b == b;
    } else {
      assert (a + b)[1..] == a[1..] + b;
      var c := Child(v, a[0]);
      if c.Some? {
        WalkOfConcatenation(c.value, a[1..], b);
      }
    }
  }

  /** Looking up `p.q` is looking up `p` and then `q` in what was found, for all strings. */
  lemma PathsCompose(v: Value, p: string, q: string)
    ensures GetPath(v, p + "." + q) ==
            match GetPath(v, p) case Some(w) => GetPath(w, q) case None => None
  {
    SplitOfJoined(p, q, '.');
    assert p + "." + q == p + ['.'] + q;
    WalkOfConcatenation(v, Split(p, '.'), Split(q, '.'));
  }
}
