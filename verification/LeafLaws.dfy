/**
 * What each kind of leaf verifies, in terms of what its path names and nothing else
 * (crates/agentverify-engine/src/engine.rs).
 */
module LeafLaws {
  import opened Common
  import opened Json
  import opened Verdicts
  import opened Predicates
  import opened Utf8

  /** A leaf other than a pattern verifies or fails, and never errs. */
  lemma LeavesAnswer(lib: Library, p: Predicate, state: Value, args: Value)
    requires !p.All? && !p.Any? && !p.Not? && !p.Implies? && !p.Matches?
    ensures Eval(lib, p, state, args) == Ok(Verified) || Eval(lib, p, state, args) == Ok(Failed)
  {
    hide HoldsLeaf;
  }

  /** A reference names what its path names in the arguments, or stands for itself; nothing else is a reference. */
  lemma ReferencesResolve(path: string, v: Value, args: Value)
    ensures ResolveValue(Str("$args." + path), args) ==
            match GetPath(args, path) case Some(w) => w case None => Str("$args." + path)
    ensures !v.Str? || (forall rest :: v.s != "$args." + rest) ==> ResolveValue(v, args) == v
  {
    assert ("$args." + path)[6..] == path;
    if v.Str? && "$args." <= v.s {
      assert v.s == "$args." + v.s[6..];
    }
  }

  lemma ExistsIff(lib: Library, path: string, state: Value, args: Value)
    ensures Eval(lib, Exists(path), state, args) == Ok(Verified) <==> GetPath(state, path).Some?
    ensures Eval(lib, NotExists(path), state, args) == Eval(lib, Not(Exists(path)), state, args)
  {
    hide GetPath;
  }

  /** `NotEquals` is no negation of `Equals`: on a path that names nothing both fail. */
  lemma EqualsIff(lib: Library, path: string, v: Value, state: Value, args: Value)
    ensures Eval(lib, Equals(path, v), state, args) == Ok(Verified) <==>
            GetPath(state, path) == Some(ResolveValue(v, args))
    ensures Eval(lib, NotEquals(path, v), state, args) == Ok(Verified) <==>
            GetPath(state, path).Some? && Eval(lib, Equals(path, v), state, args) == Ok(Failed)
  {
    hide GetPath, ResolveValue;
  }

  /** Numbers compare as the floats they convert to; a number that converts to none is neither greater nor less. */
  lemma NumbersCompare(lib: Library, path: string, v: Value, state: Value, args: Value, a: Number, b: Number)
    requires GetPath(state, path) == Some(Num(a)) && ResolveValue(v, args) == Num(b)
    ensures var x, y := lib.asF64(a), lib.asF64(b);
            && (Eval(lib, GreaterThan(path, v), state, args) == Ok(Verified) <==>
                  x.Some? && y.Some? && x.value > y.value)
            && (Eval(lib, LessThan(path, v), state, args) == Ok(Verified) <==>
                  x.Some? && y.Some? && x.value < y.value)
  {
    hide GetPath, ResolveValue;
  }

  /** One text comes before another: it ends where the other goes on, or has the smaller character where they part. */
  ghost predicate Before(s: string, t: string) {
    exists p, x, y :: PartsAt(s, t, p, x, y)
  }

  predicate PartsAt(s: string, t: string, p: string, x: string, y: string) {
    s == p + x && t == p + y && y != "" && (x == "" || x[0] < y[0])
  }

  lemma StringLessIsBefore(s: string, t: string)
    ensures StringLess(s, t) <==> Before(s, t)
  {
    if StringLess(s, t) {
      var p, x, y := PartOf(s, t);
    }
    if p, x, y :| PartsAt(s, t, p, x, y) {
      LessWherePart(s, t, p, x, y);
    }
  }

  lemma {:induction false} PartOf(s: string, t: string) returns (p: string, x: string, y: string)
    requires StringLess(s, t)
    ensures PartsAt(s, t, p, x, y)
  {
    if s != "" && s[0] == t[0] {
      p, x, y := PartOf(s[1..], t[1..]);
      p := [s[0]] + p;
    } else {
      p, x, y := "", s, t;
    }
  }

  lemma {:induction false} LessWherePart(s: string, t: string, p: string, x: string, y: string)
    requires PartsAt(s, t, p, x, y)
    ensures StringLess(s, t)
  {
    if p != "" {
      assert s[1..] == p[1..] + x && t[1..] == p[1..] + y;
      LessWherePart(s[1..], t[1..], p[1..], x, y);
    } else {
      assert s == x && t == y;
    }
  }

  lemma {:induction false} OneOfThree(s: string, t: string)
    ensures s != t ==> (StringLess(s, t) <==> !StringLess(t, s))
    ensures s == t ==> !StringLess(s, t)
  {
    if s != "" && t != "" {
      OneOfThree(s[1..], t[1..]);
      assert s == [s[0]] + s[1..] && t == [t[0]] + t[1..];
    }
  }

  /** Of two texts exactly one of greater, less and equal verifies, by the order of their characters. */
  lemma TextsCompare(lib: Library, path: string, v: Value, state: Value, args: Value, s: string, t: string)
    requires GetPath(state, path) == Some(Str(s)) && ResolveValue(v, args) == Str(t)
    ensures Eval(lib, LessThan(path, v), state, args) == Ok(Verified) <==> Before(s, t)
    ensures Eval(lib, GreaterThan(path, v), state, args) == Ok(Verified) <==> Before(t, s)
    ensures Eval(lib, Equals(path, v), state, args) == Ok(Verified) <==> s == t
    ensures s == t ==> !Before(s, t) && !Before(t, s)
    ensures s != t ==> (Before(s, t) <==> !Before(t, s))
  {
    hide GetPath, ResolveValue, Before, StringLess;
    StringLessIsBefore(s, t);
    StringLessIsBefore(t, s);
    OneOfThree(s, t);
    OneOfThree(t, s);
  }

  /** Nothing else compares: both fail unless there are two numbers or two texts. */
  lemma NothingElseCompares(lib: Library, path: string, v: Value, state: Value, args: Value)
    requires var actual, w := GetPath(state, path), ResolveValue(v, args);
             actual.Some? ==> !(actual.value.Num? && w.Num?) && !(actual.value.Str? && w.Str?)
    ensures Eval(lib, GreaterThan(path, v), state, args) == Ok(Failed)
    ensures Eval(lib, LessThan(path, v), state, args) == Ok(Failed)
  {
    hide GetPath, ResolveValue;
  }

  /** A pattern is compiled, and can err, only when the path names a text; without one it fails. */
  lemma MatchesIff(lib: Library, path: string, pattern: string, state: Value, args: Value)
    ensures var actual, compiled := GetPath(state, path), lib.compile(pattern);
            Eval(lib, Matches(path, pattern), state, args) ==
            if actual.None? || !actual.value.Str? then Ok(Failed)
            else if compiled.Err? then Err(compiled.error)
            else if lib.isMatch(compiled.value, actual.value.s) then Ok(Verified)
            else Ok(Failed)
  {
    hide GetPath;
  }

  /** One text is part of another. */
  ghost predicate Within(s: string, t: string) {
    exists x, y :: s == x + t + y
  }

  lemma SubstringIsWithin(s: string, t: string)
    ensures Substring(s, t) <==> Within(s, t)
  {
    if i :| 0 <= i <= |s| && t <= s[i..] {
      assert s == s[..i] + t + s[i..][|t|..];
    }
    if x, y :| s == x + t + y {
      assert s[|x|..] == t + y;
    }
  }

  /** What is contained in what: text in text, a value in an array, and text in an object as it is written out. */
  lemma ContainsIff(lib: Library, path: string, v: Value, state: Value, args: Value)
    ensures var actual, w := GetPath(state, path), ResolveValue(v, args);
            Eval(lib, Contains(path, v), state, args) == Ok(Verified) <==>
            && actual.Some?
            && match actual.value
               case Str(s) => w.Str? ==> Within(s, w.s)
               case Array(items) => exists i :: 0 <= i < |items| && items[i] == w
               case Object(fields) => w.Str? && Within(lib.serialise(fields), w.s)
               case _ => false
  {
    hide GetPath, ResolveValue, Substring, Within;
    var actual, w := GetPath(state, path), ResolveValue(v, args);
    if actual.Some? && actual.value.Str? {
      SubstringIsWithin(actual.value.s, "");
      SubstringIsWithin(actual.value.s, if w.Str? then w.s else "");
      assert Within(actual.value.s, "") by { EmptyIsWithin(actual.value.s); }
    } else if actual.Some? && actual.value.Object? && w.Str? {
      SubstringIsWithin(lib.serialise(actual.value.fields), w.s);
    }
  }

  lemma EmptyIsWithin(s: string)
    ensures Within(s, "")
  {
    assert s == "" + "" + s;
  }

  /** The number a count compares: of elements, of fields, of bytes, and zero where there is nothing. */
  function Amount(actual: Option<Value>): Option<int> {
    match actual
    case None => Some(0)
    case Some(Array(items)) => Some(|items|)
    case Some(Object(fields)) => Some(|fields.Keys|)
    case Some(Str(s)) => Some(|BytesOf(s)|)
    case Some(_) => None
  }

  lemma {:induction false} LengthInBytes(s: string)
    ensures Utf8Length(s) == |BytesOf(s)|
  {
    if s != "" {
      LengthInBytes(s[1..]);
    }
  }

  lemma CountIff(lib: Library, path: string, op: CountOperator, n: int, state: Value, args: Value)
    ensures var a := Amount(GetPath(state, path));
            Eval(lib, Count(path, op, n), state, args) == Ok(Verified) <==>
            && a.Some?
            && match op
               case Eq => a.value == n
               case Ne => a.value != n
               case Lt => a.value < n
               case Le => a.value <= n
               case Gt => a.value > n
               case Ge => a.value >= n
  {
    hide GetPath, BytesOf, Utf8Length, SizeOf, Amount, HoldsContains, HoldsGreater, HoldsLess, HoldsEmpty, ResolveValue;
    AmountIsSize(GetPath(state, path));
  }

  lemma AmountIsSize(actual: Option<Value>)
    ensures SizeOf(actual) == Amount(actual)
  {
    hide BytesOf, Utf8Length;
    if actual.Some? && actual.value.Str? {
      LengthInBytes(actual.value.s);
    }
  }

  /** Empty is what is missing, null, or has no elements, no fields or no characters. */
  lemma EmptyIff(lib: Library, path: string, state: Value, args: Value)
    ensures Eval(lib, IsEmpty(path), state, args) == Ok(Verified) <==>
            match GetPath(state, path)
            case None => true
            case Some(Null) => true
            case Some(Array(items)) => items == []
            case Some(Object(fields)) => fields == map[]
            case Some(Str(s)) => s == ""
            case Some(_) => false
    ensures Eval(lib, IsNotEmpty(path), state, args) == Eval(lib, Not(IsEmpty(path)), state, args)
  {
    hide GetPath, SizeOf, HoldsContains, HoldsGreater, HoldsLess, ResolveValue;
    NoFields(GetPath(state, path));
  }

  lemma NoFields(actual: Option<Value>)
    ensures actual.Some? && actual.value.Object? ==> (|actual.value.fields| == 0 <==> actual.value.fields == map[])
  {
    if actual.Some? && actual.value.Object? && |actual.value.fields| == 0 {
      var fields := actual.value.fields;
      assert forall k :: k in fields ==> k in fields.Keys && |fields.Keys| == |fields|;
    }
  }
}
