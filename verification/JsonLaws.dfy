/** What a path names in a document, and what a number in a path is (crates/agentverify-engine/src/engine.rs). */
module JsonLaws {
  import opened Common
  import opened Json

  lemma {:induction false} DecimalIsDigits(n: nat)
    ensures Digits(Decimal(n)) == Some(n) && Decimal(n) != ""
    ensures forall i :: 0 <= i < |Decimal(n)| ==> IsDigit(Decimal(n)[i])
  {
    if n < 10 {
      var d := Decimal(n);
      assert d[..0] == "" && d == ['0' + n as char];
    } else {
      DecimalIsDigits(n / 10);
      var d := Decimal(n);
      assert d[..|d| - 1] == Decimal(n / 10);
    }
  }

  /** Leading zeros count for nothing. */
  lemma {:induction false} DigitsAfterZero(s: string)
    ensures Digits("0" + s) == Digits(s)
  {
    var t := "0" + s;
    if s == "" {
      assert t[..0] == "" && t == ['0'];
    } else {
      DigitsAfterZero(s[..|s| - 1]);
      assert t[..|t| - 1] == "0" + s[..|s| - 1] && t[|t| - 1] == s[|s| - 1];
    }
  }

  /** Digits have a value exactly when there is nothing else among them. */
  lemma {:induction false} DigitsIff(s: string)
    ensures Digits(s).Some? <==> forall i :: 0 <= i < |s| ==> '0' <= s[i] <= '9'
  {
    if s != "" {
      var n := |s| - 1;
      DigitsIff(s[..n]);
      assert forall i :: 0 <= i < n ==> s[..n][i] == s[i];
    }
  }

  /** An unsigned number, printed, is read back within its limit and refused beyond; a plus sign may stand before it. */
  lemma ParseDecimal(n: nat, limit: nat)
    ensures ParseUnsigned(Decimal(n), limit) == if n <= limit then Some(n) else None
    ensures ParseUnsigned("+" + Decimal(n), limit) == ParseUnsigned(Decimal(n), limit)
  {
    DecimalIsDigits(n);
    assert IsDigit(Decimal(n)[0]);
    assert ("+" + Decimal(n))[1..] == Decimal(n);
  }

  /** Zeros before a number are read over; nothing, a lone plus sign and any other character are refused. */
  lemma ParseOthers(s: string, limit: nat)
    ensures ParseUnsigned("", limit) == None && ParseUnsigned("+", limit) == None
    ensures s != "" && s[0] != '+' ==> ParseUnsigned("0" + s, limit) == ParseUnsigned(s, limit)
    ensures s != "" && s[0] != '+' && (exists i :: 0 <= i < |s| && !('0' <= s[i] <= '9')) ==>
              ParseUnsigned(s, limit) == None
  {
    assert "+"[1..] == "";
    DigitsAfterZero(s);
    DigitsIff(s);
  }

  lemma {:induction false} SplitWhole(s: string, sep: char)
    requires sep !in s
    ensures Split(s, sep) == [s]
  {
    if s != "" {
      SplitWhole(s[1..], sep);
      assert [s[0]] + s[1..] == s;
    }
  }

  lemma WholePath(v: Value, segment: string)
    requires '.' !in segment
    ensures GetPath(v, segment) == Child(v, segment)
  {
    SplitWhole(segment, '.');
    var segments := [segment];
    assert segments[0] == segment && segments[1..] == [];
    var child := Child(v, segment);
    assert child.Some? ==> Walk(child.value, []) == child;
  }

  /** An index names the element at its place, from the front, and nothing past the end. */
  lemma IndexNamesItsElement(items: seq<Value>, i: nat)
    requires i <= 0xffff_ffff_ffff_ffff
    ensures GetPath(Array(items), Decimal(i)) == if i < |items| then Some(items[i]) else None
  {
    DecimalIsDigits(i);
    assert '.' !in Decimal(i);
    WholePath(Array(items), Decimal(i));
    ParseDecimal(i, 0xffff_ffff_ffff_ffff);
  }

  /** An index of more than 64 bits names nothing, however long the array; nor does anything but an index. */
  lemma OnlyIndexesNameElements(items: seq<Value>, segment: string)
    requires '.' !in segment && ParseUnsigned(segment, 0xffff_ffff_ffff_ffff).None?
    ensures GetPath(Array(items), segment) == None
  {
    WholePath(Array(items), segment);
  }

  /** A name without a dot names the field of that name. */
  lemma NameNamesItsField(fields: map<string, Value>, name: string)
    requires '.' !in name
    ensures GetPath(Object(fields), name) == if name in fields then Some(fields[name]) else None
  {
    WholePath(Object(fields), name);
  }

  /** Nothing is named in a document that is neither an array nor an object, by any path. */
  lemma ScalarsNameNothing(v: Value, path: string)
    requires !v.Array? && !v.Object?
    ensures GetPath(v, path) == None
  {
  }

  /** Nor in an object without fields. */
  lemma EmptyObjectNamesNothing(path: string)
    ensures GetPath(Object(map[]), path) == None
  {
  }
}
