/**
 * Which schema versions are read, which path a postcondition is filed under, and which error a contract is
 * refused with (crates/agentverify-core/src/contract.rs).
 */
module ValidationLaws {
  import opened Common
  import opened Json
  import opened JsonLaws
  import opened Predicates
  import opened Contracts
  import opened ContractValidation

  /** Two numbers of 32 bits around the only dot. */
  predicate IsVersion(version: string, major: nat, a: string, b: string) {
    && version == a + "." + b && '.' !in a && '.' !in b
    && ParseUnsigned(a, 0xffff_ffff) == Some(major) && ParseUnsigned(b, 0xffff_ffff).Some?
  }

  lemma {:induction false} PartsAreWhole(s: string, sep: char)
    ensures forall i :: 0 <= i < |Split(s, sep)| ==> sep !in Split(s, sep)[i]
  {
    if s != "" {
      PartsAreWhole(s[1..], sep);
    }
  }

  /** A version has a major number exactly when it is of this form. */
  lemma MajorVersionIff(version: string, major: nat)
    ensures MajorVersion(version) == Some(major) <==> exists a, b :: IsVersion(version, major, a, b)
  {
    var parts := Split(version, '.');
    if a, b :| IsVersion(version, major, a, b) {
      SplitOfJoined(a, b, '.');
      SplitWhole(a, '.');
      SplitWhole(b, '.');
      assert a + ['.'] + b == version;
    }
    if |parts| == 2 {
      PartsAreWhole(version, '.');
      JoinOfSplit(version, '.');
      assert Join(parts, '.') == parts[0] + ['.'] + Join(parts[1..], '.');
      assert version == parts[0] + "." + parts[1];
      assert MajorVersion(version) == Some(major) ==> IsVersion(version, major, parts[0], parts[1]);
    }
  }

  /** In particular two numbers around a dot, the first of which is the major one. */
  lemma PrintedVersion(major: nat, minor: nat)
    ensures MajorVersion(Decimal(major) + "." + Decimal(minor)) ==
            if major <= 0xffff_ffff && minor <= 0xffff_ffff then Some(major) else None
  {
    hide Decimal, Split, ParseUnsigned;
    var a, b := Decimal(major), Decimal(minor);
    DecimalIsDigits(major);
    DecimalIsDigits(minor);
    assert '.' !in a && '.' !in b;
    SplitOfJoined(a, b, '.');
    SplitWhole(a, '.');
    SplitWhole(b, '.');
    assert a + ['.'] + b == a + "." + b;
    ParseDecimal(major, 0xffff_ffff);
    ParseDecimal(minor, 0xffff_ffff);
  }

  /** The leaf a predicate comes to by its first parts. */
  ghost predicate FirstLeaf(p: Predicate, leaf: Predicate) {
    match p
    case All(ps) => ps != [] && FirstLeaf(ps[0], leaf)
    case Any(ps) => ps != [] && FirstLeaf(ps[0], leaf)
    case Not(q) => FirstLeaf(q, leaf)
    case Implies(a, _) => FirstLeaf(a, leaf)
    case _ => p == leaf
  }

  /** The path a leaf looks at. */
  predicate LooksAt(leaf: Predicate, path: string) {
    match leaf
    case Exists(p) => p == path
    case NotExists(p) => p == path
    case Equals(p, _) => p == path
    case NotEquals(p, _) => p == path
    case Contains(p, _) => p == path
    case Matches(p, _) => p == path
    case GreaterThan(p, _) => p == path
    case LessThan(p, _) => p == path
    case Count(p, _, _) => p == path
    case IsEmpty(p) => p == path
    case IsNotEmpty(p) => p == path
    case _ => false
  }

  lemma LeafIsFiled(p: Predicate, path: string)
    requires !p.All? && !p.Any? && !p.Not? && !p.Implies?
    ensures PrimaryPath(p) == path <==> LooksAt(p, path)
    ensures forall leaf :: FirstLeaf(p, leaf) ==> leaf == p
  {
  }

  /** A predicate is filed under the path of that leaf, and under the empty path if there is none. */
  lemma {:induction false} FiledUnderItsFirstLeaf(p: Predicate, path: string)
    requires path != ""
    ensures PrimaryPath(p) == path <==> exists leaf :: FirstLeaf(p, leaf) && LooksAt(leaf, path)
  {
    match p
    case All(ps) =>
      if ps != [] {
        FiledUnderItsFirstLeaf(ps[0], path);
      }
    case Any(ps) =>
      if ps != [] {
        FiledUnderItsFirstLeaf(ps[0], path);
      }
    case Not(q) => FiledUnderItsFirstLeaf(q, path);
    case Implies(a, _) => FiledUnderItsFirstLeaf(a, path);
    case _ =>
      assert FirstLeaf(p, p);
      LeafIsFiled(p, path);
  }

  /** The postcondition at `j` is filed under a path, as was one before it or in a set of paths. */
  ghost predicate Repeats(posts: seq<Postcondition>, taken: set<string>, j: int, path: string) {
    && 0 <= j < |posts| && path != "" && PrimaryPath(posts[j].condition) == path
    && (path in taken || exists i :: 0 <= i < j && PrimaryPath(posts[i].condition) == path)
  }

  /** The first postcondition that repeats a path repeats this one. */
  ghost predicate RepeatsFirst(posts: seq<Postcondition>, taken: set<string>, path: string) {
    exists j :: Repeats(posts, taken, j, path) && PathsApart(posts[..j], taken)
  }

  lemma RepeatsOfCons(posts: seq<Postcondition>, taken: set<string>, j: int, path: string)
    requires posts != [] && j >= 1
    ensures var first := PrimaryPath(posts[0].condition);
            Repeats(posts, taken, j, path) <==>
            Repeats(posts[1..], if first == "" then taken else taken + {first}, j - 1, path)
  {
    var first, rest := PrimaryPath(posts[0].condition), posts[1..];
    hide PrimaryPath;
    if 1 <= j < |posts| {
      assert posts[j] == rest[j - 1];
      if i :| 0 <= i < j && PrimaryPath(posts[i].condition) == path {
        assert i > 0 ==> rest[i - 1] == posts[i];
      }
      if i :| 0 <= i < j - 1 && PrimaryPath(rest[i].condition) == path {
        assert posts[i + 1] == rest[i];
      }
    }
  }

  lemma RepeatsAt(posts: seq<Postcondition>, taken: set<string>, j: int, path: string)
    requires posts != [] && j >= 1 && Repeats(posts, taken, j, path)
    requires var first := PrimaryPath(posts[0].condition); first == "" || first !in taken
    ensures var first := PrimaryPath(posts[0].condition);
            PathsApart(posts[..j], taken) <==>
            PathsApart(posts[1..][..j - 1], if first == "" then taken else taken + {first})
  {
    hide PrimaryPath, PathsApart;
    PathsApartOfCons(posts[..j], taken);
    assert posts[..j][1..] == posts[1..][..j - 1];
  }

  lemma RepeatsFirstOfCons(posts: seq<Postcondition>, taken: set<string>, path: string)
    requires posts != []
    requires var first := PrimaryPath(posts[0].condition); first == "" || first !in taken
    ensures var first := PrimaryPath(posts[0].condition);
            RepeatsFirst(posts, taken, path) <==>
            RepeatsFirst(posts[1..], if first == "" then taken else taken + {first}, path)
  {
    var first := PrimaryPath(posts[0].condition);
    var more := if first == "" then taken else taken + {first};
    hide PrimaryPath, PathsApart;
    if j :| Repeats(posts, taken, j, path) && PathsApart(posts[..j], taken) {
      assert j >= 1;
      RepeatsOfCons(posts, taken, j, path);
      RepeatsAt(posts, taken, j, path);
      hide Repeats;
      assert Repeats(posts[1..], more, j - 1, path);
    }
    if k :| Repeats(posts[1..], more, k, path) && PathsApart(posts[1..][..k], more) {
      assert k >= 0;
      RepeatsOfCons(posts, taken, k + 1, path);
      RepeatsAt(posts, taken, k + 1, path);
      hide Repeats;
      assert Repeats(posts, taken, k + 1, path);
    }
  }

  lemma NotApart(posts: seq<Postcondition>, taken: set<string>)
    requires posts != []
    requires var first := PrimaryPath(posts[0].condition); first != "" && first in taken
    ensures !PathsApart(posts, taken)
  {
    hide PrimaryPath;
    PathsApartOfCons(posts, taken);
  }

  lemma RepeatsAtOnce(posts: seq<Postcondition>, taken: set<string>, path: string)
    requires posts != []
    requires var first := PrimaryPath(posts[0].condition); first != "" && first in taken
    ensures RepeatsFirst(posts, taken, path) <==> path == PrimaryPath(posts[0].condition)
  {
    hide PrimaryPath;
    var first := PrimaryPath(posts[0].condition);
    if j :| Repeats(posts, taken, j, path) && PathsApart(posts[..j], taken) {
      if j > 0 {
        NotApart(posts[..j], taken);
        assert false;
      }
    }
    if path == first {
      assert Repeats(posts, taken, 0, path);
      assert posts[..0] == [];
      assert PathsApart(posts[..0], taken);
    }
  }

  lemma {:induction false} FirstDuplicateIff(posts: seq<Postcondition>, taken: set<string>, path: string)
    ensures FirstDuplicate(posts, taken) == Some(path) <==> RepeatsFirst(posts, taken, path)
  {
    hide RepeatsFirst, PrimaryPath;
    if posts == [] {
      NothingRepeats(taken, path);
    } else {
      var first := PrimaryPath(posts[0].condition);
      if first != "" && first in taken {
        RepeatsAtOnce(posts, taken, path);
      } else {
        RepeatsFirstOfCons(posts, taken, path);
        FirstDuplicateIff(posts[1..], if first == "" then taken else taken + {first}, path);
      }
    }
  }

  lemma NothingRepeats(taken: set<string>, path: string)
    ensures !RepeatsFirst([], taken, path)
  {
  }

  /** The version can be read, and is of the major version in force. */
  ghost predicate VersionOk(d: Declared) {
    exists a, b :: IsVersion(d.schemaVersion, 1, a, b)
  }

  ghost predicate PathsOk(d: Declared) {
    VersionOk(d) && d.actionName != "" && d.contract.postconditions != [] && PathsApart(d.contract.postconditions, {})
  }

  /** The rule a contract is refused by, and exactly when. */
  ghost predicate RefusedBy(d: Declared, e: ValidationError) {
    var posts, recovery := d.contract.postconditions, d.contract.recovery;
    match e
    case InvalidSchemaVersion(version) =>
      version == d.schemaVersion && !exists major: nat, a, b :: IsVersion(d.schemaVersion, major, a, b)
    case IncompatibleSchemaVersion(expected, actual) =>
      && expected == "1.0" && actual == d.schemaVersion
      && exists major: nat, a, b :: major != 1 && IsVersion(d.schemaVersion, major, a, b)
    case EmptyActionName => VersionOk(d) && d.actionName == ""
    case NoPostconditions => VersionOk(d) && d.actionName != "" && posts == []
    case DuplicatePostconditionPath(path) => VersionOk(d) && d.actionName != "" && RepeatsFirst(posts, {}, path)
    case InvalidMaxAttempts => PathsOk(d) && recovery.Some? && recovery.value.maxAttempts == 0
    case InvalidBackoff(initial, max) =>
      && PathsOk(d) && recovery.Some? && recovery.value.maxAttempts > 0 && recovery.value.backoff.Some?
      && initial == recovery.value.backoff.value.initial && max == recovery.value.backoff.value.max && max < initial
    case InvalidBackoffMultiplier(multiplier) =>
      && PathsOk(d) && recovery.Some? && recovery.value.maxAttempts > 0 && recovery.value.backoff.Some?
      && recovery.value.backoff.value.initial <= recovery.value.backoff.value.max
      && multiplier == recovery.value.backoff.value.multiplier && multiplier <= 0.0
  }

  lemma VersionIs(version: string)
    ensures MajorVersion(version).None? <==> !exists major: nat, a, b :: IsVersion(version, major, a, b)
    ensures MajorVersion(version) == Some(1) <==> exists a, b :: IsVersion(version, 1, a, b)
    ensures MajorVersion(version).Some? && MajorVersion(version).value != 1 <==>
            exists major: nat, a, b :: major != 1 && IsVersion(version, major, a, b)
  {
    hide MajorVersion, IsVersion;
    MajorVersionIff(version, 1);
    if major: nat, a, b :| IsVersion(version, major, a, b) {
      MajorVersionIff(version, major);
    }
    if major: nat, a, b :| major != 1 && IsVersion(version, major, a, b) {
      MajorVersionIff(version, major);
    }
    if MajorVersion(version).Some? {
      MajorVersionIff(version, MajorVersion(version).value);
    }
  }

  /** A contract is refused with an error exactly when that is the first rule it breaks. */
  lemma RefusedIff(d: Declared, e: ValidationError)
    ensures Validation(d) == Some(e) <==> RefusedBy(d, e)
  {
    hide MajorVersion, IsVersion, PathsApart, FirstDuplicate, RepeatsFirst;
    var posts := d.contract.postconditions;
    VersionIs(d.schemaVersion);
    NoDuplicateIff(posts, {});
    if e.DuplicatePostconditionPath? {
      FirstDuplicateIff(posts, {}, e.path);
      NothingRepeats({}, e.path);
    }
  }
}
