/**
 * The shape of connection URIs, character by character: what is printed, what is read, and which error
 * says what is missing (crates/agentverify-observe/src/postgres.rs).
 */
module UriShapes {
  import opened Common
  import opened Uris
  import opened UriLaws
  import Json

  const SHORT: string := "postgres://"
  const LONG: string := "postgresql://"

  const UPPER_HEX: string := "0123456789ABCDEF"
  const LOWER_HEX: string := "0123456789abcdef"

  /** The characters of section 2.3 of RFC 3986 stand for themselves; any other byte is escaped in upper case. */
  lemma EncodesAs(c: char)
    requires c as int < 256
    ensures Encode([c]) ==
            if 'a' <= c <= 'z' || 'A' <= c <= 'Z' || '0' <= c <= '9' || c in "-._~" then [c]
            else ['%', UPPER_HEX[c as int / 16], UPPER_HEX[c as int % 16]]
  {
    UpperHex(c as int / 16);
    UpperHex(c as int % 16);
    assert Encode([c]) == EncodeByte(c) + Encode([]);
  }

  lemma UpperHex(n: nat)
    requires n < 16
    ensures HexDigit(n) == UPPER_HEX[n]
  {
  }

  lemma {:induction false} EncodeConcatenates(s: string, t: string)
    requires Bytes(s) && Bytes(t)
    ensures Bytes(s + t) && Encode(s + t) == Encode(s) + Encode(t)
  {
    hide EncodeByte;
    if s == "" {
      assert s + t == t;
    } else {
      EncodeConcatenates(s[1..], t);
      var rest := (s + t)[1..];
      assert rest == s[1..] + t && (s + t)[0] == s[0];
      Regroup(EncodeByte(s[0]), Encode(s[1..]), Encode(t));
      assert Encode(s + t) == EncodeByte(s[0]) + Encode(rest);
    }
  }

  /** A hexadecimal digit in either case. */
  predicate IsHex(c: char, n: nat)
    requires n < 16
  {
    c == UPPER_HEX[n] || c == LOWER_HEX[n]
  }

  lemma HexReads(c: char, n: nat)
    requires n < 16 && IsHex(c, n)
    ensures HexValue(c) == Some(n)
  {
  }

  /** Two digits after a percent sign are read as the byte they spell, each in either case. */
  lemma EscapeReads(byte: nat, high: char, low: char, rest: string)
    requires byte < 256 && IsHex(high, byte / 16) && IsHex(low, byte % 16)
    ensures Unescape(['%', high, low] + rest) == [byte as char] + Unescape(rest)
  {
    HexReads(high, byte / 16);
    HexReads(low, byte % 16);
    assert (['%', high, low] + rest)[3..] == rest;
  }

  /** Whatever is not such an escape stands for itself. */
  lemma OthersReadAsThemselves(s: string)
    requires s != ""
    requires s[0] == '%' && |s| >= 3 ==>
               (forall n :: 0 <= n < 16 ==> !IsHex(s[1], n)) || (forall n :: 0 <= n < 16 ==> !IsHex(s[2], n))
    ensures Unescape(s) == [s[0]] + Unescape(s[1..])
  {
    if s[0] == '%' && |s| >= 3 {
      HexSpells(s[1]);
      HexSpells(s[2]);
    }
  }

  lemma HexSpells(c: char)
    ensures HexValue(c).Some? ==> HexValue(c).value < 16 && IsHex(c, HexValue(c).value)
  {
  }

  /** What is printed, label by label. */
  lemma PrintsAs(c: Config)
    requires WellTyped(c)
    ensures Bytes(c.user) && Bytes(c.password) && Bytes(c.database) && Bytes(c.applicationName)
    ensures BuildUri(c) ==
            SHORT + Encode(c.user) + ":" + Encode(c.password) + "@" + c.host + ":" + Json.Decimal(c.port)
            + "/" + Encode(c.database) + "?sslmode=" + c.sslMode + "&application_name=" + Encode(c.applicationName)
  {
    Utf8IsBytes(c.user);
    Utf8IsBytes(c.password);
    Utf8IsBytes(c.database);
    Utf8IsBytes(c.applicationName);
    var query := QueryOf(c.sslMode, c.applicationName);
    var front := SHORT + Encode(c.user) + ":" + Encode(c.password) + "@";
    var place := c.host + ":" + Json.Decimal(c.port) + "/" + Encode(c.database);
    assert BuildUri(c) == front + (place + "?" + query) by {
      FrontOf(SCHEME, Encode(c.user), ":", Encode(c.password), "@", place + "?" + query);
    }
    assert front + (place + "?" + query) ==
           front + c.host + ":" + Json.Decimal(c.port) + "/" + Encode(c.database) + "?" + query by {
      FrontOf(front, c.host, ":", Json.Decimal(c.port), "/", Encode(c.database));
      Regroup(front, place, "?");
      Regroup(front, place + "?", query);
    }
    var before := front + c.host + ":" + Json.Decimal(c.port) + "/" + Encode(c.database);
    QueryLabels(before, c.sslMode, Encode(c.applicationName));
  }

  lemma QueryLabels(front: string, mode: string, name: string)
    ensures front + "?" + ("sslmode=" + mode + "&application_name=" + name) ==
            front + "?sslmode=" + mode + "&application_name=" + name
  {
    var key: string, amp: string, sep: string := "sslmode=", "&application_name=", "?";
    Regroup(front + sep, key + mode + amp, name);
    Regroup(front + sep, key + mode, amp);
    Regroup(front + sep, key, mode);
    Regroup(front, sep, key);
    assert sep + key == "?sslmode=";
  }

  lemma Regroup(a: string, b: string, c: string)
    ensures a + (b + c) == a + b + c
  {
  }

  lemma FrontOf(front: string, a: string, b: string, c: string, d: string, e: string)
    ensures front + (a + b + c + d + e) == front + a + b + c + d + e
  {
    Regroup(front, a + b + c + d, e);
    Regroup(front, a + b + c, d);
    Regroup(front, a + b, c);
    Regroup(front, a, b);
  }

  /** Both schemes are read alike, and no other is. */
  lemma SchemesRead(rest: string)
    ensures ParseUri(SHORT + rest) == ParseRest(rest)
    ensures ParseUri(LONG + rest) == ParseRest(rest)
  {
    var short, long := SHORT + rest, LONG + rest;
    assert short[|SCHEME|..] == rest;
    assert long[8] == 'q' && SCHEME[8] == ':';
    assert long[|LONG_SCHEME|..] == rest;
  }

  lemma OtherSchemesAreRefused(uri: string)
    requires !(SHORT <= uri) && !(LONG <= uri)
    ensures ParseUri(uri) == Err(InvalidScheme)
  {
  }

  lemma UserinfoIsThere(login: string, authority: string)
    ensures ParseUserinfo(login) != Err(MissingUserinfo) && ParseAuthority(authority) != Err(MissingUserinfo)
  {
    hide SplitOnce, SplitOnceFromRight, Unescape, ValidUtf8;
  }

  /** Without an at sign there is nobody to log in. */
  lemma MissingUserinfoIff(rest: string)
    ensures ParseRest(rest) == Err(MissingUserinfo) <==> '@' !in rest
  {
    if '@' in rest {
      var a, b := LastOf(rest, '@');
      SplitOnceAtLast(a, '@', b);
      UserinfoIsThere(a, b);
      hide ParseUserinfo, ParseAuthority;
    } else {
      NoSplit(rest, '@');
    }
  }

  /** Before the last at sign is the login, whose error comes first; after it the place. */
  lemma RestReads(login: string, authority: string)
    requires '@' !in authority
    ensures ParseRest(login + "@" + authority) ==
            if ParseUserinfo(login).Err? then Err(ParseUserinfo(login).error)
            else if ParseAuthority(authority).Err? then Err(ParseAuthority(authority).error)
            else Ok(ParsedUri(ParseUserinfo(login).value, ParseAuthority(authority).value))
  {
    SplitOnceAtLast(login, '@', authority);
  }

  /** A user alone has no password, not even an empty one. */
  lemma UserReads(user: string)
    requires ':' !in user
    ensures ParseUserinfo(user) ==
            if ValidUtf8(Unescape(user)) then Ok(Login(Unescape(user), None)) else Err(InvalidEncoding("user"))
  {
    NoSplit(user, ':');
  }

  /** A colon ends the user; a second is refused, and what cannot be decoded too, the password first. */
  lemma LoginReads(user: string, password: string)
    requires ':' !in user
    ensures ParseUserinfo(user + ":" + password) ==
            if ':' in password then Err(AmbiguousPassword)
            else if !ValidUtf8(Unescape(password)) then Err(InvalidEncoding("password"))
            else if !ValidUtf8(Unescape(user)) then Err(InvalidEncoding("user"))
            else Ok(Login(Unescape(user), Some(Unescape(password))))
  {
    SplitOnceAtFirst(user, ':', password);
  }

  /** Without a slash there is no database. */
  lemma MissingDatabaseIff(authority: string)
    ensures ParseAuthority(authority) == Err(MissingDatabase) <==> '/' !in authority
  {
    if '/' in authority {
      var a, b := FirstOf(authority, '/');
      SplitOnceAtFirst(a, '/', b);
      hide SplitOnce, SplitOnceFromRight, Unescape, ValidUtf8;
    } else {
      NoSplit(authority, '/');
    }
  }

  /** The database is what is between the first slash and the next question mark, whatever comes after that. */
  lemma PlaceReads(hostPort: string, database: string, query: string)
    requires '/' !in hostPort && '?' !in database
    ensures ParseAuthority(hostPort + "/" + (database + "?" + query)) == ParseAuthority(hostPort + "/" + database)
    ensures ParseAuthority(hostPort + "/" + database) ==
            if !ValidUtf8(Unescape(database)) then Err(InvalidEncoding("database name"))
            else ParseHostPort(hostPort, Unescape(database))
  {
    SplitOnceAtFirst(hostPort, '/', database + "?" + query);
    SplitOnceAtFirst(hostPort, '/', database);
    SplitOnceAtFirst(database, '?', query);
    NoSplit(database, '?');
  }

  /** A host without a colon is at port 5432; after the last colon there must be a number of 16 bits. */
  lemma HostReads(host: string, port: string, database: string)
    requires ':' !in port
    ensures ':' !in host ==> ParseHostPort(host, database) == Ok(Place(host, 5432, database))
    ensures ParseHostPort(host + ":" + port, database) ==
            match Json.ParseUnsigned(port, 65535)
            case Some(n) => Ok(Place(host, n, database))
            case None => Err(InvalidPort(port))
  {
    if ':' !in host {
      NoSplit(host, ':');
    }
    SplitOnceAtLast(host, ':', port);
  }
}
