/** Printing a connection URI and reading it back. */
module UriLaws {
  import opened Common
  import Json
  import opened JsonLaws
  import opened Uris

  lemma {:induction false} EncodedIsClean(s: string)
    requires Bytes(s)
    ensures forall i :: 0 <= i < |Encode(s)| ==> Unreserved(Encode(s)[i]) || Encode(s)[i] == '%'
  {
    if s != "" {
      EncodedIsClean(s[1..]);
    }
  }

  lemma UnescapeOfEncodedByte(c: char, rest: string)
    requires c as int < 256
    ensures Unescape(EncodeByte(c) + rest) == [c] + Unescape(rest)
  {
    var s := EncodeByte(c) + rest;
    if Unreserved(c) {
      assert s[1..] == rest;
    } else {
      var h, l := c as int / 16, c as int % 16;
      assert HexValue(HexDigit(h)) == Some(h) && HexValue(HexDigit(l)) == Some(l);
      assert s[3..] == rest && 16 * h + l == c as int;
    }
  }

  /** Decoding undoes encoding. */
  lemma {:induction false} UnescapeOfEncoded(s: string)
    requires Bytes(s)
    ensures Unescape(Encode(s)) == s
  {
    if s != "" {
      UnescapeOfEncodedByte(s[0], Encode(s[1..]));
      UnescapeOfEncoded(s[1..]);
    }
  }

  /** A component comes back from its encoding exactly when it was UTF-8. */
  lemma DecodeOfEncoded(s: string, component: string)
    requires Bytes(s)
    ensures DecodeComponent(Encode(s), component) == if ValidUtf8(s) then Ok(s) else Err(InvalidEncoding(component))
  {
    UnescapeOfEncoded(s);
  }

  lemma {:induction false} SplitOnceAtFirst(a: string, c: char, b: string)
    requires c !in a
    ensures SplitOnce(a + [c] + b, c) == Some(Halves(a, b))
  {
    var s := a + [c] + b;
    if a == "" {
      assert s[1..] == b;
    } else {
      SplitOnceAtFirst(a[1..], c, b);
      assert s[1..] == a[1..] + [c] + b && [a[0]] + a[1..] == a;
    }
  }

  lemma {:induction false} SplitOnceAtLast(a: string, c: char, b: string)
    requires c !in b
    ensures SplitOnceFromRight(a + [c] + b, c) == Some(Halves(a, b))
  {
    var s := a + [c] + b;
    var n := |s| - 1;
    if b == "" {
      assert s == a + [c] && s[n] == c;
      assert s[..n] == a;
    } else {
      var m := |b| - 1;
      SplitOnceAtLast(a, c, b[..m]);
      assert s[n] == b[m] != c;
      assert s[..n] == a + [c] + b[..m] && b[..m] + [b[m]] == b;
    }
  }

  /** A text holds a character: it splits at the first, and at the last. */
  lemma {:induction false} FirstOf(s: string, c: char) returns (a: string, b: string)
    requires c in s
    ensures s == a + [c] + b && c !in a
  {
    if s[0] == c {
      a, b := "", s[1..];
    } else {
      a, b := FirstOf(s[1..], c);
      a := [s[0]] + a;
    }
  }

  lemma {:induction false} LastOf(s: string, c: char) returns (a: string, b: string)
    requires c in s
    ensures s == a + [c] + b && c !in b
  {
    var n := |s| - 1;
    if s[n] == c {
      a, b := s[..n], "";
    } else {
      a, b := LastOf(s[..n], c);
      b := b + [s[n]];
    }
  }

  /** A port comes back from its decimal digits. */
  lemma PortRoundTrip(port: nat)
    requires port <= PORT_MAX
    ensures Json.ParseUnsigned(Json.Decimal(port), PORT_MAX) == Some(port) && ':' !in Json.Decimal(port)
  {
    DecimalIsDigits(port);
    assert Json.IsDigit(Json.Decimal(port)[0]);
  }

  lemma UserinfoRoundTrip(user: string, password: string)
    requires ValidUtf8(user) && ValidUtf8(password) && Bytes(user) && Bytes(password)
    ensures ParseUserinfo(Encode(user) + ":" + Encode(password)) == Ok(Login(user, Some(password)))
  {
    EncodedIsClean(user);
    EncodedIsClean(password);
    SplitOnceAtFirst(Encode(user), ':', Encode(password));
    DecodeOfEncoded(user, "user");
    DecodeOfEncoded(password, "password");
  }

  /** The place behind an authority whose host has no slash. */
  lemma AuthorityRoundTrip(host: string, port: nat, database: string, query: string)
    requires '/' !in host && port <= PORT_MAX && ValidUtf8(database) && Bytes(database)
    ensures ParseAuthority(AuthorityOf(host, port, database, query)) == Ok(Place(host, port, database))
  {
    var hostPort := host + ":" + Json.Decimal(port);
    DecimalIsDigits(port);
    EncodedIsClean(database);
    var tail := Encode(database) + "?" + query;
    assert AuthorityOf(host, port, database, query) == hostPort + "/" + tail;
    SplitOnceAtFirst(hostPort, '/', tail);
    SplitOnceAtFirst(Encode(database), '?', query);
    DecodeOfEncoded(database, "database name");
    PortRoundTrip(port);
    SplitOnceAtLast(host, ':', Json.Decimal(port));
  }

  lemma HostIsWithin(hostPort: string, database: string)
    ensures ParseHostPort(hostPort, database).Ok? ==> |ParseHostPort(hostPort, database).value.host| <= |hostPort|
  {
    SplitIsShorter(hostPort, ':');
  }

  lemma {:induction false} SplitIsShorter(s: string, c: char)
    ensures SplitOnceFromRight(s, c).Some? ==> |SplitOnceFromRight(s, c).value.left| < |s|
  {
    if s != "" {
      SplitIsShorter(s[..|s| - 1], c);
    }
  }

  /** A slash in the host cuts it short. */
  lemma SlashCutsTheHost(host: string, port: nat, database: string, query: string)
    requires '/' in host && Bytes(database)
    ensures var p := ParseAuthority(AuthorityOf(host, port, database, query)); p.Ok? ==> |p.value.host| < |host|
  {
    var a, b := FirstOf(host, '/');
    var rest := b + ":" + Json.Decimal(port) + "/" + Encode(database) + "?" + query;
    assert AuthorityOf(host, port, database, query) == a + "/" + rest;
    SplitOnceAtFirst(a, '/', rest);
    var raw := match SplitOnce(rest, '?') case Some(q) => q.left case None => rest;
    if DecodeComponent(raw, "database name").Ok? {
      HostIsWithin(a, DecodeComponent(raw, "database name").value);
    }
  }

  /** The part of a URI after its scheme, from the encoded user and password. */
  function RestOf(login: string, host: string, port: nat, database: string, query: string): string
    requires Bytes(database)
  {
    login + "@" + AuthorityOf(host, port, database, query)
  }

  lemma RestRoundTrip(user: string, password: string, host: string, port: nat, database: string, query: string)
    requires ValidUtf8(user) && ValidUtf8(password) && ValidUtf8(database) && Bytes(user) && Bytes(password)
             && Bytes(database)
    requires port <= PORT_MAX && '/' !in host && '@' !in host && '@' !in query
    ensures ParseRest(RestOf(Encode(user) + ":" + Encode(password), host, port, database, query)) ==
            Ok(ParsedUri(Login(user, Some(password)), Place(host, port, database)))
  {
    DecimalIsDigits(port);
    EncodedIsClean(database);
    SplitOnceAtLast(Encode(user) + ":" + Encode(password), '@', AuthorityOf(host, port, database, query));
    UserinfoRoundTrip(user, password);
    AuthorityRoundTrip(host, port, database, query);
  }

  lemma TwoColonsAreAmbiguous(a: string, b: string, c: string)
    requires ':' !in a
    ensures ParseUserinfo(a + ":" + (b + ":" + c)) == Err(AmbiguousPassword)
  {
    var right := b + ":" + c;
    SplitOnceAtFirst(a, ':', right);
    assert right[|b|] == ':';
  }

  lemma RestAround(login: string, host: string, port: nat, database: string, a: string, b: string)
    requires Bytes(database)
    ensures RestOf(login, host, port, database, a + "@" + b) ==
            (login + "@" + host + ":" + (Json.Decimal(port) + "/" + Encode(database) + "?" + a)) + "@" + b
  {
  }

  lemma AmbiguousAround(user: string, password: string, host: string, tail: string, b: string)
    requires ':' !in user && '@' !in b
    ensures ParseRest(((user + ":" + password) + "@" + host + ":" + tail) + "@" + b) == Err(AmbiguousPassword)
  {
    var left := (user + ":" + password) + "@" + host + ":" + tail;
    SplitOnceAtLast(left, '@', b);
    assert left == user + ":" + ((password + "@" + host) + ":" + tail);
    TwoColonsAreAmbiguous(user, password + "@" + host, tail);
  }

  /** An at sign in the query makes the host and port part of the password, which then has a colon. */
  lemma AtSignInQuery(user: string, password: string, host: string, port: nat, database: string, query: string)
    requires Bytes(user) && Bytes(password) && Bytes(database) && '@' in query
    ensures ParseRest(RestOf(Encode(user) + ":" + Encode(password), host, port, database, query)) ==
            Err(AmbiguousPassword)
  {
    EncodedIsClean(user);
    var a, b := LastOf(query, '@');
    assert query == a + "@" + b;
    RestAround(Encode(user) + ":" + Encode(password), host, port, database, a, b);
    AmbiguousAround(Encode(user), Encode(password), host, Json.Decimal(port) + "/" + Encode(database) + "?" + a, b);
  }

  lemma NoAtSign(host: string, port: nat, database: string, query: string)
    requires Bytes(database) && '@' !in host && '@' !in query
    ensures '@' !in AuthorityOf(host, port, database, query)
  {
    DecimalIsDigits(port);
    EncodedIsClean(database);
  }

  /** An at sign or a slash in the host cuts it short, if the URI is accepted at all. */
  lemma HostIsCut(login: string, host: string, port: nat, database: string, query: string)
    requires Bytes(database) && port <= PORT_MAX && '@' !in query && ('@' in host || '/' in host)
    ensures var p := ParseRest(RestOf(login, host, port, database, query)); p.Ok? ==> |p.value.place.host| < |host|
  {
    hide ParseAuthority, ParseUserinfo, Encode, Json.Decimal;
    if '@' in host {
      var a, b := LastOf(host, '@');
      assert RestOf(login, host, port, database, query) ==
             (login + "@" + a) + "@" + AuthorityOf(b, port, database, query);
      NoAtSign(b, port, database, query);
      SplitOnceAtLast(login + "@" + a, '@', AuthorityOf(b, port, database, query));
      AuthorityHostIsWithin(b, port, database, query);
    } else {
      NoAtSign(host, port, database, query);
      SplitOnceAtLast(login, '@', AuthorityOf(host, port, database, query));
      SlashCutsTheHost(host, port, database, query);
    }
  }

  lemma AuthorityHostIsWithin(host: string, port: nat, database: string, query: string)
    requires Bytes(database) && port <= PORT_MAX
    ensures var p := ParseAuthority(AuthorityOf(host, port, database, query)); p.Ok? ==> |p.value.host| <= |host|
  {
    if '/' in host {
      SlashCutsTheHost(host, port, database, query);
    } else if ValidUtf8(database) {
      AuthorityRoundTrip(host, port, database, query);
    } else {
      var hostPort, tail := host + ":" + Json.Decimal(port), Encode(database) + "?" + query;
      DecimalIsDigits(port);
      EncodedIsClean(database);
      assert AuthorityOf(host, port, database, query) == hostPort + "/" + tail;
      SplitOnceAtFirst(hostPort, '/', tail);
      SplitOnceAtFirst(Encode(database), '?', query);
      DecodeOfEncoded(database, "database name");
    }
  }

  /** Reading back a printed configuration gives its login and place. */
  predicate ReadsBack(c: Config)
    requires WellTyped(c)
  {
    ParseUri(BuildUri(c)) == Ok(ParsedUri(Login(c.user, Some(c.password)), Place(c.host, c.port, c.database)))
  }

  /**
   * A printed configuration reads back exactly when neither an at sign nor a slash is in its host and
   * no at sign in its SSL mode: the parts that are printed as they are.
   */
  lemma ReadsBackIff(c: Config)
    requires WellTyped(c)
    ensures ReadsBack(c) <==> '@' !in c.host && '/' !in c.host && '@' !in c.sslMode
  {
    Utf8IsBytes(c.user);
    Utf8IsBytes(c.password);
    Utf8IsBytes(c.database);
    Utf8IsBytes(c.applicationName);
    var login, query := Encode(c.user) + ":" + Encode(c.password), QueryOf(c.sslMode, c.applicationName);
    var rest := RestOf(login, c.host, c.port, c.database, query);
    assert BuildUri(c) == SCHEME + rest;
    assert BuildUri(c)[|SCHEME|..] == rest;
    AtSignInQueryIff(c.sslMode, c.applicationName);
    if '@' in c.sslMode {
      AtSignInQuery(c.user, c.password, c.host, c.port, c.database, query);
    } else if '@' in c.host || '/' in c.host {
      HostIsCut(login, c.host, c.port, c.database, query);
    } else {
      RestRoundTrip(c.user, c.password, c.host, c.port, c.database, query);
    }
  }

  lemma AtSignInQueryIff(sslMode: string, applicationName: string)
    requires Bytes(applicationName)
    ensures '@' in QueryOf(sslMode, applicationName) <==> '@' in sslMode
  {
    EncodedIsClean(applicationName);
  }

  lemma BareAuthorityReads(host: string, database: string)
    requires ValidUtf8(database) && Bytes(database) && '/' !in host && ':' !in host
    ensures ParseAuthority(host + "/" + Encode(database)) == Ok(Place(host, 5432, database))
  {
    EncodedIsClean(database);
    SplitOnceAtFirst(host, '/', Encode(database));
    NoSplit(host, ':');
    NoSplit(Encode(database), '?');
    DecodeOfEncoded(database, "database name");
  }

  /** Without a password and a port the parser supplies none and the default. */
  lemma BareUriReads(user: string, host: string, database: string)
    requires ValidUtf8(user) && ValidUtf8(database) && Bytes(user) && Bytes(database)
    requires '@' !in host && '/' !in host && ':' !in host
    ensures ParseRest(Encode(user) + "@" + (host + "/" + Encode(database))) ==
            Ok(ParsedUri(Login(user, None), Place(host, 5432, database)))
  {
    EncodedIsClean(user);
    EncodedIsClean(database);
    SplitOnceAtLast(Encode(user), '@', host + "/" + Encode(database));
    NoSplit(Encode(user), ':');
    DecodeOfEncoded(user, "user");
    BareAuthorityReads(host, database);
  }

  lemma {:induction false} NoSplit(s: string, c: char)
    requires c !in s
    ensures SplitOnce(s, c) == None && SplitOnceFromRight(s, c) == None
  {
    if s != "" {
      NoSplit(s[1..], c);
      NoSplit(s[..|s| - 1], c);
    }
  }
}
