/**
 * Connection URIs (crates/agentverify-observe/src/postgres.rs). Text is the sequence of its bytes in
 * UTF-8, each a character below 256; percent-encoding is that of sections 2.1 and 2.3 of RFC 3986.
 */
module Uris {
  import opened Common
  import Json

  predicate Unreserved(c: char) {
    'a' <= c <= 'z' || 'A' <= c <= 'Z' || '0' <= c <= '9' || c == '-' || c == '.' || c == '_' || c == '~'
  }

  function HexDigit(n: nat): char
    requires n < 16
  {
    if n < 10 then '0' + n as char else 'A' + (n - 10) as char
  }

  function HexValue(c: char): Option<nat> {
    if '0' <= c <= '9' then Some(c as int - '0' as int)
    else if 'A' <= c <= 'F' then Some(c as int - 'A' as int + 10)
    else if 'a' <= c <= 'f' then Some(c as int - 'a' as int + 10)
    else None
  }

  predicate Bytes(s: string) {
    forall i :: 0 <= i < |s| ==> s[i] as int < 256
  }

  function EncodeByte(c: char): string
    requires c as int < 256
  {
    if Unreserved(c) then [c] else ['%', HexDigit(c as int / 16), HexDigit(c as int % 16)]
  }

  function Encode(s: string): string
    requires Bytes(s)
  {
    if s == "" then "" else EncodeByte(s[0]) + Encode(s[1..])
  }

  /** Replace the escapes; a percent sign without two hexadecimal digits after it stands for itself. */
  function Unescape(s: string): string {
    if s == "" then ""
    else if s[0] == '%' && |s| >= 3 && HexValue(s[1]).Some? && HexValue(s[2]).Some? then
      [(16 * HexValue(s[1]).value + HexValue(s[2]).value) as char] + Unescape(s[3..])
    else [s[0]] + Unescape(s[1..])
  }

  predicate Between(c: char, low: int, high: int) {
    low <= c as int <= high
  }

  /** The length of the UTF-8 character a text begins with, 0 if it begins with none. */
  function Utf8Length(s: string): nat
    requires s != ""
  {
    var c := s[0];
    if Between(c, 0, 0x7f) then 1
    else if |s| >= 2 && Between(c, 0xc2, 0xdf) && Between(s[1], 0x80, 0xbf) then 2
    else if |s| >= 3 && Between(s[2], 0x80, 0xbf)
            && ((c as int == 0xe0 && Between(s[1], 0xa0, 0xbf)) || (c as int == 0xed && Between(s[1], 0x80, 0x9f))
                || ((Between(c, 0xe1, 0xec) || Between(c, 0xee, 0xef)) && Between(s[1], 0x80, 0xbf)))
    then 3
    else if |s| >= 4 && Between(s[2], 0x80, 0xbf) && Between(s[3], 0x80, 0xbf)
            && ((c as int == 0xf0 && Between(s[1], 0x90, 0xbf)) || (Between(c, 0xf1, 0xf3) && Between(s[1], 0x80, 0xbf))
                || (c as int == 0xf4 && Between(s[1], 0x80, 0x8f)))
    then 4
    else 0
  }

  predicate ValidUtf8(s: string) {
    s == "" || (Utf8Length(s) > 0 && ValidUtf8(s[Utf8Length(s)..]))
  }

  datatype Error =
    | InvalidScheme
    | MissingUserinfo
    | AmbiguousPassword
    | InvalidEncoding(component: string)
    | MissingDatabase
    | InvalidPort(port: string)

  function DecodeComponent(raw: string, component: string): Result<string, Error> {
    if ValidUtf8(Unescape(raw)) then Ok(Unescape(raw)) else Err(InvalidEncoding(component))
  }

  datatype Halves = Halves(left: string, right: string)

  function SplitOnce(s: string, c: char): Option<Halves> {
    if s == "" then None
    else if s[0] == c then Some(Halves("", s[1..]))
    else
      match SplitOnce(s[1..], c)
      case Some(h) => Some(Halves([s[0]] + h.left, h.right))
      case None => None
  }

  function SplitOnceFromRight(s: string, c: char): Option<Halves> {
    if s == "" then None
    else
      var n := |s| - 1;
      if s[n] == c then Some(Halves(s[..n], ""))
      else
        match SplitOnceFromRight(s[..n], c)
        case Some(h) => Some(Halves(h.left, h.right + [s[n]]))
        case None => None
  }

  function StripPrefix(s: string, prefix: string): Option<string> {
    if prefix <= s then Some(s[|prefix|..]) else None
  }

  datatype Login = Login(user: string, password: Option<string>)

  function ParseUserinfo(userinfo: string): Result<Login, Error> {
    match SplitOnce(userinfo, ':')
    case None =>
      (match DecodeComponent(userinfo, "user")
       case Ok(user) => Ok(Login(user, None))
       case Err(e) => Err(e))
    case Some(h) =>
      if ':' in h.right then Err(AmbiguousPassword)
      else
        match DecodeComponent(h.right, "password")
        case Err(e) => Err(e)
        case Ok(password) =>
          match DecodeComponent(h.left, "user")
          case Ok(user) => Ok(Login(user, Some(password)))
          case Err(e) => Err(e)
  }

  const PORT_MAX: nat := 0xffff
  const DEFAULT_PORT: nat := 5432

  datatype Place = Place(host: string, port: nat, database: string)

  function ParseHostPort(hostPort: string, database: string): Result<Place, Error> {
    match SplitOnceFromRight(hostPort, ':')
    case None => Ok(Place(hostPort, DEFAULT_PORT, database))
    case Some(h) =>
      match Json.ParseUnsigned(h.right, PORT_MAX)
      case Some(port) => Ok(Place(h.left, port, database))
      case None => Err(InvalidPort(h.right))
  }

  function ParseAuthority(authority: string): Result<Place, Error> {
    match SplitOnce(authority, '/')
    case None => Err(MissingDatabase)
    case Some(h) =>
      var raw := match SplitOnce(h.right, '?') case Some(q) => q.left case None => h.right;
      match DecodeComponent(raw, "database name")
      case Err(e) => Err(e)
      case Ok(database) => ParseHostPort(h.left, database)
  }

  datatype ParsedUri = ParsedUri(login: Login, place: Place)

  function ParseRest(rest: string): Result<ParsedUri, Error> {
    match SplitOnceFromRight(rest, '@')
    case None => Err(MissingUserinfo)
    case Some(h) =>
      match ParseUserinfo(h.left)
      case Err(e) => Err(e)
      case Ok(login) =>
        match ParseAuthority(h.right)
        case Err(e) => Err(e)
        case Ok(place) => Ok(ParsedUri(login, place))
  }

  const SCHEME: string := "postgres://"
  const LONG_SCHEME: string := "postgresql://"

  function ParseUri(uri: string): Result<ParsedUri, Error> {
    match StripPrefix(uri, SCHEME)
    case Some(rest) => ParseRest(rest)
    case None =>
      match StripPrefix(uri, LONG_SCHEME)
      case Some(rest) => ParseRest(rest)
      case None => Err(InvalidScheme)
  }

  datatype Config = Config(
    user: string,
    password: string,
    host: string,
    port: nat,
    database: string,
    sslMode: string,
    applicationName: string)

  /** A configuration as its types allow it: every text is UTF-8 and the port has sixteen bits. */
  predicate WellTyped(c: Config) {
    && ValidUtf8(c.user) && ValidUtf8(c.password) && ValidUtf8(c.host) && ValidUtf8(c.database)
    && ValidUtf8(c.sslMode) && ValidUtf8(c.applicationName) && c.port <= PORT_MAX
  }

  /** What follows the user's part, the host first. */
  function AuthorityOf(host: string, port: nat, database: string, query: string): string
    requires Bytes(database)
  {
    host + ":" + Json.Decimal(port) + "/" + Encode(database) + "?" + query
  }

  function QueryOf(sslMode: string, applicationName: string): string
    requires Bytes(applicationName)
  {
    "sslmode=" + sslMode + "&application_name=" + Encode(applicationName)
  }

  lemma {:induction false} Utf8IsBytes(s: string)
    requires ValidUtf8(s)
    ensures Bytes(s)
  {
    if s != "" {
      var n := Utf8Length(s);
      Utf8IsBytes(s[n..]);
      forall i | 0 <= i < |s| ensures s[i] as int < 256 {
        if i >= n {
          assert s[i] == s[n..][i - n];
        }
      }
    }
  }

  function BuildUri(c: Config): string
    requires WellTyped(c)
  {
    Utf8IsBytes(c.user);
    Utf8IsBytes(c.password);
    Utf8IsBytes(c.database);
    Utf8IsBytes(c.applicationName);
    SCHEME + (Encode(c.user) + ":" + Encode(c.password) + "@" +
              AuthorityOf(c.host, c.port, c.database, QueryOf(c.sslMode, c.applicationName)))
  }
}
