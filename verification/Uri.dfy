/**
 Connection URIs: how they are printed, how the standard URL parser takes them apart, and which
 connections survive the way there and back.  A text is the sequence of its bytes, one char each.
 */
module Uri {
  import opened Options
  import opened Strings
  import opened Claim

  predicate IsBytes(s: string) {
    forall i :: 0 <= i < |s| ==> s[i] as int < 256
  }

  predicate IsDigit(c: char) {
    '0' <= c <= '9'
  }

  predicate IsLetter(c: char) {
    'a' <= c <= 'z' || 'A' <= c <= 'Z'
  }

  /** The unreserved characters of section 2.3 of RFC 3986. */
  predicate Unreserved(c: char) {
    IsLetter(c) || IsDigit(c) || c == '-' || c == '_' || c == '.' || c == '~'
  }

  predicate IsPlain(s: string) {
    forall i :: 0 <= i < |s| ==> Unreserved(s[i])
  }

  predicate IsNumber(s: string) {
    forall i :: 0 <= i < |s| ==> IsDigit(s[i])
  }

  // ---- escaping

  function HexDigit(n: nat): char
    requires n < 16
  {
    if n < 10 then '0' + n as char else 'A' + (n - 10) as char
  }

  function HexValue(c: char): Option<nat> {
    if IsDigit(c) then Some((c - '0') as nat)
    else if 'a' <= c <= 'f' then Some((c - 'a') as nat + 10)
    else if 'A' <= c <= 'F' then Some((c - 'A') as nat + 10)
    else None
  }

  function EscapeChar(c: char): string
    requires c as int < 256
  {
    if Unreserved(c) then [c]
    else if c == ' ' then "+"
    else ['%', HexDigit(c as int / 16), HexDigit(c as int % 16)]
  }

  function QueryEscape(s: string): string
    requires IsBytes(s)
  {
    if s == "" then "" else EscapeChar(s[0]) + QueryEscape(s[1..])
  }

  /** The parts of a URL, which differ in what may stand in them. */
  datatype Part = UserPart | HostPart | PathPart | QueryPart

  predicate HostChar(c: char) {
    Unreserved(c) || c in "!$&'()*+,;=:[]<>\"" || c as int >= 0x80
  }

  function Unescape(s: string, part: Part): Option<string> {
    if s == "" then Some("")
    else if s[0] == '%' then
      if |s| < 3 || HexValue(s[1]).None? || HexValue(s[2]).None? then None
      else if part == HostPart && HexValue(s[1]).value < 8 && s[..3] != "%25" then None
      else Prepend((16 * HexValue(s[1]).value + HexValue(s[2]).value) as char, Unescape(s[3..], part))
    else if s[0] == '+' && part == QueryPart then Prepend(' ', Unescape(s[1..], part))
    else if part == HostPart && !HostChar(s[0]) then None
    else Prepend(s[0], Unescape(s[1..], part))
  }

  function Prepend(c: char, s: Option<string>): Option<string> {
    if s.None? then None else Some([c] + s.value)
  }

  /** The text with a plus sign in the place of every space. */
  function Plussed(s: string): (r: string)
    ensures |r| == |s| && forall i :: 0 <= i < |s| ==> r[i] == if s[i] == ' ' then '+' else s[i]
  {
    if s == "" then "" else [if s[0] == ' ' then '+' else s[0]] + Plussed(s[1..])
  }

  lemma UnescapeChar(c: char, s: string, part: Part)
    requires c as int < 256 && part != HostPart
    ensures Unescape(EscapeChar(c) + s, part)
            == Prepend(if c == ' ' && part != QueryPart then '+' else c, Unescape(s, part))
  {
    var e := EscapeChar(c) + s;
    if Unreserved(c) || c == ' ' {
      assert e[1..] == s;
    } else {
      assert e[3..] == s;
    }
  }

  /** What is escaped comes back, except that only in a query a plus sign is read as a space. */
  lemma {:induction false} UnescapeEscaped(s: string, part: Part)
    requires IsBytes(s) && part != HostPart
    ensures Unescape(QueryEscape(s), part) == Some(if part == QueryPart then s else Plussed(s))
  {
    if s != "" {
      UnescapeEscaped(s[1..], part);
      UnescapeChar(s[0], QueryEscape(s[1..]), part);
      assert s == [s[0]] + s[1..];
    }
  }

  /** Escaped text consists of unreserved characters, percent and plus signs. */
  predicate IsEscaped(s: string) {
    forall i :: 0 <= i < |s| ==> Unreserved(s[i]) || s[i] == '%' || s[i] == '+'
  }

  lemma {:induction false} EscapedChars(s: string)
    requires IsBytes(s)
    ensures IsEscaped(QueryEscape(s))
  {
    if s != "" {
      EscapedChars(s[1..]);
      EscapedConcat(EscapeChar(s[0]), QueryEscape(s[1..]));
    }
  }

  lemma EscapedConcat(a: string, b: string)
    requires IsEscaped(a) && IsEscaped(b)
    ensures IsEscaped(a + b)
  {
  }

  lemma {:induction false} UnescapePlain(s: string, part: Part)
    requires IsPlain(s)
    ensures Unescape(s, part) == Some(s)
  {
    if s != "" {
      UnescapePlain(s[1..], part);
      assert s == [s[0]] + s[1..];
    }
  }

  // ---- taking a URL apart

  datatype Url = Url(user: Option<(string, string)>, host: string, path: string, query: string)

  predicate IsControl(c: char) {
    c as int < 0x20 || c as int == 0x7F
  }

  /** The length of the scheme: minus one if there is none, zero if a scheme is missing before a colon. */
  function SchemeLength(s: string, i: nat): (r: int)
    requires i <= |s|
    ensures r == -1 || (i <= r < |s| && s[r] == ':')
    decreases |s| - i
  {
    if i == |s| then -1
    else if IsLetter(s[i]) then SchemeLength(s, i + 1)
    else if IsDigit(s[i]) || s[i] == '+' || s[i] == '-' || s[i] == '.' then if i == 0 then -1 else SchemeLength(s, i + 1)
    else if s[i] == ':' then i
    else -1
  }

  /** The position of the last occurrence, or minus one. */
  function LastIndex(s: string, c: char): (r: int)
    ensures -1 <= r < |s|
    ensures r >= 0 ==> s[r] == c
    ensures forall i :: r < i < |s| ==> s[i] != c
  {
    if s == "" then -1
    else if s[|s| - 1] == c then |s| - 1
    else LastIndex(s[..|s| - 1], c)
  }

  predicate ValidUserChar(c: char) {
    Unreserved(c) || c in ":!$&'()*+,;=%@"
  }

  predicate ValidOptionalPort(s: string) {
    s == "" || (s[0] == ':' && IsNumber(s[1..]))
  }

  function ParseHost(host: string): Option<string> {
    if host != "" && host[0] == '[' then None
    else if LastIndex(host, ':') >= 0 && !ValidOptionalPort(host[LastIndex(host, ':')..]) then None
    else Unescape(host, HostPart)
  }

  function ParseUser(info: string): Option<(string, string)> {
    if exists i :: 0 <= i < |info| && !ValidUserChar(info[i]) then None
    else
      var user := Unescape(Before(info, ':'), UserPart);
      var password := Unescape(After(info, ':'), UserPart);
      if user.None? || password.None? then None else Some((user.value, password.value))
  }

  /** The user information before the last at sign, and the host after it. */
  function ParseAuthority(s: string): Option<(Option<(string, string)>, string)> {
    var i := LastIndex(s, '@');
    var host := ParseHost(s[i + 1..]);
    if host.None? then None
    else if i < 0 then Some((None, host.value))
    else
      var user := ParseUser(s[..i]);
      if user.None? then None else Some((user, host.value))
  }

  /** What follows the scheme: an authority, if there is one, then the path. */
  function ParseRest(rest: string, query: string): Option<Url> {
    if |rest| >= 2 && rest[..2] == "//" then
      var tail := rest[2..];
      var authority := ParseAuthority(Before(tail, '/'));
      var path := Unescape(tail[|Before(tail, '/')|..], PathPart);
      if authority.None? || path.None? then None
      else Some(Url(authority.value.0, authority.value.1, path.value, query))
    else
      var path := Unescape(rest, PathPart);
      if path.None? then None else Some(Url(None, "", path.value, query))
  }

  function ParseUrl(raw: string): Option<Url> {
    var s := Before(raw, '#');
    if exists i :: 0 <= i < |s| && IsControl(s[i]) then None
    else if SchemeLength(s, 0) == 0 then None
    else if Unescape(After(raw, '#'), PathPart).None? then None
    else
      var n := SchemeLength(s, 0);
      var all := if n < 0 then s else s[n + 1..];
      var rest, query := Before(all, '?'), After(all, '?');
      if rest == "" || rest[0] != '/' then
        if n > 0 then Some(Url(None, "", "", query))
        else if ':' in Before(rest, '/') then None
        else ParseRest(rest, query)
      else if n < 0 && |rest| >= 3 && rest[..3] == "///" then
        var path := Unescape(rest, PathPart);
        if path.None? then None else Some(Url(None, "", path.value, query))
      else ParseRest(rest, query)
  }

  function HostAndPort(hostport: string): (string, string) {
    var i := LastIndex(hostport, ':');
    if i >= 0 && ValidOptionalPort(hostport[i..]) then (hostport[..i], hostport[i + 1..]) else (hostport, "")
  }

  /** The first value of a key; pairs that cannot be read are passed over. */
  function QueryGet(query: string, key: string): string
    decreases |query|
  {
    if query == "" then ""
    else
      var pair := Before(query, '&');
      var name, value := Unescape(Before(pair, '='), QueryPart), Unescape(After(pair, '='), QueryPart);
      if pair != "" && ';' !in pair && name == Some(key) && value.Some? then value.value
      else QueryGet(After(query, '&'), key)
  }

  // ---- connections

  predicate HasByteFields(c: Conn) {
    IsBytes(c.user) && IsBytes(c.password) && IsBytes(c.database)
  }

  function UserInfo(c: Conn): string
    requires HasByteFields(c)
  {
    QueryEscape(c.user) + (":" + QueryEscape(c.password))
  }

  function HostPort(c: Conn): string {
    c.host + (":" + c.port)
  }

  function Authority(c: Conn): string
    requires HasByteFields(c)
  {
    UserInfo(c) + ("@" + HostPort(c))
  }

  function Hierarchy(c: Conn): string
    requires HasByteFields(c)
  {
    "//" + (Authority(c) + ("/" + QueryEscape(c.database)))
  }

  function Query(c: Conn): string {
    "sslmode=" + c.sslmode
  }

  /** The URI of a connection: the host, the port and the mode are not escaped. */
  function Print(c: Conn): string
    requires HasByteFields(c)
  {
    "postgres:" + (Hierarchy(c) + ("?" + Query(c)))
  }

  function ParseUri(dsn: string): Option<Conn> {
    var u := ParseUrl(dsn);
    if u.None? then None
    else
      var (host, port) := HostAndPort(u.value.host);
      var (user, password) := if u.value.user.Some? then u.value.user.value else ("", "");
      var c := Conn(host, port, "", user, password, "");
      if '/' !in u.value.path then Some(c)
      else Some(c.(database := Before(After(u.value.path, '/'), '/'), sslmode := QueryGet(u.value.query, "sslmode")))
  }

  // ---- the characters of a printed URI, part by part

  predicate InfoChar(c: char) {
    Unreserved(c) || c == '%' || c == '+' || c == ':'
  }

  predicate AuthorityChar(c: char) {
    InfoChar(c) || c == '@'
  }

  predicate HierarchyChar(c: char) {
    AuthorityChar(c) || c == '/'
  }

  predicate PrintedChar(c: char) {
    HierarchyChar(c) || c == '?' || c == '='
  }

  predicate HasPlainAddress(c: Conn) {
    IsPlain(c.host) && IsNumber(c.port) && IsPlain(c.sslmode)
  }

  lemma InfoChars(c: Conn)
    requires HasByteFields(c)
    ensures forall i :: 0 <= i < |UserInfo(c)| ==> InfoChar(UserInfo(c)[i])
  {
    EscapedChars(c.user);
    EscapedChars(c.password);
  }

  lemma HostPortChars(c: Conn)
    requires HasPlainAddress(c)
    ensures forall i :: 0 <= i < |HostPort(c)| ==> Unreserved(HostPort(c)[i]) || HostPort(c)[i] == ':'
  {
  }

  lemma AuthorityChars(c: Conn)
    requires HasByteFields(c) && HasPlainAddress(c)
    ensures forall i :: 0 <= i < |Authority(c)| ==> AuthorityChar(Authority(c)[i])
  {
    InfoChars(c);
    HostPortChars(c);
  }

  lemma HierarchyChars(c: Conn)
    requires HasByteFields(c) && HasPlainAddress(c)
    ensures forall i :: 0 <= i < |Hierarchy(c)| ==> HierarchyChar(Hierarchy(c)[i])
  {
    AuthorityChars(c);
    EscapedChars(c.database);
  }

  lemma QueryChars(c: Conn)
    requires HasPlainAddress(c)
    ensures forall i :: 0 <= i < |Query(c)| ==> PrintedChar(Query(c)[i])
    ensures Lacks(Query(c), '&') && Lacks(Query(c), ';')
  {
  }

  lemma PrintedChars(c: Conn)
    requires HasByteFields(c) && HasPlainAddress(c)
    ensures forall i :: 0 <= i < |Print(c)| ==> PrintedChar(Print(c)[i])
  {
    HierarchyChars(c);
    QueryChars(c);
  }

  // ---- reading the parts back

  predicate Lacks(s: string, c: char) {
    forall i :: 0 <= i < |s| ==> s[i] != c
  }

  lemma CutAt(a: string, sep: char, b: string)
    requires Lacks(a, sep)
    ensures Before(a + ([sep] + b), sep) == a && After(a + ([sep] + b), sep) == b
  {
    assert a + ([sep] + b) == a + [sep] + b;
    BeforeOfJoin(a, sep, b);
  }

  lemma NoCut(s: string, sep: char)
    requires Lacks(s, sep)
    ensures Before(s, sep) == s && After(s, sep) == ""
  {
  }

  lemma {:induction false} LastIndexOf(a: string, sep: char, b: string)
    requires Lacks(b, sep)
    ensures LastIndex(a + ([sep] + b), sep) == |a|
  {
    var s := a + ([sep] + b);
    if b == "" {
      assert s[|s| - 1] == sep;
    } else {
      LastIndexOf(a, sep, b[..|b| - 1]);
      assert s[|s| - 1] == b[|b| - 1];
      assert s[..|s| - 1] == a + ([sep] + b[..|b| - 1]);
    }
  }

  lemma LastCut(a: string, sep: char, b: string)
    requires Lacks(b, sep)
    ensures var s := a + ([sep] + b);
            LastIndex(s, sep) == |a| && s[..|a|] == a && s[|a| + 1..] == b && s[|a|..] == [sep] + b
  {
    LastIndexOf(a, sep, b);
  }

  lemma {:induction false} UnescapeHost(s: string)
    requires forall i :: 0 <= i < |s| ==> Unreserved(s[i]) || s[i] == ':'
    ensures Unescape(s, HostPart) == Some(s)
  {
    if s != "" {
      UnescapeHost(s[1..]);
      assert s == [s[0]] + s[1..];
    }
  }

  lemma HostIsRead(c: Conn)
    requires HasPlainAddress(c)
    ensures ParseHost(HostPort(c)) == Some(HostPort(c)) && HostAndPort(HostPort(c)) == (c.host, c.port)
  {
    HostPortChars(c);
    LastCut(c.host, ':', c.port);
    UnescapeHost(HostPort(c));
  }

  lemma UserIsRead(c: Conn)
    requires HasByteFields(c)
    ensures ParseUser(UserInfo(c)) == Some((Plussed(c.user), Plussed(c.password)))
  {
    InfoChars(c);
    EscapedChars(c.user);
    CutAt(QueryEscape(c.user), ':', QueryEscape(c.password));
    UnescapeEscaped(c.user, UserPart);
    UnescapeEscaped(c.password, UserPart);
  }

  lemma AuthorityIsRead(c: Conn)
    requires HasByteFields(c) && HasPlainAddress(c)
    ensures ParseAuthority(Authority(c)) == Some((Some((Plussed(c.user), Plussed(c.password))), HostPort(c)))
  {
    HostPortLacksAt(c);
    UserIsRead(c);
    HostIsRead(c);
    AuthoritySplits(UserInfo(c), HostPort(c));
  }

  lemma AuthoritySplits(info: string, host: string)
    requires Lacks(host, '@') && ParseHost(host).Some? && ParseUser(info).Some?
    ensures ParseAuthority(info + ("@" + host)) == Some((ParseUser(info), ParseHost(host).value))
  {
    LastCut(info, '@', host);
  }

  lemma HostPortLacksAt(c: Conn)
    requires HasPlainAddress(c)
    ensures Lacks(HostPort(c), '@')
  {
    HostPortChars(c);
  }

  lemma PathIsRead(database: string)
    requires IsBytes(database)
    ensures Unescape("/" + QueryEscape(database), PathPart) == Some("/" + Plussed(database))
  {
    UnescapeEscaped(database, PathPart);
    assert ("/" + QueryEscape(database))[1..] == QueryEscape(database);
  }

  lemma HierarchyIsRead(c: Conn, query: string)
    requires HasByteFields(c) && HasPlainAddress(c)
    ensures ParseRest(Hierarchy(c), query)
            == Some(Url(Some((Plussed(c.user), Plussed(c.password))), HostPort(c), "/" + Plussed(c.database), query))
  {
    var a, p := Authority(c), "/" + QueryEscape(c.database);
    assert Hierarchy(c)[..2] == "//" && Hierarchy(c)[2..] == a + p;
    AuthorityChars(c);
    CutAt(a, '/', QueryEscape(c.database));
    assert (a + p)[|a|..] == p;
    AuthorityIsRead(c);
    PathIsRead(c.database);
  }

  lemma SslmodeIsRead(c: Conn)
    requires HasPlainAddress(c)
    ensures QueryGet(Query(c), "sslmode") == c.sslmode
  {
    QueryChars(c);
    NoCut(Query(c), '&');
    assert Query(c) == "sslmode" + (['='] + c.sslmode);
    CutAt("sslmode", '=', c.sslmode);
    UnescapePlain("sslmode", QueryPart);
    UnescapePlain(c.sslmode, QueryPart);
  }

  lemma {:induction false} SchemeScan(s: string, i: nat, n: nat)
    requires i <= n < |s| && s[n] == ':' && forall j :: i <= j < n ==> IsLetter(s[j])
    ensures SchemeLength(s, i) == n
    decreases n - i
  {
    if i < n {
      SchemeScan(s, i + 1, n);
    }
  }

  lemma SchemeIsRead(all: string)
    ensures SchemeLength("postgres:" + all, 0) == 8 && ("postgres:" + all)[9..] == all
  {
    var s := "postgres:" + all;
    assert forall j :: 0 <= j < 9 ==> s[j] == "postgres:"[j];
    SchemeScan(s, 0, 8);
  }

  lemma SplitIsRead(c: Conn)
    requires HasByteFields(c) && HasPlainAddress(c)
    ensures ParseUrl(Print(c)) == ParseRest(Hierarchy(c), Query(c))
  {
    PrintedIsWhole(c);
    HierarchyLacksQuery(c);
    UrlSplits(Hierarchy(c), Query(c));
  }

  lemma UrlSplits(hierarchy: string, query: string)
    requires hierarchy != "" && hierarchy[0] == '/' && Lacks(hierarchy, '?')
    requires var s := "postgres:" + (hierarchy + ("?" + query));
             Before(s, '#') == s && After(s, '#') == "" && forall i :: 0 <= i < |s| ==> !IsControl(s[i])
    ensures ParseUrl("postgres:" + (hierarchy + ("?" + query))) == ParseRest(hierarchy, query)
  {
    SchemeIsRead(hierarchy + ("?" + query));
    CutAt(hierarchy, '?', query);
  }

  lemma PrintedIsWhole(c: Conn)
    requires HasByteFields(c) && HasPlainAddress(c)
    ensures Before(Print(c), '#') == Print(c) && After(Print(c), '#') == ""
    ensures forall i :: 0 <= i < |Print(c)| ==> !IsControl(Print(c)[i])
  {
    PrintedChars(c);
    PrintedIsHarmless(Print(c));
    NoCut(Print(c), '#');
  }

  lemma PrintedIsHarmless(s: string)
    requires forall i :: 0 <= i < |s| ==> PrintedChar(s[i])
    ensures Lacks(s, '#') && forall i :: 0 <= i < |s| ==> !IsControl(s[i])
  {
  }

  lemma HierarchyLacksQuery(c: Conn)
    requires HasByteFields(c) && HasPlainAddress(c)
    ensures Lacks(Hierarchy(c), '?')
  {
    HierarchyChars(c);
  }

  /** What comes back of a connection: spaces have become plus signs, and the database ends before a slash. */
  lemma ParsePrinted(c: Conn)
    requires HasPlainAddress(c) && HasByteFields(c)
    ensures ParseUri(Print(c))
            == Some(c.(user := Plussed(c.user), password := Plussed(c.password), database := Before(Plussed(c.database), '/')))
  {
    SplitIsRead(c);
    HierarchyIsRead(c, Query(c));
    HostIsRead(c);
    SslmodeIsRead(c);
    assert "/" + Plussed(c.database) == "" + (['/'] + Plussed(c.database));
    CutAt("", '/', Plussed(c.database));
  }

  lemma PlussedIsSame(s: string)
    ensures Plussed(s) == s <==> Lacks(s, ' ')
    ensures Before(Plussed(s), '/') == s <==> Lacks(s, ' ') && Lacks(s, '/')
  {
    var p := Plussed(s);
    if Before(p, '/') == s {
      assert |p| == |s| && Before(p, '/') <= p;
      assert p == s;
    } else if Lacks(s, ' ') && Lacks(s, '/') {
      NoCut(s, '/');
    }
  }

  /** A connection survives exactly if it has no space in user, password or database and no slash in the database. */
  lemma RoundTrip(c: Conn)
    requires HasPlainAddress(c) && HasByteFields(c)
    ensures ParseUri(Print(c)) == Some(c)
            <==> Lacks(c.user, ' ') && Lacks(c.password, ' ') && Lacks(c.database, ' ') && Lacks(c.database, '/')
  {
    ParsePrinted(c);
    PlussedIsSame(c.user);
    PlussedIsSame(c.password);
    PlussedIsSame(c.database);
  }

  /** The characters that passwords are generated from. */
  predicate GeneratedChar(c: char) {
    IsLetter(c) || IsDigit(c) || c in "~#%^&*()_+-={}|[]:<>?,."
  }

  /** Every generated password survives, whatever plain user and database it belongs to. */
  lemma GeneratedPasswordSurvives(c: Conn)
    requires HasPlainAddress(c) && IsPlain(c.user) && IsPlain(c.database)
    requires forall i :: 0 <= i < |c.password| ==> GeneratedChar(c.password[i])
    ensures HasByteFields(c) && ParseUri(Print(c)) == Some(c)
  {
    PlainIsHarmless(c.user);
    PlainIsHarmless(c.database);
    GeneratedIsHarmless(c.password);
    RoundTrip(c);
  }

  lemma PlainIsHarmless(s: string)
    requires IsPlain(s)
    ensures IsBytes(s) && Lacks(s, ' ') && Lacks(s, '/')
  {
  }

  lemma GeneratedIsHarmless(s: string)
    requires forall i :: 0 <= i < |s| ==> GeneratedChar(s[i])
    ensures IsBytes(s) && Lacks(s, ' ')
  {
  }
}
