/**
 Keyword/value connection strings: how they are printed, and how they are read by the rules of
 section 34.1.1.1 of the PostgreSQL 15 manual.  Texts have no null character, as in C.
 */
module KeywordValue {
  import opened Options
  import opened Claim

  predicate NeedsEscape(c: char) {
    c in " \\'`$!"
  }

  function EscapeChar(c: char): string {
    if NeedsEscape(c) then ['\\', c] else [c]
  }

  function Escape(s: string): string {
    if s == "" then "" else EscapeChar(s[0]) + Escape(s[1..])
  }

  /** Appends to a buffer character by character. */
  method EscapeValue(s: string) returns (encoded: string)
    ensures encoded == Escape(s)
  {
    encoded := [];
    var i := 0;
    while i < |s|
      invariant 0 <= i <= |s| && encoded + Escape(s[i..]) == Escape(s)
    {
      var c := s[i];
      EscapeOneMore(encoded, s, i);
      if c == ' ' || c == '\\' || c == '\'' || c == '`' || c == '$' || c == '!' {
        encoded := encoded + ['\\', c];
      } else {
        encoded := encoded + [c];
      }
      i := i + 1;
    }
  }

  lemma EscapeOneMore(encoded: string, s: string, i: nat)
    requires i < |s|
    ensures encoded + Escape(s[i..]) == encoded + EscapeChar(s[i]) + Escape(s[i + 1..])
  {
    assert s[i..][1..] == s[i + 1..];
  }

  // ---- reading

  predicate IsBlank(c: char) {
    c == ' ' || '\t' <= c <= '\r'
  }

  function SkipBlanks(s: string): (r: string)
    ensures |r| <= |s| && (r != "" ==> !IsBlank(r[0]))
  {
    if s != "" && IsBlank(s[0]) then SkipBlanks(s[1..]) else s
  }

  /** A keyword ends before an equals sign or a blank. */
  function ReadName(s: string): (r: (string, string))
    ensures |r.1| <= |s| && r.0 + r.1 == s
  {
    if s == "" || s[0] == '=' || IsBlank(s[0]) then ("", s)
    else
      var (name, rest) := ReadName(s[1..]);
      ([s[0]] + name, rest)
  }

  /** A value without quotes ends before a blank; a backslash takes the next character as it is. */
  function ReadValue(s: string): (r: (string, string))
    ensures |r.1| <= |s|
  {
    if s == "" then ("", "")
    else if IsBlank(s[0]) then ("", s[1..])
    else if s[0] == '\\' then
      if |s| == 1 then ("", "")
      else
        var (value, rest) := ReadValue(s[2..]);
        ([s[1]] + value, rest)
    else
      var (value, rest) := ReadValue(s[1..]);
      ([s[0]] + value, rest)
  }

  /** A value in quotes ends at the closing quote, which has to be there. */
  function ReadQuoted(s: string): (r: Option<(string, string)>)
    ensures r.Some? ==> |r.value.1| <= |s|
  {
    if s == "" then None
    else if s[0] == '\'' then Some(("", s[1..]))
    else
      var skip := if s[0] == '\\' && |s| > 1 then 1 else 0;
      if s == "\\" then None
      else
        var tail := ReadQuoted(s[skip + 1..]);
        if tail.None? then None else Some(([s[skip]] + tail.value.0, tail.value.1))
  }

  function ReadAny(s: string): (r: Option<(string, string)>)
    ensures r.Some? ==> |r.value.1| <= |s|
  {
    var v := SkipBlanks(s);
    if v != "" && v[0] == '\'' then ReadQuoted(v[1..]) else Some(ReadValue(v))
  }

  /** The keyword before the next equals sign, and what follows that sign. */
  function ReadKeyword(s: string): (r: Option<(string, string)>)
    ensures r.Some? ==> |r.value.1| < |s|
  {
    var (name, rest) := ReadName(s);
    var assignment := SkipBlanks(rest);
    if assignment == "" || assignment[0] != '=' then None else Some((name, assignment[1..]))
  }

  /** All settings of a connection string; a later one replaces an earlier one, an unknown keyword is an error. */
  function Parse(s: string, known: set<string>): Option<map<string, string>>
    decreases |s|
  {
    var t := SkipBlanks(s);
    if t == "" then Some(map[])
    else
      var keyword := ReadKeyword(t);
      if keyword.None? || keyword.value.0 !in known then None
      else
        var read := ReadAny(keyword.value.1);
        if read.None? then None
        else
          var others := Parse(read.value.1, known);
          if others.None? then None else Some(map[keyword.value.0 := read.value.0] + others.value)
  }

  // ---- printing

  function Raw(name: string, value: string): string {
    name + ("=" + value)
  }

  function Setting(name: string, value: string): string {
    Raw(name, Escape(value))
  }

  predicate IsSimple(s: string) {
    s != "" && forall i :: 0 <= i < |s| ==> !NeedsEscape(s[i]) && !IsBlank(s[i])
  }

  /** The connection string: host, port and mode are printed as they are. */
  function Print(c: Conn): string {
    Raw("host", c.host) + (" " + FromPort(c))
  }

  function FromPort(c: Conn): string {
    Raw("port", c.port) + (" " + FromUser(c))
  }

  function FromUser(c: Conn): string {
    Setting("user", c.user) + (" " + FromPassword(c))
  }

  function FromPassword(c: Conn): string {
    Setting("password", c.password) + (" " + FromDatabase(c))
  }

  function FromDatabase(c: Conn): string {
    Setting("dbname", c.database) + (" " + Raw("sslmode", c.sslmode))
  }

  const KEYWORDS := {"host", "port", "user", "password", "dbname", "sslmode"}

  /** A value that is not empty and has no blank but the space. */
  predicate Printable(s: string) {
    s != "" && forall i :: 0 <= i < |s| ==> IsBlank(s[i]) ==> s[i] == ' '
  }

  lemma {:induction false} EscapeSimple(s: string)
    requires forall i :: 0 <= i < |s| ==> !NeedsEscape(s[i])
    ensures Escape(s) == s
  {
    if s != "" {
      EscapeSimple(s[1..]);
      assert s == [s[0]] + s[1..];
    }
  }

  lemma EscapedCharIsRead(ch: char, tail: string)
    requires NeedsEscape(ch)
    ensures ReadValue(EscapeChar(ch) + tail) == ([ch] + ReadValue(tail).0, ReadValue(tail).1)
  {
    var s := EscapeChar(ch) + tail;
    assert s[0] == '\\' && s[1] == ch && s[2..] == tail;
  }

  lemma PlainCharIsRead(ch: char, tail: string)
    requires !NeedsEscape(ch) && !IsBlank(ch)
    ensures ReadValue(EscapeChar(ch) + tail) == ([ch] + ReadValue(tail).0, ReadValue(tail).1)
  {
    var s := EscapeChar(ch) + tail;
    assert s[0] == ch && s[1..] == tail;
  }

  lemma EscapeSplits(v: string, rest: string)
    requires v != ""
    ensures Escape(v) + rest == EscapeChar(v[0]) + (Escape(v[1..]) + rest)
  {
  }

  /** The first character is read, and then the others. */
  lemma StartIsRead(v: string, rest: string)
    requires v != "" && (IsBlank(v[0]) ==> v[0] == ' ')
    ensures var others := ReadValue(Escape(v[1..]) + rest);
            ReadValue(Escape(v) + rest) == ([v[0]] + others.0, others.1)
  {
    EscapeSplits(v, rest);
    if NeedsEscape(v[0]) {
      EscapedCharIsRead(v[0], Escape(v[1..]) + rest);
    } else {
      PlainCharIsRead(v[0], Escape(v[1..]) + rest);
    }
  }

  /** An escaped value is read up to the blank that follows it. */
  lemma {:induction false} ValueIsRead(v: string, rest: string)
    requires forall i :: 0 <= i < |v| ==> IsBlank(v[i]) ==> v[i] == ' '
    requires rest == "" || rest[0] == ' '
    ensures ReadValue(Escape(v) + rest) == (v, if rest == "" then "" else rest[1..])
  {
    if v == "" {
      assert Escape(v) + rest == rest;
    } else {
      ValueIsRead(v[1..], rest);
      StartIsRead(v, rest);
      assert v == [v[0]] + v[1..];
    }
  }

  lemma {:induction false} NameIsRead(name: string, rest: string)
    requires forall i :: 0 <= i < |name| ==> name[i] != '=' && !IsBlank(name[i])
    ensures ReadName(name + ("=" + rest)) == (name, "=" + rest)
  {
    var s := name + ("=" + rest);
    if name == "" {
      assert s == "=" + rest;
    } else {
      assert s[1..] == name[1..] + ("=" + rest);
      NameIsRead(name[1..], rest);
      assert name == [name[0]] + name[1..];
    }
  }

  predicate IsKeyword(name: string) {
    name != "" && forall i :: 0 <= i < |name| ==> name[i] != '=' && !IsBlank(name[i])
  }

  lemma EscapedStart(v: string)
    requires Printable(v)
    ensures Escape(v) != "" && !IsBlank(Escape(v)[0]) && Escape(v)[0] != '\''
  {
  }

  lemma AnyIsRead(v: string, rest: string)
    requires Printable(v) && (rest == "" || rest[0] == ' ')
    ensures ReadAny(Escape(v) + rest) == Some((v, if rest == "" then "" else rest[1..]))
  {
    EscapedStart(v);
    assert (Escape(v) + rest)[0] == Escape(v)[0];
    ValueIsRead(v, rest);
  }

  lemma KeywordIsRead(name: string, rest: string)
    requires IsKeyword(name)
    ensures ReadKeyword(name + ("=" + rest)) == Some((name, rest))
  {
    NameIsRead(name, rest);
    assert ("=" + rest)[1..] == rest;
  }

  /** One setting is read, and then the rest. */
  lemma SettingIsRead(name: string, value: string, rest: string, known: set<string>)
    requires IsKeyword(name) && name in known && Printable(value) && (rest == "" || rest[0] == ' ')
    ensures var others := Parse(if rest == "" then "" else rest[1..], known);
            Parse(Setting(name, value) + rest, known)
            == if others.None? then None else Some(map[name := value] + others.value)
  {
    var s := name + ("=" + (Escape(value) + rest));
    assert Setting(name, value) + rest == s;
    assert s[0] == name[0];
    KeywordIsRead(name, Escape(value) + rest);
    AnyIsRead(value, rest);
  }

  /** One setting is read, and then the one after the space. */
  lemma NextIsRead(name: string, value: string, rest: string, known: set<string>)
    requires IsKeyword(name) && name in known && Printable(value)
    ensures var others := Parse(rest, known);
            Parse(Setting(name, value) + (" " + rest), known)
            == if others.None? then None else Some(map[name := value] + others.value)
  {
    assert (" " + rest)[1..] == rest;
    SettingIsRead(name, value, " " + rest, known);
  }

  lemma LastIsRead(name: string, value: string, known: set<string>)
    requires IsKeyword(name) && name in known && Printable(value)
    ensures Parse(Setting(name, value), known) == Some(map[name := value])
  {
    assert Setting(name, value) + "" == Setting(name, value);
    SettingIsRead(name, value, "", known);
    assert map[name := value] + map[] == map[name := value];
  }

  // ---- values that do not come back

  /** A blank that is not escaped. */
  predicate IsOdd(c: char) {
    IsBlank(c) && c != ' '
  }

  /** What may follow the space after a value: the next keyword. */
  predicate StartsSetting(k: string) {
    k != "" && !IsBlank(k[0]) && !NeedsEscape(k[0])
  }

  lemma FirstIsRead(v: string, rest: string)
    requires v != "" && !IsOdd(v[0])
    ensures ReadAny(Escape(v) + rest) == Some(ReadValue(Escape(v) + rest))
    ensures ReadValue(Escape(v) + rest).0 != "" && ReadValue(Escape(v) + rest).0[0] == v[0]
  {
    var s := Escape(v) + rest;
    if NeedsEscape(v[0]) {
      assert s[0] == '\\' && s[1] == v[0];
    } else {
      assert s[0] == v[0];
    }
  }

  /** Blanks at the start of a value are skipped, and if nothing is left the next setting is read. */
  lemma {:induction false} NoOddStart(v: string, k: string)
    requires StartsSetting(k)
    ensures ReadAny(Escape(v) + (" " + k)).Some?
    ensures var r := ReadAny(Escape(v) + (" " + k)).value.0; r != "" && !IsOdd(r[0])
  {
    var s := Escape(v) + (" " + k);
    if v == "" {
      assert s[1..] == k && SkipBlanks(s) == k;
    } else if IsOdd(v[0]) {
      NoOddStart(v[1..], k);
      assert s[0] == v[0] && s[1..] == Escape(v[1..]) + (" " + k);
    } else {
      FirstIsRead(v, " " + k);
    }
  }

  lemma {:induction false} OddBlankCuts(v: string, rest: string, i: nat)
    requires i < |v| && IsOdd(v[i])
    ensures |ReadValue(Escape(v) + rest).0| < |v|
  {
    var s := Escape(v) + rest;
    if IsOdd(v[0]) {
      assert s[0] == v[0];
    } else {
      OddBlankCuts(v[1..], rest, i - 1);
      if NeedsEscape(v[0]) {
        assert s[0] == '\\' && s[1] == v[0] && s[2..] == Escape(v[1..]) + rest;
      } else {
        assert s[0] == v[0] && s[1..] == Escape(v[1..]) + rest;
      }
    }
  }

  /** A value before another setting comes back exactly if it is not empty and has no blank but the space. */
  lemma ValueComesBackIff(v: string, k: string)
    requires StartsSetting(k)
    ensures ReadAny(Escape(v) + (" " + k)).Some?
    ensures ReadAny(Escape(v) + (" " + k)).value.0 == v <==> Printable(v)
  {
    NoOddStart(v, k);
    if Printable(v) {
      AnyIsRead(v, " " + k);
    } else if v != "" && !IsOdd(v[0]) {
      var i :| 0 <= i < |v| && IsBlank(v[i]) && v[i] != ' ';
      OddBlankCuts(v, " " + k, i);
      FirstIsRead(v, " " + k);
    }
  }

  // ---- the whole string

  lemma KeywordsAreKeywords()
    ensures IsKeyword("host") && IsKeyword("port") && IsKeyword("user") && IsKeyword("password") && IsKeyword("dbname")
    ensures IsKeyword("sslmode")
  {
  }

  lemma SimpleIsPrintable(s: string)
    requires IsSimple(s)
    ensures Printable(s) && Escape(s) == s
  {
    EscapeSimple(s);
  }

  lemma DatabaseIsRead(c: Conn, known: set<string>)
    requires "dbname" in known && "sslmode" in known && IsSimple(c.sslmode) && Printable(c.database)
    ensures Parse(FromDatabase(c), known) == Some(map["dbname" := c.database] + map["sslmode" := c.sslmode])
  {
    KeywordsAreKeywords();
    SimpleIsPrintable(c.sslmode);
    LastIsRead("sslmode", c.sslmode, known);
    NextIsRead("dbname", c.database, Raw("sslmode", c.sslmode), known);
  }

  lemma UserIsRead(c: Conn, known: set<string>)
    requires "user" in known && "password" in known && Printable(c.user) && Printable(c.password)
    requires Parse(FromDatabase(c), known).Some?
    ensures Parse(FromUser(c), known)
            == Some(map["user" := c.user] + (map["password" := c.password] + Parse(FromDatabase(c), known).value))
  {
    KeywordsAreKeywords();
    NextIsRead("password", c.password, FromDatabase(c), known);
    NextIsRead("user", c.user, FromPassword(c), known);
  }

  lemma HostIsRead(c: Conn, known: set<string>)
    requires "host" in known && "port" in known && IsSimple(c.host) && IsSimple(c.port)
    requires Parse(FromUser(c), known).Some?
    ensures Parse(Print(c), known)
            == Some(map["host" := c.host] + (map["port" := c.port] + Parse(FromUser(c), known).value))
  {
    KeywordsAreKeywords();
    SimpleIsPrintable(c.host);
    SimpleIsPrintable(c.port);
    NextIsRead("port", c.port, FromUser(c), known);
    NextIsRead("host", c.host, FromPort(c), known);
  }

  /** The fields of a connection, each under its keyword. */
  predicate HoldsFields(m: map<string, string>, c: Conn) {
    && m.Keys == KEYWORDS
    && m["host"] == c.host && m["port"] == c.port && m["user"] == c.user && m["password"] == c.password
    && m["dbname"] == c.database && m["sslmode"] == c.sslmode
  }

  lemma FieldsAreApart(c: Conn)
    ensures HoldsFields(
              map["host" := c.host] + (map["port" := c.port] +
              (map["user" := c.user] + (map["password" := c.password] +
              (map["dbname" := c.database] + map["sslmode" := c.sslmode])))), c)
  {
    assert "host"[0] == 'h' && "port"[0] == 'p' && "user"[0] == 'u' && "password"[0] == 'p';
    assert "dbname"[0] == 'd' && "sslmode"[0] == 's';
    assert |"port"| != |"password"|;
  }

  /** The six fields come back for every user, password and database that is printable. */
  lemma RoundTrip(c: Conn, known: set<string>)
    requires KEYWORDS <= known && IsSimple(c.host) && IsSimple(c.port) && IsSimple(c.sslmode)
    requires Printable(c.user) && Printable(c.password) && Printable(c.database)
    ensures Parse(Print(c), known).Some? && HoldsFields(Parse(Print(c), known).value, c)
  {
    DatabaseIsRead(c, known);
    UserIsRead(c, known);
    HostIsRead(c, known);
    FieldsAreApart(c);
  }
}
