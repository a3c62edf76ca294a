/** Composing a database URL from its parts, and reading it back by the generic
    syntax of RFC 3986. Parts that are escaped are bytes; the URL is text. */
module DatabaseUrl {
  import opened Outcomes
  import opened Text

  type byte = b: int | 0 <= b < 256

  // ----- percent-encoding -------------------------------------------------

  function CharOf(b: byte): char { b as char }

  /** Section 2.3 of RFC 3986. */
  predicate IsUnreserved(c: char)
  {
    'a' <= c <= 'z' || 'A' <= c <= 'Z' || '0' <= c <= '9' || c == '-' || c == '_' || c == '.' || c == '~'
  }

  function HexDigit(n: nat): char
    requires n < 16
  {
    if n < 10 then '0' + (n as char) else 'A' + ((n - 10) as char)
  }

  function HexValue(c: char): Option<nat>
  {
    if '0' <= c <= '9' then Some(c as int - '0' as int)
    else if 'A' <= c <= 'F' then Some(c as int - 'A' as int + 10)
    else if 'a' <= c <= 'f' then Some(c as int - 'a' as int + 10)
    else None
  }

  /** Section 2.1 of RFC 3986. */
  function Triplet(b: byte): string { ['%', HexDigit(b / 16), HexDigit(b % 16)] }

  datatype Mode = Userinfo | PathSegment | QueryComponent

  /** What a byte is written as where it may appear as itself. */
  function EscapeByte(m: Mode, b: byte): string
  {
    var c := CharOf(b);
    if IsUnreserved(c) then [c]
    else if m.PathSegment? && (c == '$' || c == '&' || c == '+' || c == ':' || c == '=' || c == '@') then [c]
    else if m.QueryComponent? && c == ' ' then "+"
    else Triplet(b)
  }

  /** Which bytes each mode leaves as they are; a space is "+" in a query only. */
  lemma ModesAreNamed(m: Mode, b: byte)
    ensures EscapeByte(m, b) == [CharOf(b)]
            <==> IsUnreserved(CharOf(b)) || (m == PathSegment && CharOf(b) in {'$', '&', '+', ':', '=', '@'})
    ensures EscapeByte(m, b) != [CharOf(b)]
            ==> EscapeByte(m, b) == if m == QueryComponent && CharOf(b) == ' ' then "+" else Triplet(b)
  {
  }

  function Escape(m: Mode, s: seq<byte>): string { if s == [] then "" else EscapeByte(m, s[0]) + Escape(m, s[1..]) }

  /** `strings.ReplaceAll(s, "+", "%20")`. */
  function PlusToSpace(s: string): string
  {
    if s == "" then "" else PlusChar(s[0]) + PlusToSpace(s[1..])
  }

  function PlusChar(c: char): string { if c == '+' then "%20" else [c] }

  /** Escapes as a query component, then undoes the one thing userinfo decoding would not. */
  function EscapeUserinfo(s: seq<byte>): string { PlusToSpace(Escape(QueryComponent, s)) }

  lemma {:induction false} PlusToSpaceConcat(a: string, b: string)
    ensures PlusToSpace(a + b) == PlusToSpace(a) + PlusToSpace(b)
  {
    if a == "" {
      assert a + b == b;
    } else {
      PlusToSpaceConcat(a[1..], b);
      assert (a + b)[1..] == a[1..] + b;
      Assoc(PlusChar(a[0]), PlusToSpace(a[1..]), PlusToSpace(b));
    }
  }

  lemma {:induction false} NoPlusStays(s: string)
    requires '+' !in s
    ensures PlusToSpace(s) == s
  {
    if s != "" {
      assert s[0] in s;
      NoPlusStays(s[1..]);
      assert s == [s[0]] + s[1..];
    }
  }

  lemma PlusOfByte(b: byte)
    ensures PlusToSpace(EscapeByte(QueryComponent, b)) == EscapeByte(Userinfo, b)
  {
    if CharOf(b) == ' ' {
      assert "+"[1..] == "" && Triplet(b) == "%20";
    } else {
      NoPlusStays(EscapeByte(QueryComponent, b));
    }
  }

  /** The two steps together escape every byte that is not unreserved. */
  lemma {:induction false} UserinfoEscapesAllButUnreserved(s: seq<byte>)
    ensures EscapeUserinfo(s) == Escape(Userinfo, s)
  {
    if s != [] {
      PlusToSpaceConcat(EscapeByte(QueryComponent, s[0]), Escape(QueryComponent, s[1..]));
      PlusOfByte(s[0]);
      UserinfoEscapesAllButUnreserved(s[1..]);
    }
  }

  /** Only unreserved characters and triplets. */
  predicate IsEscaped(s: string)
  {
    if s == "" then true
    else if s[0] == '%' then |s| >= 3 && IsUpperHex(s[1]) && IsUpperHex(s[2]) && IsEscaped(s[3..])
    else IsUnreserved(s[0]) && IsEscaped(s[1..])
  }

  predicate IsUpperHex(c: char) { '0' <= c <= '9' || 'A' <= c <= 'F' }

  lemma {:induction false} UserinfoAlphabet(s: seq<byte>)
    ensures IsEscaped(Escape(Userinfo, s))
  {
    if s != [] {
      UserinfoAlphabet(s[1..]);
      var (e, rest) := (EscapeByte(Userinfo, s[0]), Escape(Userinfo, s[1..]));
      assert |e| == 1 ==> (e + rest)[1..] == rest;
      assert |e| == 3 ==> (e + rest)[3..] == rest;
    }
  }

  /** Percent-decoding; in a query component a plus sign is a space. */
  function Unescape(m: Mode, s: string): Option<seq<byte>>
  {
    if s == "" then Some([])
    else if s[0] == '%' then
      if |s| < 3 || HexValue(s[1]).None? || HexValue(s[2]).None? then None
      else Cons(16 * HexValue(s[1]).value + HexValue(s[2]).value, Unescape(m, s[3..]))
    else if m.QueryComponent? && s[0] == '+' then Cons(' ' as int, Unescape(m, s[1..]))
    else if s[0] as int < 256 then Cons(s[0] as int, Unescape(m, s[1..])) else None
  }

  function Cons(b: int, r: Option<seq<byte>>): Option<seq<byte>>
  {
    if 0 <= b < 256 && r.Some? then Some([b] + r.value) else None
  }

  lemma {:induction false} ByteReadsBack(m: Mode, b: byte, rest: string)
    ensures Unescape(m, EscapeByte(m, b) + rest) == Cons(b, Unescape(m, rest))
  {
    var s := EscapeByte(m, b) + rest;
    if |EscapeByte(m, b)| == 1 {
      assert s[1..] == rest;
    } else {
      assert s[3..] == rest;
      assert HexValue(HexDigit(b / 16)) == Some(b / 16) && HexValue(HexDigit(b % 16)) == Some(b % 16);
    }
  }

  /** Decoding gives the original bytes back. */
  lemma {:induction false} EscapeReadsBack(m: Mode, s: seq<byte>)
    ensures Unescape(m, Escape(m, s)) == Some(s)
  {
    if s != [] {
      EscapeReadsBack(m, s[1..]);
      ByteReadsBack(m, s[0], Escape(m, s[1..]));
      assert s == [s[0]] + s[1..];
    }
  }

  /** Escaped userinfo is made of unreserved characters and triplets only, and
      decodes to the original bytes. */
  lemma EscapedUserinfoReadsBack(s: seq<byte>)
    ensures IsEscaped(EscapeUserinfo(s)) && Unescape(Userinfo, EscapeUserinfo(s)) == Some(s)
  {
    UserinfoEscapesAllButUnreserved(s);
    UserinfoAlphabet(s);
    EscapeReadsBack(Userinfo, s);
  }

  // ----- composing --------------------------------------------------------

  const SCHEME := "postgres://"
  const SSLMODE := "sslmode="

  /** `net.JoinHostPort`: a host with colons is bracketed. */
  function JoinHostPort(host: string, port: string): string
  {
    if ':' in host then "[" + host + "]:" + port else host + ":" + port
  }

  function UserinfoOf(user: seq<byte>, password: seq<byte>): string
  {
    if user == [] then ""
    else Escape(Userinfo, user) + (if password == [] then "" else ":" + Escape(Userinfo, password)) + "@"
  }

  function QueryOf(sslmode: seq<byte>): string
  {
    if sslmode == [] then "" else "?" + SSLMODE + Escape(QueryComponent, sslmode)
  }

  function UrlOf(host: string, port: string, name: seq<byte>, user: seq<byte>, password: seq<byte>,
                 sslmode: seq<byte>): string
  {
    SCHEME
    + ((UserinfoOf(user, password) + JoinHostPort(host, port)) + ("/" + (Escape(PathSegment, name) + QueryOf(sslmode))))
  }

  method ComposeDatabaseUrl(host: string, port: string, name: seq<byte>, user: seq<byte>, password: seq<byte>,
                            sslmode: seq<byte>)
    returns (sb: string)
    ensures sb == UrlOf(host, port, name, user, password, sslmode)
  {
    UserinfoEscapesAllButUnreserved(user);
    UserinfoEscapesAllButUnreserved(password);
    var userinfo := "";
    sb := SCHEME;
    if user != [] {
      userinfo := EscapeUserinfo(user);
      if password != [] {
        userinfo := userinfo + (":" + EscapeUserinfo(password));
      } else {
        assert userinfo + "" == userinfo;
      }
      userinfo := userinfo + "@";
    }
    sb := sb + userinfo;
    sb := sb + JoinHostPort(host, port);
    var tail := "/" + Escape(PathSegment, name);
    if sslmode != [] {
      tail := tail + ("?" + SSLMODE + Escape(QueryComponent, sslmode));
    } else {
      assert tail + "" == tail;
    }
    Assoc("/", Escape(PathSegment, name), QueryOf(sslmode));
    Assoc(SCHEME, userinfo, JoinHostPort(host, port));
    Assoc(SCHEME, userinfo + JoinHostPort(host, port), tail);
    sb := sb + tail;
  }

  // ----- reading back -----------------------------------------------------

  /** The text before the first of the characters `stop`. */
  function UpTo(s: string, stop: set<char>): string
  {
    if s == "" || s[0] in stop then "" else [s[0]] + UpTo(s[1..], stop)
  }

  predicate Avoids(s: string, stop: set<char>) { forall i :: 0 <= i < |s| ==> s[i] !in stop }

  lemma {:induction false} UpToStop(a: string, rest: string, stop: set<char>)
    requires Avoids(a, stop) && (rest == "" || rest[0] in stop)
    ensures UpTo(a + rest, stop) == a && (a + rest)[|a|..] == rest
  {
    if a == "" {
      assert a + rest == rest;
    } else {
      UpToStop(a[1..], rest, stop);
      assert (a + rest)[1..] == a[1..] + rest && a == [a[0]] + a[1..];
    }
  }

  lemma {:induction false} UpToFits(s: string, stop: set<char>)
    ensures |UpTo(s, stop)| <= |s| && UpTo(s, stop) == s[..|UpTo(s, stop)|]
    ensures |UpTo(s, stop)| < |s| ==> s[|UpTo(s, stop)|] in stop
  {
    if s != "" && s[0] !in stop {
      UpToFits(s[1..], stop);
    }
  }

  /** What follows the first of `stop`, and whether there is one. */
  function After(s: string, stop: set<char>): Option<string>
  {
    UpToFits(s, stop);
    if |UpTo(s, stop)| == |s| then None else Some(s[|UpTo(s, stop)| + 1..])
  }

  datatype Parts = Parts(user: Option<seq<byte>>, password: Option<seq<byte>>, host: string, port: string,
                         name: seq<byte>, sslmode: Option<seq<byte>>)

  const AUTHORITY_END: set<char> := {'/', '?', '#'}

  /** The userinfo and the host of an authority (section 3.2). */
  function SplitAuthority(authority: string): (Option<string>, string)
  {
    var after := After(authority, {'@'});
    if after.None? then (None, authority) else (Some(UpTo(authority, {'@'})), after.value)
  }

  /** Host and port (sections 3.2.2 and 3.2.3); a bracketed host may hold colons. */
  function SplitHostPort(s: string): (string, string)
  {
    if s != "" && s[0] == '[' then
      var after := After(s[1..], {']'});
      (UpTo(s[1..], {']'}), if after.Some? && after.value != "" && after.value[0] == ':' then after.value[1..] else "")
    else (UpTo(s, {':'}), if After(s, {':'}).Some? then After(s, {':'}).value else "")
  }

  function Decoded(m: Mode, s: Option<string>): Option<Option<seq<byte>>>
  {
    if s.None? then Some(None)
    else
      var d := Unescape(m, s.value);
      if d.None? then None else Some(Some(d.value))
  }

  /** Scheme, authority, path and query (section 3); None when something is
      malformed. */
  function Parse(url: string): Option<Parts>
  {
    if !("postgres://" <= url) then None
    else
      var rest := url[11..];
      UpToFits(rest, AUTHORITY_END);
      var (userinfo, hostPort) := SplitAuthority(UpTo(rest, AUTHORITY_END));
      var path := rest[|UpTo(rest, AUTHORITY_END)|..];
      if path == "" || path[0] != '/' then None
      else ParseRest(userinfo, hostPort, path[1..])
  }

  function ParseRest(userinfo: Option<string>, hostPort: string, path: string): Option<Parts>
  {
    var user := Decoded(Userinfo, if userinfo.None? then None else Some(UpTo(userinfo.value, {':'})));
    var password := Decoded(Userinfo, if userinfo.None? then None else After(userinfo.value, {':'}));
    var name := Unescape(PathSegment, UpTo(path, {'?', '#'}));
    var query := After(path, {'?', '#'});
    var sslmode := Decoded(QueryComponent,
                           if query.Some? && "sslmode=" <= query.value then Some(query.value[8..]) else None);
    if user.None? || password.None? || name.None? || sslmode.None? then None
    else Some(Parts(user.value, password.value, SplitHostPort(hostPort).0, SplitHostPort(hostPort).1, name.value,
                    sslmode.value))
  }

  const DELIMITERS: set<char> := {'/', '?', '#', '@', '[', ']'}

  lemma {:induction false} EscapeAvoids(m: Mode, s: seq<byte>, c: char)
    requires c == '/' || c == '?' || c == '#' || (!m.PathSegment? && (c == ':' || c == '@'))
    ensures Avoids(Escape(m, s), {c})
  {
    if s != [] {
      EscapeAvoids(m, s[1..], c);
    }
  }

  lemma AvoidsConcat(a: string, b: string, stop: set<char>)
    ensures Avoids(a + b, stop) <==> Avoids(a, stop) && Avoids(b, stop)
  {
    assert forall i :: 0 <= i < |a| ==> (a + b)[i] == a[i];
    assert forall i :: 0 <= i < |b| ==> (a + b)[|a| + i] == b[i];
  }

  lemma {:induction false} Cut(a: string, c: char, rest: string, stop: set<char>)
    requires Avoids(a, stop) && c in stop
    ensures UpTo(a + ([c] + rest), stop) == a && After(a + ([c] + rest), stop) == Some(rest)
  {
    UpToStop(a, [c] + rest, stop);
    assert (a + ([c] + rest))[|a| + 1..] == (a + ([c] + rest))[|a|..][1..];
  }

  lemma {:induction false} NoCut(a: string, stop: set<char>)
    requires Avoids(a, stop)
    ensures UpTo(a, stop) == a && After(a, stop).None?
  {
    assert a + "" == a;
    UpToStop(a, "", stop);
  }

  predicate IsPlain(s: string) { Avoids(s, DELIMITERS) }

  lemma HostPortAvoids(host: string, port: string, stop: set<char>)
    requires IsPlain(host) && IsPlain(port) && stop <= {'/', '?', '#', '@'}
    ensures Avoids(JoinHostPort(host, port), stop)
  {
  }

  lemma BracketedReadsBack(host: string, port: string)
    requires IsPlain(host)
    ensures SplitHostPort("[" + host + "]:" + port) == (host, port)
  {
    var s := "[" + host + "]:" + port;
    assert s[1..] == host + ([']'] + (":" + port));
    Cut(host, ']', ":" + port, {']'});
    assert (":" + port)[1..] == port;
  }

  lemma UnbracketedReadsBack(host: string, port: string)
    requires IsPlain(host) && ':' !in host
    ensures SplitHostPort(host + ":" + port) == (host, port)
  {
    var s := host + ":" + port;
    assert s == host + ([':'] + port);
    Cut(host, ':', port, {':'});
    assert host != "" ==> s[0] == host[0] && host[0] !in DELIMITERS;
  }

  lemma HostPortReadsBack(host: string, port: string)
    requires IsPlain(host) && IsPlain(port)
    ensures SplitHostPort(JoinHostPort(host, port)) == (host, port)
  {
    if ':' in host {
      BracketedReadsBack(host, port);
    } else {
      UnbracketedReadsBack(host, port);
    }
  }

  /** The userinfo text, without its final "@". */
  function Login(user: seq<byte>, password: seq<byte>): string
  {
    Escape(Userinfo, user) + (if password == [] then "" else ":" + Escape(Userinfo, password))
  }

  lemma {:induction false} EscapeAvoidsAll(m: Mode, s: seq<byte>)
    ensures Avoids(Escape(m, s), {'?', '#'}) && Avoids(Escape(m, s), AUTHORITY_END)
  {
    EscapeAvoids(m, s, '/');
    EscapeAvoids(m, s, '?');
    EscapeAvoids(m, s, '#');
  }

  lemma LoginAvoids(user: seq<byte>, password: seq<byte>)
    ensures Avoids(Login(user, password), {'@'}) && Avoids(Login(user, password), AUTHORITY_END)
  {
    EscapeAvoids(Userinfo, user, '@');
    EscapeAvoids(Userinfo, password, '@');
    EscapeAvoidsAll(Userinfo, user);
    EscapeAvoidsAll(Userinfo, password);
    AvoidsConcat(":", Escape(Userinfo, password), {'@'});
    AvoidsConcat(":", Escape(Userinfo, password), AUTHORITY_END);
    AvoidsConcat(Escape(Userinfo, user), if password == [] then "" else ":" + Escape(Userinfo, password), {'@'});
    AvoidsConcat(Escape(Userinfo, user), if password == [] then "" else ":" + Escape(Userinfo, password),
                 AUTHORITY_END);
  }

  lemma {:induction false} LoginReadsBack(user: seq<byte>, password: seq<byte>)
    ensures UpTo(Login(user, password), {':'}) == Escape(Userinfo, user)
    ensures After(Login(user, password), {':'}) == if password == [] then None else Some(Escape(Userinfo, password))
  {
    EscapeAvoids(Userinfo, user, ':');
    if password == [] {
      assert Login(user, password) == Escape(Userinfo, user);
      NoCut(Escape(Userinfo, user), {':'});
    } else {
      Cut(Escape(Userinfo, user), ':', Escape(Userinfo, password), {':'});
    }
  }

  lemma AuthorityReadsBack(user: seq<byte>, password: seq<byte>, host: string, port: string)
    requires IsPlain(host) && IsPlain(port)
    ensures SplitAuthority(UserinfoOf(user, password) + JoinHostPort(host, port))
            == (if user == [] then None else Some(Login(user, password)), JoinHostPort(host, port))
    ensures Avoids(UserinfoOf(user, password) + JoinHostPort(host, port), AUTHORITY_END)
  {
    var h := JoinHostPort(host, port);
    HostPortAvoids(host, port, {'@'});
    HostPortAvoids(host, port, AUTHORITY_END);
    if user == [] {
      assert "" + h == h;
      NoCut(h, {'@'});
    } else {
      LoginAvoids(user, password);
      Assoc(Login(user, password), "@", h);
      Cut(Login(user, password), '@', h, {'@'});
      AvoidsConcat("@", h, AUTHORITY_END);
      AvoidsConcat(Login(user, password), "@" + h, AUTHORITY_END);
    }
  }

  lemma {:induction false} PathReadsBack(name: seq<byte>, sslmode: seq<byte>)
    ensures UpTo(Escape(PathSegment, name) + QueryOf(sslmode), {'?', '#'}) == Escape(PathSegment, name)
    ensures After(Escape(PathSegment, name) + QueryOf(sslmode), {'?', '#'})
            == if sslmode == [] then None else Some(SSLMODE + Escape(QueryComponent, sslmode))
  {
    var n := Escape(PathSegment, name);
    EscapeAvoidsAll(PathSegment, name);
    if sslmode == [] {
      assert n + "" == n;
      NoCut(n, {'?', '#'});
    } else {
      assert QueryOf(sslmode) == ['?'] + (SSLMODE + Escape(QueryComponent, sslmode));
      Cut(n, '?', SSLMODE + Escape(QueryComponent, sslmode), {'?', '#'});
    }
  }

  function Given(s: seq<byte>): Option<seq<byte>> { if s == [] then None else Some(s) }

  lemma {:induction false} RestReadsBack(user: seq<byte>, password: seq<byte>, host: string, port: string,
                                         name: seq<byte>, sslmode: seq<byte>)
    requires IsPlain(host) && IsPlain(port)
    ensures ParseRest(if user == [] then None else Some(Login(user, password)), JoinHostPort(host, port),
                      Escape(PathSegment, name) + QueryOf(sslmode))
            == Some(Parts(Given(user), if user == [] then None else Given(password), host, port, name, Given(sslmode)))
  {
    LoginReadsBack(user, password);
    PathReadsBack(name, sslmode);
    HostPortReadsBack(host, port);
    EscapeReadsBack(Userinfo, user);
    EscapeReadsBack(Userinfo, password);
    EscapeReadsBack(PathSegment, name);
    EscapeReadsBack(QueryComponent, sslmode);
    assert (SSLMODE + Escape(QueryComponent, sslmode))[|SSLMODE|..] == Escape(QueryComponent, sslmode);
  }

  lemma SchemeIsCut(rest: string)
    ensures "postgres://" <= SCHEME + rest && (SCHEME + rest)[11..] == rest
  {
  }

  /** Reading a composed URL gives every part back: the user and the password
      when they are given, host and port as long as they are free of delimiters,
      and any database name and ssl mode. A password without a user is dropped. */
  lemma ComposedReadsBack(host: string, port: string, name: seq<byte>, user: seq<byte>, password: seq<byte>,
                          sslmode: seq<byte>)
    requires IsPlain(host) && IsPlain(port)
    ensures Parse(UrlOf(host, port, name, user, password, sslmode))
            == Some(Parts(Given(user), if user == [] then None else Given(password), host, port, name, Given(sslmode)))
  {
    var (authority, path) := (UserinfoOf(user, password) + JoinHostPort(host, port),
                              Escape(PathSegment, name) + QueryOf(sslmode));
    var url := UrlOf(host, port, name, user, password, sslmode);
    SchemeIsCut(authority + ("/" + path));
    AuthorityReadsBack(user, password, host, port);
    UpToStop(authority, "/" + path, AUTHORITY_END);
    assert ("/" + path)[1..] == path;
    RestReadsBack(user, password, host, port, name, sslmode);
  }
}
