/// The permalink sanitiser `_safe_permalink` of tools/browser_capture_store.py, on ASCII URLs whose
/// authority is not in square brackets, by the rules of `urlsplit` and `urlunsplit` of current Python
/// versions.  On other URLs it is an arbitrary function.

module Permalink {
  import opened Wrappers

  predicate Ascii(s: string) {
    forall i | 0 <= i < |s| :: s[i] as int < 128
  }

  /** `urlsplit` drops these wherever they are. */
  const DROPPED: set<char> := {'\t', '\r', '\n'}

  predicate PlainChar(c: char) {
    c as int < 128 && c !in DROPPED
  }

  predicate Plain(s: string) {
    forall i | 0 <= i < |s| :: PlainChar(s[i])
  }

  // ---------- pieces of a URL ----------

  const DELIMITERS: set<char> := {'/', '?', '#'}
  const QUERY: set<char> := {'?', '#'}
  const RESERVED: set<char> := DELIMITERS + {'[', ']'}

  /** The first position of one of the characters, or the end. */
  function Index(s: string, stops: set<char>): (n: nat)
    ensures n <= |s| && (n < |s| ==> s[n] in stops) && forall i | 0 <= i < n :: s[i] !in stops
  {
    if s == "" || s[0] in stops then 0 else 1 + Index(s[1..], stops)
  }

  /** Leading spaces and control characters are cut off. */
  function Stripped(s: string): string {
    if s != "" && s[0] <= ' ' then Stripped(s[1..]) else s
  }

  function Kept(s: string): string {
    if s == "" then "" else (if s[0] in DROPPED then "" else [s[0]]) + Kept(s[1..])
  }

  /** What `urlsplit` takes apart. */
  function Tidy(s: string): string {
    Kept(Stripped(s))
  }

  /** What follows the last `@`, or everything. */
  function AfterAt(s: string): string
    decreases |s|
  {
    var i := Index(s, {'@'});
    if i == |s| then s else AfterAt(s[i + 1..])
  }

  function LowerChar(c: char): char {
    if 'A' <= c <= 'Z' then c + ' ' else c
  }

  function Lower(s: string): (r: string)
    ensures |r| == |s| && forall i | 0 <= i < |s| :: r[i] == LowerChar(s[i])
  {
    seq(|s|, i requires 0 <= i < |s| => LowerChar(s[i]))
  }

  /** A host name is lowered up to a `%`. */
  function LowerHost(s: string): string {
    var i := Index(s, {'%'});
    Lower(s[..i]) + s[i..]
  }

  predicate Digit(c: char) {
    '0' <= c <= '9'
  }

  predicate Digits(s: string) {
    forall i | 0 <= i < |s| :: Digit(s[i])
  }

  function Value(s: string): nat
    requires Digits(s)
  {
    if s == "" then 0 else 10 * Value(s[..|s| - 1]) + (s[|s| - 1] as nat - '0' as nat)
  }

  function Decimal(n: nat): (s: string)
    ensures Digits(s) && s != "" && Value(s) == n
  {
    var last := ['0' + (n % 10) as char];
    if n < 10 then
      assert last[..0] == "";
      last
    else
      var s := Decimal(n / 10) + last;
      assert s[..|s| - 1] == Decimal(n / 10);
      s
  }

  // ---------- the sanitiser ----------

  /** Scheme, host with port, and path of the cleaned URL. */
  datatype Parts = Parts(scheme: string, authority: string, path: string)

  function Assemble(host: string, port: nat): string {
    if port == 0 then host else host + ":" + Decimal(port)
  }

  predicate Unbalanced(netloc: string) {
    ('[' in netloc) != (']' in netloc)
  }

  /** Host and port of an authority; none when the port is no number up to 65535, or for a single bracket. */
  function HostPort(netloc: string): Option<string> {
    var hostinfo := AfterAt(netloc);
    var h := Index(hostinfo, {':'});
    var host, port := LowerHost(hostinfo[..h]), if h == |hostinfo| then "" else hostinfo[h + 1..];
    if Unbalanced(netloc) || !Digits(port) || Value(port) > 65535 then None
    else Some(Assemble(host, Value(port)))
  }

  /** What the URL is taken apart into; none when it is no web address. */
  function Split(value: string): Option<Parts> {
    var i := Index(value, {':'});
    var scheme := Lower(value[..i]);
    if (scheme != "http" && scheme != "https") || |value| < i + 3 || value[i + 1] != '/' || value[i + 2] != '/' then None
    else
      var body := value[i + 3..];
      var n := Index(body, DELIMITERS);
      if n == 0 then None
      else
        var authority := HostPort(body[..n]);
        if authority == None then None
        else Some(Parts(scheme, authority.value, body[n..][..Index(body[n..], QUERY)]))
  }

  function Join(parts: Option<Parts>): string {
    if parts == None then "" else parts.value.scheme + "://" + parts.value.authority + parts.value.path
  }

  /** Scheme, host with port, and path of a value as it came; none when it is no web address. */
  function Parsed(value: string): Option<Parts> {
    Split(Tidy(value))
  }

  /** What stands where a web address has its authority. */
  function Netloc(value: string): string {
    var i := Index(value, {':'});
    if |value| < i + 3 then "" else value[i + 3..][..Index(value[i + 3..], DELIMITERS)]
  }

  /**
   * No authority in brackets; and versions of Python join a path that begins with two slashes to an
   * empty host differently.
   */
  predicate Covered(value: string) {
    && Ascii(value)
    && !('[' in Netloc(Tidy(value)) && ']' in Netloc(Tidy(value)))
    && var parts := Parsed(value);
       parts.Some? && parts.value.authority == "" ==> !("//" <= parts.value.path)
  }

  /** `_safe_permalink`; `other` is what it does with the URLs this model does not cover. */
  function Clean(other: string -> string, value: string): string {
    if Covered(value) then Join(Parsed(value)) else other(value)
  }

  // ---------- cleaning what was cleaned ----------

  /** The scheme is kept, the authority is its own, and the path begins at a slash. */
  ghost predicate Settled(p: Parts) {
    && (p.scheme == "http" || p.scheme == "https") && Plain(p.authority) && Plain(p.path)
    && (forall i | 0 <= i < |p.authority| :: p.authority[i] !in RESERVED && p.authority[i] != '@')
    && (p.path == "" || p.path[0] == '/') && (forall i | 0 <= i < |p.path| :: p.path[i] !in QUERY)
    && HostPort(p.authority) == Some(p.authority)
  }

  lemma {:induction false} AfterAtIsPlain(s: string, stops: set<char>)
    requires Plain(s) && forall i | 0 <= i < |s| :: s[i] !in stops
    ensures Plain(AfterAt(s)) && forall i | 0 <= i < |AfterAt(s)| :: AfterAt(s)[i] !in stops && AfterAt(s)[i] != '@'
    decreases |s|
  {
    var i := Index(s, {'@'});
    if i < |s| {
      AfterAtIsPlain(s[i + 1..], stops);
    }
  }

  /** The index does not see what follows the first stop. */
  lemma {:induction false} IndexAtEnd(s: string, tail: string, stops: set<char>)
    requires (forall i | 0 <= i < |s| :: s[i] !in stops) && (tail == "" || tail[0] in stops)
    ensures Index(s + tail, stops) == |s|
    decreases |s|
  {
    if s == "" {
      assert s + tail == tail;
    } else {
      assert (s + tail)[1..] == s[1..] + tail;
      IndexAtEnd(s[1..], tail, stops);
    }
  }

  lemma LowerHostKeeps(s: string, stops: set<char>)
    requires Plain(s) && (forall i | 0 <= i < |s| :: s[i] !in stops)
    requires forall c: char | c in stops :: !('a' <= c <= 'z')
    ensures Plain(LowerHost(s)) && |LowerHost(s)| == |s| && forall i | 0 <= i < |s| :: LowerHost(s)[i] !in stops
    ensures LowerHost(LowerHost(s)) == LowerHost(s)
  {
    var i := Index(s, {'%'});
    var r := LowerHost(s);
    assert r == Lower(s[..i]) + s[i..];
    assert forall k | 0 <= k < i :: r[k] == LowerChar(s[k]);
    IndexAtEnd(Lower(s[..i]), s[i..], {'%'});
    assert r[..i] == Lower(s[..i]) && r[i..] == s[i..];
    assert Lower(r[..i]) == r[..i];
  }

  lemma DigitsArePlain(s: string)
    requires Digits(s)
    ensures Plain(s) && forall i | 0 <= i < |s| :: s[i] !in RESERVED && s[i] != '@' && s[i] != ':'
  {
  }

  lemma {:induction false} NoAt(s: string)
    requires forall i | 0 <= i < |s| :: s[i] != '@'
    ensures AfterAt(s) == s
  {
    IndexAtEnd(s, "", {'@'});
    assert s + "" == s;
  }

  lemma AssembledIsPlain(host: string, port: nat)
    requires Plain(host) && forall i | 0 <= i < |host| :: host[i] !in RESERVED && host[i] != '@' && host[i] != ':'
    ensures var a := Assemble(host, port); Plain(a) && forall i | 0 <= i < |a| :: a[i] !in RESERVED && a[i] != '@'
  {
    if port != 0 {
      DigitsArePlain(Decimal(port));
      hide Decimal;
    }
  }

  /** Host and port of what host and port were assembled to. */
  lemma HostPortOfAssembled(host: string, port: nat)
    requires LowerHost(host) == host && port <= 65535
    requires forall i | 0 <= i < |Assemble(host, port)| :: Assemble(host, port)[i] != '@' && Assemble(host, port)[i] !in RESERVED
    requires forall i | 0 <= i < |host| :: host[i] != ':'
    ensures HostPort(Assemble(host, port)) == Some(Assemble(host, port))
  {
    hide LowerHost, AfterAt, Index;
    var a := Assemble(host, port);
    NoAt(a);
    NotUnbalanced(a);
    PortOfAssembled(host, port);
    hide Unbalanced, Assemble, Decimal;
  }

  lemma NotUnbalanced(s: string)
    requires forall i | 0 <= i < |s| :: s[i] !in RESERVED
    ensures !Unbalanced(s)
  {
    assert forall c | c in s :: c !in RESERVED;
  }

  /** An assembled authority comes apart at its colon. */
  lemma PortOfAssembled(host: string, port: nat)
    requires forall i | 0 <= i < |host| :: host[i] != ':'
    ensures var a := Assemble(host, port);
            && Index(a, {':'}) == |host| <= |a| && a[..|host|] == host
            && (port == 0 ==> a == host)
            && (port != 0 ==> |host| < |a| && a[|host| + 1..] == Decimal(port))
  {
    hide Index, Decimal;
    var a := Assemble(host, port);
    var tail := if port == 0 then "" else ":" + Decimal(port);
    assert a == host + tail;
    IndexAtEnd(host, tail, {':'});
  }

  /** Host and port are their own host and port. */
  lemma HostPortSettles(netloc: string)
    requires Plain(netloc) && (forall i | 0 <= i < |netloc| :: netloc[i] !in RESERVED) && HostPort(netloc).Some?
    ensures var a := HostPort(netloc).value;
            && Plain(a) && (forall i | 0 <= i < |a| :: a[i] !in RESERVED && a[i] != '@') && HostPort(a) == Some(a)
  {
    hide LowerHost, AfterAt, Assemble, Plain;
    var hostinfo := AfterAt(netloc);
    AfterAtIsPlain(netloc, RESERVED);
    var h := Index(hostinfo, {':'});
    assert Plain(hostinfo[..h]) by { PlainPrefix(hostinfo, h); }
    LowerHostKeeps(hostinfo[..h], RESERVED + {'@', ':'});
    hide Index;
    var host, port := LowerHost(hostinfo[..h]), if h == |hostinfo| then "" else hostinfo[h + 1..];
    AssembledIsPlain(host, Value(port));
    HostPortOfAssembled(host, Value(port));
  }

  lemma PlainPrefix(s: string, n: nat)
    requires Plain(s) && n <= |s|
    ensures Plain(s[..n])
  {
  }

  lemma PlainRest(s: string, n: nat)
    requires Plain(s) && n <= |s|
    ensures Plain(s[n..])
  {
  }

  /** An authority that is none in brackets, of which something could be made, has no bracket. */
  lemma NoBracket(netloc: string)
    requires HostPort(netloc).Some? && !('[' in netloc && ']' in netloc) && forall i | 0 <= i < |netloc| :: netloc[i] !in DELIMITERS
    ensures forall i | 0 <= i < |netloc| :: netloc[i] !in RESERVED
  {
    hide AfterAt, Index, LowerHost;
  }

  lemma {:induction false} StrippedIsClear(s: string)
    requires Ascii(s)
    ensures Ascii(Stripped(s)) && (Stripped(s) != "" ==> Stripped(s)[0] > ' ')
    decreases |s|
  {
    if s != "" && s[0] <= ' ' {
      StrippedIsClear(s[1..]);
    }
  }

  lemma {:induction false} KeptIsPlain(s: string)
    requires Ascii(s)
    ensures Plain(Kept(s)) && (Plain(s) ==> Kept(s) == s)
    decreases |s|
  {
    if s != "" {
      KeptIsPlain(s[1..]);
      assert s == [s[0]] + s[1..];
    }
  }

  /** Tidying leaves a plain text, and leaves a plain text that begins with no space as it is. */
  lemma TidyIsPlain(s: string)
    requires Ascii(s)
    ensures Plain(Tidy(s)) && (Plain(s) && (s == "" || s[0] > ' ') ==> Tidy(s) == s)
  {
    StrippedIsClear(s);
    KeptIsPlain(Stripped(s));
  }

  /** What a plain URL is taken apart into is settled. */
  lemma SplitSettles(value: string)
    requires Plain(value) && Split(value).Some? && !('[' in Netloc(value) && ']' in Netloc(value))
    ensures Settled(Split(value).value)
  {
    hide HostPort, Index, Plain, Lower;
    var i := Index(value, {':'});
    var body := value[i + 3..];
    var n := Index(body, DELIMITERS);
    var tail := body[n..];
    PlainRest(value, i + 3);
    PlainRest(body, n);
    PlainPrefix(body, n);
    PlainPrefix(tail, Index(tail, QUERY));
    assert Netloc(value) == body[..n];
    NoBracket(body[..n]);
    HostPortSettles(body[..n]);
    PathSettles(tail);
    hide Netloc;
  }

  lemma PathSettles(tail: string)
    requires tail == "" || tail[0] in DELIMITERS
    ensures var path := tail[..Index(tail, QUERY)];
            (path == "" || path[0] == '/') && forall i | 0 <= i < |path| :: path[i] !in QUERY
  {
    hide Index;
  }

  lemma SchemeIsFound(scheme: string, rest: string)
    requires scheme == "http" || scheme == "https"
    ensures Index(scheme + "://" + rest, {':'}) == |scheme| && Lower(scheme) == scheme && Plain(scheme)
  {
    assert scheme + "://" + rest == scheme + ("://" + rest);
    IndexAtEnd(scheme, "://" + rest, {':'});
    assert Lower(scheme) == scheme;
  }

  /** A scheme and what follows its slashes, taken apart. */
  lemma SplitFrom(scheme: string, rest: string, n: nat, m: nat)
    requires scheme == "http" || scheme == "https"
    requires n == Index(rest, DELIMITERS) && m == Index(rest[n..], QUERY)
    ensures Split(scheme + "://" + rest) ==
            if n == 0 || HostPort(rest[..n]) == None then None
            else Some(Parts(scheme, HostPort(rest[..n]).value, rest[n..][..m]))
  {
    hide HostPort, Index, Lower;
    var value := scheme + "://" + rest;
    SchemeIsFound(scheme, rest);
    var i := |scheme|;
    assert value[..i] == scheme && value[i + 3..] == rest && value[i + 1] == '/' && value[i + 2] == '/';
  }

  lemma NetlocFrom(scheme: string, rest: string)
    requires scheme == "http" || scheme == "https"
    ensures Netloc(scheme + "://" + rest) == rest[..Index(rest, DELIMITERS)]
  {
    hide Index;
    SchemeIsFound(scheme, rest);
    assert (scheme + "://" + rest)[|scheme| + 3..] == rest;
  }

  lemma JoinedIsPlain(p: Parts)
    requires Settled(p)
    ensures Plain(Join(Some(p))) && Join(Some(p))[0] == 'h'
  {
    hide HostPort;
    assert Plain("://");
  }

  /** Taking the joined URL apart again: the same parts if it has an authority, otherwise nothing. */
  lemma SplitOfJoin(p: Parts)
    requires Settled(p)
    ensures Plain(Join(Some(p))) && Split(Join(Some(p))) == if p.authority == "" then None else Some(p)
    ensures Join(Some(p))[0] == 'h' && Netloc(Join(Some(p))) == p.authority
  {
    hide HostPort, Index, Split, Lower, Netloc;
    var rest := p.authority + p.path;
    assert Join(Some(p)) == p.scheme + "://" + rest;
    SchemeIsFound(p.scheme, rest);
    NetlocFrom(p.scheme, rest);
    JoinedIsPlain(p);
    hide Plain, Join;
    IndexAtEnd(p.authority, p.path, DELIMITERS);
    assert rest[..|p.authority|] == p.authority && rest[|p.authority|..] == p.path;
    IndexAtEnd(p.path, "", QUERY);
    assert p.path + "" == p.path && p.path[..|p.path|] == p.path;
    SplitFrom(p.scheme, rest, |p.authority|, |p.path|);
  }

  /** What the second pass makes of the output of the first. */
  lemma CleanedAgain(value: string)
    requires Covered(value) && Parsed(value).Some?
    ensures var p := Parsed(value).value;
            Covered(Join(Some(p))) && Parsed(Join(Some(p))) == if p.authority == "" then None else Some(p)
  {
    TidyIsPlain(value);
    var p := Parsed(value).value;
    SplitSettles(Tidy(value));
    SplitOfJoin(p);
    hide Split, Netloc, HostPort, Index, Tidy;
    var cleaned := Join(Some(p));
    assert Ascii(cleaned);
    TidyIsPlain(cleaned);
    assert Tidy(cleaned) == cleaned;
    assert !('[' in p.authority);
  }

  /**
   * The sanitiser leaves its own output alone exactly when the URL is no web address or something is
   * left of its authority: a host, or a port other than zero.
   */
  lemma CleanIsStableIff(other: string -> string, value: string)
    requires Covered(value)
    ensures Clean(other, Clean(other, value)) == Clean(other, value)
            <==> Parsed(value) == None || Parsed(value).value.authority != ""
  {
    if Parsed(value).Some? {
      CleanedAgain(value);
      hide Covered, Parsed;
    } else {
      assert Split("") == None && Tidy("") == "" && Netloc("") == "";
    }
  }

  /** A user but no host: the first pass leaves an address without host, the second leaves nothing. */
  lemma UserWithoutHost(other: string -> string)
    ensures var value := "http://user@/p";
            Covered(value) && Clean(other, value) == "http:///p" && Clean(other, "http:///p") == ""
  {
    var value, p := "http://user@/p", Parts("http", "", "/p");
    UserIsCovered();
    hide Covered, Parsed;
    CleanedAgain(value);
    assert Join(Some(p)) == "http:///p";
  }

  lemma UserIsCovered()
    ensures Covered("http://user@/p") && Parsed("http://user@/p") == Some(Parts("http", "", "/p"))
  {
    var value := "http://user@/p";
    UserIsPlain(value);
    TidyIsPlain(value);
    UserIsSplit();
    NetlocWithin(value);
    hide Split, Tidy, Ascii, Plain, Netloc;
    assert "/p"[1] != '/';
  }

  lemma UserIsPlain(value: string)
    requires value == "http://user@/p"
    ensures Ascii(value) && Plain(value) && value[0] > ' ' && '[' !in value
  {
    assert forall i | 0 <= i < |value| :: '/' <= value[i] <= '@' || 'a' <= value[i] <= 'z';
  }

  lemma UserIsSplit()
    ensures Split("http://user@/p") == Some(Parts("http", "", "/p"))
  {
    hide Index, HostPort, Split, Lower;
    var rest := "user@/p";
    assert rest == "user@" + "/p";
    FirstSlash();
    IndexAtEnd("/p", "", QUERY);
    assert "/p" + "" == "/p" && "/p"[..2] == "/p";
    NoHost();
    SplitFrom("http", rest, 5, 2);
    assert rest[..5] == "user@" && rest[5..] == "/p";
    assert "http" + "://" + rest == "http://user@/p";
  }

  lemma FirstSlash()
    ensures Index("user@/p", DELIMITERS) == 5
  {
    IndexAtEnd("user@", "/p", DELIMITERS);
    hide Index;
    assert "user@" + "/p" == "user@/p";
  }

  lemma NetlocWithin(value: string)
    ensures forall c | c in Netloc(value) :: c in value
  {
  }

  lemma NoHost()
    ensures HostPort("user@") == Some("")
  {
    assert "user@" == "user" + "@";
    IndexAtEnd("user", "@", {'@'});
    assert "user@"[5..] == "";
    assert AfterAt("user@") == AfterAt("") == "";
    assert LowerHost("") == "";
  }

  // ---------- what is kept of a web address ----------

  /** A web address by its pieces; `user` ends in `@` unless it is empty, `port` begins with `:`, `extra` with `?` or `#`. */
  datatype Address = Address(scheme: string, user: string, host: string, port: string, path: string, extra: string)

  function Netpart(a: Address): string {
    a.user + a.host + a.port
  }

  function Whole(a: Address): string {
    a.scheme + "://" + Netpart(a) + a.path + a.extra
  }

  predicate Free(s: string, stops: set<char>) {
    forall i | 0 <= i < |s| :: s[i] !in stops
  }

  ghost predicate WellFormed(a: Address) {
    && (Lower(a.scheme) == "http" || Lower(a.scheme) == "https") && Plain(Whole(a)) && Netpart(a) != ""
    && Free(a.user, RESERVED) && (a.user == "" || a.user[|a.user| - 1] == '@')
    && Free(a.host, RESERVED + {'@', ':', '%'})
    && (a.port == "" || (a.port[0] == ':' && Digits(a.port[1..]) && Value(a.port[1..]) <= 65535))
    && (a.path == "" || a.path[0] == '/') && Free(a.path, QUERY)
    && (a.extra == "" || a.extra[0] in QUERY)
  }

  /** The port in decimal, without leading zeros; none for port zero. */
  function PortOf(a: Address): string
    requires a.port == "" || Digits(a.port[1..])
  {
    if a.port == "" || Value(a.port[1..]) == 0 then "" else ":" + Decimal(Value(a.port[1..]))
  }

  lemma {:induction false} AfterLastAt(user: string, rest: string)
    requires Free(rest, {'@'})
    ensures AfterAt(user + "@" + rest) == rest
    decreases |user|
  {
    var s := user + "@" + rest;
    var i := Index(s, {'@'});
    assert s[|user|] == '@';
    assert i <= |user|;
    if i < |user| {
      assert s[i + 1..] == user[i + 1..] + "@" + rest;
      AfterLastAt(user[i + 1..], rest);
    } else {
      assert s[i + 1..] == rest;
      NoAt(rest);
    }
  }

  lemma HostPortOfAddress(a: Address)
    requires WellFormed(a)
    ensures HostPort(Netpart(a)) == Some(Lower(a.host) + PortOf(a))
  {
    var rest := a.host + a.port;
    PortIsFree(a);
    assert Free(rest, {'@'});
    HostInfo(a);
    assert Value("") == 0 && Digits("");
    hide AfterAt, Index, Plain, LowerHost, Lower, Digits, Value, Decimal, Unbalanced;
    IndexAtEnd(a.host, a.port, {':'});
    LowerPlainHost(a.host);
    NetpartIsFree(a);
    NotUnbalanced(Netpart(a));
    assert rest[..|a.host|] == a.host;
    assert a.port != "" ==> rest[|a.host| + 1..] == a.port[1..];
    var host, port := Lower(a.host), if a.port == "" then 0 else Value(a.port[1..]);
    assert host + "" == host;
    assert port != 0 ==> host + ":" + Decimal(port) == host + (":" + Decimal(port));
    hide Netpart, Free;
  }

  lemma PortIsFree(a: Address)
    requires WellFormed(a)
    ensures Free(a.port, RESERVED + {'@'})
  {
    if a.port != "" {
      DigitsArePlain(a.port[1..]);
      assert forall i | 1 <= i < |a.port| :: a.port[i] == a.port[1..][i - 1];
    }
    hide Plain, Whole;
  }

  lemma HostInfo(a: Address)
    requires WellFormed(a) && Free(a.host + a.port, {'@'})
    ensures AfterAt(Netpart(a)) == a.host + a.port
  {
    var rest := a.host + a.port;
    if a.user == "" {
      assert Netpart(a) == rest;
      NoAt(rest);
    } else {
      var user := a.user[..|a.user| - 1];
      assert Netpart(a) == user + "@" + rest;
      AfterLastAt(user, rest);
    }
    hide Plain, Whole;
  }

  lemma LowerPlainHost(host: string)
    requires Free(host, {'%'})
    ensures LowerHost(host) == Lower(host)
  {
    IndexAtEnd(host, "", {'%'});
    assert host + "" == host && host[..|host|] == host && host[|host|..] == "";
    assert Lower(host) + "" == Lower(host);
  }

  /** Scheme, authority, path and the rest, taken apart again. */
  lemma SplitOfPieces(scheme: string, netpart: string, path: string, extra: string)
    requires Lower(scheme) == "http" || Lower(scheme) == "https"
    requires netpart != "" && Free(netpart, DELIMITERS)
    requires (path == "" || path[0] == '/') && Free(path, QUERY) && (extra == "" || extra[0] in QUERY)
    ensures var value := scheme + "://" + (netpart + (path + extra));
            && Netloc(value) == netpart
            && Split(value) == if HostPort(netpart) == None then None else Some(Parts(Lower(scheme), HostPort(netpart).value, path))
  {
    hide Index, HostPort, Lower;
    var tail := path + extra;
    var body := netpart + tail;
    var value := scheme + "://" + body;
    assert value == scheme + ("://" + body);
    SchemeHasNoColon(scheme);
    IndexAtEnd(scheme, "://" + body, {':'});
    assert value[..|scheme|] == scheme && value[|scheme| + 3..] == body;
    assert value[|scheme| + 1] == '/' && value[|scheme| + 2] == '/';
    IndexAtEnd(netpart, tail, DELIMITERS);
    assert body[..|netpart|] == netpart && body[|netpart|..] == tail;
    IndexAtEnd(path, extra, QUERY);
    assert tail[..|path|] == path;
  }

  /** The address taken apart: scheme and host lowered, user, query and fragment gone, the path as it was. */
  lemma SplitOfAddress(a: Address)
    requires WellFormed(a)
    ensures Split(Whole(a)) == Some(Parts(Lower(a.scheme), Lower(a.host) + PortOf(a), a.path))
    ensures Netloc(Whole(a)) == Netpart(a) && '[' !in Netpart(a)
  {
    hide Split, Netloc, HostPort, Plain, Lower, Digits, PortOf;
    HostPortOfAddress(a);
    PortIsFree(a);
    NetpartIsFree(a);
    SplitOfPieces(a.scheme, Netpart(a), a.path, a.extra);
    assert Whole(a) == a.scheme + "://" + (Netpart(a) + (a.path + a.extra));
  }

  lemma NetpartIsFree(a: Address)
    requires WellFormed(a) && Free(a.port, RESERVED)
    ensures Free(Netpart(a), RESERVED) && Free(Netpart(a), DELIMITERS) && '[' !in Netpart(a)
  {
    hide Plain, Digits, Lower;
  }

  lemma SchemeHasNoColon(scheme: string)
    requires Lower(scheme) == "http" || Lower(scheme) == "https"
    ensures Free(scheme, {':'}) && scheme != "" && scheme[0] > ' '
  {
    assert forall i | 0 <= i < |scheme| :: LowerChar(scheme[i]) != ':';
  }

  /**
   * What the sanitiser keeps of a web address: its scheme and host in lower case, its port without leading zeros
   * unless it is zero, and its path; user, query and fragment are dropped.
   */
  lemma CleanOfAddress(other: string -> string, a: Address)
    requires WellFormed(a) && (Lower(a.host) + PortOf(a) == "" ==> !("//" <= a.path))
    ensures Clean(other, Whole(a)) == Lower(a.scheme) + "://" + Lower(a.host) + PortOf(a) + a.path
  {
    hide Split, Netloc, Tidy, HostPort, Plain, Lower, PortOf, Netpart;
    SplitOfAddress(a);
    TidyAddress(a);
    assert Covered(Whole(a));
    hide Covered, Whole;
    var host, port := Lower(a.host), PortOf(a);
    assert Lower(a.scheme) + "://" + (host + port) + a.path == Lower(a.scheme) + "://" + host + port + a.path;
  }

  lemma TidyAddress(a: Address)
    requires WellFormed(a)
    ensures Tidy(Whole(a)) == Whole(a) && Ascii(Whole(a))
  {
    hide Tidy, Netpart;
    SchemeHasNoColon(a.scheme);
    assert Whole(a)[0] == a.scheme[0];
    TidyIsPlain(Whole(a));
  }

  /** Whatever does not begin like a web address is dropped. */
  lemma OtherIsDropped(other: string -> string, value: string)
    requires Covered(value)
    requires !(|Tidy(value)| >= 7 && Lower(Tidy(value)[..7]) == "http://") && !(|Tidy(value)| >= 8 && Lower(Tidy(value)[..8]) == "https://")
    ensures Clean(other, value) == ""
  {
    var tidy := Tidy(value);
    hide Tidy, HostPort, Index, Lower, Ascii, Netloc;
    BeginsLikeOne(tidy, Index(tidy, {':'}));
  }

  lemma BeginsLikeOne(tidy: string, i: nat)
    requires i <= |tidy|
    ensures i + 3 <= |tidy| && tidy[i] == ':' && tidy[i + 1] == '/' && tidy[i + 2] == '/' ==>
              Lower(tidy[..i + 3]) == Lower(tidy[..i]) + "://"
    ensures |Lower(tidy[..i])| == i
  {
  }
}
