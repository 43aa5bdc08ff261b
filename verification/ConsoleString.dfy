/** The connection string of an instance console:
    `ssh [options] -o ProxyCommand='ssh -W %h:%p -p PORT USER@HOST' [user@]TARGET`. */
module ConsoleString {
  import opened Options
  import opened Texts

  datatype ProxyInfo = ProxyInfo(user: string, host: string, port: int, target: string, targetPort: int)

  datatype Problem = NoProxyCommand | NoAt | NoUserOrHost

  datatype Result = Ok(info: ProxyInfo) | Err(problem: Problem)

  const MARK := "ProxyCommand="
  const PORT_FLAG := "-p "

  // --------------------------------------------- the string functions it builds on

  predicate At(s: string, sub: string, k: nat) {
    k + |sub| <= |s| && s[k..k + |sub|] == sub
  }

  /** `strings.Index`, from `i` on: the first place of `sub`, or -1. */
  function Index(s: string, sub: string, i: nat): (k: int)
    ensures k == -1 || (i <= k && At(s, sub, k))
    ensures forall j: nat :: i <= j && (k == -1 || j < k) ==> !At(s, sub, j)
    decreases |s| - i
  {
    if i + |sub| > |s| then -1 else if At(s, sub, i) then i else Index(s, sub, i + 1)
  }

  predicate Stops(c: char) {
    c == ' ' || c == '\'' || c == '"'
  }

  /** `unicode.IsSpace`. */
  predicate IsSpace(c: char) {
    '\t' <= c <= '\r' || c == ' ' || c == '\U{85}' || c == '\U{A0}' || c == '\U{1680}' || '\U{2000}' <= c <= '\U{200A}'
    || c == '\U{2028}' || c == '\U{2029}' || c == '\U{202F}' || c == '\U{205F}' || c == '\U{3000}'
  }

  /** `strings.TrimSpace`. */
  function Trim(s: string): (t: string)
    ensures |t| <= |s|
    ensures t != [] ==> !IsSpace(t[0]) && !IsSpace(t[|t| - 1])
    ensures forall c :: c in t ==> c in s
    decreases |s|
  {
    if s == [] then []
    else if IsSpace(s[0]) then Trim(s[1..])
    else if IsSpace(s[|s| - 1]) then Trim(s[..|s| - 1])
    else s
  }

  /** The number of characters before the first space. */
  function WordLength(s: string): (n: nat)
    ensures n <= |s| && (n < |s| ==> IsSpace(s[n]))
    ensures forall i :: 0 <= i < n ==> !IsSpace(s[i])
  {
    if s == [] || IsSpace(s[0]) then 0 else 1 + WordLength(s[1..])
  }

  /** `strings.Fields`. */
  function Fields(s: string): (words: seq<string>)
    ensures forall w :: w in words ==> w != "" && forall c :: c in w ==> !IsSpace(c)
    decreases |s|
  {
    if s == [] then []
    else if IsSpace(s[0]) then Fields(s[1..])
    else [s[..WordLength(s)]] + Fields(s[WordLength(s)..])
  }

  const MAX_INT := 0x7fff_ffff_ffff_ffff

  /** `strconv.Atoi` on a 64-bit machine. */
  function Atoi(s: string): Option<int> {
    var digits := if s != [] && (s[0] == '-' || s[0] == '+') then s[1..] else s;
    if digits == [] || !AllDigits(digits, 10) then None
    else
      var n: int := if s[0] == '-' then -(ValueOf(digits, 10) as int) else ValueOf(digits, 10);
      if -MAX_INT - 1 <= n <= MAX_INT then Some(n) else None
  }

  // ----------------------------------------------------------------- the proxy hop

  /** `strings.IndexAny(s, " '\"")`, or the length. */
  function FirstStop(s: string, i: nat): (k: nat)
    requires i <= |s|
    ensures i <= k <= |s| && (k < |s| ==> Stops(s[k]))
    ensures forall j :: i <= j < k ==> !Stops(s[j])
    decreases |s| - i
  {
    if i == |s| || Stops(s[i]) then i else FirstStop(s, i + 1)
  }

  /** The start of the word that ends before `i`. */
  function WordStart(s: string, i: nat): (k: nat)
    requires i <= |s|
    ensures k <= i && (k > 0 ==> Stops(s[k - 1]))
    ensures forall j :: k <= j < i ==> !Stops(s[j])
  {
    if i == 0 || Stops(s[i - 1]) then i else WordStart(s, i - 1)
  }

  /** The port after the first `-p `, or the default 443. */
  function ProxyPort(cmd: string): int {
    var k := Index(cmd, PORT_FLAG, 0);
    if k == -1 then 443
    else
      var rest := cmd[k + 3..];
      var end := FirstStop(rest, 0);
      if 0 < end < |rest| && Atoi(rest[..end]).Some? then Atoi(rest[..end]).value else 443
  }

  // ------------------------------------------------------------ the outer command

  function SkipQuoted(rest: string): string {
    if rest == [] || !(rest[0] == '\'' || rest[0] == '"') then rest
    else
      var end := Find(rest[1..], rest[0]);
      if end < |rest| - 1 then rest[end + 2..] else rest
  }

  /** The flag `-c`. */
  predicate IsFlag(f: string, c: char) {
    |f| == 2 && f[0] == '-' && f[1] == c
  }

  predicate TakesValue(f: string) {
    IsFlag(f, 'i') || IsFlag(f, 'o') || IsFlag(f, 'l') || IsFlag(f, 'F') || IsFlag(f, 'J') || IsFlag(f, 'W')
  }

  predicate Dashed(f: string) {
    |f| > 0 && f[0] == '-'
  }

  /** What follows the last '@'. */
  function HostPart(f: string): (h: string)
    ensures '@' !in h && forall c :: c in h ==> c in f
  {
    f[FindLast(f, '@') + 1..]
  }

  /** The first field from `i` on that is neither a flag nor a flag's value, without
      its user. */
  function Scan(fields: seq<string>, i: nat, port: int): (string, int)
    decreases |fields| - i
  {
    if i >= |fields| then ("", port)
    else
      var f := fields[i];
      if IsFlag(f, 'p') then Scan(fields, i + 2, if i + 1 < |fields| then PortOr(fields[i + 1], port) else port)
      else if TakesValue(f) then Scan(fields, i + 2, port)
      else if Dashed(f) || HostPart(f) == "" then Scan(fields, i + 1, port)
      else (HostPart(f), port)
  }

  /** The value of a `-p` flag, if it is a positive number. */
  function PortOr(value: string, port: int): int {
    var p := Atoi(value);
    if p.Some? && p.value > 0 then p.value else port
  }

  function OuterTarget(rest: string): (string, int) {
    Scan(Fields(SkipQuoted(rest)), 0, 22)
  }

  method ScanFields(fields: seq<string>) returns (target: string, port: int)
    ensures (target, port) == Scan(fields, 0, 22)
  {
    target, port := "", 22;
    var i := 0;
    while i < |fields|
      invariant 0 <= i
      invariant Scan(fields, i, port) == Scan(fields, 0, 22)
    {
      var f := fields[i];
      if IsFlag(f, 'p') {
        if i + 1 < |fields| {
          var p := Atoi(fields[i + 1]);
          if p.Some? && p.value > 0 { port := p.value; }
          i := i + 1;
        }
        i := i + 1;
        continue;
      }
      if TakesValue(f) {
        if i + 1 < |fields| { i := i + 1; }
        i := i + 1;
        continue;
      }
      if Dashed(f) {
        i := i + 1;
        continue;
      }
      var host := f;
      var j := FindLast(host, '@');
      if j >= 0 { host := host[j + 1..]; }
      if host == "" {
        i := i + 1;
        continue;
      }
      return host, port;
    }
  }

  /** `parseOuterTarget`; `after` is what follows the mark. */
  method ParseOuterTarget(after: string) returns (target: string, port: int)
    ensures (target, port) == OuterTarget(after)
  {
    var rest := after;
    if |rest| > 0 && (rest[0] == '\'' || rest[0] == '"') {
      var end := Find(rest[1..], rest[0]);
      if end < |rest| - 1 { rest := rest[end + 2..]; }
    }
    assert rest == SkipQuoted(after);
    target, port := ScanFields(Fields(rest));
  }

  // -------------------------------------------------------------------- the parser

  /** The result; without an outer destination the target is the local host. */
  function Assemble(user: string, host: string, port: int, outer: (string, int)): Result {
    if host == "" || user == "" then Err(NoUserOrHost)
    else if outer.0 != "" then Ok(ProxyInfo(user, host, port, outer.0, outer.1))
    else Ok(ProxyInfo(user, host, port, "localhost", 22))
  }

  function Parse(s: string): Result {
    var start := Index(s, MARK, 0);
    if start == -1 then Err(NoProxyCommand)
    else
      var cmd := s[start..];
      var at := Find(cmd, '@');
      if at == |cmd| then Err(NoAt)
      else Assemble(Trim(cmd[WordStart(cmd, at)..at]), Trim(cmd[at + 1..FirstStop(cmd, at + 1)]), ProxyPort(cmd),
                    OuterTarget(s[start + |MARK|..]))
  }

  method ParseProxyPort(cmd: string) returns (port: int)
    ensures port == ProxyPort(cmd)
  {
    port := 443;
    var portIdx := Index(cmd, PORT_FLAG, 0);
    if portIdx != -1 {
      var rest := cmd[portIdx + 3..];
      var end := FirstStop(rest, 0);
      if 0 < end < |rest| {
        var p := Atoi(rest[..end]);
        if p.Some? { port := p.value; }
      }
    }
  }

  /** Walks back from the '@' to the start of the user name. */
  method WalkBack(cmd: string, at: nat) returns (start: nat)
    requires at <= |cmd|
    ensures start == WordStart(cmd, at)
  {
    var userStart := at - 1;
    while userStart >= 0 && cmd[userStart] != ' ' && cmd[userStart] != '\'' && cmd[userStart] != '"'
      invariant -1 <= userStart < at
      invariant WordStart(cmd, userStart + 1) == WordStart(cmd, at)
    {
      userStart := userStart - 1;
    }
    start := userStart + 1;
  }

  /** Walks forward to the end of the host name. */
  method WalkForward(cmd: string, from: nat) returns (end: nat)
    requires from <= |cmd|
    ensures end == FirstStop(cmd, from)
  {
    end := from;
    while end < |cmd| && cmd[end] != ' ' && cmd[end] != '\'' && cmd[end] != '"'
      invariant from <= end <= |cmd|
      invariant FirstStop(cmd, end) == FirstStop(cmd, from)
    {
      end := end + 1;
    }
  }

  /** User and host around the '@'. */
  method FindUserAndHost(cmd: string, at: nat) returns (user: string, host: string)
    requires at < |cmd|
    ensures user == Trim(cmd[WordStart(cmd, at)..at]) && host == Trim(cmd[at + 1..FirstStop(cmd, at + 1)])
  {
    var userStart := WalkBack(cmd, at);
    user := Trim(cmd[userStart..at]);
    var hostEnd := WalkForward(cmd, at + 1);
    host := Trim(cmd[at + 1..hostEnd]);
  }

  /** `parseConsoleConnectionString`. */
  method ParseConsoleConnectionString(s: string) returns (r: Result)
    ensures r == Parse(s)
  {
    var start := Index(s, MARK, 0);
    if start == -1 { return Err(NoProxyCommand); }
    var cmd, rest := s[start..], s[start + |MARK|..];
    var port := ParseProxyPort(cmd);
    var at := Find(cmd, '@');
    if at == |cmd| { return Err(NoAt); }
    var user, host := FindUserAndHost(cmd, at);
    var target, targetPort := ParseOuterTarget(rest);
    r := Finish(user, host, port, target, targetPort);
  }

  method Finish(user: string, host: string, port: int, target: string, targetPort: int) returns (r: Result)
    ensures r == Assemble(user, host, port, (target, targetPort))
  {
    if host == "" || user == "" { return Err(NoUserOrHost); }
    var info := ProxyInfo(user, host, port, "localhost", 22);
    if target != "" { info := info.(target := target, targetPort := targetPort); }
    r := Ok(info);
  }

  // --------------------------------------------------------------- the round trip

  /** What a connection string says. */
  datatype Described = Described(options: string, quote: char, port: nat, user: string, host: string,
                                 outerUser: Option<string>, target: string)

  predicate NoSpace(w: string) {
    forall c :: c in w ==> !IsSpace(c)
  }

  /** A word free of spaces, quotes and '@'. */
  predicate Plain(w: string) {
    w != "" && NoSpace(w) && '\'' !in w && '"' !in w && '@' !in w
  }

  predicate Valid(d: Described) {
    && (d.quote == '\'' || d.quote == '"')
    && Index(d.options, MARK, 0) == -1
    && Plain(d.user) && Plain(d.host)
    && d.target != "" && NoSpace(d.target) && '@' !in d.target
    && (d.outerUser.Some? ==> NoSpace(d.outerUser.value))
  }

  function Destination(d: Described): string {
    (if d.outerUser.Some? then d.outerUser.value + "@" else "") + d.target
  }

  const DIAL := "ssh -W %h:%p "

  /** The command up to the port. */
  function BeforePort(quote: char): string {
    MARK + [quote] + DIAL + PORT_FLAG
  }

  function AfterUser(d: Described): string {
    d.host + ([d.quote] + (" " + Destination(d)))
  }

  function Command(d: Described): string {
    BeforePort(d.quote) + Numeral(d.port, 10) + " " + d.user + "@" + AfterUser(d)
  }

  /** The documented form. */
  function Rendered(d: Described): string {
    d.options + Command(d)
  }

  lemma Assoc(a: string, b: string, c: string)
    ensures a + b + c == a + (b + c)
  {
  }

  lemma DropFront(a: string, b: string)
    ensures (a + b)[|a|..] == b
  {
  }

  lemma IndexIs(s: string, sub: string, k: nat)
    requires At(s, sub, k) && forall j: nat :: j < k ==> !At(s, sub, j)
    ensures Index(s, sub, 0) == k
  {
  }

  lemma AtChar(s: string, sub: string, k: nat, i: nat)
    requires At(s, sub, k) && i < |sub|
    ensures s[k + i] == sub[i]
  {
    assert s[k..k + |sub|][i] == s[k + i];
  }

  lemma AtPrefix(a: string, b: string, sub: string, k: nat)
    requires At(a + b, sub, k) && k + |sub| <= |a|
    ensures At(a, sub, k)
  {
    assert (a + b)[k..k + |sub|] == a[k..k + |sub|];
  }

  lemma MarkStartsOnce(i: nat)
    requires 0 < i < |MARK|
    ensures MARK[i] != 'P'
  {
  }

  lemma MarkIsNotRepeated(options: string, rest: string, j: nat)
    requires Index(options, MARK, 0) == -1 && j < |options|
    ensures !At(options + (MARK + rest), MARK, j)
  {
    var s := options + (MARK + rest);
    if At(s, MARK, j) {
      if j + |MARK| <= |options| {
        AtPrefix(options, MARK + rest, MARK, j);
      } else {
        AtChar(s, MARK, j, |options| - j);
        MarkStartsOnce(|options| - j);
      }
    }
  }

  lemma FoundAfter(a: string, sub: string, b: string)
    requires forall j: nat :: j < |a| ==> !At(a + (sub + b), sub, j)
    ensures Index(a + (sub + b), sub, 0) == |a|
  {
    var s := a + (sub + b);
    assert s[|a|..|a| + |sub|] == sub;
    IndexIs(s, sub, |a|);
  }

  lemma MarkIsFound(options: string, rest: string)
    requires Index(options, MARK, 0) == -1
    ensures Index(options + (MARK + rest), MARK, 0) == |options|
  {
    forall j: nat | j < |options| ensures !At(options + (MARK + rest), MARK, j) { MarkIsNotRepeated(options, rest, j); }
    FoundAfter(options, MARK, rest);
  }

  lemma NoFlagBefore(quote: char, rest: string, j: nat)
    requires (quote == '\'' || quote == '"') && j < 27
    ensures !At(BeforePort(quote) + rest, PORT_FLAG, j)
  {
    var s := BeforePort(quote) + rest;
    assert |MARK| == 13 && |DIAL| == 13 && |PORT_FLAG| == 3;
    assert j < 13 ==> s[j] == MARK[j];
    assert j > 13 ==> s[j] == DIAL[j - 14];
    assert s[19] == DIAL[5];
    if At(s, PORT_FLAG, j) {
      AtChar(s, PORT_FLAG, j, 0);
      AtChar(s, PORT_FLAG, j, 1);
    }
  }

  lemma PortFlagFound(quote: char, rest: string)
    requires quote == '\'' || quote == '"'
    ensures |BeforePort(quote)| == 30 && Index(BeforePort(quote) + rest, PORT_FLAG, 0) == 27
  {
    var s := BeforePort(quote) + rest;
    assert s[27..30] == PORT_FLAG;
    forall j: nat | j < 27 ensures !At(s, PORT_FLAG, j) { NoFlagBefore(quote, rest, j); }
    IndexIs(s, PORT_FLAG, 27);
  }

  lemma FirstStopIs(pre: string, word: string, c: char, post: string)
    requires Stops(c) && forall x :: x in word ==> !Stops(x)
    ensures FirstStop(pre + word + [c] + post, |pre|) == |pre| + |word|
  {
    var s, k := pre + word + [c] + post, |pre| + |word|;
    assert s[k] == c;
    forall j | |pre| <= j < k ensures !Stops(s[j]) { assert s[j] == word[j - |pre|]; }
  }

  lemma WordStartIs(pre: string, c: char, word: string, post: string)
    requires Stops(c) && forall x :: x in word ==> !Stops(x)
    ensures WordStart(pre + [c] + word + post, |pre| + 1 + |word|) == |pre| + 1
  {
    var s := pre + [c] + word + post;
    assert s[|pre|] == c;
    forall j | |pre| < j < |pre| + 1 + |word| ensures !Stops(s[j]) { assert s[j] == word[j - |pre| - 1]; }
  }

  lemma DigitsDoNotStop(n: nat)
    ensures forall x :: x in Numeral(n, 10) ==> !Stops(x) && x != '@'
  {
    NumeralRoundTrip(n, 10);
  }

  lemma AtoiOfNumeral(n: nat)
    ensures Atoi(Numeral(n, 10)) == if n <= MAX_INT then Some(n) else None
  {
    NumeralRoundTrip(n, 10);
    var s := Numeral(n, 10);
    assert IsDigit(s[0], 10);
  }

  lemma CommandAtPort(d: Described)
    ensures Command(d) == BeforePort(d.quote) + (Numeral(d.port, 10) + " " + (d.user + "@" + AfterUser(d)))
  {
    FromTheRight(BeforePort(d.quote), Numeral(d.port, 10), " ", d.user, "@", AfterUser(d));
  }

  lemma FromTheRight(a: string, b: string, c: string, d: string, e: string, f: string)
    ensures a + b + c + d + e + f == a + (b + c + (d + e + f))
  {
    Assoc(a + b + c + d, e, f);
    Assoc(a + b + c, d, e + f);
    Assoc(d, e, f);
    Assoc(a + b, c, d + e + f);
    Assoc(a, b, c + (d + e + f));
    Assoc(b, c, d + e + f);
  }

  lemma ProxyPortIs(cmd: string, front: string, digits: string, tail: string)
    requires |front| == 30 && cmd == front + (digits + " " + tail) && Index(cmd, PORT_FLAG, 0) == 27
    requires digits != "" && forall x :: x in digits ==> !Stops(x)
    ensures ProxyPort(cmd) == if Atoi(digits).Some? then Atoi(digits).value else 443
  {
    var rest := digits + " " + tail;
    assert cmd[30..] == rest;
    assert "" + digits + [' '] + tail == rest;
    FirstStopIs("", digits, ' ', tail);
    assert rest[..|digits|] == digits;
  }

  lemma PortIsFound(d: Described)
    requires Valid(d)
    ensures ProxyPort(Command(d)) == if d.port <= MAX_INT then d.port else 443
  {
    var n, tail := Numeral(d.port, 10), d.user + "@" + AfterUser(d);
    CommandAtPort(d);
    PortFlagFound(d.quote, n + " " + tail);
    DigitsDoNotStop(d.port);
    ProxyPortIs(Command(d), BeforePort(d.quote), n, tail);
    AtoiOfNumeral(d.port);
  }

  lemma NoAtBefore(d: Described)
    requires Valid(d)
    ensures '@' !in BeforePort(d.quote) + Numeral(d.port, 10)
  {
    DigitsDoNotStop(d.port);
    NoAtInDial(d.quote);
  }

  lemma NoAtInDial(quote: char)
    requires quote == '\'' || quote == '"'
    ensures '@' !in BeforePort(quote)
  {
    var s := BeforePort(quote);
    assert |MARK| == 13 && |DIAL| == 13 && |PORT_FLAG| == 3;
    forall i | 0 <= i < |s| ensures s[i] != '@' {
      assert i < 13 ==> s[i] == MARK[i];
      assert 13 < i < 27 ==> s[i] == DIAL[i - 14];
      assert 27 <= i ==> s[i] == PORT_FLAG[i - 27];
    }
  }

  lemma PlainDoesNotStop(w: string)
    requires Plain(w)
    ensures Trim(w) == w && forall x :: x in w ==> !Stops(x)
  {
    assert w[0] in w && w[|w| - 1] in w;
    assert IsSpace(' ');
  }

  lemma UserIsFound(front: string, user: string, rest: string)
    requires '@' !in front && Plain(user)
    ensures var cmd := front + [' '] + user + ['@'] + rest;
            && Find(cmd, '@') == |front| + 1 + |user|
            && cmd[WordStart(cmd, |front| + 1 + |user|)..|front| + 1 + |user|] == user
  {
    FindInConcat(front + [' '] + user, rest, '@');
    PlainDoesNotStop(user);
    Assoc(front + [' '] + user, ['@'], rest);
    WordStartIs(front, ' ', user, ['@'] + rest);
  }

  lemma HostIsFound(front: string, host: string, quote: char, tail: string)
    requires Plain(host) && Stops(quote)
    ensures var cmd := front + (host + ([quote] + tail)); cmd[|front|..FirstStop(cmd, |front|)] == host
  {
    PlainDoesNotStop(host);
    Assoc(front, host, [quote] + tail);
    Assoc(front + host, [quote], tail);
    FirstStopIs(front, host, quote, tail);
  }

  /** The walk around the first '@' finds user and host. */
  lemma UserAndHostAreFound(d: Described)
    requires Valid(d)
    ensures var cmd := Command(d); var at := Find(cmd, '@');
            && at < |cmd|
            && cmd[WordStart(cmd, at)..at] == d.user && cmd[at + 1..FirstStop(cmd, at + 1)] == d.host
  {
    NoAtBefore(d);
    AroundAt(BeforePort(d.quote) + Numeral(d.port, 10), d.user, d.host, d.quote, " " + Destination(d));
  }

  lemma AroundAt(front: string, user: string, host: string, quote: char, tail: string)
    requires '@' !in front && Plain(user) && Plain(host) && Stops(quote)
    ensures var cmd := front + [' '] + user + ['@'] + (host + ([quote] + tail)); var at := Find(cmd, '@');
            && at < |cmd|
            && cmd[WordStart(cmd, at)..at] == user && cmd[at + 1..FirstStop(cmd, at + 1)] == host
  {
    var rest, before := host + ([quote] + tail), front + [' '] + user + ['@'];
    UserIsFound(front, user, rest);
    HostIsFound(before, host, quote, tail);
    assert |before| == |front| + 1 + |user| + 1;
  }

  /** The quoted value, without its quotes. */
  function Value(d: Described): string {
    DIAL + (PORT_FLAG + (Numeral(d.port, 10) + (" " + (d.user + ("@" + d.host)))))
  }

  lemma ValueHasNoQuote(d: Described)
    requires Valid(d)
    ensures d.quote !in Value(d)
  {
    DigitsDoNotStop(d.port);
    assert |DIAL| == 13 && forall i :: 0 <= i < 13 ==> DIAL[i] != '\'' && DIAL[i] != '"';
    assert |PORT_FLAG| == 3 && forall i :: 0 <= i < 3 ==> PORT_FLAG[i] != '\'' && PORT_FLAG[i] != '"';
  }

  lemma CommandAtValue(d: Described)
    ensures Command(d) == MARK + ([d.quote] + (Value(d) + [d.quote] + (" " + Destination(d))))
  {
    var n, tail := Numeral(d.port, 10), [d.quote] + (" " + Destination(d));
    AllFromTheRight(MARK, [d.quote], DIAL, PORT_FLAG, n, " ", d.user, "@", d.host + tail);
    Assoc(Value(d), [d.quote], " " + Destination(d));
    ValueThen(DIAL, PORT_FLAG, n, " ", d.user, "@", d.host, tail);
  }

  lemma AllFromTheRight(a: string, b: string, c: string, d: string, e: string,
                        f: string, g: string, h: string, i: string)
    ensures a + b + c + d + e + f + g + h + i == a + (b + (c + (d + (e + (f + (g + (h + i)))))))
  {
    Assoc(a + b + c + d + e + f + g, h, i);
    Assoc(a + b + c + d + e + f, g, h + i);
    Assoc(a + b + c + d + e, f, g + (h + i));
    Assoc(a + b + c + d, e, f + (g + (h + i)));
    Assoc(a + b + c, d, e + (f + (g + (h + i))));
    Assoc(a + b, c, d + (e + (f + (g + (h + i)))));
    Assoc(a, b, c + (d + (e + (f + (g + (h + i))))));
  }

  lemma ValueThen(c: string, d: string, e: string, f: string, g: string, h: string, i: string, tail: string)
    ensures c + (d + (e + (f + (g + (h + i))))) + tail == c + (d + (e + (f + (g + (h + (i + tail))))))
  {
    Assoc(c, d + (e + (f + (g + (h + i)))), tail);
    Assoc(d, e + (f + (g + (h + i))), tail);
    Assoc(e, f + (g + (h + i)), tail);
    Assoc(f, g + (h + i), tail);
    Assoc(g, h + i, tail);
    Assoc(h, i, tail);
  }

  /** The quoted value is skipped. */
  lemma ValueIsSkipped(d: Described)
    requires Valid(d)
    ensures SkipQuoted([d.quote] + (Value(d) + [d.quote] + (" " + Destination(d)))) == " " + Destination(d)
  {
    var inner := Value(d) + [d.quote] + (" " + Destination(d));
    var rest := [d.quote] + inner;
    assert rest[1..] == inner;
    ValueHasNoQuote(d);
    FindInConcat(Value(d), " " + Destination(d), d.quote);
    assert rest[|Value(d)| + 2..] == " " + Destination(d);
  }

  lemma FieldsOfWord(w: string)
    requires w != "" && NoSpace(w)
    ensures Fields(w) == [w] && Fields(" " + w) == [w]
  {
    assert w[0] in w;
    assert forall i :: 0 <= i < |w| ==> w[i] in w;
    assert WordLength(w) == |w|;
    assert w[|w|..] == [] && w[..|w|] == w;
    assert (" " + w)[1..] == w && (" " + w)[0] == ' ';
  }

  lemma DestinationIsOneField(d: Described)
    requires Valid(d)
    ensures Fields(" " + Destination(d)) == [Destination(d)]
  {
    FieldsOfWord(Destination(d));
  }

  lemma TargetIsFound(d: Described)
    requires Valid(d)
    ensures HostPart(Destination(d)) == d.target
  {
    if d.outerUser.Some? {
      FindLastInConcat(d.outerUser.value, d.target, '@');
    }
  }

  /** Scanning one field: a flag is skipped, anything else is the target. */
  lemma OneFieldScan(f: string)
    requires HostPart(f) != ""
    ensures Scan([f], 0, 22) == if Dashed(f) then ("", 22) else (HostPart(f), 22)
  {
  }

  lemma DestinationIsScanned(d: Described)
    requires Valid(d)
    ensures OuterTarget([d.quote] + (Value(d) + [d.quote] + (" " + Destination(d))))
         == if Dashed(Destination(d)) then ("", 22) else (d.target, 22)
  {
    ValueIsSkipped(d);
    DestinationIsOneField(d);
    TargetIsFound(d);
    OneFieldScan(Destination(d));
  }

  lemma DropMark(options: string, rest: string)
    ensures (options + (MARK + rest))[|options|..] == MARK + rest
    ensures (options + (MARK + rest))[|options| + |MARK|..] == rest
  {
    Assoc(options, MARK, rest);
    DropFront(options, MARK + rest);
    DropFront(options + MARK, rest);
  }

  lemma ParseAt(s: string, start: nat, user: string, host: string)
    requires Index(s, MARK, 0) == start && start + |MARK| <= |s|
    requires var cmd := s[start..]; var at := Find(cmd, '@');
             at < |cmd| && cmd[WordStart(cmd, at)..at] == user && cmd[at + 1..FirstStop(cmd, at + 1)] == host
    ensures Parse(s)
         == Assemble(Trim(user), Trim(host), ProxyPort(s[start..]), OuterTarget(s[start + |MARK|..]))
  {
  }

  /** The parser's result from its parts. */
  lemma ParseFromParts(options: string, rest: string, user: string, host: string)
    requires Index(options, MARK, 0) == -1
    requires var cmd := MARK + rest; var at := Find(cmd, '@');
             at < |cmd| && cmd[WordStart(cmd, at)..at] == user && cmd[at + 1..FirstStop(cmd, at + 1)] == host
    ensures Parse(options + (MARK + rest))
         == Assemble(Trim(user), Trim(host), ProxyPort(MARK + rest), OuterTarget(rest))
  {
    MarkIsFound(options, rest);
    DropMark(options, rest);
    ParseAt(options + (MARK + rest), |options|, user, host);
  }

  /** Parsing the documented form gives back what it says, except that a port beyond
      64 bits becomes 443 and a destination that looks like a flag is lost. */
  lemma ParseOfRendered(d: Described)
    requires Valid(d)
    ensures Parse(Rendered(d)) == Ok(ProxyInfo(d.user, d.host, if d.port <= MAX_INT then d.port else 443,
                                               if Dashed(Destination(d)) then "localhost" else d.target, 22))
  {
    CommandAtValue(d);
    PortIsFound(d);
    UserAndHostAreFound(d);
    DestinationIsScanned(d);
    PlainDoesNotStop(d.user);
    PlainDoesNotStop(d.host);
    ParseFromParts(d.options, [d.quote] + (Value(d) + [d.quote] + (" " + Destination(d))), d.user, d.host);
  }

  /** So the parser undoes the documented format exactly when the port fits and the
      destination does not start with '-' (or is the fallback anyway). */
  lemma RoundTripIff(d: Described)
    requires Valid(d)
    ensures Parse(Rendered(d)) == Ok(ProxyInfo(d.user, d.host, d.port, d.target, 22))
       <==> d.port <= MAX_INT && (!Dashed(Destination(d)) || d.target == "localhost")
  {
    ParseOfRendered(d);
  }

  // ----------------------------------------------------------- whatever is parsed

  lemma {:induction false} ScanIsWellFormed(fields: seq<string>, i: nat, port: int)
    requires port > 0
    ensures Scan(fields, i, port).1 > 0 && '@' !in Scan(fields, i, port).0
    decreases |fields| - i
  {
    if i < |fields| {
      var f := fields[i];
      if IsFlag(f, 'p') {
        ScanIsWellFormed(fields, i + 2, if i + 1 < |fields| then PortOr(fields[i + 1], port) else port);
      } else if TakesValue(f) {
        ScanIsWellFormed(fields, i + 2, port);
      } else if Dashed(f) || HostPart(f) == "" {
        ScanIsWellFormed(fields, i + 1, port);
      }
    }
  }

  predicate WordOnly(w: string) {
    w != "" && forall c :: c in w ==> !Stops(c)
  }

  /** Any string that is accepted yields a user without '@' and a host, both non-empty
      and free of blanks and quotes, and a target without '@' with a positive port. */
  lemma ParsedIsWellFormed(s: string)
    requires Parse(s).Ok?
    ensures var info := Parse(s).info;
            && WordOnly(info.user) && '@' !in info.user && WordOnly(info.host)
            && info.target != "" && '@' !in info.target && info.targetPort > 0
  {
    var start := Index(s, MARK, 0);
    var cmd := s[start..];
    var at := Find(cmd, '@');
    UserIsWord(cmd, at);
    HostIsWord(cmd, at + 1);
    ScanIsWellFormed(Fields(SkipQuoted(s[start + |MARK|..])), 0, 22);
    LocalhostHasNoAt();
  }

  lemma LocalhostHasNoAt()
    ensures '@' !in "localhost"
  {
  }

  lemma UserIsWord(cmd: string, at: nat)
    requires at == Find(cmd, '@')
    ensures forall c :: c in Trim(cmd[WordStart(cmd, at)..at]) ==> !Stops(c) && c != '@'
  {
    var word := cmd[WordStart(cmd, at)..at];
    assert forall i :: 0 <= i < |word| ==> word[i] == cmd[WordStart(cmd, at) + i];
  }

  lemma HostIsWord(cmd: string, from: nat)
    requires from <= |cmd|
    ensures forall c :: c in Trim(cmd[from..FirstStop(cmd, from)]) ==> !Stops(c)
  {
    var word := cmd[from..FirstStop(cmd, from)];
    assert forall i :: 0 <= i < |word| ==> word[i] == cmd[from + i];
  }

  // --------------------------------------------------- the options of the outer command

  /** What may stand before the destination: a port, a flag with a value, a flag of its
      own, or a user without a host. */
  datatype OuterOption =
    | Port(number: nat)
    | Valued(flag: string, value: string)
    | Bare(flag: string)
    | NoHost(user: string)

  predicate IsOption(o: OuterOption) {
    match o
    case Port(_) => true
    case Valued(flag, _) => flag in {"-i", "-o", "-l", "-F", "-J", "-W"}
    case Bare(flag) => flag != "" && flag[0] == '-' && flag !in {"-p", "-i", "-o", "-l", "-F", "-J", "-W"}
    case NoHost(user) => user == "" || user[0] != '-'
  }

  function FieldsOf(o: OuterOption): seq<string> {
    match o
    case Port(number) => ["-p", Numeral(number, 10)]
    case Valued(flag, value) => [flag, value]
    case Bare(flag) => [flag]
    case NoHost(user) => [user + "@"]
  }

  function OptionFields(options: seq<OuterOption>): seq<string> {
    if options == [] then [] else FieldsOf(options[0]) + OptionFields(options[1..])
  }

  /** The last port that is positive and fits. */
  function LastPort(options: seq<OuterOption>, port: int): int {
    if options == [] then port
    else
      var o := options[0];
      LastPort(options[1..], if o.Port? && 0 < o.number <= MAX_INT then o.number else port)
  }

  lemma {:induction false} ScanShift(before: seq<string>, fields: seq<string>, i: nat, port: int)
    ensures Scan(before + fields, |before| + i, port) == Scan(fields, i, port)
    decreases |fields| - i
  {
    if i < |fields| {
      assert (before + fields)[|before| + i] == fields[i];
      ScanShift(before, fields, i + 1, port);
      ScanShift(before, fields, i + 2, port);
      if i + 1 < |fields| {
        assert (before + fields)[|before| + i + 1] == fields[i + 1];
        ScanShift(before, fields, i + 2, PortOr(fields[i + 1], port));
      }
    }
  }

  lemma FlagIs(f: string, c: char)
    ensures IsFlag(f, c) <==> f == ['-', c]
  {
  }

  lemma KnownFlags(f: string)
    ensures IsFlag(f, 'p') <==> f == "-p"
    ensures TakesValue(f) <==> f in {"-i", "-o", "-l", "-F", "-J", "-W"}
  {
    FlagIs(f, 'p');
    FlagIs(f, 'i');
    FlagIs(f, 'o');
    FlagIs(f, 'l');
    FlagIs(f, 'F');
    FlagIs(f, 'J');
    FlagIs(f, 'W');
  }

  lemma FieldIsSkipped(f: string, rest: seq<string>, port: int)
    requires !IsFlag(f, 'p') && !TakesValue(f) && (Dashed(f) || HostPart(f) == "")
    ensures Scan([f] + rest, 0, port) == Scan(rest, 0, port)
  {
    assert ([f] + rest)[0] == f;
    ScanShift([f], rest, 0, port);
  }

  lemma ValueIsSkippedToo(flag: string, value: string, rest: seq<string>, port: int)
    requires !IsFlag(flag, 'p') && TakesValue(flag)
    ensures Scan([flag, value] + rest, 0, port) == Scan(rest, 0, port)
  {
    assert ([flag, value] + rest)[0] == flag;
    ScanShift([flag, value], rest, 0, port);
  }

  lemma PortIsRead(number: nat, rest: seq<string>, port: int)
    ensures Scan(["-p", Numeral(number, 10)] + rest, 0, port)
         == Scan(rest, 0, if 0 < number <= MAX_INT then number else port)
  {
    var own := ["-p", Numeral(number, 10)];
    KnownFlags("-p");
    AtoiOfNumeral(number);
    assert (own + rest)[0] == "-p" && (own + rest)[1] == Numeral(number, 10);
    ScanShift(own, rest, 0, PortOr(Numeral(number, 10), port));
  }

  lemma OptionIsSkipped(o: OuterOption, rest: seq<string>, port: int)
    requires IsOption(o)
    ensures Scan(FieldsOf(o) + rest, 0, port)
         == Scan(rest, 0, if o.Port? && 0 < o.number <= MAX_INT then o.number else port)
  {
    match o
    case Port(number) => PortIsRead(number, rest, port);
    case Valued(flag, value) =>
      KnownFlags(flag);
      assert flag != "-p" by { assert flag[1] != 'p'; }
      ValueIsSkippedToo(flag, value, rest, port);
    case Bare(flag) =>
      KnownFlags(flag);
      FieldIsSkipped(flag, rest, port);
    case NoHost(user) =>
      NoHostIsEmpty(user);
      FieldIsSkipped(user + "@", rest, port);
  }

  lemma NoHostIsEmpty(user: string)
    requires user == "" || user[0] != '-'
    ensures HostPart(user + "@") == "" && !IsFlag(user + "@", 'p') && !TakesValue(user + "@")
  {
    assert user + "@" == user + ['@'] + [];
    FindLastInConcat(user, [], '@');
    assert (user + "@")[0] != '-';
  }

  lemma DestinationEndsScan(user: string, host: string, rest: seq<string>, port: int)
    requires host != "" && '@' !in host
    requires user == "" || user[|user| - 1] == '@'
    requires (user + host)[0] != '-'
    ensures Scan([user + host] + rest, 0, port) == (host, port)
  {
    var f := user + host;
    assert ([f] + rest)[0] == f;
    if user == "" {
      assert f == host;
    } else {
      assert f == user[..|user| - 1] + ['@'] + host;
      FindLastInConcat(user[..|user| - 1], host, '@');
    }
  }

  lemma RegroupFields(a: seq<string>, b: seq<string>, c: seq<string>)
    ensures (a + b) + c == a + (b + c)
  {
  }

  /** The outer command is read as ssh reads it: options are passed over with their
      values, the last port that is positive and fits counts, and the first word that
      is neither is the destination, without its user; what follows plays no part. */
  lemma {:induction false} OuterCommandIsRead(options: seq<OuterOption>, user: string, host: string,
                                              rest: seq<string>, port: int)
    requires forall k :: 0 <= k < |options| ==> IsOption(options[k])
    requires host != "" && '@' !in host
    requires user == "" || user[|user| - 1] == '@'
    requires (user + host)[0] != '-'
    ensures Scan(OptionFields(options) + ([user + host] + rest), 0, port) == (host, LastPort(options, port))
    decreases |options|
  {
    var tail := [user + host] + rest;
    if options == [] {
      assert OptionFields(options) + tail == tail;
      DestinationEndsScan(user, host, rest, port);
    } else {
      var o, others := options[0], OptionFields(options[1..]);
      RegroupFields(FieldsOf(o), others, tail);
      OptionIsSkipped(o, others + tail, port);
      OuterCommandIsRead(options[1..], user, host, rest,
                         if o.Port? && 0 < o.number <= MAX_INT then o.number else port);
    }
  }
}
