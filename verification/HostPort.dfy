/** Host and port parsing. A string_view is a seq<char> of bytes; beyond is the byte in
    memory right after the view given to trim_whitespace. Character classes are those of
    the "C" locale, and ulongMax is the largest unsigned long. */
module HostPort {
  import opened Options

  datatype Error = InvalidArgument | ResultOutOfRange

  datatype Result<T> = Ok(value: T) | Err(error: Error)

  datatype Endpoint = Endpoint(host: string, port: Option<nat>)

  const MAX_PORT := 65535

  predicate IsSpace(c: char) {
    c == ' ' || '\t' <= c <= '\r'
  }

  /** Space, tab, line feed, vertical tab, form feed and carriage return. */
  lemma SpacesAre(c: char)
    ensures IsSpace(c) <==> c as int in {32, 9, 10, 11, 12, 13}
  {
  }

  predicate IsDigit(c: char) {
    '0' <= c <= '9'
  }

  // ----- trim_whitespace -----

  /** The first byte from i on that is not whitespace, and the first one that is; the
      length if there is none. */
  function NextText(s: string, i: nat): (n: nat)
    requires i <= |s|
    ensures i <= n <= |s| && (forall k :: i <= k < n ==> IsSpace(s[k])) && (n < |s| ==> !IsSpace(s[n]))
    decreases |s| - i
  {
    if i == |s| || !IsSpace(s[i]) then i else NextText(s, i + 1)
  }

  function NextSpace(s: string, i: nat): (n: nat)
    requires i <= |s|
    ensures i <= n <= |s| && (forall k :: i <= k < n ==> !IsSpace(s[k])) && (n < |s| ==> IsSpace(s[n]))
    decreases |s| - i
  {
    if i == |s| || IsSpace(s[i]) then i else NextSpace(s, i + 1)
  }

  /** The view ends one byte too late. */
  predicate ReadsPastEnd(sv: string) {
    sv != "" && NextText(sv, 0) >= |sv| - 1
  }

  /** The view that trim_whitespace returns: from the first byte that is not whitespace up
      to and including the next whitespace byte, or to the end. */
  function Trim(sv: string, beyond: char): string {
    if sv == "" then ""
    else if ReadsPastEnd(sv) then [sv[|sv| - 1], beyond]
    else
      var f := NextText(sv, 0);
      var e := NextSpace(sv, f);
      sv[f..if e < |sv| then e + 1 else e]
  }

  lemma Slices(sv: string, beyond: char)
    ensures forall i, j :: 0 <= i <= j <= |sv| ==> (sv + [beyond])[i..j] == sv[i..j]
    ensures sv != "" ==> (sv + [beyond])[|sv| - 1..|sv| + 1] == [sv[|sv| - 1], beyond]
  {
  }

  /** The loop of the source; the view is [start, stop) of the bytes from the first of sv,
      empty when start == stop. */
  method TrimWhitespace(sv: string, ghost beyond: char) returns (start: nat, stop: nat)
    ensures start <= stop <= |sv| + 1
    ensures (sv + [beyond])[start..stop] == Trim(sv, beyond)
    ensures stop == |sv| + 1 <==> ReadsPastEnd(sv)
  {
    start := 0;
    var end := |sv|;
    var s := true;
    var i := 0;
    ghost var f := NextText(sv, 0);
    while i < |sv|
      invariant 0 <= i <= |sv|
      invariant s ==> i <= f && start == (if i == 0 then 0 else i - 1) && end == |sv|
      invariant !s ==> start == f < i <= NextSpace(sv, f) && end == (if i == f + 1 then |sv| else i - 1)
    {
      var c := sv[i];
      if s {
        start := i;
        if !IsSpace(c) {
          s := false;
        }
      } else {
        end := i;
        if IsSpace(c) {
          break;
        }
      }
      i := i + 1;
    }
    stop := if start < end then end + 1 else start;
    Slices(sv, beyond);
  }

  /** What trimming means: r is sv[i..j], and around it there is whitespace only. */
  ghost predicate StrippedAt(sv: string, r: string, i: nat, j: nat) {
    && i <= j <= |sv| && r == sv[i..j]
    && (forall k :: 0 <= k < i || j <= k < |sv| ==> IsSpace(sv[k]))
    && (i < j ==> !IsSpace(sv[i]) && !IsSpace(sv[j - 1]))
  }

  /** At least two bytes follow the leading whitespace, and none of them is whitespace. */
  predicate PlainText(sv: string) {
    NextText(sv, 0) + 1 < |sv| && NextSpace(sv, NextText(sv, 0)) == |sv|
  }

  lemma StripsNothingElse(sv: string, beyond: char, i: nat, j: nat)
    requires StrippedAt(sv, Trim(sv, beyond), i, j)
    ensures sv == "" || PlainText(sv)
  {
    var r := Trim(sv, beyond);
    if sv != "" && !ReadsPastEnd(sv) {
      assert r[|r| - 1] == sv[j - 1];
    }
  }

  /** trim_whitespace strips the whitespace around its argument exactly when that is empty
      or ends in plain text. */
  lemma TrimStrips(sv: string, beyond: char)
    ensures (exists i: nat, j: nat :: StrippedAt(sv, Trim(sv, beyond), i, j)) <==> sv == "" || PlainText(sv)
  {
    if sv == "" {
      assert StrippedAt(sv, Trim(sv, beyond), 0, 0);
    } else if PlainText(sv) {
      assert StrippedAt(sv, Trim(sv, beyond), NextText(sv, 0), |sv|);
    } else if i: nat, j: nat :| StrippedAt(sv, Trim(sv, beyond), i, j) {
      StripsNothingElse(sv, beyond, i, j);
      assert false;
    }
  }

  /** The byte past the end reaches the result exactly when at most one byte follows the
      leading whitespace. */
  lemma TrimReadsPastEnd(sv: string)
    ensures ReadsPastEnd(sv) <==> exists b, c :: Trim(sv, b) != Trim(sv, c)
  {
    if ReadsPastEnd(sv) {
      assert Trim(sv, 'a')[1] != Trim(sv, 'b')[1];
    }
  }

  /** After leading whitespace and text without any, one whitespace byte is kept, and nothing
      of what follows it. */
  lemma TrimKeepsOneSpace(blank: string, text: string, c: char, rest: string, beyond: char)
    requires Blank(blank) && Solid(text) && text != "" && IsSpace(c)
    ensures Trim(blank + (text + [c] + rest), beyond) == text + [c]
  {
    var sv := blank + (text + [c] + rest);
    NextTextIs(sv, 0, |blank|);
    var e := |blank| + |text|;
    assert sv[e] == c && sv[|blank|..e + 1] == text + [c];
    forall k | |blank| <= k < e
      ensures !IsSpace(sv[k])
    {
      assert sv[k] == text[k - |blank|];
    }
  }

  /** A single byte of text after the whitespace, or none, is followed by the byte past the
      end. */
  lemma TrimOverruns(blank: string, c: char, beyond: char)
    requires Blank(blank)
    ensures Trim(blank + [c], beyond) == [c, beyond]
  {
    var sv := blank + [c];
    if !IsSpace(c) {
      NextTextIs(sv, 0, |blank|);
    } else {
      NextTextIs(sv, 0, |sv|);
    }
  }

  // ----- parse_port -----

  predicate AllDigits(s: string) {
    forall k :: 0 <= k < |s| ==> IsDigit(s[k])
  }

  /** The number a decimal string stands for, as from_chars reads it. */
  function Decimal(s: string): nat
    requires AllDigits(s)
  {
    if s == "" then 0 else 10 * Decimal(s[..|s| - 1]) + (s[|s| - 1] - '0') as int
  }

  function PortOf(s: string, ulongMax: nat): Result<nat> {
    if s == "" || !AllDigits(s) || Decimal(s) > ulongMax then Err(InvalidArgument)
    else if Decimal(s) > MAX_PORT then Err(ResultOutOfRange)
    else Ok(Decimal(s))
  }

  method ParsePort(s: string, ulongMax: nat) returns (r: Result<nat>)
    ensures r == PortOf(s, ulongMax)
  {
    if s == "" {
      return Err(InvalidArgument);
    }
    for i := 0 to |s|
      invariant AllDigits(s[..i])
    {
      if !IsDigit(s[i]) {
        return Err(InvalidArgument);
      }
    }
    assert s[..|s|] == s;
    var value := Decimal(s);
    if value > ulongMax {
      return Err(InvalidArgument);
    }
    if value > MAX_PORT {
      return Err(ResultOutOfRange);
    }
    return Ok(value);
  }

  /** std::to_string of an unsigned number. */
  function Print(n: nat): (s: string)
    ensures s != "" && AllDigits(s) && (s[0] == '0' ==> s == "0")
  {
    var d := '0' + (n % 10) as char;
    if n < 10 then [d] else Print(n / 10) + [d]
  }

  lemma {:induction false} DecimalOfPrint(n: nat)
    ensures Decimal(Print(n)) == n
  {
    var s := Print(n);
    if n >= 10 {
      DecimalOfPrint(n / 10);
      assert s[..|s| - 1] == Print(n / 10);
    } else {
      assert s[..0] == "";
    }
  }

  lemma TenTimes(a: nat, d: nat)
    requires d < 10
    ensures (10 * a + d) / 10 == a && (10 * a + d) % 10 == d
  {
  }

  lemma PrintStep(a: nat, c: char)
    requires IsDigit(c)
    ensures var n := 10 * a + (c - '0') as int; Print(n) == if a == 0 then [c] else Print(a) + [c]
  {
    TenTimes(a, (c - '0') as int);
    assert '0' + ((c - '0') as int) as char == c;
  }

  lemma {:induction false} PrintOfDecimal(s: string)
    requires s != "" && AllDigits(s) && (s[0] == '0' ==> s == "0")
    ensures Print(Decimal(s)) == s
  {
    var t := s[..|s| - 1];
    PrintStep(Decimal(t), s[|s| - 1]);
    assert s == t + [s[|s| - 1]];
    if t != "" {
      PrintOfDecimal(t);
      DecimalPositive(t);
    } else {
      assert Decimal(t) == 0;
    }
  }

  lemma {:induction false} DecimalPositive(s: string)
    requires s != "" && AllDigits(s) && s[0] != '0'
    ensures Decimal(s) > 0
  {
    if |s| > 1 {
      DecimalPositive(s[..|s| - 1]);
    } else {
      assert s[..0] == "";
    }
  }

  lemma {:induction false} LeadingZeros(k: nat, s: string)
    requires AllDigits(s)
    ensures AllDigits(seq(k, _ => '0') + s) && Decimal(seq(k, _ => '0') + s) == Decimal(s)
    decreases |s|, k
  {
    var z := seq(k, _ => '0');
    if s != "" {
      LeadingZeros(k, s[..|s| - 1]);
      assert (z + s)[..|z + s| - 1] == z + s[..|s| - 1];
    } else if k > 0 {
      LeadingZeros(k - 1, "");
      assert (z + s)[..k - 1] == seq(k - 1, _ => '0') + "";
    } else {
      assert z + s == "";
    }
  }

  function Zeros(k: nat): string {
    seq(k, _ => '0')
  }

  lemma {:induction false} Canonical(s: string) returns (k: nat)
    requires s != "" && AllDigits(s)
    ensures k < |s| && s == Zeros(k) + s[k..] && (s[k] == '0' ==> s[k..] == "0")
  {
    if |s| == 1 || s[0] != '0' {
      k := 0;
    } else {
      var j := Canonical(s[1..]);
      k := j + 1;
      assert s[1..][j..] == s[k..];
      assert Zeros(k) == ['0'] + Zeros(j);
    }
  }

  /** s is n in decimal, with any leading zeros. */
  ghost predicate Numeral(s: string, n: nat) {
    exists k: nat :: s == Zeros(k) + Print(n)
  }

  lemma NumeralIs(s: string, n: nat)
    ensures Numeral(s, n) <==> s != "" && AllDigits(s) && Decimal(s) == n
  {
    if k: nat :| s == Zeros(k) + Print(n) {
      LeadingZeros(k, Print(n));
      DecimalOfPrint(n);
    }
    if s != "" && AllDigits(s) && Decimal(s) == n {
      var k := Canonical(s);
      LeadingZeros(k, s[k..]);
      PrintOfDecimal(s[k..]);
    }
  }

  /** parse_port accepts the decimal forms of the ports, with any leading zeros, and
      nothing else. */
  lemma PortsAccepted(s: string, p: nat, ulongMax: nat)
    requires MAX_PORT <= ulongMax
    ensures PortOf(s, ulongMax) == Ok(p) <==> p <= MAX_PORT && Numeral(s, p)
  {
    NumeralIs(s, p);
  }

  /** It says out of range for decimal numbers above the ports that an unsigned long can hold,
      and that the argument is invalid for everything else it refuses. */
  lemma PortsRefused(s: string, ulongMax: nat)
    requires MAX_PORT <= ulongMax
    ensures PortOf(s, ulongMax) == Err(ResultOutOfRange) <==> exists n: nat :: MAX_PORT < n <= ulongMax && Numeral(s, n)
    ensures PortOf(s, ulongMax) == Err(InvalidArgument) <==> forall n: nat :: Numeral(s, n) ==> n > ulongMax
  {
    if s != "" && AllDigits(s) {
      NumeralIs(s, Decimal(s));
    }
    forall n: nat | Numeral(s, n)
      ensures s != "" && AllDigits(s) && Decimal(s) == n
    {
      NumeralIs(s, n);
    }
  }

  // ----- parse_host_port -----

  /** The first c in s, or the length. */
  function Find(s: string, c: char): (n: nat)
    ensures n <= |s| && (forall k :: 0 <= k < n ==> s[k] != c) && (n < |s| ==> s[n] == c)
  {
    if s == "" || s[0] == c then 0 else 1 + Find(s[1..], c)
  }

  function Count(s: string, c: char): nat {
    if s == "" then 0 else (if s[0] == c then 1 else 0) + Count(s[1..], c)
  }

  function WithPort(host: string, port: Result<nat>): Result<Endpoint> {
    match port
    case Ok(p) => Ok(Endpoint(host, Some(p)))
    case Err(e) => Err(e)
  }

  function ParseBracketed(t: string, ulongMax: nat): Result<Endpoint>
    requires t != ""
  {
    var close := Find(t, ']');
    if close == |t| || close <= 1 then Err(InvalidArgument)
    else
      var host := t[1..close];
      if close + 1 == |t| then Ok(Endpoint(host, None))
      else if t[close + 1] != ':' then Err(InvalidArgument)
      else WithPort(host, PortOf(t[close + 2..], ulongMax))
  }

  function ParseColon(t: string, ulongMax: nat): Result<Endpoint> {
    var colon := Find(t, ':');
    if colon == |t| || t[..colon] == "" || t[colon + 1..] == "" then Err(InvalidArgument)
    else WithPort(t[..colon], PortOf(t[colon + 1..], ulongMax))
  }

  function ParseTrimmed(t: string, ulongMax: nat): Result<Endpoint> {
    if t == "" then Err(InvalidArgument)
    else if t[0] == '[' then ParseBracketed(t, ulongMax)
    else if Count(t, ':') == 1 then ParseColon(t, ulongMax)
    else Ok(Endpoint(t, None))
  }

  function ParseHostPort(input: string, beyond: char, ulongMax: nat): Result<Endpoint> {
    ParseTrimmed(Trim(input, beyond), ulongMax)
  }

  predicate Solid(s: string) {
    forall k :: 0 <= k < |s| ==> !IsSpace(s[k])
  }

  predicate Blank(s: string) {
    forall k :: 0 <= k < |s| ==> IsSpace(s[k])
  }

  lemma {:induction false} NextTextIs(s: string, i: nat, n: nat)
    requires i <= n <= |s| && (forall k :: i <= k < n ==> IsSpace(s[k])) && (n < |s| ==> !IsSpace(s[n]))
    ensures NextText(s, i) == n
    decreases n - i
  {
    if i == n {
    } else {
      NextTextIs(s, i + 1, n);
    }
  }

  /** Plain text of two bytes or more after any leading whitespace is what remains. */
  lemma TrimLeading(blank: string, text: string, beyond: char)
    requires Blank(blank) && Solid(text) && |text| >= 2
    ensures Trim(blank + text, beyond) == text
  {
    var sv := blank + text;
    NextTextIs(sv, 0, |blank|);
    assert sv[|blank|..] == text;
    forall k | |blank| <= k < |sv|
      ensures !IsSpace(sv[k])
    {
      assert sv[k] == text[k - |blank|];
    }
  }

  lemma {:induction false} FindIs(s: string, c: char, n: nat)
    requires n < |s| && s[n] == c && forall k :: 0 <= k < n ==> s[k] != c
    ensures Find(s, c) == n
  {
    if n == 0 {
    } else {
      FindIs(s[1..], c, n - 1);
    }
  }

  lemma {:induction false} CountConcat(a: string, b: string, c: char)
    ensures Count(a + b, c) == Count(a, c) + Count(b, c)
  {
    if a == "" {
      assert a + b == b;
    } else {
      CountConcat(a[1..], b, c);
      assert (a + b)[1..] == a[1..] + b;
    }
  }

  lemma {:induction false} CountNone(s: string, c: char)
    ensures Count(s, c) == 0 <==> c !in s
  {
    if s == "" {
    } else {
      CountNone(s[1..], c);
      assert s == [s[0]] + s[1..];
    }
  }

  /** A host that can be printed without brackets. */
  predicate PlainHost(host: string) {
    host != "" && Solid(host) && ':' !in host && host[0] != '['
  }

  predicate BracketHost(host: string) {
    host != "" && Solid(host) && ']' !in host
  }

  lemma PrintSolid(p: nat)
    ensures Solid(Print(p)) && ':' !in Print(p)
  {
    assert forall k :: 0 <= k < |Print(p)| ==> IsDigit(Print(p)[k]);
  }

  lemma PortRoundTrip(p: nat, ulongMax: nat)
    requires p <= MAX_PORT <= ulongMax
    ensures PortOf(Print(p), ulongMax) == Ok(p)
  {
    assert Print(p) == Zeros(0) + Print(p);
    PortsAccepted(Print(p), p, ulongMax);
  }

  lemma PlainRoundTrip(blank: string, host: string, p: nat, beyond: char, ulongMax: nat)
    requires Blank(blank) && PlainHost(host) && p <= MAX_PORT <= ulongMax
    ensures ParseHostPort(blank + (host + ":" + Print(p)), beyond, ulongMax) == Ok(Endpoint(host, Some(p)))
  {
    var t := host + ":" + Print(p);
    PrintSolid(p);
    TrimLeading(blank, t, beyond);
    PortRoundTrip(p, ulongMax);
    FindIs(t, ':', |host|);
    CountConcat(host + ":", Print(p), ':');
    CountConcat(host, ":", ':');
    CountNone(host, ':');
    CountNone(Print(p), ':');
    assert t[..|host|] == host && t[|host| + 1..] == Print(p);
  }

  lemma BracketRoundTrip(blank: string, host: string, p: nat, beyond: char, ulongMax: nat)
    requires Blank(blank) && BracketHost(host) && p <= MAX_PORT <= ulongMax
    ensures ParseHostPort(blank + ("[" + host + "]:" + Print(p)), beyond, ulongMax) == Ok(Endpoint(host, Some(p)))
  {
    var t := "[" + host + "]:" + Print(p);
    PrintSolid(p);
    TrimLeading(blank, t, beyond);
    PortRoundTrip(p, ulongMax);
    FindIs(t, ']', |host| + 1);
    assert t[1..|host| + 1] == host && t[|host| + 3..] == Print(p);
  }

  // ----- what it accepts -----

  /** The host of t is not in brackets, and there is no port: no colon, or more than one. */
  ghost predicate BareHost(t: string, host: string) {
    t == host && host != "" && host[0] != '[' &&
    (':' !in host || exists i, j :: 0 <= i < j < |host| && host[i] == host[j] == ':')
  }

  ghost predicate WithColon(t: string, host: string, port: string) {
    t == host + ":" + port && host != "" && host[0] != '[' && ':' !in host && ':' !in port
  }

  ghost predicate InBrackets(t: string, host: string, rest: string) {
    t == "[" + host + "]" + rest && host != "" && ']' !in host
  }

  /** The written forms of an endpoint. */
  ghost predicate Denotes(t: string, r: Endpoint) {
    match r.port
    case None => BareHost(t, r.host) || InBrackets(t, r.host, "")
    case Some(p) => p <= MAX_PORT && exists port: string :: Numeral(port, p) && HostAndPort(t, r.host, port)
  }

  ghost predicate HostAndPort(t: string, host: string, port: string) {
    WithColon(t, host, port) || InBrackets(t, host, ":" + port)
  }

  /** And the texts refused because of a number that is no port. */
  ghost predicate TooLarge(t: string, ulongMax: nat) {
    exists host: string, port: string, n: nat ::
      MAX_PORT < n <= ulongMax && Numeral(port, n) && HostAndPort(t, host, port)
  }

  lemma {:induction false} CountTwo(s: string, c: char)
    ensures Count(s, c) >= 2 <==> exists i, j :: 0 <= i < j < |s| && s[i] == s[j] == c
  {
    if s == "" {
    } else {
      var t := s[1..];
      CountTwo(t, c);
      CountNone(t, c);
      if i, j :| 0 <= i < j < |s| && s[i] == s[j] == c {
        assert s[j] == t[j - 1];
        if i > 0 {
          assert s[i] == t[i - 1];
        }
      }
      if i, j :| 0 <= i < j < |t| && t[i] == t[j] == c {
        assert s[i + 1] == s[j + 1] == c;
      }
      if s[0] == c && c in t {
        var j :| 0 <= j < |t| && t[j] == c;
        assert s[0] == s[j + 1] == c;
      }
    }
  }

  lemma BareHostIs(t: string, host: string)
    ensures BareHost(t, host) <==> t == host && t != "" && t[0] != '[' && Count(t, ':') != 1
  {
    CountNone(t, ':');
    CountTwo(t, ':');
  }

  lemma ColonSplits(t: string, host: string, port: string)
    requires WithColon(t, host, port)
    ensures t != "" && t[0] != '[' && Count(t, ':') == 1 && Find(t, ':') == |host| < |t|
    ensures host == t[..|host|] && port == t[|host| + 1..]
  {
    FindIs(t, ':', |host|);
    CountConcat(host + ":", port, ':');
    CountConcat(host, ":", ':');
    CountNone(host, ':');
    CountNone(port, ':');
  }

  lemma ColonJoins(t: string, n: nat)
    requires t != "" && t[0] != '[' && Count(t, ':') == 1 && n == Find(t, ':') && 0 < n < |t|
    ensures WithColon(t, t[..n], t[n + 1..])
  {
    var host, port := t[..n], t[n + 1..];
    assert t == host + ":" + port;
    CountConcat(host + ":", port, ':');
    CountConcat(host, ":", ':');
    CountNone(host, ':');
    CountNone(port, ':');
  }

  lemma BracketsClose(t: string, host: string, rest: string)
    requires InBrackets(t, host, rest)
    ensures t != "" && t[0] == '[' && Find(t, ']') == |host| + 1 < |t|
    ensures host == t[1..|host| + 1] && rest == t[|host| + 2..]
  {
    FindIs(t, ']', |host| + 1);
  }

  lemma BracketsOpen(t: string, n: nat)
    requires t != "" && t[0] == '[' && n == Find(t, ']') && 1 < n < |t|
    ensures InBrackets(t, t[1..n], t[n + 1..])
  {
    assert t == "[" + t[1..n] + "]" + t[n + 1..];
  }

  /** Where host and port are in a text that has both. */
  lemma HostAndPortIs(t: string, host: string, port: string)
    ensures HostAndPort(t, host, port) <==>
      && t != ""
      && if t[0] == '[' then
           var n := Find(t, ']'); 1 < n < |t| - 1 && t[n + 1] == ':' && host == t[1..n] && port == t[n + 2..]
         else
           Count(t, ':') == 1 && var n := Find(t, ':'); 0 < n < |t| && host == t[..n] && port == t[n + 1..]
  {
    if WithColon(t, host, port) {
      ColonSplits(t, host, port);
    }
    if InBrackets(t, host, ":" + port) {
      BracketsClose(t, host, ":" + port);
      assert t[|host| + 2..][1..] == port;
    }
    if t != "" {
      HasHostAndPort(t);
    }
  }

  lemma PortInBrackets(t: string, n: nat)
    requires t != "" && t[0] == '[' && n == Find(t, ']') && 1 < n < |t| - 1 && t[n + 1] == ':'
    ensures InBrackets(t, t[1..n], ":" + t[n + 2..])
  {
    BracketsOpen(t, n);
    assert t[n + 1..] == ":" + t[n + 2..];
  }

  lemma HasHostAndPort(t: string)
    requires t != ""
    ensures t[0] == '[' ==> var n := Find(t, ']');
      1 < n < |t| - 1 && t[n + 1] == ':' ==> InBrackets(t, t[1..n], ":" + t[n + 2..])
    ensures t[0] != '[' && Count(t, ':') == 1 ==> var n := Find(t, ':'); 0 < n < |t| ==> WithColon(t, t[..n], t[n + 1..])
  {
    if t[0] == '[' {
      var n := Find(t, ']');
      if 1 < n < |t| - 1 && t[n + 1] == ':' {
        PortInBrackets(t, n);
      }
    } else if Count(t, ':') == 1 && 0 < Find(t, ':') < |t| {
      ColonJoins(t, Find(t, ':'));
    }
  }

  lemma InBracketsAlone(t: string, host: string)
    ensures InBrackets(t, host, "") <==>
      t != "" && t[0] == '[' && var n := Find(t, ']'); 1 < n == |t| - 1 && host == t[1..n]
  {
    if InBrackets(t, host, "") {
      BracketsClose(t, host, "");
    } else if t != "" && t[0] == '[' {
      var n := Find(t, ']');
      if 1 < n == |t| - 1 && host == t[1..n] {
        BracketsOpen(t, n);
      }
    }
  }

  lemma OneSplit(t: string, host: string, port: string, h: string, s: string)
    requires HostAndPort(t, host, port) && HostAndPort(t, h, s)
    ensures h == host && s == port
  {
    HostAndPortIs(t, host, port);
    HostAndPortIs(t, h, s);
  }

  lemma NeedsPort(t: string, host: string, port: string, r: Endpoint)
    requires HostAndPort(t, host, port) && Denotes(t, r)
    ensures r.host == host && r.port.Some? && r.port.value <= MAX_PORT && Numeral(port, r.port.value)
  {
    if r.port == None {
      HostAndPortIs(t, host, port);
      BareHostIs(t, r.host);
      InBracketsAlone(t, r.host);
      assert false;
    } else {
      var s: string :| Numeral(s, r.port.value) && HostAndPort(t, r.host, s);
      OneSplit(t, host, port, r.host, s);
    }
  }

  lemma LargeIs(t: string, host: string, port: string, ulongMax: nat)
    requires MAX_PORT <= ulongMax && HostAndPort(t, host, port)
    ensures TooLarge(t, ulongMax) <==> PortOf(port, ulongMax) == Err(ResultOutOfRange)
  {
    PortsRefused(port, ulongMax);
    if h: string, s: string, n: nat :| MAX_PORT < n <= ulongMax && Numeral(s, n) && HostAndPort(t, h, s) {
      OneSplit(t, host, port, h, s);
    }
  }

  lemma PortGives(port: string, host: string, ulongMax: nat, r: Endpoint)
    requires MAX_PORT <= ulongMax
    ensures WithPort(host, PortOf(port, ulongMax)) == Ok(r) <==>
      r.host == host && r.port.Some? && r.port.value <= MAX_PORT && Numeral(port, r.port.value)
    ensures WithPort(host, PortOf(port, ulongMax)) == Err(ResultOutOfRange) <==>
      PortOf(port, ulongMax) == Err(ResultOutOfRange)
  {
    if r.port.Some? {
      PortsAccepted(port, r.port.value, ulongMax);
    }
  }

  lemma WithPortIs(t: string, host: string, port: string, ulongMax: nat, r: Endpoint)
    requires MAX_PORT <= ulongMax && HostAndPort(t, host, port)
    ensures ParseTrimmed(t, ulongMax) == Ok(r) <==> Denotes(t, r)
    ensures ParseTrimmed(t, ulongMax) == Err(ResultOutOfRange) <==> TooLarge(t, ulongMax)
  {
    ParsesPort(t, host, port, ulongMax);
    PortGives(port, host, ulongMax, r);
    LargeIs(t, host, port, ulongMax);
    if Denotes(t, r) {
      NeedsPort(t, host, port, r);
    }
  }

  lemma ParsesPort(t: string, host: string, port: string, ulongMax: nat)
    requires MAX_PORT <= ulongMax && HostAndPort(t, host, port)
    ensures ParseTrimmed(t, ulongMax) == WithPort(host, PortOf(port, ulongMax))
  {
    HostAndPortIs(t, host, port);
  }

  /** A text that has no port in it. */
  lemma WithoutPortIs(t: string, ulongMax: nat, r: Endpoint)
    requires forall host: string, port: string :: !HostAndPort(t, host, port)
    ensures ParseTrimmed(t, ulongMax) == Ok(r) <==> Denotes(t, r)
    ensures ParseTrimmed(t, ulongMax) != Err(ResultOutOfRange) && !TooLarge(t, ulongMax)
  {
    BareHostIs(t, r.host);
    InBracketsAlone(t, r.host);
    if t != "" && t[0] == '[' {
      var n := Find(t, ']');
      if 1 < n < |t| - 1 {
        HostAndPortIs(t, t[1..n], t[n + 2..]);
      }
    } else if t != "" && Count(t, ':') == 1 {
      var n := Find(t, ':');
      if 0 < n < |t| {
        HostAndPortIs(t, t[..n], t[n + 1..]);
      }
    }
  }

  /** The parser accepts a text exactly if, trimmed, it is a written form of an endpoint, and
      gives that endpoint. It says out of range exactly if, trimmed, the text is a host with a
      number too large for a port; whatever else it refuses is an invalid argument. */
  lemma ParseIs(input: string, beyond: char, ulongMax: nat, r: Endpoint)
    requires MAX_PORT <= ulongMax
    ensures ParseHostPort(input, beyond, ulongMax) == Ok(r) <==> Denotes(Trim(input, beyond), r)
    ensures ParseHostPort(input, beyond, ulongMax) == Err(ResultOutOfRange) <==> TooLarge(Trim(input, beyond), ulongMax)
  {
    var t := Trim(input, beyond);
    if host: string, port: string :| HostAndPort(t, host, port) {
      WithPortIs(t, host, port, ulongMax, r);
    } else {
      WithoutPortIs(t, ulongMax, r);
    }
  }
}
