/**
 The payload strings the echo service and its client build, and parsers that
 recover what was put into them. Go's `%d` and Python's `{n}` render a
 non-negative integer in decimal without leading zeros; `NatToString` is that
 rendering.
 */
module Messages {
  import opened Streams

  predicate IsDigit(c: char) {
    '0' <= c <= '9'
  }

  predicate AllDigits(s: string) {
    forall i :: 0 <= i < |s| ==> IsDigit(s[i])
  }

  function DigitChar(d: nat): (c: char)
    requires d < 10
    ensures IsDigit(c)
    ensures c as int - '0' as int == d
  {
    (d + '0' as int) as char
  }

  function DigitValue(c: char): nat
    requires IsDigit(c)
  {
    c as int - '0' as int
  }

  /** Decimal rendering of `n`, most significant digit first. */
  function NatToString(n: nat): (s: string)
    ensures 1 <= |s|
    ensures AllDigits(s)
    ensures n < 10 ==> s == [DigitChar(n)]
    decreases n
  {
    if n < 10 then [DigitChar(n)] else NatToString(n / 10) + [DigitChar(n % 10)]
  }

  /** Decimal rendering of a possibly negative integer, as `%d` prints it. */
  function IntToString(i: int): (s: string)
    ensures i < 0 <==> (|s| > 0 && s[0] == '-')
  {
    if i < 0 then "-" + NatToString(-i) else NatToString(i)
  }

  /** The value of a string of decimal digits. */
  function ParseDecimal(s: string): nat
    requires AllDigits(s)
  {
    if |s| == 0 then 0 else ParseDecimal(s[..|s| - 1]) * 10 + DigitValue(s[|s| - 1])
  }

  /** Rendering then parsing gives the number back. */
  lemma {:induction false} ParseNatToString(n: nat)
    ensures ParseDecimal(NatToString(n)) == n
    decreases n
  {
    var s := NatToString(n);
    if n >= 10 {
      ParseNatToString(n / 10);
      assert s[..|s| - 1] == NatToString(n / 10);
      assert DigitValue(s[|s| - 1]) == n % 10;
    } else {
      assert s[..|s| - 1] == [];
    }
  }

  /** Distinct numbers render differently. */
  lemma NatToStringInjective(m: nat, n: nat)
    requires NatToString(m) == NatToString(n)
    ensures m == n
  {
    ParseNatToString(m);
    ParseNatToString(n);
  }

  /** `s` without the prefix `p`, if `s` starts with `p`. */
  function StripPrefix(p: string, s: string): (r: Option<string>)
    ensures r.Some? <==> p <= s
    ensures r.Some? ==> s == p + r.value
  {
    if p <= s then Some(s[|p|..]) else None
  }

  lemma StripPrefixOfConcat(p: string, m: string)
    ensures StripPrefix(p, p + m) == Some(m)
  {
    assert p <= p + m;
    assert (p + m)[|p|..] == m;
  }

  // ---------------------------------------------------------------------------
  // Lock-step echo: "Sync Echo: <msg>"

  const SyncPrefix: string := "Sync Echo: "

  function SyncEcho(m: string): string {
    SyncPrefix + m
  }

  function ParseSyncEcho(s: string): Option<string> {
    StripPrefix(SyncPrefix, s)
  }

  /** The lock-step reply carries exactly the request: parsing a string gives
      `m` if and only if the string is the reply to `m`. */
  lemma SyncEchoRoundTrip(s: string, m: string)
    ensures ParseSyncEcho(s) == Some(m) <==> s == SyncEcho(m)
  {
    if s == SyncEcho(m) {
      StripPrefixOfConcat(SyncPrefix, m);
    }
  }

  /** The lock-step replies to a sequence of requests, one each, in order. */
  function SyncEchoes(ms: seq<string>): (r: seq<string>)
    ensures |r| == |ms|
    ensures forall i :: 0 <= i < |ms| ==> r[i] == SyncEcho(ms[i])
  {
    seq(|ms|, i requires 0 <= i < |ms| => SyncEcho(ms[i]))
  }

  lemma SyncEchoesAppend(a: seq<string>, b: seq<string>)
    ensures SyncEchoes(a + b) == SyncEchoes(a) + SyncEchoes(b)
  {
  }

  // ---------------------------------------------------------------------------
  // Pipelined echo: "Async Echo (processed): <msg>"

  const AsyncPrefix: string := "Async Echo (processed): "

  function AsyncEcho(m: string): string {
    AsyncPrefix + m
  }

  function ParseAsyncEcho(s: string): Option<string> {
    StripPrefix(AsyncPrefix, s)
  }

  lemma AsyncEchoRoundTrip(s: string, m: string)
    ensures ParseAsyncEcho(s) == Some(m) <==> s == AsyncEcho(m)
  {
    if s == AsyncEcho(m) {
      StripPrefixOfConcat(AsyncPrefix, m);
    }
  }

  function AsyncEchoes(ms: seq<string>): (r: seq<string>)
    ensures |r| == |ms|
    ensures forall i :: 0 <= i < |ms| ==> r[i] == AsyncEcho(ms[i])
  {
    seq(|ms|, i requires 0 <= i < |ms| => AsyncEcho(ms[i]))
  }

  lemma AsyncEchoesAppend(a: seq<string>, b: seq<string>)
    ensures AsyncEchoes(a + b) == AsyncEchoes(a) + AsyncEchoes(b)
  {
  }

  /** Responses to a prefix of the requests form a prefix of the responses. */
  lemma AsyncEchoesPrefix(ms: seq<string>, k: nat)
    requires k <= |ms|
    ensures AsyncEchoes(ms[..k]) <= AsyncEchoes(ms)
  {
  }

  // ---------------------------------------------------------------------------
  // Fan-out echo: "Echo #<i>: <msg>"

  function FanOutEcho(i: nat, m: string): string {
    "Echo #" + NatToString(i) + ": " + m
  }

  /** The first `n` fan-out replies to `m`, tagged 1..n. */
  function FanOutEchoes(m: string, n: nat): (r: seq<string>)
    ensures |r| == n
    ensures forall j :: 0 <= j < n ==> r[j] == FanOutEcho(j + 1, m)
  {
    seq(n, j requires 0 <= j < n => FanOutEcho(j + 1, m))
  }

  /** The length of the leading run of decimal digits of `s`. */
  function DigitRun(s: string): (k: nat)
    ensures k <= |s|
    ensures AllDigits(s[..k])
    ensures k < |s| ==> !IsDigit(s[k])
  {
    if |s| > 0 && IsDigit(s[0]) then
      var k := 1 + DigitRun(s[1..]);
      assert s[..k] == [s[0]] + s[1..][..k - 1];
      k
    else 0
  }

  lemma {:induction false} DigitRunOfDigits(d: string, t: string)
    requires AllDigits(d)
    requires |t| > 0 && !IsDigit(t[0])
    ensures DigitRun(d + t) == |d|
    decreases |d|
  {
    if |d| > 0 {
      assert (d + t)[1..] == d[1..] + t;
      DigitRunOfDigits(d[1..], t);
    } else {
      assert d + t == t;
    }
  }

  /** Splits `"<digits>: <msg>"` into the number and the message. */
  function ParseTagged(t: string): Option<(nat, string)> {
    var k := DigitRun(t);
    if 0 < k && ": " <= t[k..] then Some((ParseDecimal(t[..k]), t[k + 2..])) else None
  }

  /** Recovers the tag and the request from a fan-out reply. */
  function ParseFanOutEcho(s: string): Option<(nat, string)> {
    match StripPrefix("Echo #", s)
    case None => None
    case Some(t) => ParseTagged(t)
  }

  /** The tag's digits, then `": "`, then the request, split back apart. */
  lemma ParseTaggedOf(d: string, m: string)
    requires 0 < |d| && AllDigits(d)
    ensures ParseTagged(d + (": " + m)) == Some((ParseDecimal(d), m))
  {
    var t := d + (": " + m);
    DigitRunOfDigits(d, ": " + m);
    assert t[..|d|] == d;
    assert t[|d|..] == ": " + m;
    assert t[|d| + 2..] == (": " + m)[2..];
  }

  /** Every fan-out reply names its tag and its request. */
  lemma FanOutEchoRoundTrip(i: nat, m: string)
    ensures ParseFanOutEcho(FanOutEcho(i, m)) == Some((i, m))
  {
    var d := NatToString(i);
    var t := d + (": " + m);
    assert FanOutEcho(i, m) == "Echo #" + t;
    StripPrefixOfConcat("Echo #", t);
    ParseTaggedOf(d, m);
    ParseNatToString(i);
  }

  /** Distinct tags or distinct requests give distinct fan-out replies. */
  lemma FanOutEchoInjective(i: nat, m: string, j: nat, n: string)
    requires FanOutEcho(i, m) == FanOutEcho(j, n)
    ensures i == j && m == n
  {
    FanOutEchoRoundTrip(i, m);
    FanOutEchoRoundTrip(j, n);
  }

  // ---------------------------------------------------------------------------
  // Client payloads

  /** The `k`-th client-stream message of client `id`. */
  function ClientMessage(id: int, k: nat): string {
    ClientPrefix(id) + NatToString(k)
  }

  /** What every client-stream message of client `id` starts with. */
  function ClientPrefix(id: int): string {
    "Hello from client-" + IntToString(id) + " message-"
  }

  /** The message number of a client-stream message of client `id`. */
  function ParseClientMessage(id: int, s: string): Option<nat> {
    match StripPrefix(ClientPrefix(id), s)
    case None => None
    case Some(t) => if |t| > 0 && AllDigits(t) then Some(ParseDecimal(t)) else None
  }

  /** Every client-stream message names its number. */
  lemma ClientMessageRoundTrip(id: int, k: nat)
    ensures ParseClientMessage(id, ClientMessage(id, k)) == Some(k)
  {
    StripPrefixOfConcat(ClientPrefix(id), NatToString(k));
    ParseNatToString(k);
  }

  /** Messages of one client with different numbers differ, so the three
      messages the client-stream driver sends are pairwise distinct. */
  lemma ClientMessagesDistinct(id: int, j: nat, k: nat)
    requires j != k
    ensures ClientMessage(id, j) != ClientMessage(id, k)
  {
    ClientMessageRoundTrip(id, j);
    ClientMessageRoundTrip(id, k);
  }

  /** The first `n` client-stream messages of client `id`, numbered 1..n. */
  function ClientMessages(id: int, n: nat): (r: seq<string>)
    ensures |r| == n
    ensures forall j :: 0 <= j < n ==> r[j] == ClientMessage(id, j + 1)
  {
    seq(n, j requires 0 <= j < n => ClientMessage(id, j + 1))
  }

  /** The single request of the server-stream driver. */
  function ServerStreamRequest(id: int): string {
    "Hello from client-" + IntToString(id) + " for server stream"
  }
}
