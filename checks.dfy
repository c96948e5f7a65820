/**
 * The five probes of the diagnostics tool and the records they return.
 *
 * Every probe hands its work to a collaborator (the resolver, a socket, an
 * HTTP client, a TLS handshake, the `ping` program) and turns what that
 * collaborator produced into a record. The collaborator's effect is an
 * input here: an `Outcome` that is either its data or the message of the
 * exception it raised, plus the elapsed milliseconds the probe measured.
 * Each record reports `ok`, echoes the target it was given, and carries an
 * error message exactly when the probe caught an exception.
 */
module Checks {
  import opened Wrappers
  import opened Text
  import opened StringOrder

  /** What a collaborator call produced: its data, or `str(e)` of the exception it raised. */
  datatype Outcome<+T> = Success(value: T) | Failure(message: string)

  /** A collaborator's outcome together with the time the probe measured around it. */
  datatype Probed<+T> = Probed(outcome: Outcome<T>, ms: real)

  datatype DnsResult = DnsResult(ok: bool, hostname: string, ips: seq<string>, error: Option<string>, ms: real)

  datatype TcpResult = TcpResult(ok: bool, host: string, port: int, ms: real, error: Option<string>)

  datatype HttpResult = HttpResult(ok: bool, url: string, status: Option<int>, ms: real, error: Option<string>)

  datatype TlsResult = TlsResult(
    ok: bool, host: string, port: int, notAfter: Option<string>, daysLeft: Option<int>,
    ms: real, error: Option<string>)

  datatype PingResult = PingResult(
    ok: bool, host: string, transmitted: int, received: int, lossPct: real,
    avgMs: Option<real>, ms: real, error: Option<string>)

  // ---------------------------------------------------------------- DNS, TCP, HTTP

  /**
   * `dns_lookup`: `resolved` holds the address of every record the resolver
   * returned (duplicates included, in its order). On success the record lists
   * each distinct address once, in ascending order; on failure no address.
   */
  function DnsLookup(hostname: string, resolved: Probed<seq<string>>): (r: DnsResult)
    ensures r.hostname == hostname && r.ms == resolved.ms
    ensures r.ok <==> resolved.outcome.Success?
    ensures r.ok <==> r.error.None?
    ensures r.ok ==> StrictlySorted(r.ips) && forall a :: a in r.ips <==> a in resolved.outcome.value
    ensures !r.ok ==> r.ips == [] && r.error == Some(resolved.outcome.message)
  {
    match resolved.outcome
    case Success(addresses) => DnsResult(true, hostname, SortedSet(addresses), None, resolved.ms)
    case Failure(e) => DnsResult(false, hostname, [], Some(e), resolved.ms)
  }

  /** The address list does not depend on the order or repetition of the resolver's records. */
  lemma DnsLookupDeterministic(hostname: string, a: seq<string>, b: seq<string>, ms: real)
    requires forall x :: x in a <==> x in b
    ensures DnsLookup(hostname, Probed(Success(a), ms)) == DnsLookup(hostname, Probed(Success(b), ms))
  {
    SortedSetDependsOnElements(a, b);
  }

  /** `tcp_connect`: `ok` exactly when the connection opened within the timeout. */
  function TcpConnect(host: string, port: int, connected: Probed<()>): (r: TcpResult)
    ensures r.host == host && r.port == port && r.ms == connected.ms
    ensures r.ok <==> connected.outcome.Success?
    ensures r.error == if r.ok then None else Some(connected.outcome.message)
  {
    match connected.outcome
    case Success(_) => TcpResult(true, host, port, connected.ms, None)
    case Failure(e) => TcpResult(false, host, port, connected.ms, Some(e))
  }

  /**
   * `http_check`: `response` is the status code of the answer, or the
   * exception the request raised. `ok` means only that the request completed
   * without raising: `urlopen` raises for error statuses and for a redirect
   * it does not follow (a 304, say), and reading a `Content-Length` header
   * that is not a number raises too; all of these end up as `Failure`.
   */
  function HttpCheck(url: string, response: Probed<int>): (r: HttpResult)
    ensures r.url == url && r.ms == response.ms
    ensures r.ok <==> response.outcome.Success?
    ensures r.ok ==> r.status == Some(response.outcome.value) && r.error == None
    ensures !r.ok ==> r.status == None && r.error == Some(response.outcome.message)
  {
    match response.outcome
    case Success(status) => HttpResult(true, url, Some(status), response.ms, None)
    case Failure(e) => HttpResult(false, url, None, response.ms, Some(e))
  }

  // ---------------------------------------------------------------- TLS

  /** The certificate as `getpeercert()` returns it, reduced to its text-valued fields. */
  type Cert = map<string, string>

  /** What parsing `notAfter` yields: the ISO-8601 instant and the whole days left from now. */
  datatype Expiry = Expiry(iso: string, days: int)

  const NoNotAfter := "no notAfter"

  /** `cert.get("notAfter")` is present and non-empty. */
  predicate HasNotAfter(cert: Cert) {
    "notAfter" in cert && cert["notAfter"] != ""
  }

  /**
   * `tls_expiry`: `cert` is the handshake's certificate or its exception;
   * `expiry` parses a `notAfter` text against the clock (`strptime` and the
   * subtraction from now), or fails with the message of its `ValueError`.
   * A certificate without `notAfter` fails with "no notAfter".
   */
  function TlsExpiry(host: string, port: int, cert: Probed<Cert>, expiry: string -> Outcome<Expiry>): (r: TlsResult)
    ensures r.host == host && r.port == port && r.ms == cert.ms
    ensures r.ok <==> r.error.None?
    ensures r.ok <==> r.notAfter.Some?
    ensures r.ok <==> r.daysLeft.Some?
    ensures r.ok <==> cert.outcome.Success? && HasNotAfter(cert.outcome.value)
                      && expiry(cert.outcome.value["notAfter"]).Success?
    ensures r.ok ==> var e := expiry(cert.outcome.value["notAfter"]).value;
                     r.notAfter == Some(e.iso) && r.daysLeft == Some(e.days)
    ensures cert.outcome.Failure? ==> r.error == Some(cert.outcome.message)
    ensures cert.outcome.Success? && !HasNotAfter(cert.outcome.value) ==> r.error == Some(NoNotAfter)
    ensures cert.outcome.Success? && HasNotAfter(cert.outcome.value)
            && expiry(cert.outcome.value["notAfter"]).Failure? ==>
              r.error == Some(expiry(cert.outcome.value["notAfter"]).message)
  {
    match cert.outcome
    case Failure(e) => TlsResult(false, host, port, None, None, cert.ms, Some(e))
    case Success(c) =>
      if !HasNotAfter(c) then TlsResult(false, host, port, None, None, cert.ms, Some(NoNotAfter))
      else
        match expiry(c["notAfter"])
        case Failure(e) => TlsResult(false, host, port, None, None, cert.ms, Some(e))
        case Success(x) => TlsResult(true, host, port, Some(x.iso), Some(x.days), cert.ms, None)
  }

  // ---------------------------------------------------------------- ping

  /**
   * `_ping_cmd`: the argument vector of the `ping` program. Windows takes the
   * count after `-n` and the timeout in milliseconds after `-w`; other systems
   * take `-c` and the timeout in seconds after `-W`. The host comes last.
   */
  function PingCommand(host: string, count: int, timeoutS: int, windows: bool): seq<string> {
    if windows then ["ping", "-n", IntToString(count), "-w", IntToString(timeoutS * 1000), host]
    else ["ping", "-c", IntToString(count), "-W", IntToString(timeoutS), host]
  }

  /**
   * The command is six words: `ping`, the count flag and the count as
   * `int()` reads it back, the timeout flag and the timeout in the unit of
   * the system, then the host.
   */
  lemma PingCommandShape(host: string, count: int, timeoutS: int, windows: bool)
    ensures var cmd := PingCommand(host, count, timeoutS, windows);
      |cmd| == 6 && cmd[0] == "ping" && cmd[5] == host
      && cmd[1] == (if windows then "-n" else "-c")
      && cmd[3] == (if windows then "-w" else "-W")
      && ParseInt(cmd[2]) == Some(count)
      && ParseInt(cmd[4]) == Some(if windows then timeoutS * 1000 else timeoutS)
  {
    var timeout := if windows then timeoutS * 1000 else timeoutS;
    var cmd := PingCommand(host, count, timeoutS, windows);
    assert cmd[2] == IntToString(count) && cmd[4] == IntToString(timeout);
    IntToStringRoundTrip(count);
    IntToStringRoundTrip(timeout);
  }

  /** What running `ping` yields: its exit code and its two output streams. */
  datatype PingRun = PingRun(code: int, stdout: string, stderr: string)

  /** The text the parser reads: standard output, a newline, standard error. */
  function PingOutput(run: PingRun): (out: string)
    ensures |out| == |run.stdout| + 1 + |run.stderr|
    ensures out[..|run.stdout|] == run.stdout && out[|run.stdout|] == '\n'
    ensures out[|run.stdout| + 1..] == run.stderr
  {
    run.stdout + "\n" + run.stderr
  }

  /** Windows' summary: the output mentions both "Received =" and "Lost =". */
  predicate WindowsStyle(out: string) {
    Contains(out, "Received =") && Contains(out, "Lost =")
  }

  /** The other systems' summary: the output mentions "packets transmitted" and "received". */
  predicate PosixStyle(out: string) {
    Contains(out, "packets transmitted") && Contains(out, "received")
  }

  /** `int(...)`, with 0 where it raises. */
  function IntOrZero(s: string): int {
    match ParseInt(s)
    case None => 0
    case Some(n) => n
  }

  /**
   * Received count of a Windows summary: the digits of the first
   * comma-separated piece mentioning "Received" in the text between the first
   * and the second "Packets:"; 0 when any of these is missing.
   */
  function WindowsReceived(out: string): (n: int)
    ensures n >= 0
  {
    var parts := Split(out, "Packets:");
    if |parts| < 2 then 0 else ReceivedInPackets(parts[1])
  }

  /** The digits of the first comma-separated piece of `part` that mentions "Received", as `int`. */
  function ReceivedInPackets(part: string): (n: int)
    ensures n >= 0
  {
    var segs := Split(part, ",");
    match FirstContaining(segs, "Received")
    case None => 0
    case Some(k) =>
      ParseIntOfDigits(Digits(segs[k]));
      IntOrZero(Digits(segs[k]))
  }

  /** The words of a summary line before its first "received". */
  function WordsBeforeReceived(line: string): seq<string> {
    SplitWhitespace(Split(line, "received")[0])
  }

  /**
   * The received count of a summary line: the last word before the first
   * "received", as `int`, or 0 where that raises. On the line BSD and macOS
   * print, `"<t> packets transmitted, <m> packets received, ..."`, that word
   * is "packets" and the count read is 0 (`BsdLineReadsZero`).
   */
  function ReceivedOnLine(line: string): int {
    var words := WordsBeforeReceived(line);
    if words == [] then 0 else IntOrZero(words[|words| - 1])
  }

  /**
   * The evidently intended reading of a summary line: the last word before
   * the first "received", or the word before it when that last word is
   * "packets". This reads both the Linux line and the BSD and macOS line.
   * The parser does not use it; it reads as `ReceivedOnLine` does.
   */
  function ReceivedOnLineCorrected(line: string): int {
    var words := WordsBeforeReceived(line);
    if words == [] then 0
    else if words[|words| - 1] == "packets" && |words| >= 2 then IntOrZero(words[|words| - 2])
    else IntOrZero(words[|words| - 1])
  }

  /** Received count of the other systems: read on the first line mentioning "packets transmitted". */
  function PosixReceived(out: string): int {
    var lines := SplitLines(out);
    match FirstContaining(lines, "packets transmitted")
    case None => 0
    case Some(k) => ReceivedOnLine(lines[k])
  }

  /** The received count the parser reports for the output `out`. */
  function ParsedReceived(out: string): (n: int)
    ensures WindowsStyle(out) ==> n >= 0
    ensures !WindowsStyle(out) && !PosixStyle(out) ==> n == 0
  {
    if WindowsStyle(out) then WindowsReceived(out)
    else if PosixStyle(out) then PosixReceived(out)
    else 0
  }

  /** `PosixReceived` with the intended reading of the summary line. */
  function PosixReceivedCorrected(out: string): int {
    var lines := SplitLines(out);
    match FirstContaining(lines, "packets transmitted")
    case None => 0
    case Some(k) => ReceivedOnLineCorrected(lines[k])
  }

  /** `ParsedReceived` with the intended reading of the summary line. */
  function ParsedReceivedCorrected(out: string): int {
    if WindowsStyle(out) then WindowsReceived(out)
    else if PosixStyle(out) then PosixReceivedCorrected(out)
    else 0
  }

  /**
   * Average of a Windows summary: the digits of the text after the first
   * "Average =" (up to the next one), read as a number; none without digits.
   */
  function WindowsAvg(out: string): Option<real> {
    var parts := Split(out, "Average =");
    if !Contains(out, "Average") || |parts| < 2 then None
    else
      var num := Digits(Strip(parts[1]));
      if num == [] then None else ParseDecimal(num)
  }

  /** Average on a summary line: the second "/"-separated field of the text after the first "=". */
  function AvgOnLine(line: string): Option<real> {
    var byEq := Split(line, "=");
    if |byEq| < 2 then None
    else
      var bySlash := Split(byEq[1], "/");
      if |bySlash| < 2 then None else ParseDecimal(Strip(bySlash[1]))
  }

  /** Average of the other systems: read on the first line mentioning "min/avg/max". */
  function PosixAvg(out: string): Option<real> {
    var lines := SplitLines(out);
    if !Contains(out, "min/avg/max") then None
    else
      match FirstContaining(lines, "min/avg/max")
      case None => None
      case Some(k) => AvgOnLine(lines[k])
  }

  /** The average round trip the parser reports for the output `out`. */
  function ParsedAvg(out: string): Option<real> {
    if WindowsStyle(out) then WindowsAvg(out) else PosixAvg(out)
  }

  /**
   * The parser of `ping`'s output. Each extraction that would raise in the
   * source (a missing piece, an `int` or `float` of a malformed text) leaves
   * the count at 0 or the average absent.
   */
  method ParsePingOutput(out: string, count: int) returns (transmitted: int, received: int, avg: Option<real>)
    ensures transmitted == count
    ensures received == ParsedReceived(out)
    ensures avg == ParsedAvg(out)
  {
    transmitted := count;
    if Contains(out, "Received =") && Contains(out, "Lost =") {
      received, avg := ParseWindowsSummary(out);
    } else {
      received, avg := ParsePosixSummary(out);
    }
  }

  /** The Windows branch of the parser. */
  method ParseWindowsSummary(out: string) returns (received: int, avg: Option<real>)
    ensures received == WindowsReceived(out)
    ensures avg == WindowsAvg(out)
  {
    received := 0;
    avg := None;
    var parts := Split(out, "Packets:");
    if |parts| >= 2 {
      var segs := Split(parts[1], ",");
      var k := FirstContaining(segs, "Received");
      if k.Some? {
        received := IntOrZero(Digits(segs[k.value]));
      }
    }
    if Contains(out, "Average") {
      var pieces := Split(out, "Average =");
      if |pieces| >= 2 {
        var num := Digits(Strip(pieces[1]));
        avg := if num != [] then ParseDecimal(num) else None;
      }
    }
  }

  /** The branch of the parser for the other systems' output. */
  method ParsePosixSummary(out: string) returns (received: int, avg: Option<real>)
    ensures received == (if PosixStyle(out) then PosixReceived(out) else 0)
    ensures avg == PosixAvg(out)
  {
    received := ReadPosixReceived(out);
    avg := ReadPosixAvg(out);
  }

  /** The received count of the other systems' summary line, 0 where it is missing. */
  method ReadPosixReceived(out: string) returns (received: int)
    ensures received == (if PosixStyle(out) then PosixReceived(out) else 0)
  {
    received := 0;
    if Contains(out, "packets transmitted") && Contains(out, "received") {
      var lines := SplitLines(out);
      var k := FirstContaining(lines, "packets transmitted");
      if k.Some? {
        var words := SplitWhitespace(Split(lines[k.value], "received")[0]);
        if words != [] {
          received := IntOrZero(words[|words| - 1]);
        }
      }
    }
  }

  /** The average of the other systems' "min/avg/max" line, absent where it is missing. */
  method ReadPosixAvg(out: string) returns (avg: Option<real>)
    ensures avg == PosixAvg(out)
  {
    avg := None;
    if Contains(out, "min/avg/max") {
      var lines := SplitLines(out);
      var k := FirstContaining(lines, "min/avg/max");
      if k.Some? {
        var byEq := Split(lines[k.value], "=");
        if |byEq| >= 2 {
          var bySlash := Split(byEq[1], "/");
          if |bySlash| >= 2 {
            avg := ParseDecimal(Strip(bySlash[1]));
          }
        }
      }
    }
  }

  /** `loss_pct`: the share of lost packets, in percent; 0 when nothing was sent. */
  function LossPct(transmitted: int, received: int): (loss: real)
    ensures transmitted == 0 ==> loss == 0.0
    ensures transmitted != 0 ==> loss * (transmitted as real) == ((transmitted - received) as real) * 100.0
  {
    if transmitted == 0 then 0.0
    else
      var t, r := transmitted as real, received as real;
      assert (1.0 - r / t) * 100.0 * t == (t - r) * 100.0 by {
        assert (r / t) * t == r;
      }
      (1.0 - r / t) * 100.0
  }

  /** With no more received than sent, the loss lies between 0 and 100 percent. */
  lemma LossBounds(transmitted: int, received: int)
    requires 0 <= received <= transmitted && transmitted > 0
    ensures 0.0 <= LossPct(transmitted, received) <= 100.0
    ensures LossPct(transmitted, received) == 0.0 <==> received == transmitted
    ensures LossPct(transmitted, received) == 100.0 <==> received == 0
  {
    var t := transmitted as real;
    var loss := LossPct(transmitted, received);
    assert loss * t == ((transmitted - received) as real) * 100.0;
    assert loss * t <= t * 100.0;
  }

  /**
   * The record `ping` returns for `count` requested packets, given the run's
   * outcome: parsed counts when the program ran, and a fixed failure record
   * (nothing received, 100% loss) when running it raised.
   */
  function PingRecord(host: string, count: int, run: Probed<PingRun>): (r: PingResult)
    ensures r.host == host && r.transmitted == count && r.ms == run.ms
  {
    match run.outcome
    case Failure(e) => PingResult(false, host, count, 0, 100.0, None, run.ms, Some(e))
    case Success(p) =>
      var out := PingOutput(p);
      var received := ParsedReceived(out);
      var ok := p.code == 0 && received > 0;
      PingResult(ok, host, count, received, LossPct(count, received), ParsedAvg(out), run.ms, None)
  }

  /**
   * A run that raised gives nothing received, 100% loss and its message; a
   * run that completed gives the counts and average parsed from its output
   * (stdout, a newline, stderr), and is ok when it exited with 0 and at
   * least one reply came back.
   */
  lemma PingRecordOutcome(host: string, count: int, run: Probed<PingRun>)
    ensures var r := PingRecord(host, count, run);
      (run.outcome.Failure? ==>
        !r.ok && r.received == 0 && r.lossPct == 100.0 && r.avgMs == None
        && r.error == Some(run.outcome.message))
      && (run.outcome.Success? ==>
        var out := PingOutput(run.outcome.value);
        r.received == ParsedReceived(out) && r.avgMs == ParsedAvg(out)
        && r.lossPct == LossPct(count, r.received) && r.error == None
        && (r.ok <==> run.outcome.value.code == 0 && r.received > 0))
  {
  }

  /**
   * `ping`: runs the command `_ping_cmd` builds through `exec` (the
   * subprocess, with the time the probe measured) and parses what it printed.
   */
  method Ping(host: string, count: int, timeoutS: int, windows: bool, exec: seq<string> -> Probed<PingRun>)
    returns (r: PingResult)
    ensures r == PingRecord(host, count, exec(PingCommand(host, count, timeoutS, windows)))
  {
    var cmd := PingCommand(host, count, timeoutS, windows);
    var run := exec(cmd);
    match run.outcome {
      case Failure(e) =>
        r := PingResult(false, host, count, 0, 100.0, None, run.ms, Some(e));
      case Success(p) =>
        var out := PingOutput(p);
        var transmitted, received, avg := ParsePingOutput(out, count);
        var lossPct := LossPct(transmitted, received);
        var ok := p.code == 0 && received > 0;
        r := PingResult(ok, host, transmitted, received, lossPct, avg, run.ms, None);
    }
  }

  // ---------------------------------------------------------------- parser on real summaries

  /**
   * On the Linux summary line `"<t> packets transmitted, <m> received, ..."`
   * the received count read is `m`, by the source's reading and by the
   * corrected one.
   */
  lemma ReceivedOnSummaryLine(sent: nat, got: nat, rest: string)
    ensures ReceivedOnLineCorrected(NatToString(sent) + " packets transmitted, " + NatToString(got) + " received" + rest) == got
    ensures ReceivedOnLine(NatToString(sent) + " packets transmitted, " + NatToString(got) + " received" + rest) == got
    ensures Contains(NatToString(sent) + " packets transmitted, " + NatToString(got) + " received" + rest, "received")
  {
    var t, d := NatToString(sent), NatToString(got);
    var x := t + " packets transmitted,";
    TransmittedPrefix(t, d, rest);
    ReceivedAfterWord(x, d, rest);
    ParseIntOfNat(got);
  }

  /** The text before the received count is a digit string and a label free of "v". */
  lemma TransmittedPrefix(t: string, d: string, rest: string)
    requires AllDigits(t)
    ensures t + " packets transmitted, " + d + " received" + rest
         == t + " packets transmitted," + " " + d + " received" + rest
    ensures 'v' !in t + " packets transmitted,"
  {
    assert " packets transmitted, " == " packets transmitted," + " ";
    SeqAssoc(t, " packets transmitted,", " ");
    NonDigitNotIn('v', t);
  }

  /** A digit string cannot hold a character that is not a digit. */
  lemma NonDigitNotIn(c: char, d: string)
    requires AllDigits(d) && !IsDigit(c)
    ensures c !in d
  {
  }

  /** A digit string holds no whitespace. */
  lemma DigitsNoSpace(d: string)
    requires AllDigits(d)
    ensures NoSpace(d)
  {
    forall j | 0 <= j < |d| ensures !IsSpace(d[j]) {
      SpaceIsNoDigit(d[j]);
    }
  }

  /**
   * In `x + " " + w + " received" + rest`, with no "v" in `x` or in the word
   * `w`, the words before the first "received" are those of `x`, then `w`.
   */
  lemma WordsBeforeReceivedOf(x: string, w: string, rest: string)
    requires 'v' !in x && 'v' !in w && w != [] && NoSpace(w)
    ensures WordsBeforeReceived(x + " " + w + " received" + rest) == SplitWhitespace(x) + [w]
    ensures Contains(x + " " + w + " received" + rest, "received")
  {
    var a := x + " " + w + " ";
    SpaceReceived();
    Reassociate(x + " " + w, " ", "received", rest);
    assert 'v' !in a;
    TextBeforeReceived(a, rest);
    SplitWhitespaceLastWord(x, w);
  }

  lemma SpaceReceived()
    ensures " received" == " " + "received"
  {
  }

  lemma Reassociate<T>(p: seq<T>, q: seq<T>, r: seq<T>, s: seq<T>)
    ensures p + (q + r) + s == (p + q) + r + s
  {
  }

  /** Text without "v" is all that comes before the first "received" after it. */
  lemma TextBeforeReceived(a: string, rest: string)
    requires 'v' !in a && a != [] && a[|a| - 1] == ' '
    ensures Split(a + "received" + rest, "received")[0] == a
    ensures Contains(a + "received" + rest, "received")
  {
    var line := a + "received" + rest;
    MissingCharNotContained(a, "received", 'v');
    IndexOfAfter(a, "received", rest);
    SplitFirst(line, "received", |a|);
    assert line[..|a|] == a;
    InfixContains(a, "received", rest);
  }

  /**
   * In `x + " " + d + " received" + rest`, with no "v" in `x`, the word
   * before the first "received" is the digit string `d`, and both readings
   * give its value.
   */
  lemma ReceivedAfterWord(x: string, d: string, rest: string)
    requires 'v' !in x && d != [] && AllDigits(d)
    ensures ReceivedOnLineCorrected(x + " " + d + " received" + rest) == IntOrZero(d)
    ensures ReceivedOnLine(x + " " + d + " received" + rest) == IntOrZero(d)
    ensures Contains(x + " " + d + " received" + rest, "received")
  {
    NonDigitNotIn('v', d);
    DigitsNoSpace(d);
    WordsBeforeReceivedOf(x, d, rest);
    assert d != "packets" by {
      assert IsDigit(d[0]);
    }
  }

  /**
   * The words before "received" on the BSD and macOS summary line
   * `"<t> packets transmitted, <m> packets received, ..."` end with `m`
   * and then "packets".
   */
  lemma BsdSummaryWords(sent: nat, got: nat, rest: string)
    ensures var line := NatToString(sent) + " packets transmitted, " + NatToString(got) + " packets received" + rest;
      var words := WordsBeforeReceived(line);
      |words| >= 2 && words[|words| - 1] == "packets" && words[|words| - 2] == NatToString(got)
      && Contains(line, "received")
  {
    var t, d := NatToString(sent), NatToString(got);
    BsdRegroup(t, d, rest);
    TransmittedPrefix(t, d, rest);
    CountThenPackets(t + " packets transmitted,", d, rest);
  }

  /** The words before "received" in `p + " " + d + " packets received" + rest` end with `d`, "packets". */
  lemma CountThenPackets(p: string, d: string, rest: string)
    requires 'v' !in p && d != [] && AllDigits(d)
    ensures var words := WordsBeforeReceived(p + " " + d + " " + "packets" + " received" + rest);
      |words| >= 2 && words[|words| - 1] == "packets" && words[|words| - 2] == d
    ensures Contains(p + " " + d + " " + "packets" + " received" + rest, "received")
  {
    NonDigitNotIn('v', d);
    assert NoSpace("packets");
    WordsBeforeReceivedOf(p + " " + d, "packets", rest);
    DigitsNoSpace(d);
    SplitWhitespaceTrailingSpace(p + " " + d);
    SplitWhitespaceLastWord(p, d);
  }

  lemma BsdRegroup(t: string, d: string, rest: string)
    ensures t + " packets transmitted, " + d + " packets received" + rest
         == t + " packets transmitted," + " " + d + " " + "packets" + " received" + rest
  {
    assert " packets transmitted, " == " packets transmitted," + " ";
    assert " packets received" == " " + "packets" + " received";
  }

  /**
   * Corrected reading: on the BSD and macOS summary line the received count
   * read is `m`.
   */
  lemma ReceivedOnBsdSummaryLine(sent: nat, got: nat, rest: string)
    ensures ReceivedOnLineCorrected(NatToString(sent) + " packets transmitted, " + NatToString(got) + " packets received" + rest) == got
    ensures Contains(NatToString(sent) + " packets transmitted, " + NatToString(got) + " packets received" + rest, "received")
  {
    BsdSummaryWords(sent, got, rest);
    ParseIntOfNat(got);
  }

  /**
   * The source as written: on the BSD and macOS summary line the word before
   * "received" is "packets", so the count read is 0 whatever `m` is.
   */
  lemma BsdLineReadsZero(sent: nat, got: nat, rest: string)
    ensures ReceivedOnLine(NatToString(sent) + " packets transmitted, " + NatToString(got) + " packets received" + rest) == 0
  {
    BsdSummaryWords(sent, got, rest);
    assert Trimmed("packets");
    StripUnchanged("packets");
    assert !IsDigit("packets"[0]);
  }

  /**
   * When the first line of the output that mentions "packets transmitted" is
   * such a summary line (and the output is not a Windows summary), the parser
   * reports `m` packets received.
   */
  lemma PosixReceivedOfSummary(out: string, k: nat, sent: nat, got: nat, rest: string)
    requires !WindowsStyle(out)
    requires FirstContaining(SplitLines(out), "packets transmitted") == Some(k)
    requires SplitLines(out)[k] == NatToString(sent) + " packets transmitted, " + NatToString(got) + " received" + rest
    ensures ParsedReceived(out) == got
  {
    ReceivedOnSummaryLine(sent, got, rest);
    LineInText(out, k, "packets transmitted");
    LineInText(out, k, "received");
  }

  /**
   * When the first line of the output that mentions "packets transmitted" is
   * the BSD and macOS summary line (and the output is not a Windows summary),
   * the parser reports 0 packets received, whatever `m` is.
   */
  lemma BsdSummaryParsedZero(out: string, k: nat, sent: nat, got: nat, rest: string)
    requires !WindowsStyle(out)
    requires FirstContaining(SplitLines(out), "packets transmitted") == Some(k)
    requires SplitLines(out)[k] == NatToString(sent) + " packets transmitted, " + NatToString(got) + " packets received" + rest
    ensures ParsedReceived(out) == 0
  {
    BsdLineReadsZero(sent, got, rest);
    BsdSummaryWords(sent, got, rest);
    LineInText(out, k, "packets transmitted");
    LineInText(out, k, "received");
  }

  /**
   * So a ping that exited with 0 and printed the BSD and macOS summary line
   * is recorded as failed: nothing received and 100% loss.
   */
  lemma BsdPingFails(host: string, count: int, run: Probed<PingRun>, k: nat, sent: nat, got: nat, rest: string)
    requires run.outcome.Success? && count > 0
    requires !WindowsStyle(PingOutput(run.outcome.value))
    requires FirstContaining(SplitLines(PingOutput(run.outcome.value)), "packets transmitted") == Some(k)
    requires SplitLines(PingOutput(run.outcome.value))[k]
      == NatToString(sent) + " packets transmitted, " + NatToString(got) + " packets received" + rest
    ensures var r := PingRecord(host, count, run);
      !r.ok && r.received == 0 && r.lossPct == 100.0
  {
    BsdSummaryParsedZero(PingOutput(run.outcome.value), k, sent, got, rest);
    PingRecordOutcome(host, count, run);
    LossBounds(count, 0);
  }

  /**
   * With the intended reading, the same output reports `m` packets
   * received.
   */
  lemma PosixReceivedOfBsdSummary(out: string, k: nat, sent: nat, got: nat, rest: string)
    requires !WindowsStyle(out)
    requires FirstContaining(SplitLines(out), "packets transmitted") == Some(k)
    requires SplitLines(out)[k] == NatToString(sent) + " packets transmitted, " + NatToString(got) + " packets received" + rest
    ensures ParsedReceivedCorrected(out) == got
  {
    ReceivedOnBsdSummaryLine(sent, got, rest);
    LineInText(out, k, "packets transmitted");
    LineInText(out, k, "received");
  }

  /**
   * On a Windows summary whose text after "Packets:" reads
   * `" Sent = <t>, Received = <m>,..."`, the parser reports `m` packets received.
   */
  lemma WindowsReceivedOfSummary(out: string, sent: nat, got: nat, rest: string)
    requires WindowsStyle(out)
    requires |Split(out, "Packets:")| >= 2
    requires Split(out, "Packets:")[1] == " Sent = " + NatToString(sent) + ", Received = " + NatToString(got) + "," + rest
    ensures ParsedReceived(out) == got
  {
    ReceivedInSentReceived(sent, got, rest);
  }

  /** The "Packets:" text `" Sent = <t>, Received = <m>,..."` yields `m`. */
  lemma ReceivedInSentReceived(sent: nat, got: nat, rest: string)
    ensures ReceivedInPackets(" Sent = " + NatToString(sent) + ", Received = " + NatToString(got) + "," + rest) == got
  {
    var t, m := NatToString(sent), NatToString(got);
    var part := " Sent = " + t + ", Received = " + m + "," + rest;
    SentReceivedPieces(t, m, rest);
    var segs := Split(part, ",");
    assert FirstContaining(segs, "Received") == Some(1);
    ReceivedLabelDigits(m);
    ParseIntOfNat(got);
  }

  /** The first two comma-separated pieces are the "Sent" and the "Received" one. */
  lemma SentReceivedPieces(t: string, m: string, rest: string)
    requires AllDigits(t) && AllDigits(m)
    ensures var segs := Split(" Sent = " + t + ", Received = " + m + "," + rest, ",");
      |segs| >= 2 && segs[1] == " Received = " + m
      && !Contains(segs[0], "Received") && Contains(segs[1], "Received")
  {
    var a := " Sent = " + t;
    var b := " Received = " + m;
    SentReceivedRegroup(t, m, rest);
    LabelsCommaFree(t, m);
    TwoSegments(a, b, rest);
    MissingCharNotContained(a, "Received", 'R');
    ReceivedLabelContains(m);
  }

  lemma SentReceivedRegroup(t: string, m: string, rest: string)
    ensures " Sent = " + t + ", Received = " + m + "," + rest
         == (" Sent = " + t) + "," + (" Received = " + m) + "," + rest
  {
    assert ", Received = " == "," + " Received = ";
    Regroup(" Sent = " + t, ",", " Received = ", m, ",", rest);
  }

  lemma LabelsCommaFree(t: string, m: string)
    requires AllDigits(t) && AllDigits(m)
    ensures ',' !in " Sent = " + t && ',' !in " Received = " + m && 'R' !in " Sent = " + t
  {
    NonDigitNotIn(',', t);
    NonDigitNotIn(',', m);
    NonDigitNotIn('R', t);
  }

  lemma ReceivedLabelContains(m: string)
    ensures Contains(" Received = " + m, "Received")
  {
    var b := " Received = " + m;
    assert " Received = " == " " + "Received" + " = ";
    InfixContains(" ", "Received", " = ");
    assert b[0..|" Received = "|] == " Received = ";
    ContainsInSlice(b, 0, |" Received = "|, "Received");
  }

  lemma ReceivedLabelDigits(m: string)
    requires AllDigits(m)
    ensures Digits(" Received = " + m) == m
  {
    DigitsAfterLabel(" Received = ", m);
  }

  lemma Regroup(a: string, c: string, l: string, m: string, e: string, r: string)
    ensures a + (c + l) + m + e + r == a + c + (l + m) + e + r
  {
  }

  /** Two comma-free pieces before the rest: the split starts with those two pieces. */
  lemma TwoSegments(a: string, b: string, rest: string)
    requires ',' !in a && ',' !in b
    ensures Split(a + "," + b + "," + rest, ",") == [a, b] + Split(rest, ",")
  {
    assert a + "," + b + "," + rest == a + [','] + (b + [','] + rest);
    SplitAfter(a, ',', b + [','] + rest);
    SplitAfter(b, ',', rest);
  }

  /** The digits of a digit-free label followed by a digit string are that digit string. */
  lemma DigitsAfterLabel(lbl: string, m: string)
    requires forall i :: 0 <= i < |lbl| ==> !IsDigit(lbl[i])
    requires AllDigits(m)
    ensures Digits(lbl + m) == m
  {
    DigitsAppend(lbl, m);
    DigitsOfNone(lbl);
    DigitsOfDigits(m);
  }

  /**
   * On a Windows summary whose text after "Average =" reads `" <v>"` followed
   * by a digit-free tail (such as `"ms"` and the line end), the parser reports
   * an average of `v`.
   */
  lemma WindowsAvgOfSummary(out: string, v: nat, tail: string)
    requires WindowsStyle(out)
    requires |Split(out, "Average =")| >= 2
    requires Split(out, "Average =")[1] == " " + NatToString(v) + tail
    requires forall i :: 0 <= i < |tail| ==> !IsDigit(tail[i])
    ensures ParsedAvg(out) == Some(v as real)
  {
    var n := NatToString(v);
    var piece := Split(out, "Average =")[1];
    SplitContainsPrefix(out, "Average =", "Average");
    DigitsOfStrip(piece);
    DigitsAfterLabel(" ", n);
    DigitsAppend(" " + n, tail);
    DigitsOfNone(tail);
    assert Digits(Strip(piece)) == n;
    ParseDecimalOfDigits(n);
  }

  /** Text split into two or more pieces at `sep` contains `sep`, and so any prefix of `sep`. */
  lemma SplitContainsPrefix(s: string, sep: string, pre: string)
    requires sep != [] && |Split(s, sep)| >= 2 && pre <= sep
    ensures Contains(s, pre)
  {
    IndexOfSpec(s, sep);
    var i := IndexOf(s, sep).value;
    assert s[i..i + |pre|] == s[i..i + |sep|][..|pre|];
    OccursContains(s, pre, i);
  }

  /**
   * On a summary line `"<label>= <min>/<avg>/<rest>"` with no other "=" and
   * neither field holding a "/", as in `"rtt min/avg/max/mdev = 1.2/3.4/5.6/0.7 ms"`,
   * the average read is `float(<avg>)`.
   */
  lemma AvgOnSummaryLine(head: string, lo: string, avgText: string, rest: string)
    requires '=' !in head && '=' !in lo && '=' !in avgText && '=' !in rest
    requires '/' !in lo && '/' !in avgText
    ensures AvgOnLine(head + "= " + lo + "/" + avgText + "/" + rest) == ParseDecimal(Strip(avgText))
  {
    var line := head + "= " + lo + "/" + avgText + "/" + rest;
    var after := " " + lo + "/" + avgText + "/" + rest;
    assert line == head + "=" + after by {
      assert "= " == "=" + " ";
      RegroupAfterEq(head, "=", " ", lo, "/", avgText, rest);
    }
    assert '=' !in after;
    EqFields(head, after);
    SlashFields(lo, avgText, rest);
    AvgOnLineOf(line, after, avgText);
  }

  lemma EqFields(head: string, after: string)
    requires '=' !in head && '=' !in after
    ensures Split(head + "=" + after, "=") == [head, after]
  {
    SplitAfter(head, '=', after);
    MissingCharNotContained(after, "=", '=');
    SplitWithout(after, "=");
  }

  lemma SlashFields(lo: string, avgText: string, rest: string)
    requires '/' !in lo && '/' !in avgText
    ensures var f := Split(" " + lo + "/" + avgText + "/" + rest, "/"); |f| >= 2 && f[1] == avgText
  {
    var after := " " + lo + "/" + avgText + "/" + rest;
    assert after == (" " + lo) + "/" + (avgText + "/" + rest);
    assert '/' !in " " + lo;
    SplitAfter(" " + lo, '/', avgText + "/" + rest);
    SplitAfter(avgText, '/', rest);
  }

  /** `AvgOnLine` reads the second "/"-field of the text after the first "=". */
  lemma AvgOnLineOf(line: string, after: string, avgText: string)
    requires |Split(line, "=")| >= 2 && Split(line, "=")[1] == after
    requires |Split(after, "/")| >= 2 && Split(after, "/")[1] == avgText
    ensures AvgOnLine(line) == ParseDecimal(Strip(avgText))
  {
  }

  /** When the first line mentioning "min/avg/max" is such a summary line, that average is reported. */
  lemma PosixAvgOfSummary(out: string, k: nat, head: string, lo: string, avgText: string, rest: string)
    requires !WindowsStyle(out)
    requires FirstContaining(SplitLines(out), "min/avg/max") == Some(k)
    requires SplitLines(out)[k] == head + "= " + lo + "/" + avgText + "/" + rest
    requires '=' !in head && '=' !in lo && '=' !in avgText && '=' !in rest
    requires '/' !in lo && '/' !in avgText
    ensures ParsedAvg(out) == ParseDecimal(Strip(avgText))
  {
    LineInText(out, k, "min/avg/max");
    AvgOnSummaryLine(head, lo, avgText, rest);
  }

  lemma RegroupAfterEq(h: string, e: string, sp: string, lo: string, sl: string, av: string, r: string)
    ensures h + (e + sp) + lo + sl + av + sl + r == h + e + (sp + lo + sl + av + sl + r)
  {
  }
}
