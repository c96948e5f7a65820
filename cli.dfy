/**
 * The command line of netcheck: the `--tcp` and `--http` list parsers, the
 * selection of probes from the arguments, and the exit status of `main`.
 */
module Cli {
  import opened Wrappers
  import opened Text
  import Utils
  import opened Checks
  import opened Report

  // ---------------------------------------------------------------- comma lists

  /** Each piece stripped of its surrounding whitespace, in order. */
  function Stripped(parts: seq<string>): seq<string> {
    seq(|parts|, i requires 0 <= i < |parts| => Strip(parts[i]))
  }

  /** `(x.strip() for x in s.split(","))` */
  function Items(s: string): seq<string> {
    Stripped(Split(s, ","))
  }

  /** The non-empty strings of `xs`, in order. */
  function NonEmpty(xs: seq<string>): (r: seq<string>)
    ensures |r| <= |xs|
    ensures forall x :: x in r <==> x in xs && x != ""
  {
    if xs == [] then []
    else NonEmpty(xs[..|xs| - 1]) + (if xs[|xs| - 1] == "" then [] else [xs[|xs| - 1]])
  }

  /**
   * `parse_url_list`: the stripped comma-separated items of `s` that are not
   * empty. Every URL is non-empty and carries no surrounding whitespace, and a
   * string is listed exactly when some comma piece strips to it.
   */
  function ParseUrlList(s: string): (urls: seq<string>)
    ensures forall i :: 0 <= i < |urls| ==> urls[i] != "" && Trimmed(urls[i])
    ensures forall u :: u in urls <==> u != "" && u in Items(s)
  {
    var urls := NonEmpty(Items(s));
    UrlsStripped(Split(s, ","), urls);
    urls
  }

  lemma NonEmptyElements(xs: seq<string>, r: seq<string>)
    requires r == NonEmpty(xs)
    ensures forall i :: 0 <= i < |r| ==> r[i] != "" && r[i] in xs
  {
    forall i | 0 <= i < |r| ensures r[i] != "" && r[i] in xs {
      assert r[i] in r;
    }
  }

  /** A stripped item is the strip of some piece, so it neither starts nor ends with whitespace. */
  lemma StrippedMember(parts: seq<string>, u: string)
    requires u in Stripped(parts)
    ensures exists i :: 0 <= i < |parts| && Strip(parts[i]) == u
    ensures Trimmed(u)
  {
    var items := Stripped(parts);
    var i :| 0 <= i < |items| && items[i] == u;
    assert Strip(parts[i]) == u;
  }

  lemma UrlsStripped(parts: seq<string>, urls: seq<string>)
    requires urls == NonEmpty(Stripped(parts))
    ensures forall i :: 0 <= i < |urls| ==> urls[i] != "" && Trimmed(urls[i])
  {
    NonEmptyElements(Stripped(parts), urls);
    forall i | 0 <= i < |urls| ensures urls[i] != "" && Trimmed(urls[i]) {
      StrippedMember(parts, urls[i]);
    }
  }

  /** Splitting at a one-character separator undoes joining pieces that lack it. */
  lemma {:induction false} SplitJoin(parts: seq<string>, c: char)
    requires parts != []
    requires forall i :: 0 <= i < |parts| ==> c !in parts[i]
    ensures Split(Join(parts, [c]), [c]) == parts
  {
    if |parts| == 1 {
      MissingCharNotContained(parts[0], [c], c);
      SplitWithout(parts[0], [c]);
    } else {
      SplitJoin(parts[1..], c);
      SplitAfter(parts[0], c, Join(parts[1..], [c]));
      assert parts == [parts[0]] + parts[1..];
    }
  }

  lemma StrippedOfStripped(parts: seq<string>)
    requires forall i :: 0 <= i < |parts| ==> Strip(parts[i]) == parts[i]
    ensures Stripped(parts) == parts
  {
    assert forall i :: 0 <= i < |parts| ==> Stripped(parts)[i] == parts[i];
  }

  lemma {:induction false} NonEmptyOfNonEmpty(xs: seq<string>)
    requires forall i :: 0 <= i < |xs| ==> xs[i] != ""
    ensures NonEmpty(xs) == xs
  {
    if xs != [] {
      NonEmptyOfNonEmpty(xs[..|xs| - 1]);
      assert xs == xs[..|xs| - 1] + [xs[|xs| - 1]];
    }
  }

  /** A stripped, non-empty URL without commas. */
  predicate PlainUrl(u: string) {
    u != "" && Trimmed(u) && ',' !in u
  }

  /** Joining plain URLs with commas and parsing the list gives them back. */
  lemma ParseUrlListOfJoin(urls: seq<string>)
    requires urls != []
    requires forall i :: 0 <= i < |urls| ==> PlainUrl(urls[i])
    ensures ParseUrlList(Join(urls, ",")) == urls
  {
    PlainUrlsStripped(urls);
    ItemsOfJoin(urls);
    NonEmptyOfNonEmpty(urls);
  }

  lemma PlainUrlsStripped(urls: seq<string>)
    requires forall i :: 0 <= i < |urls| ==> PlainUrl(urls[i])
    ensures forall i :: 0 <= i < |urls| ==> ',' !in urls[i] && Strip(urls[i]) == urls[i] && urls[i] != ""
  {
    forall i | 0 <= i < |urls| ensures Strip(urls[i]) == urls[i] {
      StripUnchanged(urls[i]);
    }
  }

  /** Stripped pieces without commas, joined with commas, are the items of the joined text. */
  lemma ItemsOfJoin(parts: seq<string>)
    requires parts != []
    requires forall i :: 0 <= i < |parts| ==> ',' !in parts[i] && Strip(parts[i]) == parts[i]
    ensures Items(Join(parts, ",")) == parts
  {
    assert "," == [','];
    SplitJoin(parts, ',');
    StrippedOfStripped(parts);
  }

  /** Dropping the empty strings of two lists one after the other keeps their order. */
  lemma {:induction false} NonEmptyAppend(xs: seq<string>, ys: seq<string>)
    ensures NonEmpty(xs + ys) == NonEmpty(xs) + NonEmpty(ys)
    decreases |ys|
  {
    if ys == [] {
      assert xs + ys == xs;
    } else {
      var front, last := ys[..|ys| - 1], ys[|ys| - 1];
      assert (xs + ys)[..|xs + ys| - 1] == xs + front;
      NonEmptyAppend(xs, front);
    }
  }

  /** Each non-empty string is kept as many times as it occurs; the empty one never. */
  lemma {:induction false} NonEmptyCount(xs: seq<string>, x: string)
    ensures multiset(NonEmpty(xs))[x] == if x == "" then 0 else multiset(xs)[x]
  {
    if xs != [] {
      var front, last := xs[..|xs| - 1], xs[|xs| - 1];
      assert xs == front + [last];
      NonEmptyCount(front, x);
    }
  }

  /**
   * Pieces without commas, padded or empty, joined with commas: the URLs
   * are the pieces' strips that are not empty, in the order of the pieces.
   */
  lemma ParseUrlListOfPieces(ps: seq<string>)
    requires ps != []
    requires forall i :: 0 <= i < |ps| ==> ',' !in ps[i]
    ensures ParseUrlList(Join(ps, ",")) == NonEmpty(Stripped(ps))
  {
    assert "," == [','];
    SplitJoin(ps, ',');
  }

  // ---------------------------------------------------------------- tcp targets

  /** What one stripped `--tcp` item yields: nothing, an error, or a host and port. */
  datatype TargetParse = Skip | Invalid(message: string) | Target(host: string, port: int)

  /**
   * One item of `parse_tcp_list`: an empty item is skipped; an item without
   * `:` is rejected; otherwise it is cut at its first `:`, the host stripped
   * and the port read by `int()`.
   */
  function ParseTarget(item: string): (t: TargetParse)
    ensures t.Skip? <==> item == ""
    ensures item != "" && !Contains(item, ":") ==>
      t == Invalid("Invalid tcp target: " + item + " (expected host:port)")
    ensures t.Target? ==> Contains(item, ":")
  {
    if item == "" then Skip
    else
      match IndexOf(item, ":")
      case None => Invalid("Invalid tcp target: " + item + " (expected host:port)")
      case Some(i) =>
        var portText := item[i + 1..];
        match ParseInt(portText)
        case None => Invalid("invalid literal for int() with base 10: '" + portText + "'")
        case Some(port) => Target(Strip(item[..i]), port)
  }

  /**
   * `host:port` text whose host has no colon: the item is cut right after the
   * host, and the port is whatever `int()` makes of the rest.
   */
  lemma ParseTargetOfParts(host: string, portText: string)
    requires ':' !in host
    ensures ParseTarget(host + ":" + portText) ==
      match ParseInt(portText)
      case Some(port) => Target(Strip(host), port)
      case None => Invalid("invalid literal for int() with base 10: '" + portText + "'")
  {
    var item := host + ":" + portText;
    MissingCharNotContained(host, ":", ':');
    IndexOfAfter(host, ":", portText);
    assert item[..|host|] == host;
    assert item[|host| + 1..] == portText;
  }

  /** A parsed target: a host and a port. */
  type Endpoint = (string, int)

  /**
   * The outcome of the loop of `parse_tcp_list` over the per-item parses
   * `ps`: the targets in item order, skipping empty items, or the message
   * of the first item that is rejected.
   */
  function Collect(ps: seq<TargetParse>): (r: Result<seq<Endpoint>>)
    ensures r.Ok? ==> |r.value| <= |ps|
  {
    if ps == [] then Ok([]) else Extend(Collect(ps[..|ps| - 1]), ps[|ps| - 1])
  }

  /** One more item added to the targets parsed so far. */
  function Extend(prefix: Result<seq<Endpoint>>, p: TargetParse): (r: Result<seq<Endpoint>>)
    ensures prefix.Ok? && r.Ok? ==> |r.value| <= |prefix.value| + 1
  {
    match prefix
    case Err(e) => Err(e)
    case Ok(ts) =>
      match p
      case Skip => Ok(ts)
      case Invalid(m) => Err(m)
      case Target(h, port) => Ok(ts + [(h, port)])
  }

  /** How `ParseTarget` judges each item, in order. */
  function Parses(items: seq<string>): (ps: seq<TargetParse>)
    ensures |ps| == |items|
    ensures forall i :: 0 <= i < |items| ==> ps[i] == ParseTarget(items[i])
  {
    seq(|items|, i requires 0 <= i < |items| => ParseTarget(items[i]))
  }

  /** `parse_tcp_list` over the stripped items. */
  function TcpTargets(items: seq<string>): (r: Result<seq<Endpoint>>)
    ensures r.Ok? ==> |r.value| <= |items|
  {
    Collect(Parses(items))
  }

  lemma CollectSnoc(ps: seq<TargetParse>, p: TargetParse)
    ensures Collect(ps + [p]) == Extend(Collect(ps), p)
  {
    assert (ps + [p])[..|ps|] == ps;
  }

  /** The list parses exactly when no item is rejected. */
  lemma {:induction false} CollectOk(ps: seq<TargetParse>)
    ensures Collect(ps).Ok? <==> forall i :: 0 <= i < |ps| ==> !ps[i].Invalid?
  {
    if ps != [] {
      var front := ps[..|ps| - 1];
      CollectOk(front);
      assert forall i :: 0 <= i < |front| ==> front[i] == ps[i];
    }
  }

  /** The list parses exactly when no item is rejected. */
  lemma TcpTargetsOk(items: seq<string>)
    ensures TcpTargets(items).Ok? <==> forall i :: 0 <= i < |items| ==> !ParseTarget(items[i]).Invalid?
  {
    CollectOk(Parses(items));
  }

  lemma {:induction false} CollectFirstError(ps: seq<TargetParse>, k: nat)
    requires k < |ps| && ps[k].Invalid?
    requires forall i :: 0 <= i < k ==> !ps[i].Invalid?
    ensures Collect(ps) == Err(ps[k].message)
  {
    var front := ps[..|ps| - 1];
    if k == |ps| - 1 {
      CollectOk(front);
    } else {
      assert forall i :: 0 <= i < |front| ==> front[i] == ps[i];
      CollectFirstError(front, k);
    }
  }

  /** The error raised is the one of the first rejected item. */
  lemma TcpTargetsFirstError(items: seq<string>, k: nat)
    requires k < |items| && ParseTarget(items[k]).Invalid?
    requires forall i :: 0 <= i < k ==> !ParseTarget(items[i]).Invalid?
    ensures TcpTargets(items) == Err(ParseTarget(items[k]).message)
  {
    CollectFirstError(Parses(items), k);
  }

  /** Once a prefix has failed, the whole list fails with the same message. */
  lemma {:induction false} CollectErrPersists(ps: seq<TargetParse>, n: nat)
    requires n <= |ps| && Collect(ps[..n]).Err?
    ensures Collect(ps) == Collect(ps[..n])
    decreases |ps|
  {
    if n < |ps| {
      var front := ps[..|ps| - 1];
      assert front[..n] == ps[..n];
      CollectErrPersists(front, n);
    } else {
      assert ps[..n] == ps;
    }
  }

  lemma CollectStep(ps: seq<TargetParse>, i: nat)
    requires i < |ps|
    ensures Collect(ps[..i + 1]) == Extend(Collect(ps[..i]), ps[i])
  {
    assert ps[..i + 1] == ps[..i] + [ps[i]];
    CollectSnoc(ps[..i], ps[i]);
  }

  /** The host and port of each `Target` among `ps`, in order. */
  function Endpoints(ps: seq<TargetParse>): seq<Endpoint> {
    if ps == [] then []
    else
      var last := ps[|ps| - 1];
      Endpoints(ps[..|ps| - 1]) + (if last.Target? then [(last.host, last.port)] else [])
  }

  /** With no rejected item, the list is the endpoints of its items, in order. */
  lemma {:induction false} CollectValid(ps: seq<TargetParse>)
    requires forall i :: 0 <= i < |ps| ==> !ps[i].Invalid?
    ensures Collect(ps) == Ok(Endpoints(ps))
  {
    if ps != [] {
      var front := ps[..|ps| - 1];
      assert forall i :: 0 <= i < |front| ==> front[i] == ps[i];
      CollectValid(front);
      var last := ps[|ps| - 1];
      assert Collect(ps) == Extend(Ok(Endpoints(front)), last);
      assert Endpoints(ps) == Endpoints(front) + (if last.Target? then [(last.host, last.port)] else []);
      if last.Skip? {
        assert Endpoints(front) + [] == Endpoints(front);
      }
    }
  }

  /** The endpoints of two runs of items one after the other keep their order. */
  lemma {:induction false} EndpointsAppend(xs: seq<TargetParse>, ys: seq<TargetParse>)
    ensures Endpoints(xs + ys) == Endpoints(xs) + Endpoints(ys)
    decreases |ys|
  {
    if ys == [] {
      assert xs + ys == xs;
    } else {
      var front := ys[..|ys| - 1];
      assert (xs + ys)[..|xs + ys| - 1] == xs + front;
      EndpointsAppend(xs, front);
    }
  }

  /**
   * Pieces without commas, padded or empty, joined with commas: the targets
   * are what the loop makes of the pieces' strips, one per piece in order.
   */
  lemma TcpTargetsOfPieces(ps: seq<string>)
    requires ps != []
    requires forall i :: 0 <= i < |ps| ==> ',' !in ps[i]
    ensures TcpTargets(Items(Join(ps, ","))) == Collect(Parses(Stripped(ps)))
  {
    assert "," == [','];
    SplitJoin(ps, ',');
  }

  /** `parse_tcp_list`: the loop over the stripped items, raising at the first bad one. */
  method ParseTcpList(s: string) returns (r: Result<seq<Endpoint>>)
    ensures r == TcpTargets(Items(s))
  {
    var items := Items(s);
    ghost var ps := Parses(items);
    var out: seq<Endpoint> := [];
    for i := 0 to |items|
      invariant Collect(ps[..i]) == Ok(out)
    {
      var t := ParseItem(items[i]);
      assert t == ps[i];
      CollectStep(ps, i);
      match t
      case Skip =>
      case Invalid(message) =>
        r := Err(message);
        CollectErrPersists(ps, i + 1);
        return;
      case Target(host, port) =>
        out := out + [(host, port)];
    }
    assert ps[..|items|] == ps;
    r := Ok(out);
  }

  /** The body of the loop of `parse_tcp_list` for one item. */
  method ParseItem(item: string) returns (t: TargetParse)
    ensures t == ParseTarget(item)
  {
    if item == "" {
      return Skip;
    }
    var colon := IndexOf(item, ":");
    if colon.None? {
      return Invalid("Invalid tcp target: " + item + " (expected host:port)");
    }
    var host, portText := item[..colon.value], item[colon.value + 1..];
    var port := ParseInt(portText);
    if port.None? {
      return Invalid("invalid literal for int() with base 10: '" + portText + "'");
    }
    return Target(Strip(host), port.value);
  }

  /** `host:port` written back as text. */
  function EndpointText(t: Endpoint): string {
    t.0 + ":" + IntToString(t.1)
  }

  /** A host the list syntax can carry: stripped, without `,` or `:`. */
  predicate PlainHost(h: string) {
    Trimmed(h) && ',' !in h && ':' !in h
  }

  /** `host:port` text with a plain host holds no comma and no surrounding whitespace. */
  lemma EndpointTextClean(t: Endpoint)
    requires PlainHost(t.0)
    ensures ',' !in EndpointText(t)
    ensures Strip(EndpointText(t)) == EndpointText(t)
  {
    var d := IntToString(t.1);
    var s := EndpointText(t);
    NoCommaInInt(t.1);
    assert s == t.0 + ":" + d;
    assert ',' !in s by {
      forall j | 0 <= j < |s| ensures s[j] != ',' {
        if j < |t.0| {
          assert s[j] == t.0[j];
        } else if j > |t.0| {
          assert s[j] == d[j - |t.0| - 1];
        }
      }
    }
    assert s[|s| - 1] == d[|d| - 1];
    DigitNotSpace(d[|d| - 1]);
    assert s[0] == (if t.0 == [] then ':' else t.0[0]);
    StripUnchanged(s);
  }

  /** `host:port` text with a plain host parses back to the same host and port. */
  lemma EndpointTextParses(t: Endpoint)
    requires PlainHost(t.0)
    ensures ParseTarget(EndpointText(t)) == Target(t.0, t.1)
  {
    ParseTargetOfParts(t.0, IntToString(t.1));
    IntToStringRoundTrip(t.1);
    StripUnchanged(t.0);
  }

  /** `str(i)` is digits after an optional minus: no comma. */
  lemma NoCommaInInt(i: int)
    ensures ',' !in IntToString(i)
  {
    var d := IntToString(i);
    if i < 0 {
      assert d == "-" + NatToString(-i);
      NoCommaInNat(-i);
    } else {
      assert d == NatToString(i);
      NoCommaInNat(i);
    }
  }

  lemma {:induction false} NoCommaInNat(n: nat)
    ensures ',' !in NatToString(n)
  {
    var s := NatToString(n);
    assert AllDigits(s);
    assert forall j :: 0 <= j < |s| ==> IsDigit(s[j]);
  }

  /** The endpoints written back as a `--tcp` list. */
  function ListText(ts: seq<Endpoint>): seq<string> {
    if ts == [] then [] else ListText(ts[..|ts| - 1]) + [EndpointText(ts[|ts| - 1])]
  }

  lemma {:induction false} ListTextParts(ts: seq<Endpoint>)
    ensures |ListText(ts)| == |ts|
    ensures forall i :: 0 <= i < |ts| ==> ListText(ts)[i] == EndpointText(ts[i])
  {
    if ts != [] {
      var init := ts[..|ts| - 1];
      ListTextParts(init);
      var front := ListText(init);
      assert ListText(ts) == front + [EndpointText(ts[|ts| - 1])];
      forall i | 0 <= i < |ts| ensures ListText(ts)[i] == EndpointText(ts[i]) {
        if i < |ts| - 1 {
          assert ts[i] == init[i];
          assert ListText(ts)[i] == front[i];
        }
      }
    }
  }

  /** The items of one more endpoint extend the targets parsed from the items before it. */
  lemma TcpTargetsOfListSnoc(ts: seq<Endpoint>, t: Endpoint)
    ensures TcpTargets(ListText(ts + [t])) == Extend(TcpTargets(ListText(ts)), ParseTarget(EndpointText(t)))
  {
    var items := ListText(ts);
    assert (ts + [t])[..|ts|] == ts;
    assert Parses(items + [EndpointText(t)]) == Parses(items) + [ParseTarget(EndpointText(t))];
    CollectSnoc(Parses(items), ParseTarget(EndpointText(t)));
  }

  /** An endpoint with a plain host, written back as text, parses to itself. */
  lemma ExtendEndpoint(ts: seq<Endpoint>, t: Endpoint)
    requires PlainHost(t.0)
    ensures Extend(Ok(ts), ParseTarget(EndpointText(t))) == Ok(ts + [t])
  {
    EndpointTextParses(t);
  }

  lemma {:induction false} TcpTargetsOfEndpoints(ts: seq<Endpoint>)
    requires forall i :: 0 <= i < |ts| ==> PlainHost(ts[i].0)
    ensures TcpTargets(ListText(ts)) == Ok(ts)
  {
    if ts != [] {
      var front, last := ts[..|ts| - 1], ts[|ts| - 1];
      assert ts == front + [last];
      assert forall i :: 0 <= i < |front| ==> PlainHost(front[i].0) by {
        assert forall i :: 0 <= i < |front| ==> front[i] == ts[i];
      }
      TcpTargetsOfListSnoc(front, last);
      TcpTargetsOfEndpoints(front);
      ExtendEndpoint(front, last);
    }
  }

  /**
   * Writing endpoints with plain hosts as `host:port,host:port,...` and
   * parsing the list gives back the same endpoints, in order.
   */
  lemma ParseTcpListOfJoin(ts: seq<Endpoint>)
    requires ts != []
    requires forall i :: 0 <= i < |ts| ==> PlainHost(ts[i].0)
    ensures TcpTargets(Items(Join(ListText(ts), ","))) == Ok(ts)
  {
    var parts := ListText(ts);
    ListTextClean(ts);
    ItemsOfJoin(parts);
    TcpTargetsOfEndpoints(ts);
  }

  lemma ListTextClean(ts: seq<Endpoint>)
    requires forall i :: 0 <= i < |ts| ==> PlainHost(ts[i].0)
    ensures |ListText(ts)| == |ts|
    ensures forall i :: 0 <= i < |ListText(ts)| ==> ',' !in ListText(ts)[i] && Strip(ListText(ts)[i]) == ListText(ts)[i]
  {
    var parts := ListText(ts);
    ListTextParts(ts);
    forall i | 0 <= i < |parts| ensures ',' !in parts[i] && Strip(parts[i]) == parts[i] {
      EndpointTextClean(ts[i]);
    }
  }

  // ---------------------------------------------------------------- running the checks

  /** The parsed command line; an option left out is `None`. */
  datatype Args = Args(
    dns: Option<string>,
    pingHost: Option<string>,
    pingCount: int,
    tcp: Option<string>,
    http: Option<string>,
    tls: Option<string>,
    tlsPort: int,
    jsonOut: Option<string>)

  /**
   * What the network answers, as seen by the probes: the resolver, TCP
   * connects, HTTP responses, TLS certificates and their expiry, the ping
   * subprocess, and whether the host runs Windows.
   */
  datatype Network = Network(
    resolve: string -> Probed<seq<string>>,
    connect: (string, int) -> Probed<()>,
    fetch: string -> Probed<int>,
    handshake: (string, int) -> Probed<Cert>,
    expiry: string -> Outcome<Expiry>,
    exec: seq<string> -> Probed<PingRun>,
    windows: bool)

  /** `ping`'s default per-packet timeout, in seconds. */
  const PingTimeout := 2

  /** The smallest and largest ping counts `run_checks` passes on. */
  const MinPings := 1
  const MaxPings := 10

  /** The `--tcp` targets, or none when the option is absent or empty. */
  function TcpList(args: Args): seq<Endpoint> {
    if Truthy(args.tcp) && TcpTargets(Items(args.tcp.value)).Ok? then TcpTargets(Items(args.tcp.value)).value else []
  }

  /** The `--http` URLs, or none when the option is absent or empty. */
  function UrlList(args: Args): seq<string> {
    if Truthy(args.http) then ParseUrlList(args.http.value) else []
  }

  /** `--tcp` was given and does not parse. */
  predicate TcpListFails(args: Args) {
    Truthy(args.tcp) && TcpTargets(Items(args.tcp.value)).Err?
  }

  function TcpProbe(t: Endpoint, net: Network): Record {
    Record.Tcp(TcpConnect(t.0, t.1, net.connect(t.0, t.1)))
  }

  function HttpProbe(url: string, net: Network): Record {
    Record.Http(HttpCheck(url, net.fetch(url)))
  }

  /** A probe of a singular check, created but not yet awaited (a coroutine in `tasks`). */
  datatype Task = DnsTask(hostname: string) | PingTask(host: string, count: int) | TlsTask(host: string, port: int)

  /** The results key a task is stored under. */
  function TaskKey(t: Task): string {
    match t
    case DnsTask(_) => "dns"
    case PingTask(_, _) => "ping"
    case TlsTask(_, _) => "tls"
  }

  /** What awaiting a task yields. */
  function RunTask(t: Task, net: Network): Record {
    match t
    case DnsTask(h) => Record.Dns(DnsLookup(h, net.resolve(h)))
    case PingTask(h, c) => Record.Ping(PingRecord(h, c, net.exec(PingCommand(h, c, PingTimeout, net.windows))))
    case TlsTask(h, p) => Record.Tls(TlsExpiry(h, p, net.handshake(h, p), net.expiry))
  }

  /**
   * The `tasks` list of `run_checks` before the TCP list is parsed: the DNS
   * probe, then the ping probe with its count clamped to 1..10.
   */
  function EarlyTasks(args: Args): seq<Task> {
    (if Truthy(args.dns) then [DnsTask(args.dns.value)] else [])
    + (if Truthy(args.pingHost) then [PingTask(args.pingHost.value, Utils.Clamp(args.pingCount, MinPings, MaxPings))] else [])
  }

  /** The whole `tasks` list: the early tasks, then the TLS probe on `--tls-port`. */
  function Tasks(args: Args): seq<Task> {
    EarlyTasks(args) + (if Truthy(args.tls) then [TlsTask(args.tls.value, args.tlsPort)] else [])
  }

  /** `asyncio.gather(*tcp_tasks)`: one record per target, in target order. */
  function TcpRecords(targets: seq<Endpoint>, net: Network): (recs: seq<Record>)
    ensures |recs| == |targets|
  {
    seq(|targets|, i requires 0 <= i < |targets| => TcpProbe(targets[i], net))
  }

  /** `asyncio.gather(*http_tasks)`: one record per URL, in URL order. */
  function HttpRecords(urls: seq<string>, net: Network): (recs: seq<Record>)
    ensures |recs| == |urls|
  {
    seq(|urls|, i requires 0 <= i < |urls| => HttpProbe(urls[i], net))
  }

  /** `asyncio.gather` over the singular tasks: one record per task, in task order. */
  function Done(tasks: seq<Task>, net: Network): (done: seq<Record>)
    ensures |done| == |tasks|
  {
    seq(|tasks|, i requires 0 <= i < |tasks| => RunTask(tasks[i], net))
  }

  /** `results[key] = records` when there is at least one record: the `if tcp_tasks:` test. */
  function PutList(results: Results, key: string, recs: seq<Record>): Results {
    if recs != [] then results[key := Many(recs)] else results
  }

  /** `for (k, _), v in zip(tasks, done): results[k] = v` */
  function Store(results: Results, tasks: seq<Task>, done: seq<Record>): Results
    requires |done| == |tasks|
  {
    if tasks == [] then results
    else Store(results, tasks[..|tasks| - 1], done[..|tasks| - 1])[TaskKey(tasks[|tasks| - 1]) := One(done[|tasks| - 1])]
  }

  /** What `run_checks` sets up before awaiting anything: `tasks`, `tcp_tasks` and `http_tasks`. */
  datatype Plan = Plan(tasks: seq<Task>, tcp: seq<Endpoint>, urls: seq<string>)

  /** The plan the arguments select. */
  function PlanOf(args: Args): Plan {
    Plan(Tasks(args), TcpList(args), UrlList(args))
  }

  /**
   * Awaiting a plan: the `tcp` and `http` lists are stored first (when not
   * empty), then the gathered singular tasks.
   */
  function Run(plan: Plan, net: Network): Results {
    Store(Lists(plan.tcp, plan.urls, net), plan.tasks, Done(plan.tasks, net))
  }

  /** The results after `tcp` and `http` are stored, each only when its list is not empty. */
  function Lists(tcp: seq<Endpoint>, urls: seq<string>, net: Network): Results {
    PutList(PutList(map[], "tcp", TcpRecords(tcp, net)), "http", HttpRecords(urls, net))
  }

  /**
   * `run_checks`: the exception of an unparsable `--tcp` list, raised before
   * any probe is awaited, or the results of the plan the arguments select.
   */
  function Checked(args: Args, net: Network): (res: Result<Results>)
    ensures res.Err? <==> TcpListFails(args)
    ensures res.Err? ==> res.error == TcpTargets(Items(args.tcp.value)).error
  {
    if TcpListFails(args) then Err(TcpTargets(Items(args.tcp.value)).error)
    else Ok(Run(PlanOf(args), net))
  }

  /** The keys of a sequence of tasks. */
  function TaskKeys(tasks: seq<Task>): set<string> {
    set i | 0 <= i < |tasks| :: TaskKey(tasks[i])
  }

  /** No two tasks share a key. */
  predicate DistinctKeys(tasks: seq<Task>) {
    forall i, j :: 0 <= i < j < |tasks| ==> TaskKey(tasks[i]) != TaskKey(tasks[j])
  }

  lemma TaskKeysSnoc(tasks: seq<Task>, t: Task)
    ensures TaskKeys(tasks + [t]) == TaskKeys(tasks) + {TaskKey(t)}
    ensures DistinctKeys(tasks) && TaskKey(t) !in TaskKeys(tasks) ==> DistinctKeys(tasks + [t])
  {
    var s := tasks + [t];
    forall k | k in TaskKeys(s) ensures k in TaskKeys(tasks) + {TaskKey(t)} {
      var i :| 0 <= i < |s| && TaskKey(s[i]) == k;
      if i < |tasks| {
        assert s[i] == tasks[i];
      }
    }
    forall k | k in TaskKeys(tasks) + {TaskKey(t)} ensures k in TaskKeys(s) {
      if k in TaskKeys(tasks) {
        var i :| 0 <= i < |tasks| && TaskKey(tasks[i]) == k;
        assert s[i] == tasks[i];
      } else {
        assert s[|tasks|] == t;
      }
    }
    if DistinctKeys(tasks) && TaskKey(t) !in TaskKeys(tasks) {
      forall i, j | 0 <= i < j < |s| ensures TaskKey(s[i]) != TaskKey(s[j]) {
        assert s[i] == tasks[i];
        if j < |tasks| {
          assert s[j] == tasks[j];
        } else {
          assert TaskKey(tasks[i]) in TaskKeys(tasks);
        }
      }
    }
  }

  /** Storing gathered tasks adds exactly their keys. */
  lemma {:induction false} StoreKeys(results: Results, tasks: seq<Task>, done: seq<Record>)
    requires |done| == |tasks|
    ensures Store(results, tasks, done).Keys == results.Keys + TaskKeys(tasks)
  {
    if tasks != [] {
      var n := |tasks| - 1;
      assert tasks == tasks[..n] + [tasks[n]];
      TaskKeysSnoc(tasks[..n], tasks[n]);
      StoreKeys(results, tasks[..n], done[..n]);
    }
  }

  /** Every key that no task has keeps its value. */
  lemma {:induction false} StoreKeeps(results: Results, tasks: seq<Task>, done: seq<Record>, k: string)
    requires |done| == |tasks| && k in results && k !in TaskKeys(tasks)
    ensures k in Store(results, tasks, done) && Store(results, tasks, done)[k] == results[k]
  {
    if tasks != [] {
      var n := |tasks| - 1;
      assert tasks == tasks[..n] + [tasks[n]];
      TaskKeysSnoc(tasks[..n], tasks[n]);
      StoreKeeps(results, tasks[..n], done[..n], k);
    }
  }

  /** When no two tasks share a key, each task's record is stored under its key. */
  lemma {:induction false} StoreValue(results: Results, tasks: seq<Task>, done: seq<Record>, i: nat)
    requires |done| == |tasks| && DistinctKeys(tasks) && i < |tasks|
    ensures TaskKey(tasks[i]) in Store(results, tasks, done)
    ensures Store(results, tasks, done)[TaskKey(tasks[i])] == One(done[i])
  {
    var n := |tasks| - 1;
    if i < n {
      var front := tasks[..n];
      assert front[i] == tasks[i] && done[..n][i] == done[i];
      assert DistinctKeys(front);
      StoreValue(results, front, done[..n], i);
    }
  }

  /** A plan's singular tasks have distinct keys, none of them `tcp` or `http`. */
  predicate WellPlanned(plan: Plan) {
    DistinctKeys(plan.tasks) && "tcp" !in TaskKeys(plan.tasks) && "http" !in TaskKeys(plan.tasks)
  }

  /** Awaiting a plan stores every task's key, and `tcp`/`http` exactly when their list is not empty. */
  lemma RunKeys(plan: Plan, net: Network)
    ensures Run(plan, net).Keys
      == TaskKeys(plan.tasks) + (if plan.tcp != [] then {"tcp"} else {}) + (if plan.urls != [] then {"http"} else {})
  {
    var lists := Lists(plan.tcp, plan.urls, net);
    assert lists.Keys == (if plan.tcp != [] then {"tcp"} else {}) + (if plan.urls != [] then {"http"} else {});
    StoreKeys(lists, plan.tasks, Done(plan.tasks, net));
  }

  /** In a well-formed plan the lists hold the TCP and HTTP records, one per target in target order. */
  lemma RunLists(plan: Plan, net: Network)
    requires WellPlanned(plan)
    ensures plan.tcp != [] ==> "tcp" in Run(plan, net) && Run(plan, net)["tcp"] == Many(TcpRecords(plan.tcp, net))
    ensures plan.urls != [] ==> "http" in Run(plan, net) && Run(plan, net)["http"] == Many(HttpRecords(plan.urls, net))
  {
    var lists := Lists(plan.tcp, plan.urls, net);
    if plan.tcp != [] {
      StoreKeeps(lists, plan.tasks, Done(plan.tasks, net), "tcp");
    }
    if plan.urls != [] {
      StoreKeeps(lists, plan.tasks, Done(plan.tasks, net), "http");
    }
  }

  /** In a well-formed plan each task's record is stored under its own key. */
  lemma RunTaskValue(plan: Plan, net: Network, i: nat)
    requires WellPlanned(plan) && i < |plan.tasks|
    ensures TaskKey(plan.tasks[i]) in Run(plan, net)
    ensures Run(plan, net)[TaskKey(plan.tasks[i])] == One(RunTask(plan.tasks[i], net))
  {
    var lists := Lists(plan.tcp, plan.urls, net);
    StoreValue(lists, plan.tasks, Done(plan.tasks, net), i);
  }

  /** A task's record is a single record of the kind its key names. */
  lemma TaskKind(t: Task, net: Network)
    ensures Key(KindOf(RunTask(t, net))) == TaskKey(t) && !IsListKind(KindOf(RunTask(t, net)))
  {
  }

  /** Each kind has its own key. */
  lemma KeyInjective(k: Kind, j: Kind)
    requires Key(k) == Key(j)
    ensures k == j
  {
  }

  /** Under a kind's key, awaiting a well-formed plan stores that kind of entry. */
  lemma RunEntryKind(plan: Plan, net: Network, k: Kind)
    requires WellPlanned(plan) && Key(k) in Run(plan, net)
    ensures EntryHasKind(Run(plan, net)[Key(k)], k)
  {
    RunKeys(plan, net);
    if Key(k) in TaskKeys(plan.tasks) {
      var i :| 0 <= i < |plan.tasks| && TaskKey(plan.tasks[i]) == Key(k);
      RunTaskValue(plan, net, i);
      TaskKind(plan.tasks[i], net);
      KeyInjective(k, KindOf(RunTask(plan.tasks[i], net)));
    } else {
      RunLists(plan, net);
      assert k == TcpKind || k == HttpKind;
    }
  }

  /** Awaiting a well-formed plan gives results of the shape the report expects. */
  lemma RunShaped(plan: Plan, net: Network)
    requires WellPlanned(plan)
    ensures Shaped(Run(plan, net))
  {
    forall k: Kind | Key(k) in Run(plan, net) ensures EntryHasKind(Run(plan, net)[Key(k)], k) {
      RunEntryKind(plan, net, k);
    }
  }

  /** The early tasks hold a key for `--dns` and one for `--ping`, each once. */
  lemma EarlyTasksKeys(args: Args)
    ensures DistinctKeys(EarlyTasks(args))
    ensures TaskKeys(EarlyTasks(args))
         == (if Truthy(args.dns) then {"dns"} else {}) + (if Truthy(args.pingHost) then {"ping"} else {})
  {
    var d: seq<Task> := if Truthy(args.dns) then [DnsTask(args.dns.value)] else [];
    var p: seq<Task> := if Truthy(args.pingHost) then [PingTask(args.pingHost.value, Utils.Clamp(args.pingCount, MinPings, MaxPings))] else [];
    assert EarlyTasks(args) == d + p;
    assert TaskKeys([]) == {};
    if Truthy(args.dns) {
      TaskKeysSnoc([], d[0]);
      assert [] + [d[0]] == d;
    }
    if Truthy(args.pingHost) {
      TaskKeysSnoc(d, p[0]);
    } else {
      assert d + p == d;
    }
  }

  /** Tasks holds one key per selected singular check, each once. */
  lemma TasksKeys(args: Args)
    ensures DistinctKeys(Tasks(args))
    ensures TaskKeys(Tasks(args))
         == (if Truthy(args.dns) then {"dns"} else {})
            + (if Truthy(args.pingHost) then {"ping"} else {})
            + (if Truthy(args.tls) then {"tls"} else {})
  {
    var early := EarlyTasks(args);
    EarlyTasksKeys(args);
    if Truthy(args.tls) {
      TaskKeysSnoc(early, TlsTask(args.tls.value, args.tlsPort));
    } else {
      assert Tasks(args) == early;
    }
  }

  /** The arguments select a well-formed plan. */
  lemma PlanOfWellPlanned(args: Args)
    ensures WellPlanned(PlanOf(args))
  {
    TasksKeys(args);
  }

  /**
   * `run_checks`: `dns`, `ping` and `tls` are present exactly when their
   * option is a non-empty string; `tcp` and `http` exactly when their list
   * holds at least one target. No other key appears.
   */
  lemma CheckedKeys(args: Args, net: Network)
    requires !TcpListFails(args)
    ensures Checked(args, net).value.Keys
      == (if Truthy(args.dns) then {"dns"} else {})
       + (if Truthy(args.pingHost) then {"ping"} else {})
       + (if TcpList(args) != [] then {"tcp"} else {})
       + (if UrlList(args) != [] then {"http"} else {})
       + (if Truthy(args.tls) then {"tls"} else {})
  {
    var plan := PlanOf(args);
    assert Checked(args, net).value == Run(plan, net);
    TasksKeys(args);
    RunKeys(plan, net);
    UnionShuffle(if Truthy(args.dns) then {"dns"} else {}, if Truthy(args.pingHost) then {"ping"} else {},
                 if TcpList(args) != [] then {"tcp"} else {}, if UrlList(args) != [] then {"http"} else {},
                 if Truthy(args.tls) then {"tls"} else {});
  }

  lemma UnionShuffle<T>(a: set<T>, b: set<T>, c: set<T>, d: set<T>, e: set<T>)
    ensures (a + b + e) + c + d == a + b + c + d + e
  {
  }

  /**
   * The `tcp` and `http` lists hold one record per parsed target, in target
   * order, each the probe of that target.
   */
  lemma CheckedLists(args: Args, net: Network)
    requires !TcpListFails(args)
    ensures "tcp" in Checked(args, net).value ==> Checked(args, net).value["tcp"].Many?
    ensures "tcp" in Checked(args, net).value ==> |Checked(args, net).value["tcp"].recs| == |TcpList(args)|
    ensures "tcp" in Checked(args, net).value ==> forall i :: 0 <= i < |TcpList(args)| ==>
      Checked(args, net).value["tcp"].recs[i] == TcpProbe(TcpList(args)[i], net)
    ensures "http" in Checked(args, net).value ==> Checked(args, net).value["http"].Many?
    ensures "http" in Checked(args, net).value ==> |Checked(args, net).value["http"].recs| == |UrlList(args)|
    ensures "http" in Checked(args, net).value ==> forall i :: 0 <= i < |UrlList(args)| ==>
      Checked(args, net).value["http"].recs[i] == HttpProbe(UrlList(args)[i], net)
  {
    var plan := PlanOf(args);
    PlanOfWellPlanned(args);
    RunKeys(plan, net);
    RunLists(plan, net);
  }

  /** Where a selected singular check's task sits in `Tasks(args)`. */
  lemma TaskAt(args: Args)
    ensures Truthy(args.dns) ==> Tasks(args)[0] == DnsTask(args.dns.value)
    ensures Truthy(args.pingHost) ==> var k := if Truthy(args.dns) then 1 else 0;
      k < |Tasks(args)| && Tasks(args)[k] == PingTask(args.pingHost.value, Utils.Clamp(args.pingCount, MinPings, MaxPings))
    ensures Truthy(args.tls) ==> Tasks(args)[|Tasks(args)| - 1] == TlsTask(args.tls.value, args.tlsPort)
  {
  }

  /**
   * The singular entries: the DNS record of `--dns`, the ping record of
   * `--ping` sending the count clamped into 1..10, and the TLS record of
   * `--tls` on port `--tls-port`.
   */
  lemma CheckedSingles(args: Args, net: Network)
    requires !TcpListFails(args)
    ensures Truthy(args.dns) ==>
      "dns" in Checked(args, net).value && Checked(args, net).value["dns"] == One(RunTask(DnsTask(args.dns.value), net))
    ensures Truthy(args.pingHost) ==>
      "ping" in Checked(args, net).value
      && Checked(args, net).value["ping"]
         == One(RunTask(PingTask(args.pingHost.value, Utils.Clamp(args.pingCount, MinPings, MaxPings)), net))
    ensures Truthy(args.tls) ==>
      "tls" in Checked(args, net).value
      && Checked(args, net).value["tls"] == One(RunTask(TlsTask(args.tls.value, args.tlsPort), net))
  {
    var plan := PlanOf(args);
    PlanOfWellPlanned(args);
    TaskAt(args);
    if Truthy(args.dns) {
      RunTaskValue(plan, net, 0);
    }
    if Truthy(args.pingHost) {
      RunTaskValue(plan, net, if Truthy(args.dns) then 1 else 0);
    }
    if Truthy(args.tls) {
      RunTaskValue(plan, net, |plan.tasks| - 1);
    }
  }

  /** The ping check sends between 1 and 10 packets, whatever `--ping-count` says. */
  lemma CheckedPingCount(args: Args, net: Network)
    requires !TcpListFails(args) && Truthy(args.pingHost)
    ensures "ping" in Checked(args, net).value
    ensures Checked(args, net).value["ping"].One? && Checked(args, net).value["ping"].rec.Ping?
    ensures MinPings <= Checked(args, net).value["ping"].rec.ping.transmitted <= MaxPings
    ensures MinPings <= args.pingCount <= MaxPings ==>
      Checked(args, net).value["ping"].rec.ping.transmitted == args.pingCount
  {
    CheckedSingles(args, net);
  }

  /** The results hold under each kind's key that kind of entry. */
  lemma CheckedShaped(args: Args, net: Network)
    requires !TcpListFails(args)
    ensures Shaped(Checked(args, net).value)
  {
    PlanOfWellPlanned(args);
    RunShaped(PlanOf(args), net);
  }

  /** `run_checks`: gathers the probes the arguments select. */
  method RunChecks(args: Args, net: Network) returns (res: Result<Results>)
    ensures res == Checked(args, net)
  {
    var tasks: seq<Task> := [];
    if Truthy(args.dns) {
      tasks := tasks + [DnsTask(args.dns.value)];
    }
    if Truthy(args.pingHost) {
      var c := Utils.Clamp(args.pingCount, MinPings, MaxPings);
      tasks := tasks + [PingTask(args.pingHost.value, c)];
    }
    assert tasks == EarlyTasks(args);
    var parsed := TcpTasks(args);
    if parsed.Err? {
      return Err(parsed.error);
    }
    ghost var plan := PlanOf(args);
    var results := GatherLists(parsed.value, args, net);
    assert results == Lists(plan.tcp, plan.urls, net);
    if Truthy(args.tls) {
      tasks := tasks + [TlsTask(args.tls.value, args.tlsPort)];
    }
    assert tasks == plan.tasks;
    if tasks != [] {
      var done := GatherTasks(tasks, net);
      results := StoreAll(results, tasks, done);
    } else {
      assert Store(results, tasks, Done(tasks, net)) == results;
    }
    assert results == Run(plan, net);
    assert Checked(args, net) == Ok(Run(plan, net));
    res := Ok(results);
  }

  /**
   * The middle of `run_checks`: the TCP records stored when there are
   * targets, then the `--http` URLs parsed and their records stored when
   * there are any.
   */
  method GatherLists(tcpTasks: seq<Endpoint>, args: Args, net: Network) returns (results: Results)
    ensures results == Lists(tcpTasks, UrlList(args), net)
  {
    results := map[];
    if tcpTasks != [] {
      var done := GatherTcp(tcpTasks, net);
      results := results["tcp" := Many(done)];
    }
    var httpTasks := HttpTasks(args);
    if httpTasks != [] {
      var done := GatherHttp(httpTasks, net);
      results := results["http" := Many(done)];
    }
  }

  /** The targets of `--tcp` when given, or the exception its parse raises. */
  method TcpTasks(args: Args) returns (r: Result<seq<Endpoint>>)
    ensures r.Err? <==> TcpListFails(args)
    ensures r.Err? ==> r.error == TcpTargets(Items(args.tcp.value)).error
    ensures r.Ok? ==> r.value == TcpList(args)
  {
    r := Ok([]);
    if Truthy(args.tcp) {
      r := ParseTcpList(args.tcp.value);
    }
  }

  /** The URLs of `--http` when given. */
  method HttpTasks(args: Args) returns (urls: seq<string>)
    ensures urls == UrlList(args)
  {
    urls := [];
    if Truthy(args.http) {
      urls := ParseUrlList(args.http.value);
    }
  }

  /** The `zip` loop of `run_checks`: each gathered record under its task's key. */
  method StoreAll(results: Results, tasks: seq<Task>, done: seq<Record>) returns (r: Results)
    requires |done| == |tasks|
    ensures r == Store(results, tasks, done)
  {
    r := results;
    for i := 0 to |tasks|
      invariant r == Store(results, tasks[..i], done[..i])
    {
      assert tasks[..i + 1][..i] == tasks[..i] && done[..i + 1][..i] == done[..i];
      r := r[TaskKey(tasks[i]) := One(done[i])];
    }
    assert tasks[..|tasks|] == tasks && done[..|tasks|] == done;
  }

  /** Awaits the TCP probes one after the other; their records come in target order. */
  method GatherTcp(targets: seq<Endpoint>, net: Network) returns (done: seq<Record>)
    ensures done == TcpRecords(targets, net)
  {
    done := [];
    for i := 0 to |targets|
      invariant |done| == i
      invariant forall j :: 0 <= j < i ==> done[j] == TcpProbe(targets[j], net)
    {
      var t := targets[i];
      done := done + [Record.Tcp(TcpConnect(t.0, t.1, net.connect(t.0, t.1)))];
    }
  }

  /** Awaits the HTTP probes one after the other; their records come in URL order. */
  method GatherHttp(urls: seq<string>, net: Network) returns (done: seq<Record>)
    ensures done == HttpRecords(urls, net)
  {
    done := [];
    for i := 0 to |urls|
      invariant |done| == i
      invariant forall j :: 0 <= j < i ==> done[j] == HttpProbe(urls[j], net)
    {
      done := done + [Record.Http(HttpCheck(urls[i], net.fetch(urls[i])))];
    }
  }

  /** Awaits one singular task; the ping task runs the `ping` probe. */
  method Await(t: Task, net: Network) returns (rec: Record)
    ensures rec == RunTask(t, net)
  {
    match t {
      case DnsTask(h) =>
        rec := Record.Dns(DnsLookup(h, net.resolve(h)));
      case PingTask(h, c) =>
        var p := Checks.Ping(h, c, PingTimeout, net.windows, net.exec);
        rec := Record.Ping(p);
      case TlsTask(h, port) =>
        rec := Record.Tls(TlsExpiry(h, port, net.handshake(h, port), net.expiry));
    }
  }

  /** Awaits the singular tasks in order. */
  method GatherTasks(tasks: seq<Task>, net: Network) returns (done: seq<Record>)
    ensures done == Done(tasks, net)
  {
    done := [];
    for i := 0 to |tasks|
      invariant |done| == i
      invariant forall j :: 0 <= j < i ==> done[j] == RunTask(tasks[j], net)
    {
      var rec := Await(tasks[i], net);
      done := done + [rec];
    }
  }

  // ---------------------------------------------------------------- main

  /** How `main` ends: with an exit status, or with an uncaught exception. */
  datatype Exit = Code(code: int) | Raised(message: string)

  /** At least one of `--dns`, `--ping`, `--tcp`, `--http`, `--tls` is a non-empty string. */
  predicate AnyCheck(args: Args) {
    Truthy(args.dns) || Truthy(args.pingHost) || Truthy(args.tcp) || Truthy(args.http) || Truthy(args.tls)
  }

  /** The report `main` builds from the results the arguments select. */
  function MainReport(args: Args, net: Network, generatedAt: string): (rep: Report)
    requires !TcpListFails(args)
    ensures Renderable(rep)
    ensures rep.ok == AllOk(Checked(args, net).value)
  {
    CheckedShaped(args, net);
    BuiltReport(Checked(args, net).value, generatedAt)
  }

  /**
   * `main`: status 2 and no report when no check is selected (the help
   * text `argparse` prints then is not part of this model); the
   * exception of an unparsable `--tcp` list; otherwise the console text of the
   * report and status 0 when every record is ok, 1 when any is not.
   * `generatedAt` is the clock's reading, `fmt` the float formatting.
   */
  method RunMain(args: Args, net: Network, generatedAt: string, fmt: Formats) returns (exit: Exit, console: string)
    ensures exit == Code(2) <==> !AnyCheck(args)
    ensures exit.Raised? <==> AnyCheck(args) && TcpListFails(args)
    ensures exit.Raised? ==> exit.message == TcpTargets(Items(args.tcp.value)).error
    ensures exit.Raised? || exit == Code(2) ==> console == ""
    ensures AnyCheck(args) && !TcpListFails(args) ==>
      exit == Code(if AllOk(Checked(args, net).value) then 0 else 1)
    ensures AnyCheck(args) && !TcpListFails(args) ==>
      console == Join(ConsoleLines(MainReport(args, net, generatedAt), fmt), "\n")
  {
    if !AnyCheck(args) {
      return Code(2), "";
    }
    var checked := RunChecks(args, net);
    if checked.Err? {
      return Raised(checked.error), "";
    }
    var results := checked.value;
    CheckedShaped(args, net);
    var rep := BuildReport(results, generatedAt);
    assert rep == MainReport(args, net, generatedAt);
    console := FormatConsole(rep, fmt);
    exit := Code(if rep.ok then 0 else 1);
  }

  /** The exit status agrees with the verdict on the first console line. */
  lemma ExitMatchesVerdict(args: Args, net: Network, generatedAt: string, fmt: Formats)
    requires AnyCheck(args) && !TcpListFails(args)
    ensures var first := ConsoleLines(MainReport(args, net, generatedAt), fmt)[0];
      (AllOk(Checked(args, net).value) <==> first == "NetCheck " + Dash + " status: OK")
      && (!AllOk(Checked(args, net).value) <==> first == "NetCheck " + Dash + " status: ISSUES")
  {
    HeaderLines(MainReport(args, net, generatedAt), fmt);
  }

  /** Selected lists that come out empty leave nothing to fail: status 0. */
  lemma EmptySelectionSucceeds(args: Args, net: Network)
    requires AnyCheck(args) && !TcpListFails(args)
    requires !Truthy(args.dns) && !Truthy(args.pingHost) && !Truthy(args.tls)
    requires TcpList(args) == [] && UrlList(args) == []
    ensures Checked(args, net) == Ok(map[])
    ensures AllOk(Checked(args, net).value)
  {
  }
}
