/**
 * The report: the overall verdict over all probe records, their conversion
 * to plain dictionaries (what is written out as JSON), and the text shown on
 * the console, block by block in a fixed order.
 */
module Report {
  import opened Wrappers
  import opened Text
  import opened Checks

  // ---------------------------------------------------------------- results

  /** A record of any of the five probes. */
  datatype Record =
    | Dns(dns: DnsResult)
    | Ping(ping: PingResult)
    | Tcp(tcp: TcpResult)
    | Http(http: HttpResult)
    | Tls(tls: TlsResult)

  /** The five kinds of check, each stored under its own key of the results. */
  datatype Kind = DnsKind | PingKind | TcpKind | HttpKind | TlsKind

  function KindOf(rec: Record): Kind {
    match rec
    case Dns(_) => DnsKind
    case Ping(_) => PingKind
    case Tcp(_) => TcpKind
    case Http(_) => HttpKind
    case Tls(_) => TlsKind
  }

  /** The results key of each kind. */
  function Key(k: Kind): string {
    match k
    case DnsKind => "dns"
    case PingKind => "ping"
    case TcpKind => "tcp"
    case HttpKind => "http"
    case TlsKind => "tls"
  }

  /** TCP and HTTP checks run once per target and keep a list of records. */
  predicate IsListKind(k: Kind) {
    k == TcpKind || k == HttpKind
  }

  function RecordOk(rec: Record): bool {
    match rec
    case Dns(r) => r.ok
    case Ping(r) => r.ok
    case Tcp(r) => r.ok
    case Http(r) => r.ok
    case Tls(r) => r.ok
  }

  function RecordError(rec: Record): Option<string> {
    match rec
    case Dns(r) => r.error
    case Ping(r) => r.error
    case Tcp(r) => r.error
    case Http(r) => r.error
    case Tls(r) => r.error
  }

  /** A value of the results map: one record, or the list of a per-target check. */
  datatype Entry = One(rec: Record) | Many(recs: seq<Record>)

  type Results = map<string, Entry>

  /** `bool(v.ok)` for one record, `all(x.ok for x in v)` for a list. */
  predicate EntryOk(e: Entry) {
    match e
    case One(r) => RecordOk(r)
    case Many(rs) => forall i :: 0 <= i < |rs| ==> RecordOk(rs[i])
  }

  /** The overall verdict: every record of every entry is ok. */
  predicate AllOk(results: Results) {
    forall k :: k in results ==> EntryOk(results[k])
  }

  /** Results as the checks put them together: each kind's key holds its kind of entry. */
  predicate EntryHasKind(e: Entry, k: Kind) {
    if IsListKind(k) then e.Many? && forall i :: 0 <= i < |e.recs| ==> KindOf(e.recs[i]) == k
    else e.One? && KindOf(e.rec) == k
  }

  predicate Shaped(results: Results) {
    forall k: Kind :: Key(k) in results ==> EntryHasKind(results[Key(k)], k)
  }

  // ---------------------------------------------------------------- dictionaries

  /** A JSON-like value, as `dataclasses.asdict` produces them. */
  datatype Value = VNone | VBool(b: bool) | VInt(i: int) | VReal(x: real) | VStr(s: string) | VList(items: seq<Value>)

  type Dict = map<string, Value>

  function OptStr(o: Option<string>): Value {
    match o
    case None => VNone
    case Some(s) => VStr(s)
  }

  function OptInt(o: Option<int>): Value {
    match o
    case None => VNone
    case Some(i) => VInt(i)
  }

  function OptReal(o: Option<real>): Value {
    match o
    case None => VNone
    case Some(x) => VReal(x)
  }

  function StrList(ss: seq<string>): (v: Value)
    ensures v.VList? && |v.items| == |ss|
    ensures forall i :: 0 <= i < |ss| ==> v.items[i] == VStr(ss[i])
  {
    VList(seq(|ss|, i requires 0 <= i < |ss| => VStr(ss[i])))
  }

  /** The names of the dataclass fields of each kind of record. */
  function FieldNames(k: Kind): set<string> {
    match k
    case DnsKind => {"ok", "hostname", "ips", "error", "ms"}
    case PingKind => {"ok", "host", "transmitted", "received", "loss_pct", "avg_ms", "ms", "error"}
    case TcpKind => {"ok", "host", "port", "ms", "error"}
    case HttpKind => {"ok", "url", "status", "ms", "error"}
    case TlsKind => {"ok", "host", "port", "not_after", "days_left", "ms", "error"}
  }

  /**
   * `to_dict` (`asdict`) of a record: one entry per dataclass field, under the
   * field's name. `DecodeRecord` reads every record back from its dictionary.
   */
  function RecordToDict(rec: Record): (d: Dict)
    ensures d.Keys == FieldNames(KindOf(rec))
    ensures d["ok"] == VBool(RecordOk(rec))
    ensures d["error"] == OptStr(RecordError(rec))
  {
    match rec
    case Dns(r) =>
      map["ok" := VBool(r.ok), "hostname" := VStr(r.hostname), "ips" := StrList(r.ips),
          "error" := OptStr(r.error), "ms" := VReal(r.ms)]
    case Ping(r) =>
      map["ok" := VBool(r.ok), "host" := VStr(r.host), "transmitted" := VInt(r.transmitted),
          "received" := VInt(r.received), "loss_pct" := VReal(r.lossPct), "avg_ms" := OptReal(r.avgMs),
          "ms" := VReal(r.ms), "error" := OptStr(r.error)]
    case Tcp(r) =>
      map["ok" := VBool(r.ok), "host" := VStr(r.host), "port" := VInt(r.port),
          "ms" := VReal(r.ms), "error" := OptStr(r.error)]
    case Http(r) =>
      map["ok" := VBool(r.ok), "url" := VStr(r.url), "status" := OptInt(r.status),
          "ms" := VReal(r.ms), "error" := OptStr(r.error)]
    case Tls(r) =>
      map["ok" := VBool(r.ok), "host" := VStr(r.host), "port" := VInt(r.port),
          "not_after" := OptStr(r.notAfter), "days_left" := OptInt(r.daysLeft),
          "ms" := VReal(r.ms), "error" := OptStr(r.error)]
  }

  // Readers of one field of a dictionary, failing on a missing key or a value of the wrong type.

  function GetBool(d: Dict, f: string): Option<bool> {
    if f in d && d[f].VBool? then Some(d[f].b) else None
  }

  function GetInt(d: Dict, f: string): Option<int> {
    if f in d && d[f].VInt? then Some(d[f].i) else None
  }

  function GetReal(d: Dict, f: string): Option<real> {
    if f in d && d[f].VReal? then Some(d[f].x) else None
  }

  function GetStr(d: Dict, f: string): Option<string> {
    if f in d && d[f].VStr? then Some(d[f].s) else None
  }

  function GetOptStr(d: Dict, f: string): Option<Option<string>> {
    if f !in d then None
    else match d[f]
      case VNone => Some(None)
      case VStr(s) => Some(Some(s))
      case _ => None
  }

  function GetOptInt(d: Dict, f: string): Option<Option<int>> {
    if f !in d then None
    else match d[f]
      case VNone => Some(None)
      case VInt(i) => Some(Some(i))
      case _ => None
  }

  function GetOptReal(d: Dict, f: string): Option<Option<real>> {
    if f !in d then None
    else match d[f]
      case VNone => Some(None)
      case VReal(x) => Some(Some(x))
      case _ => None
  }

  predicate AllStr(items: seq<Value>) {
    forall i :: 0 <= i < |items| ==> items[i].VStr?
  }

  function GetStrList(d: Dict, f: string): Option<seq<string>> {
    if f in d && d[f].VList? && AllStr(d[f].items) then
      var items := d[f].items;
      Some(seq(|items|, i requires 0 <= i < |items| => items[i].s))
    else None
  }

  /** Reads the dictionary of a record of kind `k` back into the record. */
  function DecodeRecord(k: Kind, d: Dict): (r: Option<Record>)
    ensures r.Some? ==> KindOf(r.value) == k
  {
    match k
    case DnsKind =>
      var ok, host, ips, err, ms := GetBool(d, "ok"), GetStr(d, "hostname"), GetStrList(d, "ips"),
        GetOptStr(d, "error"), GetReal(d, "ms");
      if ok.Some? && host.Some? && ips.Some? && err.Some? && ms.Some? then
        Some(Dns(DnsResult(ok.value, host.value, ips.value, err.value, ms.value)))
      else None
    case PingKind =>
      var ok, host, tx, rx := GetBool(d, "ok"), GetStr(d, "host"), GetInt(d, "transmitted"), GetInt(d, "received");
      var loss, avg, ms, err := GetReal(d, "loss_pct"), GetOptReal(d, "avg_ms"), GetReal(d, "ms"), GetOptStr(d, "error");
      if ok.Some? && host.Some? && tx.Some? && rx.Some? && loss.Some? && avg.Some? && ms.Some? && err.Some? then
        Some(Ping(PingResult(ok.value, host.value, tx.value, rx.value, loss.value, avg.value, ms.value, err.value)))
      else None
    case TcpKind =>
      var ok, host, port, ms, err := GetBool(d, "ok"), GetStr(d, "host"), GetInt(d, "port"),
        GetReal(d, "ms"), GetOptStr(d, "error");
      if ok.Some? && host.Some? && port.Some? && ms.Some? && err.Some? then
        Some(Tcp(TcpResult(ok.value, host.value, port.value, ms.value, err.value)))
      else None
    case HttpKind =>
      var ok, url, status, ms, err := GetBool(d, "ok"), GetStr(d, "url"), GetOptInt(d, "status"),
        GetReal(d, "ms"), GetOptStr(d, "error");
      if ok.Some? && url.Some? && status.Some? && ms.Some? && err.Some? then
        Some(Http(HttpResult(ok.value, url.value, status.value, ms.value, err.value)))
      else None
    case TlsKind =>
      var ok, host, port, na := GetBool(d, "ok"), GetStr(d, "host"), GetInt(d, "port"), GetOptStr(d, "not_after");
      var days, ms, err := GetOptInt(d, "days_left"), GetReal(d, "ms"), GetOptStr(d, "error");
      if ok.Some? && host.Some? && port.Some? && na.Some? && days.Some? && ms.Some? && err.Some? then
        Some(Tls(TlsResult(ok.value, host.value, port.value, na.value, days.value, ms.value, err.value)))
      else None
  }

  lemma StrListRoundTrip(d: Dict, f: string, ss: seq<string>)
    requires f in d && d[f] == StrList(ss)
    ensures GetStrList(d, f) == Some(ss)
  {
    var items := d[f].items;
    assert AllStr(items);
    var read := seq(|items|, i requires 0 <= i < |items| => items[i].s);
    assert read == ss;
  }

  /** The conversion loses nothing: each record's dictionary decodes back to the record. */
  lemma DictRoundTrip(rec: Record)
    ensures DecodeRecord(KindOf(rec), RecordToDict(rec)) == Some(rec)
  {
    match rec
    case Dns(r) => DnsDictRoundTrip(r);
    case Ping(r) => PingDictRoundTrip(r);
    case Tcp(r) => TcpDictRoundTrip(r);
    case Http(r) => HttpDictRoundTrip(r);
    case Tls(r) => TlsDictRoundTrip(r);
  }

  lemma DnsDictRoundTrip(r: DnsResult)
    ensures DecodeRecord(DnsKind, RecordToDict(Dns(r))) == Some(Dns(r))
  {
    StrListRoundTrip(RecordToDict(Dns(r)), "ips", r.ips);
  }

  lemma PingDictRoundTrip(r: PingResult)
    ensures DecodeRecord(PingKind, RecordToDict(Ping(r))) == Some(Ping(r))
  {
  }

  lemma TcpDictRoundTrip(r: TcpResult)
    ensures DecodeRecord(TcpKind, RecordToDict(Tcp(r))) == Some(Tcp(r))
  {
  }

  lemma HttpDictRoundTrip(r: HttpResult)
    ensures DecodeRecord(HttpKind, RecordToDict(Http(r))) == Some(Http(r))
  {
  }

  lemma TlsDictRoundTrip(r: TlsResult)
    ensures DecodeRecord(TlsKind, RecordToDict(Tls(r))) == Some(Tls(r))
  {
  }

  /** A converted results value: a dictionary, or a list of them. */
  datatype Converted = Single(d: Dict) | Listed(ds: seq<Dict>)

  /** Structure-preserving conversion: a list stays a list of the same length and order. */
  function Convert(e: Entry): (c: Converted)
    ensures e.One? <==> c.Single?
    ensures e.One? ==> c.d == RecordToDict(e.rec)
    ensures e.Many? ==> |c.ds| == |e.recs| && forall i :: 0 <= i < |e.recs| ==> c.ds[i] == RecordToDict(e.recs[i])
  {
    match e
    case One(r) => Single(RecordToDict(r))
    case Many(rs) => Listed(seq(|rs|, i requires 0 <= i < |rs| => RecordToDict(rs[i])))
  }

  /** The report: the verdict, the time it was generated, and the converted results. */
  datatype Report = Report(ok: bool, generatedAt: string, results: map<string, Converted>)

  /**
   * `build_report`: folds `ok` over the entries of the results (in whatever
   * order the map yields them) and converts every entry. `generatedAt` is the
   * ISO-8601 time of the clock, an input here.
   */
  method BuildReport(results: Results, generatedAt: string) returns (rep: Report)
    ensures rep.ok == AllOk(results)
    ensures results == map[] ==> rep.ok
    ensures rep.generatedAt == generatedAt
    ensures rep.results.Keys == results.Keys
    ensures forall k :: k in results ==> rep.results[k] == Convert(results[k])
  {
    var ok := true;
    var todo := results.Keys;
    while todo != {}
      invariant todo <= results.Keys
      invariant ok == forall k :: k in results.Keys - todo ==> EntryOk(results[k])
      decreases |todo|
    {
      var k :| k in todo;
      ok := ok && EntryOk(results[k]);
      todo := todo - {k};
    }
    var converted := map k | k in results :: Convert(results[k]);
    rep := Report(ok, generatedAt, converted);
  }

  /**
   * The report `BuildReport` makes from results shaped as the checks make
   * them: its verdict is the fold of `ok`, and it can be shown.
   */
  function BuiltReport(results: Results, generatedAt: string): (rep: Report)
    requires Shaped(results)
    ensures Renderable(rep)
    ensures rep.ok == AllOk(results) && rep.generatedAt == generatedAt
    ensures rep.results.Keys == results.Keys
  {
    var rep := Report(AllOk(results), generatedAt, map k | k in results :: Convert(results[k]));
    BuiltReportRenderable(results, rep, DnsKind);
    rep
  }

  /** One failing record anywhere makes the whole verdict fail. */
  lemma OneFailureFailsAll(results: Results, k: string, i: nat)
    requires k in results
    requires results[k].One? ==> !RecordOk(results[k].rec)
    requires results[k].Many? ==> i < |results[k].recs| && !RecordOk(results[k].recs[i])
    ensures !AllOk(results)
  {
    assert !EntryOk(results[k]);
  }

  // ---------------------------------------------------------------- console

  /** Number formatting the console text uses: `f"{x:.1f}"` and `str(x)` of a float. */
  datatype Formats = Formats(fixed1: real -> string, repr: real -> string)

  /** The report can be shown: each kind's key holds its kind of entry, in decodable form. */
  predicate ConvertedHasKind(c: Converted, k: Kind) {
    if IsListKind(k) then c.Listed? && forall i :: 0 <= i < |c.ds| ==> DecodeRecord(k, c.ds[i]).Some?
    else c.Single? && DecodeRecord(k, c.d).Some?
  }

  predicate Renderable(rep: Report) {
    forall k: Kind :: Key(k) in rep.results ==> ConvertedHasKind(rep.results[Key(k)], k)
  }

  /** The records stored under the key of kind `k`, read back from their dictionaries. */
  function Decoded(rep: Report, k: Kind): (recs: seq<Record>)
    requires Renderable(rep) && Key(k) in rep.results
    ensures forall i :: 0 <= i < |recs| ==> KindOf(recs[i]) == k
  {
    var c := rep.results[Key(k)];
    assert ConvertedHasKind(c, k);
    if IsListKind(k) then seq(|c.ds|, i requires 0 <= i < |c.ds| => DecodeRecord(k, c.ds[i]).value)
    else [DecodeRecord(k, c.d).value]
  }

  /**
   * A report built from results shaped as the checks make them can be shown,
   * and the console shows exactly the records the results held.
   */
  lemma BuiltReportRenderable(results: Results, rep: Report, k: Kind)
    requires Shaped(results)
    requires rep.results.Keys == results.Keys
    requires forall key :: key in results ==> rep.results[key] == Convert(results[key])
    ensures Renderable(rep)
    ensures Key(k) in results ==>
      Decoded(rep, k) == (if IsListKind(k) then results[Key(k)].recs else [results[Key(k)].rec])
  {
    forall j: Kind | Key(j) in rep.results ensures ConvertedHasKind(rep.results[Key(j)], j) {
      assert EntryHasKind(results[Key(j)], j);
      var e := results[Key(j)];
      if IsListKind(j) {
        forall i | 0 <= i < |e.recs| ensures DecodeRecord(j, RecordToDict(e.recs[i])).Some? {
          DictRoundTrip(e.recs[i]);
        }
      } else {
        DictRoundTrip(e.rec);
      }
    }
    if Key(k) in results {
      var e := results[Key(k)];
      assert EntryHasKind(e, k);
      if IsListKind(k) {
        forall i | 0 <= i < |e.recs| ensures DecodeRecord(k, RecordToDict(e.recs[i])) == Some(e.recs[i]) {
          DictRoundTrip(e.recs[i]);
        }
      } else {
        DictRoundTrip(e.rec);
      }
    }
  }

  predicate StartsWith(s: string, p: string) {
    |p| <= |s| && s[..|p|] == p
  }

  const Dash: string := "\U{2014}"

  /** The three header lines: the verdict, the generation time, a blank line. */
  function Header(ok: bool, generatedAt: string): seq<string> {
    ["NetCheck " + Dash + " status: " + (if ok then "OK" else "ISSUES"), "Generated: " + generatedAt, ""]
  }

  /** `block(title)`: the title, underlined with as many '-' as it has characters. */
  function Block(title: string): seq<string> {
    [title, Repeat('-', |title|)]
  }

  function Title(k: Kind): string {
    match k
    case DnsKind => "DNS"
    case PingKind => "PING"
    case TcpKind => "TCP"
    case HttpKind => "HTTP"
    case TlsKind => "TLS"
  }

  function Verdict(ok: bool): string {
    if ok then "OK" else "FAIL"
  }

  /** `status=` text of an HTTP record: the code, or "-" when there is none. */
  function StatusText(status: Option<int>): string {
    match status
    case None => "-"
    case Some(s) => IntToString(s)
  }

  /** The status text reads back as the code, and is "-" exactly when there is none. */
  lemma StatusTextRoundTrip(status: Option<int>)
    ensures status.None? <==> StatusText(status) == "-"
    ensures status.Some? ==> ParseInt(StatusText(status)) == Some(status.value)
  {
    if status.Some? {
      IntToStringRoundTrip(status.value);
      assert StatusText(status)[0] != '-' || |StatusText(status)| > 1;
    }
  }

  /** The days text of a TLS record: "<n> days left", or nothing when unknown. */
  function DaysText(days: Option<int>): (t: string)
    ensures days.None? <==> t == ""
  {
    match days
    case None => ""
    case Some(n) => IntToString(n) + " days left"
  }

  /** The days text is the count, read back by `int()`, followed by " days left". */
  lemma DaysTextRoundTrip(days: Option<int>)
    ensures days.Some? ==> var t := DaysText(days); var n := |t| - |" days left"|;
      0 < n && t[n..] == " days left" && ParseInt(t[..n]) == Some(days.value)
  {
    if days.Some? {
      var s := IntToString(days.value);
      var t := DaysText(days);
      assert t[..|s|] == s && t[|s|..] == " days left";
      IntToStringRoundTrip(days.value);
    }
  }

  /** What follows the verdict word on a record's result line. */
  function Summary(rec: Record, fmt: Formats): string {
    match rec
    case Dns(r) => r.hostname + "  " + Join(r.ips, ", ") + "  (" + fmt.fixed1(r.ms) + " ms)"
    case Ping(r) =>
      var extra := if r.avgMs.Some? then "avg=" + fmt.repr(r.avgMs.value) + " ms" else "";
      r.host + "  rx=" + IntToString(r.received) + "/" + IntToString(r.transmitted)
      + " loss=" + fmt.fixed1(r.lossPct) + "% " + extra + " (" + fmt.fixed1(r.ms) + " ms)"
    case Tcp(r) => r.host + ":" + IntToString(r.port) + "  (" + fmt.fixed1(r.ms) + " ms)"
    case Http(r) => r.url + "  status=" + StatusText(r.status) + "  (" + fmt.fixed1(r.ms) + " ms)"
    case Tls(r) => r.host + ":" + IntToString(r.port) + "  " + DaysText(r.daysLeft)
  }

  /**
   * The result line of a record: "OK" when the record is ok and "FAIL"
   * otherwise, two spaces, then the record's summary.
   */
  function ResultLine(rec: Record, fmt: Formats): (l: string)
    ensures l == Verdict(RecordOk(rec)) + "  " + Summary(rec, fmt)
    ensures StartsWith(l, "OK  ") <==> RecordOk(rec)
    ensures StartsWith(l, "FAIL  ") <==> !RecordOk(rec)
  {
    VerdictLine(RecordOk(rec), Summary(rec, fmt))
  }

  /** A verdict word, two spaces, then the summary. */
  function VerdictLine(ok: bool, summary: string): (l: string)
    ensures StartsWith(l, "OK  ") <==> ok
    ensures StartsWith(l, "FAIL  ") <==> !ok
  {
    var l := Verdict(ok) + "  " + summary;
    assert ok ==> l[..4] == "OK  " && l[0] == 'O';
    assert !ok ==> l[..6] == "FAIL  " && l[0] == 'F';
    l
  }

  /**
   * The DNS line after its verdict: hostname, the addresses joined by ", "
   * (nothing when there are none) and the elapsed time. The joined text of
   * addresses without commas or spaces splits back into the addresses.
   */
  lemma DnsLine(r: DnsResult, fmt: Formats)
    ensures Summary(Dns(r), fmt) ==
      r.hostname + "  " + Join(r.ips, ", ") + "  (" + fmt.fixed1(r.ms) + " ms)"
    ensures r.ips == [] ==> Join(r.ips, ", ") == ""
    ensures r.ips != [] && (forall i :: 0 <= i < |r.ips| ==> ',' !in r.ips[i] && ' ' !in r.ips[i]) ==>
      Split(Join(r.ips, ", "), ", ") == r.ips
  {
    if r.ips != [] && forall i :: 0 <= i < |r.ips| ==> ',' !in r.ips[i] && ' ' !in r.ips[i] {
      SplitJoinAddresses(r.ips);
    }
  }

  /** Splitting at ", " undoes joining addresses that hold neither a comma nor a space. */
  lemma {:induction false} SplitJoinAddresses(ips: seq<string>)
    requires ips != []
    requires forall i :: 0 <= i < |ips| ==> ',' !in ips[i] && ' ' !in ips[i]
    ensures Split(Join(ips, ", "), ", ") == ips
  {
    var a := ips[0];
    MissingCharNotContained(a, ", ", ',');
    if |ips| == 1 {
      SplitWithout(a, ", ");
    } else {
      var rest := Join(ips[1..], ", ");
      if a != [] {
        assert a[|a| - 1] in a;
      }
      IndexOfAfter(a, ", ", rest);
      var s := a + ", " + rest;
      assert s[..|a|] == a;
      assert s[|a| + 2..] == rest;
      SplitJoinAddresses(ips[1..]);
      assert ips == [a] + ips[1..];
    }
  }

  /**
   * The ping line after its verdict: host, `rx=<received>/<transmitted>`, the
   * loss with one decimal, the average when there is one, and the elapsed
   * time. For a host without spaces, the third space-separated field of the
   * line is "rx=" and the two counts, which split at "/" and read back.
   */
  lemma PingLine(r: PingResult, fmt: Formats)
    ensures Summary(Ping(r), fmt) ==
      r.host + "  rx=" + IntToString(r.received) + "/" + IntToString(r.transmitted)
      + " loss=" + fmt.fixed1(r.lossPct) + "% "
      + (if r.avgMs.Some? then "avg=" + fmt.repr(r.avgMs.value) + " ms" else "")
      + " (" + fmt.fixed1(r.ms) + " ms)"
    ensures ' ' !in r.host ==>
      var fields := Split(Summary(Ping(r), fmt), " ");
      |fields| >= 3 && fields[0] == r.host && |fields[2]| >= 3 && fields[2][..3] == "rx="
      && |Split(fields[2][3..], "/")| == 2
      && ParseInt(Split(fields[2][3..], "/")[0]) == Some(r.received)
      && ParseInt(Split(fields[2][3..], "/")[1]) == Some(r.transmitted)
  {
    if ' ' !in r.host {
      var extra := if r.avgMs.Some? then "avg=" + fmt.repr(r.avgMs.value) + " ms" else "";
      RxField(r.host, r.received, r.transmitted, fmt.fixed1(r.lossPct), extra, fmt.fixed1(r.ms));
    }
  }

  /** The read-back of `PingLine`, over the pieces of the ping summary. */
  lemma RxField(host: string, received: int, transmitted: int, loss: string, extra: string, ms: string)
    requires ' ' !in host
    ensures var fields := Split(host + "  rx=" + IntToString(received) + "/" + IntToString(transmitted)
        + " loss=" + loss + "% " + extra + " (" + ms + " ms)", " ");
      |fields| >= 3 && fields[0] == host && |fields[2]| >= 3 && fields[2][..3] == "rx="
      && |Split(fields[2][3..], "/")| == 2
      && ParseInt(Split(fields[2][3..], "/")[0]) == Some(received)
      && ParseInt(Split(fields[2][3..], "/")[1]) == Some(transmitted)
  {
    var rx, tx := IntToString(received), IntToString(transmitted);
    var c := "rx=" + rx + "/" + tx;
    CharNotInIntText(' ', received);
    CharNotInIntText(' ', transmitted);
    assert ' ' !in c;
    PingRegroup(host, rx, tx, loss, extra, ms);
    ThirdField(host, c, "loss=" + loss + "% " + extra + " (" + ms + " ms)");
    assert c[..3] == "rx=" && c[3..] == rx + "/" + tx;
    CountsSplit(received, transmitted);
  }

  lemma PingRegroup(host: string, rx: string, tx: string, loss: string, extra: string, ms: string)
    ensures host + "  rx=" + rx + "/" + tx + " loss=" + loss + "% " + extra + " (" + ms + " ms)"
      == host + "  " + ("rx=" + rx + "/" + tx) + " " + ("loss=" + loss + "% " + extra + " (" + ms + " ms)")
  {
    assert "  rx=" == "  " + "rx=";
    assert " loss=" == " " + "loss=";
  }

  /** `str(received) + "/" + str(transmitted)` splits at "/" into the two counts, which read back. */
  lemma CountsSplit(received: int, transmitted: int)
    ensures var parts := Split(IntToString(received) + "/" + IntToString(transmitted), "/");
      |parts| == 2 && ParseInt(parts[0]) == Some(received) && ParseInt(parts[1]) == Some(transmitted)
  {
    var rx, tx := IntToString(received), IntToString(transmitted);
    CharNotInIntText('/', received);
    CharNotInIntText('/', transmitted);
    FieldSplit(rx, '/', tx);
    IntToStringRoundTrip(received);
    IntToStringRoundTrip(transmitted);
  }

  /** `a + [c] + b` splits at `c` into `a` and `b` when neither holds `c`. */
  lemma FieldSplit(a: string, c: char, b: string)
    requires c !in a && c !in b
    ensures Split(a + [c] + b, [c]) == [a, b]
  {
    SplitAfter(a, c, b);
    MissingCharNotContained(b, [c], c);
    SplitWithout(b, [c]);
  }

  /** The fields of `host + "  " + c + " " + tail` at single spaces start with `host`, "" and `c`. */
  lemma ThirdField(host: string, c: string, tail: string)
    requires ' ' !in host && ' ' !in c
    ensures var fields := Split(host + "  " + c + " " + tail, " ");
      |fields| >= 3 && fields[0] == host && fields[1] == "" && fields[2] == c
  {
    var z := c + [' '] + tail;
    assert host + "  " + c + " " + tail == host + [' '] + ([] + [' '] + z);
    SplitAfter(host, ' ', [] + [' '] + z);
    SplitAfter([], ' ', z);
    SplitAfter(c, ' ', tail);
  }

  /** The first field of `a + " " + b` at single spaces is `a` when `a` has no space. */
  lemma FirstField(a: string, b: string)
    requires ' ' !in a
    ensures Split(a + " " + b, " ")[0] == a
  {
    SplitAfter(a, ' ', b);
  }

  /**
   * `host:port` and what follows a space after it: for a host without spaces
   * or colons, the first space-separated field splits at ":" into the host
   * and the port's text, which reads back as the port.
   */
  lemma HostPortField(host: string, port: int, b: string)
    requires ' ' !in host && ':' !in host
    ensures var field := Split(host + ":" + IntToString(port) + " " + b, " ")[0];
      Split(field, ":") == [host, IntToString(port)] && ParseInt(Split(field, ":")[1]) == Some(port)
  {
    var d := IntToString(port);
    CharNotInIntText(' ', port);
    CharNotInIntText(':', port);
    FirstField(host + ":" + d, b);
    FieldSplit(host, ':', d);
    IntToStringRoundTrip(port);
  }

  /**
   * The TCP line after its verdict: `host:port` and the elapsed time. For a
   * host without spaces or colons, the first field of the line splits at
   * ":" into the host and the port, which reads back.
   */
  lemma TcpLine(r: TcpResult, fmt: Formats)
    ensures Summary(Tcp(r), fmt) ==
      r.host + ":" + IntToString(r.port) + "  (" + fmt.fixed1(r.ms) + " ms)"
    ensures ' ' !in r.host && ':' !in r.host ==>
      var field := Split(Summary(Tcp(r), fmt), " ")[0];
      Split(field, ":") == [r.host, IntToString(r.port)] && ParseInt(Split(field, ":")[1]) == Some(r.port)
  {
    if ' ' !in r.host && ':' !in r.host {
      TcpRegroup(r.host + ":" + IntToString(r.port), fmt.fixed1(r.ms));
      HostPortField(r.host, r.port, " (" + fmt.fixed1(r.ms) + " ms)");
    }
  }

  lemma TcpRegroup(a: string, ms: string)
    ensures a + "  (" + ms + " ms)" == a + " " + (" (" + ms + " ms)")
  {
    assert "  (" == " " + " (";
  }

  lemma TlsRegroup(a: string, days: string)
    ensures a + "  " + days == a + " " + (" " + days)
  {
    assert "  " == " " + " ";
  }

  /**
   * The HTTP line after its verdict: URL, `status=` and the status text, and the
   * elapsed time. The status text is "-" exactly when there is no status,
   * and otherwise reads back as the code.
   */
  lemma HttpLine(r: HttpResult, fmt: Formats)
    ensures Summary(Http(r), fmt) ==
      r.url + "  status=" + StatusText(r.status) + "  (" + fmt.fixed1(r.ms) + " ms)"
    ensures r.status.None? <==> StatusText(r.status) == "-"
    ensures r.status.Some? ==> ParseInt(StatusText(r.status)) == r.status
  {
    StatusTextRoundTrip(r.status);
  }

  /**
   * The TLS line after its verdict: `host:port` and the days text, which is
   * empty when the days are unknown. For a host without spaces or colons,
   * the first field of the line splits at ":" into the host and the port,
   * which reads back.
   */
  lemma TlsLine(r: TlsResult, fmt: Formats)
    ensures Summary(Tls(r), fmt) == r.host + ":" + IntToString(r.port) + "  " + DaysText(r.daysLeft)
    ensures r.daysLeft.None? ==> Summary(Tls(r), fmt) == r.host + ":" + IntToString(r.port) + "  "
    ensures ' ' !in r.host && ':' !in r.host ==>
      var field := Split(Summary(Tls(r), fmt), " ")[0];
      Split(field, ":") == [r.host, IntToString(r.port)] && ParseInt(Split(field, ":")[1]) == Some(r.port)
  {
    var line := Summary(Tls(r), fmt);
    assert line == r.host + ":" + IntToString(r.port) + "  " + DaysText(r.daysLeft);
    if ' ' !in r.host && ':' !in r.host {
      HostPortThenSpaces(r.host, r.port, DaysText(r.daysLeft), line);
    }
  }

  /** The read-back of `TlsLine`, over the pieces of the TLS summary. */
  lemma HostPortThenSpaces(host: string, port: int, days: string, line: string)
    requires ' ' !in host && ':' !in host
    requires line == host + ":" + IntToString(port) + "  " + days
    ensures var field := Split(line, " ")[0];
      Split(field, ":") == [host, IntToString(port)] && ParseInt(Split(field, ":")[1]) == Some(port)
  {
    TlsRegroup(host + ":" + IntToString(port), days);
    HostPortField(host, port, " " + days);
  }

  const Indent: string := "      "

  /** The truthiness test `if x:` on an optional text: present and non-empty. */
  predicate Truthy(o: Option<string>) {
    o.Some? && o.value != ""
  }

  /** The indented error line, present exactly when the error text is non-empty. */
  function ErrorLines(error: Option<string>): (ls: seq<string>)
    ensures |ls| <= 1
    ensures ls != [] <==> Truthy(error)
    ensures ls != [] ==> ls[0] == Indent + error.value
  {
    if Truthy(error) then [Indent + error.value] else []
  }

  /** The TLS "expires:" line, present exactly when `not_after` is non-empty. */
  function ExpiresLines(notAfter: Option<string>): (ls: seq<string>)
    ensures |ls| <= 1
    ensures ls != [] <==> Truthy(notAfter)
    ensures ls != [] ==> ls[0] == Indent + "expires: " + notAfter.value
  {
    if Truthy(notAfter) then [Indent + "expires: " + notAfter.value] else []
  }

  /** The "expires:" line of a TLS record; other records have none. */
  function ExpiryPart(rec: Record): seq<string> {
    if rec.Tls? then ExpiresLines(rec.tls.notAfter) else []
  }

  /** The indented lines under a record's result line. */
  function DetailLines(rec: Record): seq<string> {
    ExpiryPart(rec) + ErrorLines(RecordError(rec))
  }

  /** The lines of one record: its result line, then its detail lines. */
  function EntryLines(rec: Record, fmt: Formats): seq<string> {
    [ResultLine(rec, fmt)] + DetailLines(rec)
  }

  /** The lines of a list of records, in list order. */
  function Entries(recs: seq<Record>, fmt: Formats): seq<string> {
    if recs == [] then [] else Entries(recs[..|recs| - 1], fmt) + EntryLines(recs[|recs| - 1], fmt)
  }

  lemma EntriesSnoc(recs: seq<Record>, i: nat, fmt: Formats)
    requires i < |recs|
    ensures Entries(recs[..i + 1], fmt) == Entries(recs[..i], fmt) + EntryLines(recs[i], fmt)
  {
    assert recs[..i + 1][..i] == recs[..i];
  }

  lemma Assoc4(a: seq<string>, b: seq<string>, c: seq<string>, d: seq<string>)
    ensures a + b + c + d == a + (b + c + d)
  {
  }

  /** A block: title, underline, the records' lines, a blank line. */
  function Section(title: string, recs: seq<Record>, fmt: Formats): seq<string> {
    Block(title) + Entries(recs, fmt) + [""]
  }

  /** The block of kind `k`, or nothing when the report has no such key. */
  function SectionOf(rep: Report, k: Kind, fmt: Formats): seq<string>
    requires Renderable(rep)
  {
    if Key(k) in rep.results then Section(Title(k), Decoded(rep, k), fmt) else []
  }

  /** The order in which the blocks are emitted. */
  const Order: seq<Kind> := [DnsKind, PingKind, TcpKind, HttpKind, TlsKind]

  /** The blocks of the kinds `ks`, one after the other. */
  function Sections(rep: Report, ks: seq<Kind>, fmt: Formats): seq<string>
    requires Renderable(rep)
  {
    if ks == [] then [] else Sections(rep, ks[..|ks| - 1], fmt) + SectionOf(rep, ks[|ks| - 1], fmt)
  }

  /** `format_console` as a list of lines: the header, then the blocks in a fixed order. */
  function ConsoleLines(rep: Report, fmt: Formats): seq<string>
    requires Renderable(rep)
  {
    Header(rep.ok, rep.generatedAt) + Sections(rep, Order, fmt)
  }

  /**
   * `format_console`: appends the header, then for each present key its block
   * (one result line per record, in list order, each followed by its indented
   * lines), and joins the lines with newlines. The five `if "<key>" in res`
   * tests of the source, in their order, are the iterations over `Order`.
   */
  method FormatConsole(rep: Report, fmt: Formats) returns (text: string)
    requires Renderable(rep)
    ensures text == Join(ConsoleLines(rep, fmt), "\n")
  {
    var lines: seq<string> := [];
    lines := lines + ["NetCheck " + Dash + " status: " + (if rep.ok then "OK" else "ISSUES")];
    lines := lines + ["Generated: " + rep.generatedAt];
    lines := lines + [""];
    for n := 0 to |Order|
      invariant lines == Header(rep.ok, rep.generatedAt) + Sections(rep, Order[..n], fmt)
    {
      var k := Order[n];
      ghost var before := lines;
      if Key(k) in rep.results {
        var recs := Decoded(rep, k);
        var block := EmitSection(Title(k), recs, fmt);
        lines := lines + block;
      }
      assert lines == before + SectionOf(rep, k, fmt);
      SectionsSnoc(rep, Order, n, fmt);
      SeqAssoc(Header(rep.ok, rep.generatedAt), Sections(rep, Order[..n], fmt), SectionOf(rep, k, fmt));
    }
    assert Order[..|Order|] == Order;
    text := Join(lines, "\n");
  }

  lemma SectionsSnoc(rep: Report, ks: seq<Kind>, n: nat, fmt: Formats)
    requires Renderable(rep) && n < |ks|
    ensures Sections(rep, ks[..n + 1], fmt) == Sections(rep, ks[..n], fmt) + SectionOf(rep, ks[n], fmt)
  {
    assert ks[..n + 1][..n] == ks[..n];
  }

  /** One block: `block(title)`, then each record's lines, then a blank line. */
  method EmitSection(title: string, recs: seq<Record>, fmt: Formats) returns (lines: seq<string>)
    ensures lines == Section(title, recs, fmt)
  {
    lines := Block(title);
    for i := 0 to |recs|
      invariant lines == Block(title) + Entries(recs[..i], fmt)
    {
      var entry := EmitEntry(recs[i], fmt);
      EntriesSnoc(recs, i, fmt);
      SeqAssoc(Block(title), Entries(recs[..i], fmt), entry);
      lines := lines + entry;
    }
    assert recs[..|recs|] == recs;
    lines := lines + [""];
  }

  /** One record: its result line, then the "expires:" line of a TLS record, then its error line. */
  method EmitEntry(r: Record, fmt: Formats) returns (entry: seq<string>)
    ensures entry == EntryLines(r, fmt)
  {
    entry := [ResultLine(r, fmt)];
    if r.Tls? && Truthy(r.tls.notAfter) {
      entry := entry + [Indent + "expires: " + r.tls.notAfter.value];
    }
    assert entry == [ResultLine(r, fmt)] + ExpiryPart(r);
    if Truthy(RecordError(r)) {
      entry := entry + [Indent + RecordError(r).value];
    }
    SeqAssoc([ResultLine(r, fmt)], ExpiryPart(r), ErrorLines(RecordError(r)));
  }

  // ---------------------------------------------------------------- console properties

  /** The first line gives the verdict; the second the generation time. */
  lemma HeaderLines(rep: Report, fmt: Formats)
    requires Renderable(rep)
    ensures var ls := ConsoleLines(rep, fmt);
      |ls| >= 3
      && (ls[0] == "NetCheck " + Dash + " status: OK" <==> rep.ok)
      && (ls[0] == "NetCheck " + Dash + " status: ISSUES" <==> !rep.ok)
      && ls[1] == "Generated: " + rep.generatedAt
      && ls[2] == ""
  {
    var ok := "NetCheck " + Dash + " status: OK";
    var issues := "NetCheck " + Dash + " status: ISSUES";
    assert |ok| != |issues|;
  }

  predicate IsTitle(l: string) {
    l == "DNS" || l == "PING" || l == "TCP" || l == "HTTP" || l == "TLS"
  }

  /** The title lines of `lines`, in order. */
  function Titles(lines: seq<string>): seq<string> {
    if lines == [] then []
    else Titles(lines[..|lines| - 1]) + (if IsTitle(lines[|lines| - 1]) then [lines[|lines| - 1]] else [])
  }

  lemma {:induction false} TitlesAppend(a: seq<string>, b: seq<string>)
    ensures Titles(a + b) == Titles(a) + Titles(b)
    decreases |b|
  {
    if b == [] {
      assert a + b == a;
    } else {
      var c := b[..|b| - 1];
      assert (a + b)[..|a + b| - 1] == a + c;
      TitlesAppend(a, c);
    }
  }

  /** A line whose first character no title starts with is not a title. */
  predicate NotTitleStart(l: string) {
    l == [] || (l[0] != 'D' && l[0] != 'P' && l[0] != 'T' && l[0] != 'H')
  }

  lemma {:induction false} NoTitles(lines: seq<string>)
    requires forall i :: 0 <= i < |lines| ==> NotTitleStart(lines[i])
    ensures Titles(lines) == []
  {
    if lines != [] {
      NoTitles(lines[..|lines| - 1]);
      var l := lines[|lines| - 1];
      assert NotTitleStart(l);
    }
  }

  lemma ResultLineStart(rec: Record, fmt: Formats)
    ensures NotTitleStart(ResultLine(rec, fmt))
  {
    var l := ResultLine(rec, fmt);
    if RecordOk(rec) {
      assert l[..4] == "OK  ";
    } else {
      assert l[..6] == "FAIL  ";
    }
  }

  lemma {:induction false} EntriesNotTitles(recs: seq<Record>, fmt: Formats)
    ensures forall i :: 0 <= i < |Entries(recs, fmt)| ==> NotTitleStart(Entries(recs, fmt)[i])
  {
    if recs != [] {
      var init, last := recs[..|recs| - 1], recs[|recs| - 1];
      EntriesNotTitles(init, fmt);
      ResultLineStart(last, fmt);
      var e := EntryLines(last, fmt);
      forall i | 0 <= i < |e| ensures NotTitleStart(e[i]) {
        if i > 0 {
          assert e[i] in DetailLines(last);
          assert e[i][0] == ' ';
        }
      }
    }
  }

  lemma SectionTitles(title: string, recs: seq<Record>, fmt: Formats)
    requires IsTitle(title)
    ensures Titles(Section(title, recs, fmt)) == [title]
  {
    EntriesNotTitles(recs, fmt);
    DashesNotTitle(|title|);
    BlockTitles(title, Repeat('-', |title|), Entries(recs, fmt));
  }

  lemma NotTitleStarts(d: string, e: seq<string>)
    requires NotTitleStart(d)
    requires forall i :: 0 <= i < |e| ==> NotTitleStart(e[i])
    ensures forall i :: 0 <= i < |[d] + e + [""]| ==> NotTitleStart(([d] + e + [""])[i])
  {
    var rest := [d] + e + [""];
    forall i | 0 <= i < |rest| ensures NotTitleStart(rest[i]) {
      if i == 0 {
        assert rest[i] == d;
      } else if i <= |e| {
        assert rest[i] == e[i - 1];
      } else {
        assert rest[i] == "";
      }
    }
  }

  /** A title, a non-title line, non-title lines and a blank line hold just the one title. */
  lemma BlockTitles(title: string, d: string, e: seq<string>)
    requires IsTitle(title) && NotTitleStart(d)
    requires forall i :: 0 <= i < |e| ==> NotTitleStart(e[i])
    ensures Titles([title, d] + e + [""]) == [title]
  {
    var rest := [d] + e + [""];
    NotTitleStarts(d, e);
    NoTitles(rest);
    BlockSplit(title, d, e);
    TitlesAppend([title], rest);
    assert [title][..0] == [];
  }

  function TitleIf(rep: Report, k: Kind): seq<string> {
    if Key(k) in rep.results then [Title(k)] else []
  }

  lemma SectionOfTitles(rep: Report, k: Kind, fmt: Formats)
    requires Renderable(rep)
    ensures Titles(SectionOf(rep, k, fmt)) == TitleIf(rep, k)
  {
    if Key(k) in rep.results {
      SectionTitles(Title(k), Decoded(rep, k), fmt);
    }
  }

  /** The titles of the kinds of `ks` that the report holds, in the order of `ks`. */
  function PresentTitles(rep: Report, ks: seq<Kind>): seq<string> {
    if ks == [] then [] else PresentTitles(rep, ks[..|ks| - 1]) + TitleIf(rep, ks[|ks| - 1])
  }

  lemma {:induction false} SectionsTitles(rep: Report, ks: seq<Kind>, fmt: Formats)
    requires Renderable(rep)
    ensures Titles(Sections(rep, ks, fmt)) == PresentTitles(rep, ks)
  {
    if ks != [] {
      var init := ks[..|ks| - 1];
      SectionsTitles(rep, init, fmt);
      SectionOfTitles(rep, ks[|ks| - 1], fmt);
      TitlesAppend(Sections(rep, init, fmt), SectionOf(rep, ks[|ks| - 1], fmt));
    }
  }

  /**
   * The blocks appear in the fixed order DNS, PING, TCP, HTTP, TLS, each
   * exactly when its key is in the report: those are the only title lines.
   */
  lemma ConsoleTitles(rep: Report, fmt: Formats)
    requires Renderable(rep)
    ensures Titles(ConsoleLines(rep, fmt))
      == TitleIf(rep, DnsKind) + TitleIf(rep, PingKind) + TitleIf(rep, TcpKind)
         + TitleIf(rep, HttpKind) + TitleIf(rep, TlsKind)
  {
    var h := Header(rep.ok, rep.generatedAt);
    assert forall i :: 0 <= i < |h| ==> NotTitleStart(h[i]);
    NoTitles(h);
    SectionsTitles(rep, Order, fmt);
    TitlesAppend(h, Sections(rep, Order, fmt));
    PresentTitlesOfOrder(rep);
  }

  lemma PresentTitlesOfOrder(rep: Report)
    ensures PresentTitles(rep, Order)
      == TitleIf(rep, DnsKind) + TitleIf(rep, PingKind) + TitleIf(rep, TcpKind)
         + TitleIf(rep, HttpKind) + TitleIf(rep, TlsKind)
  {
    var o4, o3, o2, o1 := Order[..4], Order[..3], Order[..2], Order[..1];
    assert o4[..3] == o3 && o3[..2] == o2 && o2[..1] == o1 && o1[..0] == [];
    assert PresentTitles(rep, o1) == TitleIf(rep, DnsKind);
    assert PresentTitles(rep, o2) == PresentTitles(rep, o1) + TitleIf(rep, PingKind);
    assert PresentTitles(rep, o3) == PresentTitles(rep, o2) + TitleIf(rep, TcpKind);
    assert PresentTitles(rep, o4) == PresentTitles(rep, o3) + TitleIf(rep, HttpKind);
    assert PresentTitles(rep, Order) == PresentTitles(rep, o4) + TitleIf(rep, TlsKind);
  }

  /** Every title line is directly followed by a line of '-' of the same length. */
  predicate Underlined(lines: seq<string>) {
    forall i :: 0 <= i < |lines| && IsTitle(lines[i]) ==> i + 1 < |lines| && lines[i + 1] == Repeat('-', |lines[i]|)
  }

  lemma UnderlinedAppend(a: seq<string>, b: seq<string>)
    requires Underlined(a) && Underlined(b)
    ensures Underlined(a + b)
  {
    var s := a + b;
    forall i | 0 <= i < |s| && IsTitle(s[i]) ensures i + 1 < |s| && s[i + 1] == Repeat('-', |s[i]|) {
      if i < |a| {
        assert s[i] == a[i];
        assert s[i + 1] == a[i + 1];
      } else {
        assert s[i] == b[i - |a|];
        assert s[i + 1] == b[i + 1 - |a|];
      }
    }
  }

  lemma DashesNotTitle(n: nat)
    ensures NotTitleStart(Repeat('-', n))
  {
    if n > 0 {
      assert Repeat('-', n)[0] == '-';
    }
  }

  lemma BlockSplit(t: string, d: string, e: seq<string>)
    ensures [t, d] + e + [""] == [t] + ([d] + e + [""])
  {
  }

  lemma SectionUnderlined(title: string, recs: seq<Record>, fmt: Formats)
    ensures Underlined(Section(title, recs, fmt))
  {
    EntriesNotTitles(recs, fmt);
    DashesNotTitle(|title|);
    BlockUnderlined(title, Entries(recs, fmt));
  }

  /** A block whose lines after the underline are no titles is underlined. */
  lemma BlockUnderlined(title: string, e: seq<string>)
    requires NotTitleStart(Repeat('-', |title|))
    requires forall i :: 0 <= i < |e| ==> NotTitleStart(e[i])
    ensures Underlined([title, Repeat('-', |title|)] + e + [""])
  {
    var s := [title, Repeat('-', |title|)] + e + [""];
    BlockHead(title, Repeat('-', |title|), e, [""]);
    LaterNoTitles(title, e);
    UnderlinedFirst(s);
  }

  /** The first two lines of a block are its title and its underline. */
  lemma BlockHead<T>(a: T, b: T, e: seq<T>, z: seq<T>)
    ensures var s := [a, b] + e + z; |s| >= 2 && s[0] == a && s[1] == b
  {
  }

  /** Past the title, the lines of a block are no titles. */
  lemma LaterNoTitles(title: string, e: seq<string>)
    requires NotTitleStart(Repeat('-', |title|))
    requires forall i :: 0 <= i < |e| ==> NotTitleStart(e[i])
    ensures var s := [title, Repeat('-', |title|)] + e + [""];
      forall i :: 1 <= i < |s| ==> !IsTitle(s[i])
  {
    var s := [title, Repeat('-', |title|)] + e + [""];
    var rest := [Repeat('-', |title|)] + e + [""];
    BlockSplit(title, Repeat('-', |title|), e);
    NotTitleStarts(Repeat('-', |title|), e);
    forall i | 1 <= i < |s| ensures !IsTitle(s[i]) {
      ConsIndex(title, rest, i);
      StartNotTitle(rest[i - 1]);
    }
  }

  /** Lines whose only title is the first, underlined by the second, are underlined. */
  lemma UnderlinedFirst(s: seq<string>)
    requires |s| >= 2 && s[1] == Repeat('-', |s[0]|)
    requires forall i :: 1 <= i < |s| ==> !IsTitle(s[i])
    ensures Underlined(s)
  {
  }

  lemma ConsIndex(t: string, rest: seq<string>, i: int)
    requires 1 <= i <= |rest|
    ensures ([t] + rest)[i] == rest[i - 1]
  {
  }

  lemma StartNotTitle(l: string)
    requires NotTitleStart(l)
    ensures !IsTitle(l)
  {
    if l != [] {
      assert "DNS"[0] == 'D' && "PING"[0] == 'P' && "TCP"[0] == 'T' && "HTTP"[0] == 'H' && "TLS"[0] == 'T';
    }
  }

  lemma {:induction false} SectionsUnderlined(rep: Report, ks: seq<Kind>, fmt: Formats)
    requires Renderable(rep)
    ensures Underlined(Sections(rep, ks, fmt))
  {
    if ks != [] {
      var k := ks[|ks| - 1];
      SectionsUnderlined(rep, ks[..|ks| - 1], fmt);
      if Key(k) in rep.results {
        SectionUnderlined(Title(k), Decoded(rep, k), fmt);
      }
      UnderlinedAppend(Sections(rep, ks[..|ks| - 1], fmt), SectionOf(rep, k, fmt));
    }
  }

  /** Each block title in the console is underlined by a dashed line of its own length. */
  lemma ConsoleUnderlined(rep: Report, fmt: Formats)
    requires Renderable(rep)
    ensures Underlined(ConsoleLines(rep, fmt))
  {
    var h := Header(rep.ok, rep.generatedAt);
    assert Underlined(h) by {
      forall i | 0 <= i < |h| ensures !IsTitle(h[i]) {
        assert NotTitleStart(h[i]);
      }
    }
    SectionsUnderlined(rep, Order, fmt);
    UnderlinedAppend(h, Sections(rep, Order, fmt));
  }

  predicate IsResultLine(l: string) {
    StartsWith(l, "OK  ") || StartsWith(l, "FAIL  ")
  }

  /** The result lines of `lines`, in order. */
  function ResultLines(lines: seq<string>): seq<string> {
    if lines == [] then []
    else ResultLines(lines[..|lines| - 1]) + (if IsResultLine(lines[|lines| - 1]) then [lines[|lines| - 1]] else [])
  }

  lemma {:induction false} ResultLinesAppend(a: seq<string>, b: seq<string>)
    ensures ResultLines(a + b) == ResultLines(a) + ResultLines(b)
    decreases |b|
  {
    if b == [] {
      assert a + b == a;
    } else {
      var c := b[..|b| - 1];
      assert (a + b)[..|a + b| - 1] == a + c;
      ResultLinesAppend(a, c);
    }
  }

  /** The result line of each record, in order. */
  function ResultLinesOf(recs: seq<Record>, fmt: Formats): (ls: seq<string>)
    ensures |ls| == |recs|
  {
    if recs == [] then [] else ResultLinesOf(recs[..|recs| - 1], fmt) + [ResultLine(recs[|recs| - 1], fmt)]
  }

  lemma DetailLinesNotResults(rec: Record)
    ensures ResultLines(DetailLines(rec)) == []
  {
    var d := DetailLines(rec);
    forall i | 0 <= i < |d| ensures d[i] != [] && d[i][0] == ' ' {
      var b := ExpiryPart(rec);
      if i < |b| {
        assert d[i] == b[i];
      } else {
        assert d[i] == ErrorLines(RecordError(rec))[i - |b|];
      }
    }
    NoResultLines(d);
  }

  lemma {:induction false} NoResultLines(lines: seq<string>)
    requires forall i :: 0 <= i < |lines| ==> lines[i] != [] && lines[i][0] == ' '
    ensures ResultLines(lines) == []
  {
    if lines != [] {
      NoResultLines(lines[..|lines| - 1]);
      var l := lines[|lines| - 1];
      assert l[0] == ' ';
      assert |l| >= 4 ==> l[..4][0] == ' ';
      assert |l| >= 6 ==> l[..6][0] == ' ';
    }
  }

  /**
   * A block emits exactly one result line per record, in list order; its
   * other lines (the indented details) are never mistaken for one.
   */
  lemma {:induction false} EntriesResultLines(recs: seq<Record>, fmt: Formats)
    ensures ResultLines(Entries(recs, fmt)) == ResultLinesOf(recs, fmt)
  {
    if recs != [] {
      var init, last := recs[..|recs| - 1], recs[|recs| - 1];
      EntriesResultLines(init, fmt);
      DetailLinesNotResults(last);
      EntryStep(Entries(init, fmt), ResultLine(last, fmt), DetailLines(last));
    }
  }

  /** Appending a result line and its details adds that one result line. */
  lemma EntryStep(prefix: seq<string>, line: string, details: seq<string>)
    requires IsResultLine(line) && ResultLines(details) == []
    ensures ResultLines(prefix + ([line] + details)) == ResultLines(prefix) + [line]
  {
    ResultLinesAppend(prefix, [line] + details);
    ResultLinesAppend([line], details);
    assert [line][..0] == [];
  }

  /** Without a TLS record, a block has one indented line per record whose error is non-empty. */
  function ErrorCount(recs: seq<Record>): nat {
    if recs == [] then 0
    else ErrorCount(recs[..|recs| - 1]) + (if Truthy(RecordError(recs[|recs| - 1])) then 1 else 0)
  }

  lemma {:induction false} EntriesLength(recs: seq<Record>, fmt: Formats)
    requires forall i :: 0 <= i < |recs| ==> !recs[i].Tls?
    ensures |Entries(recs, fmt)| == |recs| + ErrorCount(recs)
  {
    if recs != [] {
      EntriesLength(recs[..|recs| - 1], fmt);
    }
  }
}
