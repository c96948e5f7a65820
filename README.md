# netcheck, modelled in Dafny

netcheck is a small command-line network diagnostic. From its options it
picks some checks: resolve a host name (`--dns`), ping a host (`--ping`,
`--ping-count`), open TCP connections to a list of `host:port` targets
(`--tcp`), send HTTP requests to a list of URLs (`--http`), and read how long
a server's TLS certificate has left (`--tls`, `--tls-port`). It runs them
concurrently and collects one record per check, or a list of records for
the per-target checks. It then builds a report whose verdict is ok only when
every record is ok, prints the report as console text, and exits with status
0 when all checks passed, 1 when one failed, and 2 when no check was chosen.

This project models the core of that tool and proves properties of the model:

- `checks.dfy` (module `Checks`) holds the five records and the five probes.
  Each network or operating-system effect is an input value (`Probed`):
  either the collaborator's data or the message of the exception it raised,
  plus the elapsed milliseconds. The module also holds the `ping` command
  line and the parser of `ping`'s output for the Windows and the Linux
  summaries. Like the code, the parser reads the BSD and macOS summary line
  as 0 packets received; "## Findings" gives that case and a corrected
  reading, which the parser does not use.
- `cli.dfy` (module `Cli`) holds the `--tcp` and `--http` list parsers, the
  way `run_checks` chooses, runs and stores the probes under their result
  keys, and the exit status of `main`.
- `report.dfy` (module `Report`) holds `to_dict`, `build_report` and
  `format_console`.
- `utils.dfy` (module `Utils`) holds `clamp`.
- `text.dfy` (module `Text`) and `string_order.dfy` (module `StringOrder`)
  model the Python built-ins these rely on: `strip`, `split`, `split()`,
  `splitlines`, `in`, `join`, `int()`, `float()`, `str()`, and `sorted` over
  strings.
- `wrappers.dfy` holds `Option` and `Result`.

The code is the reference. In the HTTP check, `urllib.request.urlopen`
raises on statuses of 400 and above and on 3xx answers it does not follow,
so such an answer gives `ok = false`, no status and the exception's message
(`Checks.HttpCheck`): a record is ok exactly when the request completed
without raising.

## Model

| member | source | states |
|---|---|---|
| Checks.DnsLookup | netcheck/checks.py:25-33 | The record echoes the host name and the measured time. It is ok exactly when the resolver succeeded, and then its error is None. On success the address list is strictly ascending and holds exactly the resolved addresses, with no duplicates. On failure the list is empty and the error is the exception's message. |
| Checks.DnsLookupDeterministic | netcheck/checks.py:30 | The address list depends only on which addresses were resolved, not on their order or how often each appears. |
| StringOrder.SortedSet | netcheck/checks.py:30 | `sorted({...})`: the result is strictly ascending in Python's string order and holds exactly the input's elements. |
| StringOrder.StrictlySortedUnique | netcheck/checks.py:30 | Two strictly ascending lists with the same elements are equal, so the sorted set is unique. |
| StringOrder.LessTotal | netcheck/checks.py:30 | Python's string comparison orders any two different strings one way or the other. |
| StringOrder.LessTransitive | netcheck/checks.py:30 | Python's string comparison is transitive. |
| Checks.TcpConnect | netcheck/checks.py:45-57 | Host, port and time are echoed. The record is ok exactly when the connection opened. The error is None on success and the exception's message otherwise. |
| Checks.HttpCheck | netcheck/checks.py:69-82 | The record is ok exactly when the request completed without raising. `urlopen` raises on error statuses and on redirects it does not follow, such as 304, and a non-numeric `Content-Length` raises in `int()`. On success the status is the returned code and the error is None. Otherwise there is no status and the error is the exception's message. |
| Checks.TlsExpiry | netcheck/checks.py:96-115 | The record is ok exactly when the handshake succeeded, the certificate has a non-empty `notAfter`, and that date parsed. Then the ISO date and days left come from the parse. ok holds exactly when notAfter and days left are present and the error is None. A failed handshake gives its message, a certificate without `notAfter` gives "no notAfter", and a parse failure gives its message. |
| Checks.PingCommandShape | netcheck/checks.py:130-133 | The command is six words: `ping`, the count flag and the count, the timeout flag and the timeout, then the host. Windows uses `-n`, `-w` and the timeout in milliseconds; other systems use `-c`, `-W` and seconds. Both numbers read back through `int()` as the given values. |
| Text.IntToStringRoundTrip | netcheck/checks.py:132-133 | `int(str(i)) == i` for every integer, and `str(i)` has no surrounding whitespace. |
| Checks.PingOutput | netcheck/checks.py:142 | The parsed text is stdout, one newline, then stderr: its prefix is stdout, the next character is a newline, and the rest is stderr. |
| Checks.ParsedReceived | netcheck/checks.py:153-174 | The received count is never negative for a Windows summary. It is 0 when the output is neither a Windows nor a Linux summary, and 0 on the BSD and macOS summary (`Checks.BsdSummaryParsedZero`). |
| Checks.ParsePingOutput | netcheck/checks.py:149-181 | The parser reports `count` as transmitted. It reports the Windows reading when both "Received =" and "Lost =" occur, and otherwise the reading for the other systems. Each extraction that raises in the source gives 0 received or no average. |
| Checks.ParseWindowsSummary | netcheck/checks.py:153-167 | The Windows branch gives the received count of the first piece that mentions "Received". It gives the average read from the digits after "Average =", or none where the source's `try` falls through. |
| Checks.ParsePosixSummary | netcheck/checks.py:168-180 | The branch for the other systems reads the received count only when "packets transmitted" and "received" both occur, and reads the average independently. |
| Checks.ReadPosixReceived | netcheck/checks.py:169-174 | The count is `int()` of the last word before "received" on the first line that mentions "packets transmitted". It is 0 where that line or that word is missing or the word is not an integer. |
| Checks.ReadPosixAvg | netcheck/checks.py:175-180 | The average is the second "/"-field after the first "=" on the first line that mentions "min/avg/max". It is none where any piece is missing or is not a number. |
| Checks.WindowsReceivedOfSummary | netcheck/checks.py:153-160 | Suppose the text after "Packets:" in a Windows summary reads " Sent = t, Received = m, ...". Then the parser reports m received. |
| Checks.ReceivedInSentReceived | netcheck/checks.py:155-158 | The "Packets:" text " Sent = t, Received = m, ..." yields m. |
| Checks.WindowsAvgOfSummary | netcheck/checks.py:161-167 | Suppose the text after "Average =" is " v" followed by text without digits. Then the parser reports an average of v. |
| Checks.ReceivedOnSummaryLine | netcheck/checks.py:172 | On the Linux line "t packets transmitted, m received..." the count read is m, both by the parser's reading and by the corrected reading of "## Findings". |
| Checks.ReceivedAfterWord | netcheck/checks.py:172 | When the word before the first "received" is a digit string, the parser's reading and the corrected one both give its value. |
| Checks.WordsBeforeReceivedOf | netcheck/checks.py:172 | The words before the first "received" are the words of the text before it, in order, ending with the last one. |
| Checks.BsdLineReadsZero | netcheck/checks.py:172 | The BSD and macOS line "t packets transmitted, m packets received, ..." reads 0 received, whatever m is. |
| Checks.ReceivedOnBsdSummaryLine | netcheck/checks.py:172 | With the corrected reading of "## Findings", which the parser does not use, the BSD and macOS line reads m received. |
| Checks.PosixReceivedOfSummary | netcheck/checks.py:169-174 | Suppose the first line that mentions "packets transmitted" is such a Linux summary line, in output that is not a Windows summary. Then the parser reports m received. |
| Checks.BsdSummaryParsedZero | netcheck/checks.py:169-174 | When the first line that mentions "packets transmitted" is the BSD and macOS summary line, in output that is not a Windows summary, the parser reports 0 received, whatever m is. |
| Checks.BsdPingFails | netcheck/checks.py:169-186 | A ping that exited with 0 and printed that BSD and macOS line is recorded as not ok, with 0 received and 100% loss. |
| Checks.PosixReceivedOfBsdSummary | netcheck/checks.py:169-174 | The corrected parse of "## Findings", which the parser does not use, reports m received on that output. |
| Checks.AvgOnSummaryLine | netcheck/checks.py:178 | On a line "label= min/avg/rest" whose only "=" is that one and whose two first fields hold no "/", the average read is `float(avg)`. |
| Checks.PosixAvgOfSummary | netcheck/checks.py:175-180 | Suppose the first line that mentions "min/avg/max" is such a line, in output that is not a Windows summary. Then its average is reported. |
| Checks.LossPct | netcheck/checks.py:182 | Loss is 0 when nothing was sent. Otherwise loss times transmitted equals (transmitted − received) × 100. |
| Checks.LossBounds | netcheck/checks.py:182 | With 0 ≤ received ≤ transmitted, the loss lies between 0 and 100. It is 0 exactly when all packets came back and 100 exactly when none did. |
| Checks.PingRecord | netcheck/checks.py:182-186 | Every ping record echoes the host, reports the requested count as transmitted, and carries the measured time. |
| Checks.PingRecordOutcome | netcheck/checks.py:145-186 | A run that raised gives not ok, 0 received, 100% loss, no average and the exception's message. A completed run gives the parsed counts and average, the loss of those counts, and no error. It is ok exactly when the exit code is 0 and at least one reply came back. |
| Checks.Ping | netcheck/checks.py:136-186 | The probe runs exactly the command `_ping_cmd` builds and returns the record of that run. |
| Cli.ParseUrlList | netcheck/cli.py:25-26 | Every URL is non-empty and has no surrounding whitespace. A string is listed exactly when some comma-separated piece strips to it. |
| Cli.ParseUrlListOfJoin | netcheck/cli.py:25-26 | Joining non-empty, stripped URLs without commas by "," and parsing the result gives the same URLs in order. |
| Cli.ParseUrlListOfPieces | netcheck/cli.py:25-26 | For any pieces without commas, padded or empty, joined by ",": the URLs are the non-empty strips of the pieces, in the pieces' order. |
| Cli.NonEmptyAppend | netcheck/cli.py:26 | Dropping empty strings keeps order: the kept strings of two lists one after the other are the first list's, then the second's. |
| Cli.NonEmptyCount | netcheck/cli.py:26 | Each non-empty string is kept as many times as it occurs, and the empty string never. |
| Text.SplitJoin | netcheck/cli.py:14 | Joining the pieces of `s.split(sep)` with `sep` gives back `s`. |
| Text.SplitPiecesClean | netcheck/cli.py:14 | No piece of `s.split(sep)` contains `sep`. |
| Text.StripIsSlice | netcheck/cli.py:14 | `strip()` removes only whitespace, and only at the two ends. |
| Text.NumberStripIsStrip | netcheck/cli.py:20 | On a text without the characters U+001C..U+001F, the whitespace `int()` skips at the ends is exactly what `strip()` removes. |
| Text.SeparatorControlRefused | netcheck/cli.py:20 | `strip()` turns "\x1c80" into "80", which `int()` reads as 80, but `int()` refuses "\x1c80" itself. |
| Cli.ParseTarget | netcheck/cli.py:15-21 | An empty item is skipped, and only an empty item. A non-empty item without ":" is rejected with "Invalid tcp target: … (expected host:port)". Only an item with a ":" yields a target. |
| Cli.ParseTargetOfParts | netcheck/cli.py:19-21 | For `host:portText` whose host has no colon, the item is cut after the host. The result is the stripped host with `int(portText)`, or the error `int()` raises. |
| Cli.ParseItem | netcheck/cli.py:15-21 | The loop body decides each item as `ParseTarget` does. |
| Cli.ParseTcpList | netcheck/cli.py:12-22 | The loop over the stripped comma items gives the list-level parse: the targets in order, or the first error. |
| Cli.TcpTargetsOk | netcheck/cli.py:12-22 | The list parses exactly when no item is rejected. |
| Cli.TcpTargetsFirstError | netcheck/cli.py:14-20 | When items are rejected, the exception raised is the one for the first rejected item. |
| Cli.EndpointTextParses | netcheck/cli.py:19-21 | The text `host:port` of a plain host parses back to that host and port. |
| Cli.ParseTcpListOfJoin | netcheck/cli.py:12-22 | Writing endpoints with plain hosts as "h:p,h:p,…" and parsing the result gives the same endpoints, in order. |
| Cli.TcpTargetsOfPieces | netcheck/cli.py:12-22 | For any pieces without commas, padded or empty, joined by ",": the list's outcome is the loop over the pieces' strips, one per piece, in order. |
| Cli.CollectValid | netcheck/cli.py:14-22 | With no rejected item, the list is the host and port of every item that has one, in item order, with repeats kept. |
| Cli.EndpointsAppend | netcheck/cli.py:14-22 | The targets of two runs of items, one after the other, are the first run's targets, then the second's. |
| Cli.Checked | netcheck/cli.py:42-76 | `run_checks` raises exactly when `--tcp` is given and does not parse, and it raises that parse's error. |
| Cli.RunChecks | netcheck/cli.py:42-76 | The imperative `run_checks` computes the results that `Checked` defines. |
| Cli.TcpTasks | netcheck/cli.py:54-57 | The TCP targets are the parsed `--tcp` list when it parses. The step fails exactly when the list is given and rejected. |
| Cli.GatherTcp | netcheck/cli.py:56-59 | One TCP record per target, in target order. |
| Cli.GatherHttp | netcheck/cli.py:63-66 | One HTTP record per URL, in URL order. |
| Cli.GatherLists | netcheck/cli.py:54-66 | `tcp` and `http` are stored, each only when its list is non-empty. |
| Cli.Await | netcheck/cli.py:47-52 | Awaiting a singular task gives that probe's record. Ping uses the default 2-second timeout. |
| Cli.GatherTasks | netcheck/cli.py:71-72 | The singular tasks are awaited in order, one record each. |
| Cli.StoreAll | netcheck/cli.py:71-74 | The `zip` loop stores each record under its task's key. |
| Cli.StoreKeys | netcheck/cli.py:73-74 | Storing the gathered tasks adds exactly their keys. |
| Cli.StoreValue | netcheck/cli.py:73-74 | When no two tasks share a key, each task's record is stored under its key. |
| Cli.CheckedKeys | netcheck/cli.py:47-74 | `dns`, `ping` and `tls` are present exactly when their option is a non-empty string. `tcp` and `http` are present exactly when their list has at least one target. No other key appears. |
| Cli.CheckedLists | netcheck/cli.py:54-66 | The `tcp` and `http` entries are lists with one record per parsed target, in target order. Each record is the probe of that target. |
| Cli.CheckedSingles | netcheck/cli.py:47-52 | `dns` holds the DNS record of `--dns`. `ping` holds the ping record for `--ping` with the count clamped into 1..10. `tls` holds the TLS record of `--tls` on `--tls-port`. |
| Cli.CheckedPingCount | netcheck/cli.py:50-52 | The ping check sends between 1 and 10 packets, and exactly `--ping-count` when that is already in range. |
| Cli.CheckedShaped | netcheck/cli.py:42-76 | Under each kind's key the results hold that kind of entry: a list for `tcp`/`http`, one record otherwise. |
| Cli.MainReport | netcheck/cli.py:87-88 | The report built from the results can be shown, and its verdict is "every record ok". |
| Cli.RunMain | netcheck/cli.py:79-94 | With no check chosen, `main` exits 2 and prints no report; the help text is left out. An unparsable `--tcp` list makes it raise that error. Otherwise it prints the report's console text and exits 0 when every record is ok, 1 otherwise. |
| Cli.ExitMatchesVerdict | netcheck/cli.py:88-94 | The first console line says "status: OK" exactly when the exit status is 0, and "ISSUES" exactly when it is 1. |
| Cli.EmptySelectionSucceeds | netcheck/cli.py:83-94 | Lists that are chosen but come out empty give empty results and status 0. |
| Utils.Clamp | netcheck/utils.py:28-29 | With lo ≤ hi the result lies in [lo, hi], is n when n already does, and is the nearer bound otherwise. An empty range gives lo. |
| Utils.ClampIdempotent | netcheck/utils.py:28-29 | Clamping twice is clamping once. |
| Utils.ClampMonotone | netcheck/utils.py:28-29 | Clamping preserves order. |
| Report.RecordToDict | netcheck/report.py:8-11 | The dictionary's keys are exactly the dataclass's field names, and its `ok` and `error` hold the record's. |
| Report.DictRoundTrip | netcheck/report.py:8-11 | The conversion loses nothing: every record's dictionary decodes back to the record. |
| Report.Convert | netcheck/report.py:25 | A single record becomes one dictionary. A list stays a list of the same length and order, each element converted. |
| Report.BuildReport | netcheck/report.py:14-26 | The verdict is "every record of every entry is ok" (true for no results). The time is the given one. The converted results have the same keys, each value converted. |
| Report.BuiltReport | netcheck/report.py:14-26 | A report built from results shaped as the checks make them can be shown, with the same verdict, time and keys. |
| Report.BuiltReportRenderable | netcheck/report.py:14-26 | The console reads back exactly the records the results held, under each kind's key. |
| Report.OneFailureFailsAll | netcheck/report.py:15-20 | One failing record, alone or in a list, makes the whole verdict fail. |
| Report.FormatConsole | netcheck/report.py:29-86 | The text is the header, then the block of each present key in a fixed order, joined with newlines. |
| Report.EmitSection | netcheck/report.py:58-64 | One block is the title, its underline, each record's lines in list order, and a blank line. |
| Report.EmitEntry | netcheck/report.py:77-84 | A record's lines are its result line, then (for TLS) the "expires:" line, then its error line. |
| Report.HeaderLines | netcheck/report.py:31-33 | The first line says "status: OK" exactly when the verdict is ok and "ISSUES" exactly when it is not. The second gives the generation time; the third is blank. |
| Report.ConsoleTitles | netcheck/report.py:41-84 | The only title lines are DNS, PING, TCP, HTTP and TLS, in that order, each exactly when its key is in the report. |
| Report.ConsoleUnderlined | netcheck/report.py:37-39 | Each title line is followed by a line of "-" as long as the title. |
| Report.ResultLine | netcheck/report.py:44 | A record's result line is its verdict, two spaces, then its summary. It starts with "OK  " exactly when the record is ok, and with "FAIL  " exactly when it is not. |
| Report.DnsLine | netcheck/report.py:44 | The DNS summary is the hostname, the addresses joined by ", " (empty when there are none) and the time. The joined text of addresses without commas or spaces splits back into the addresses. |
| Report.SplitJoinAddresses | netcheck/report.py:44 | Splitting at ", " gives back addresses without commas or spaces that were joined by ", ". |
| Report.PingLine | netcheck/report.py:52-53 | The ping summary is the host, `rx=received/transmitted`, the loss, the average when there is one, and the time. For a host without spaces, the third space-separated field of the summary is "rx=" and a text that splits at "/" into two pieces, which `int()` reads as the received and the transmitted counts. |
| Report.TcpLine | netcheck/report.py:61 | The TCP summary is `host:port` and the time. For a host without spaces or colons, its first space-separated field splits at ":" into the host and a text `int()` reads as the port. |
| Report.HttpLine | netcheck/report.py:69-70 | The HTTP summary is the URL, `status=` with the status text, and the time. The status text is "-" exactly when there is no status, and otherwise reads back as the code. |
| Report.TlsLine | netcheck/report.py:78-79 | The TLS summary is `host:port`, two spaces and the days text, which is empty when the days are unknown. For a host without spaces or colons, its first space-separated field splits at ":" into the host and a text `int()` reads as the port. |
| Report.ErrorLines | netcheck/report.py:45-46 | The indented error line is present exactly when the error is a non-empty string, and shows it. |
| Report.ExpiresLines | netcheck/report.py:80-81 | The "expires:" line is present exactly when `not_after` is a non-empty string, and shows it. |
| Report.StatusTextRoundTrip | netcheck/report.py:69 | The `status=` text is "-" exactly when there is no status. Otherwise it reads back as the code. |
| Report.DaysTextRoundTrip | netcheck/report.py:78 | The days text is the count, which reads back through `int()`, followed by " days left". |
| Report.EntriesResultLines | netcheck/report.py:58-64 | A block shows exactly one result line per record, in list order. The indented lines are never taken for one. |
| Report.EntriesLength | netcheck/report.py:58-64 | Without TLS records, a block has one line per record plus one per record with a non-empty error. |

## Findings

| source | as written | input that shows it | evidently intended | confidence | as-written member | corrected member |
|---|---|---|---|---|---|---|
| netcheck/checks.py:172 | the received count is the last word before the first "received" on the summary line | the BSD and macOS line "3 packets transmitted, 3 packets received, 0.0% packet loss": the last word is "packets", `int()` raises, and the `except` sets 0 received, so a ping that got every reply is reported as failed | the count before "packets received" is read, here 3 | high, not executed | Checks.BsdPingFails | Checks.PosixReceivedOfBsdSummary |

The model follows the code: its parser reads the summary line with `Checks.ReceivedOnLine`, so it reports 0 received on the BSD and macOS line (`Checks.BsdLineReadsZero`, `Checks.BsdSummaryParsedZero`), and such a ping is recorded as failed (`Checks.BsdPingFails`). The corrected reading, `Checks.ReceivedOnLineCorrected`, skips a trailing "packets". `Checks.ParsedReceivedCorrected` is the parse with that reading; it reports m received on the BSD and macOS line (`Checks.ReceivedOnBsdSummaryLine`, `Checks.PosixReceivedOfBsdSummary`) and agrees with the parser on the Linux line (`Checks.ReceivedOnSummaryLine`). No other member uses the corrected reading.

## Left out

- Network, operating-system and timing effects are inputs: the resolver, socket connect and close, `urlopen`, the TLS handshake, the `ping` subprocess, `sys.platform`, and `now_ms()`. The model does not capture their behaviour, timeouts or failure modes beyond "data or an exception message".
- Concurrency: `asyncio.gather` is modelled as awaiting each probe in order. The probes do not interact, so the results are the same.
- `datetime.strptime`, `datetime.now` and `isoformat` are inputs: `Checks.TlsExpiry` takes the date parse as a function, and `generated_at` is a string input.
- Floating point: `ms` and `loss_pct` are `real`, and `f"{x:.1f}"` and `str(float)` are a formatting input (`Report.Formats`). Rounding is not modelled.
- `build_parser`, `argparse` and `print_help` are out; `Cli.Args` stands for the parsed options. `write_json`, `read_text` and the JSON encoding are file I/O and are not modelled. The `--json-out` option is carried but has no effect on the exit status: `write_json` is assumed not to fail, although in the code an error opening or writing the file would raise out of `main`.
- `print_help`: with no check chosen, `main` prints the parser's help text before returning 2; the model shows no report then (`Cli.RunMain` gives an empty console), and the help text is not modelled.
- The order of keys in the results and report dictionaries is not modelled: the verdict is a fold over all entries and does not depend on it, and the console text fixes its own order.
- `to_dict`'s `dict(obj)` path for non-dataclass values is never taken by the tool and is left out.
- An uncaught `ValueError` from an unparsable `--tcp` list is modelled as `Cli.Exit.Raised` with its message, not as a traceback.
- The `Timed` dataclass in utils.py is unused by the core and is not modelled.
- Text.ParseInt: accepts only optional whitespace (`str.isspace`'s set less U+001C..U+001F, which `int()` refuses), an optional sign and ASCII digits. Python's `int()` also accepts underscores between digits and non-ASCII decimal digits, which are treated here as raising. Python also refuses decimal texts of more than 4300 digits with a `ValueError`; the model reads them. In the ping parser such a count makes the source read 0 received, and in a `--tcp` port it makes the source raise that `ValueError`; the model reads the number.
- Cli.ParseTargetOfParts: the `int()` error message is modelled as the port text between plain single quotes. Python quotes it with `repr`: double quotes when the text holds a single quote, backslash escapes for special characters, and a cut at 200 characters. The same holds for `Cli.ParseTarget` and `Cli.ParseItem`.
- Checks.PingRecordOutcome: the loss is computed exactly. In the source, `received / transmitted` is a float division, which raises `OverflowError` when a parsed count of over about 310 digits makes the quotient too large for a float. The `except` then returns the exception record (not ok, 0 received, 100% loss). The model returns the parsed counts instead.
- Console lines: `Report.ConsoleTitles`, `Report.EntriesResultLines` and the other line-based lemmas reason about the lines before they are joined with newlines. An error text, host name or URL that itself holds a newline prints as more than one line, and those lemmas do not describe the printed text line by line then.
- Text.ParseDecimal: accepts only an optional sign and decimal digits with at most one ".". Python's `float()` also accepts exponents, "inf", "nan" and underscores, which are treated here as raising.
- Text.Digits: keeps only ASCII digits, whereas `str.isdigit()` also keeps other Unicode digits (superscripts, other scripts).
- Text.IsSpace: the whitespace set is Python's `str.isspace()` over the characters listed. Other Unicode properties, such as case or normalisation, play no part.
- Checks.ParsedReceived: its own contract states only the bounds. The counts the parser reports on real summaries are stated by `Checks.WindowsReceivedOfSummary` and `Checks.PosixReceivedOfSummary`.
- Checks.PingRecord: its own contract states only the echoed fields. The rest is stated by `Checks.PingRecordOutcome`.
