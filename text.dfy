/**
 * Models of the Python string built-ins the diagnostics core relies on:
 * `str.isspace`, `strip`, `in`, `find`, `split(sep)`, `split()`, `splitlines`,
 * `sep.join`, `int(...)`, `float(...)` and `str(int)`.
 * Characters are Unicode scalar values, as in Python 3 strings.
 */
module Text {
  import opened Wrappers

  // ---------------------------------------------------------------- characters

  /** Python's `str.isspace()` for one character. */
  predicate IsSpace(c: char) {
    c == ' ' || ('\U{9}' <= c <= '\U{d}') || ('\U{1c}' <= c <= '\U{1f}')
    || c == '\U{85}' || c == '\U{a0}' || c == '\U{1680}'
    || ('\U{2000}' <= c <= '\U{200a}') || c == '\U{2028}' || c == '\U{2029}'
    || c == '\U{202f}' || c == '\U{205f}' || c == '\U{3000}'
  }

  /** An ASCII decimal digit. */
  predicate IsDigit(c: char) {
    '0' <= c <= '9'
  }

  predicate AllDigits(s: string) {
    forall i :: 0 <= i < |s| ==> IsDigit(s[i])
  }

  function DigitValue(c: char): (d: nat)
    requires IsDigit(c)
    ensures d < 10
  {
    c as int - '0' as int
  }

  function DigitChar(d: nat): (c: char)
    requires d < 10
    ensures IsDigit(c) && DigitValue(c) == d
  {
    ('0' as int + d) as char
  }

  // ---------------------------------------------------------------- strip

  /** `s.lstrip()`: `s` without its leading whitespace. */
  function StripLeft(s: string): (r: string)
    ensures |r| <= |s|
    ensures r == [] || !IsSpace(r[0])
  {
    if s != [] && IsSpace(s[0]) then StripLeft(s[1..]) else s
  }

  /** `lstrip` keeps a suffix of `s`. */
  lemma {:induction false} StripLeftSuffix(s: string)
    ensures StripLeft(s) == s[|s| - |StripLeft(s)|..]
    decreases |s|
  {
    if s != [] && IsSpace(s[0]) {
      StripLeftSuffix(s[1..]);
      DropDrop(s, 1, |s[1..]| - |StripLeft(s[1..])|);
    }
  }

  lemma DropDrop<T>(s: seq<T>, a: nat, b: nat)
    requires a + b <= |s|
    ensures s[a..][b..] == s[a + b..]
  {
  }

  /** Everything `lstrip` removes is whitespace. */
  lemma {:induction false} StripLeftSpaces(s: string)
    ensures forall i :: 0 <= i < |s| - |StripLeft(s)| ==> IsSpace(s[i])
    decreases |s|
  {
    if s != [] && IsSpace(s[0]) {
      StripLeftSpaces(s[1..]);
      forall i | 1 <= i < |s| - |StripLeft(s)| ensures IsSpace(s[i]) {
        assert s[i] == s[1..][i - 1];
      }
    }
  }

  /** `s.rstrip()`: `s` without its trailing whitespace. */
  function StripRight(s: string): (r: string)
    ensures |r| <= |s|
    ensures r == [] || !IsSpace(r[|r| - 1])
  {
    if s != [] && IsSpace(s[|s| - 1]) then StripRight(s[..|s| - 1]) else s
  }

  /** `rstrip` keeps a prefix of `s`. */
  lemma {:induction false} StripRightPrefix(s: string)
    ensures StripRight(s) == s[..|StripRight(s)|]
    decreases |s|
  {
    if s != [] && IsSpace(s[|s| - 1]) {
      StripRightPrefix(s[..|s| - 1]);
      TakeTake(s, |s| - 1, |StripRight(s)|);
    }
  }

  lemma TakeTake<T>(s: seq<T>, a: nat, b: nat)
    requires b <= a <= |s|
    ensures s[..a][..b] == s[..b]
  {
  }

  /** Everything `rstrip` removes is whitespace. */
  lemma {:induction false} StripRightSpaces(s: string)
    ensures forall i :: |StripRight(s)| <= i < |s| ==> IsSpace(s[i])
    decreases |s|
  {
    if s != [] && IsSpace(s[|s| - 1]) {
      StripRightSpaces(s[..|s| - 1]);
      forall i | |StripRight(s)| <= i < |s| - 1 ensures IsSpace(s[i]) {
        assert s[i] == s[..|s| - 1][i];
      }
    }
  }

  /** `s` neither starts nor ends with whitespace. */
  predicate Trimmed(s: string) {
    s == [] || (!IsSpace(s[0]) && !IsSpace(s[|s| - 1]))
  }

  /**
   * `s.strip()`: the slice of `s` that remains once the whitespace at both
   * ends is removed; it neither starts nor ends with whitespace.
   */
  function Strip(s: string): (r: string)
    ensures Trimmed(r)
    ensures |r| <= |s|
  {
    StripRightFirst(StripLeft(s));
    StripRight(StripLeft(s))
  }

  /** `rstrip` keeps the first character of what it does not empty. */
  lemma {:induction false} StripRightFirst(s: string)
    ensures StripRight(s) != [] ==> StripRight(s)[0] == s[0]
    decreases |s|
  {
    if s != [] && IsSpace(s[|s| - 1]) {
      StripRightFirst(s[..|s| - 1]);
    }
  }

  /** What `Strip` removes is whitespace at the two ends of `s`, and nothing else. */
  lemma StripIsSlice(s: string)
    ensures var k := |s| - |StripLeft(s)|;
      k + |Strip(s)| <= |s| && Strip(s) == s[k..k + |Strip(s)|]
      && (forall i :: 0 <= i < k ==> IsSpace(s[i]))
      && (forall i :: k + |Strip(s)| <= i < |s| ==> IsSpace(s[i]))
  {
    var l := StripLeft(s);
    var k := |s| - |l|;
    var r := StripRight(l);
    assert Strip(s) == r;
    StripLeftSuffix(s);
    StripRightPrefix(l);
    SliceOfSlice(s, k, |r|);
    StripLeftSpaces(s);
    StripRightSpaces(l);
    forall i | k + |r| <= i < |s| ensures IsSpace(s[i]) {
      assert s[i] == l[i - k];
    }
  }

  lemma SliceOfSlice<T>(s: seq<T>, k: nat, n: nat)
    requires k + n <= |s|
    ensures s[k..][..n] == s[k..k + n]
  {
  }

  /** A string that neither starts nor ends with whitespace is its own strip. */
  lemma StripUnchanged(s: string)
    requires Trimmed(s)
    ensures Strip(s) == s
  {
  }

  // ---------------------------------------------------------------- search

  /** `sub` occurs in `s` starting at index `i`. */
  predicate OccursAt(s: string, sub: string, i: int) {
    0 <= i && i + |sub| <= |s| && s[i..i + |sub|] == sub
  }

  lemma OccursAtShift(s: string, sub: string)
    requires s != []
    ensures forall j :: 1 <= j ==> (OccursAt(s, sub, j) <==> OccursAt(s[1..], sub, j - 1))
  {
    forall j | 1 <= j ensures OccursAt(s, sub, j) <==> OccursAt(s[1..], sub, j - 1) {
      if j + |sub| <= |s| {
        assert s[1..][j - 1..j - 1 + |sub|] == s[j..j + |sub|];
      }
    }
  }

  /** `s.find(sub)` (with `None` for -1): where the leftmost occurrence of `sub` starts. */
  function IndexOf(s: string, sub: string): (r: Option<nat>)
    ensures r.Some? ==> r.value + |sub| <= |s|
    decreases |s|
  {
    if |s| < |sub| then None
    else if s[..|sub|] == sub then Some(0)
    else
      match IndexOf(s[1..], sub)
      case None => None
      case Some(k) => Some(k + 1)
  }

  /**
   * `IndexOf` finds an occurrence, no occurrence lies before the one it
   * finds, and it finds none only when there is none.
   */
  lemma {:induction false} IndexOfSpec(s: string, sub: string)
    ensures IndexOf(s, sub).Some? ==> OccursAt(s, sub, IndexOf(s, sub).value)
    ensures IndexOf(s, sub).Some? ==> forall j :: 0 <= j < IndexOf(s, sub).value ==> !OccursAt(s, sub, j)
    ensures IndexOf(s, sub).None? ==> forall j :: !OccursAt(s, sub, j)
    decreases |s|
  {
    if |s| >= |sub| && s[..|sub|] != sub {
      IndexOfSpec(s[1..], sub);
      OccursAtShift(s, sub);
      assert !OccursAt(s, sub, 0);
      match IndexOf(s[1..], sub)
      case None =>
        assert IndexOf(s, sub) == None;
      case Some(k) =>
        assert IndexOf(s, sub) == Some(k + 1);
        assert OccursAt(s[1..], sub, k);
    }
  }

  /** `sub in s` */
  predicate Contains(s: string, sub: string) {
    IndexOf(s, sub).Some?
  }

  /** An occurrence, with none before it, is the one `IndexOf` finds. */
  lemma IndexOfIs(s: string, sub: string, i: nat)
    requires OccursAt(s, sub, i)
    requires forall j :: 0 <= j < i ==> !OccursAt(s, sub, j)
    ensures IndexOf(s, sub) == Some(i)
  {
    IndexOfSpec(s, sub);
  }

  /** A string with an occurrence of `sub` contains `sub`. */
  lemma OccursContains(s: string, sub: string, i: int)
    requires OccursAt(s, sub, i)
    ensures Contains(s, sub)
  {
    IndexOfSpec(s, sub);
  }

  /** A string with no occurrence of `sub` at any index does not contain `sub`. */
  lemma NowhereNotContained(s: string, sub: string)
    requires forall j :: !OccursAt(s, sub, j)
    ensures !Contains(s, sub)
  {
    IndexOfSpec(s, sub);
  }

  /** A string lacking a character of `sub` cannot contain `sub`. */
  lemma MissingCharNotContained(s: string, sub: string, c: char)
    requires c in sub && c !in s
    ensures !Contains(s, sub)
  {
    var k :| 0 <= k < |sub| && sub[k] == c;
    forall i ensures !OccursAt(s, sub, i) {
      if 0 <= i && i + |sub| <= |s| {
        assert s[i..i + |sub|][k] == s[i + k];
      }
    }
    NowhereNotContained(s, sub);
  }

  /** Whatever precedes the leftmost occurrence of `sub` does not contain `sub`. */
  lemma BeforeFirstNotContained(s: string, sub: string, i: nat)
    requires sub != [] && IndexOf(s, sub) == Some(i)
    ensures !Contains(s[..i], sub)
  {
    IndexOfSpec(s, sub);
    forall j ensures !OccursAt(s[..i], sub, j) {
      if 0 <= j && j + |sub| <= i {
        SliceOfPrefix(s, i, j, j + |sub|);
        assert !OccursAt(s, sub, j);
      }
    }
    NowhereNotContained(s[..i], sub);
  }

  lemma SliceOfPrefix<T>(s: seq<T>, i: nat, a: nat, b: nat)
    requires a <= b <= i <= |s|
    ensures s[..i][a..b] == s[a..b]
  {
  }

  /**
   * When `a` does not contain `sub` and the last character of `a` is not a
   * character of `sub`, the leftmost occurrence of `sub` in `a + sub + b` is
   * the one right after `a`.
   */
  lemma IndexOfAfter(a: string, sub: string, b: string)
    requires !Contains(a, sub)
    requires a != [] ==> a[|a| - 1] !in sub
    ensures IndexOf(a + sub + b, sub) == Some(|a|)
  {
    var s := a + sub + b;
    IndexOfSpec(a, sub);
    assert s[|a|..|a| + |sub|] == sub;
    assert OccursAt(s, sub, |a|);
    forall j | 0 <= j < |a| ensures !OccursAt(s, sub, j) {
      if j + |sub| <= |a| {
        assert a[j..j + |sub|] == s[j..j + |sub|];
        assert !OccursAt(a, sub, j);
      } else {
        assert s[j..j + |sub|][|a| - 1 - j] == a[|a| - 1];
        assert s[j..j + |sub|] != sub;
      }
    }
    IndexOfIs(s, sub, |a|);
  }

  /** A string contains each of its infixes. */
  lemma InfixContains(p: string, w: string, q: string)
    ensures Contains(p + w + q, w)
  {
    assert (p + w + q)[|p|..|p| + |w|] == w;
    OccursContains(p + w + q, w, |p|);
  }

  /** An occurrence inside a slice of `s` is an occurrence in `s`. */
  lemma ContainsInSlice(s: string, a: nat, b: nat, sub: string)
    requires a <= b <= |s| && Contains(s[a..b], sub)
    ensures Contains(s, sub)
  {
    IndexOfSpec(s[a..b], sub);
    var i := IndexOf(s[a..b], sub).value;
    SliceInSlice(s, a, b, i, i + |sub|);
    OccursContains(s, sub, a + i);
  }

  lemma SliceInSlice<T>(s: seq<T>, a: nat, b: nat, i: nat, j: nat)
    requires a <= b <= |s| && i <= j <= b - a
    ensures s[a..b][i..j] == s[a + i..a + j]
  {
    var t := s[a..b];
    forall k | 0 <= k < j - i ensures t[i..j][k] == s[a + i..a + j][k] {
      assert t[i..j][k] == t[i + k];
    }
  }

  // ---------------------------------------------------------------- split and join

  /** `sep.join(parts)` */
  function Join(parts: seq<string>, sep: string): string {
    if |parts| == 0 then ""
    else if |parts| == 1 then parts[0]
    else parts[0] + sep + Join(parts[1..], sep)
  }

  /**
   * `s.split(sep)` for a non-empty separator: the pieces between the
   * occurrences of `sep`, found from the left.
   */
  function Split(s: string, sep: string): (parts: seq<string>)
    requires sep != []
    ensures |parts| >= 1
    ensures |parts| > 1 ==> IndexOf(s, sep) == Some(|parts[0]|)
    decreases |s|
  {
    match IndexOf(s, sep)
    case None => [s]
    case Some(i) => [s[..i]] + Split(s[i + |sep|..], sep)
  }

  /** Joining the pieces of a split with the separator gives back the text. */
  lemma {:induction false} SplitJoin(s: string, sep: string)
    requires sep != []
    ensures Join(Split(s, sep), sep) == s
    decreases |s|
  {
    IndexOfSpec(s, sep);
    match IndexOf(s, sep)
    case None =>
    case Some(i) =>
      var rest := Split(s[i + |sep|..], sep);
      SplitJoin(s[i + |sep|..], sep);
      assert s == s[..i] + sep + s[i + |sep|..] by {
        assert s[i..i + |sep|] == sep;
      }
      assert ([s[..i]] + rest)[1..] == rest;
  }

  /** No piece of a split contains the separator. */
  lemma {:induction false} SplitPiecesClean(s: string, sep: string)
    requires sep != []
    ensures forall k :: 0 <= k < |Split(s, sep)| ==> !Contains(Split(s, sep)[k], sep)
    decreases |s|
  {
    match IndexOf(s, sep)
    case None =>
    case Some(i) =>
      BeforeFirstNotContained(s, sep, i);
      SplitPiecesClean(s[i + |sep|..], sep);
      var rest := Split(s[i + |sep|..], sep);
      assert Split(s, sep) == [s[..i]] + rest;
      forall k | 1 <= k < |Split(s, sep)| ensures Split(s, sep)[k] == rest[k - 1] {
        ConsAt(s[..i], rest, k);
      }
  }

  /** A string that lacks the separator splits into itself alone. */
  lemma SplitWithout(s: string, sep: string)
    requires sep != [] && !Contains(s, sep)
    ensures Split(s, sep) == [s]
  {
  }

  /** The first piece of a split ends where the leftmost separator starts. */
  lemma SplitFirst(s: string, sep: string, i: nat)
    requires sep != [] && IndexOf(s, sep) == Some(i)
    ensures Split(s, sep)[0] == s[..i]
  {
  }

  /** Splitting at a one-character separator that `a` lacks cuts `a` off first. */
  lemma SplitAfter(a: string, c: char, b: string)
    requires c !in a
    ensures Split(a + [c] + b, [c]) == [a] + Split(b, [c])
  {
    MissingCharNotContained(a, [c], c);
    IndexOfAfter(a, [c], b);
    var s := a + [c] + b;
    assert s[..|a|] == a;
    assert s[|a| + 1..] == b;
  }

  // ---------------------------------------------------------------- lines and words

  /** The line boundaries recognised by `str.splitlines()`. */
  predicate IsLineBreak(c: char) {
    c == '\n' || c == '\r' || c == '\U{b}' || c == '\U{c}' || ('\U{1c}' <= c <= '\U{1e}')
    || c == '\U{85}' || c == '\U{2028}' || c == '\U{2029}'
  }

  /** The index of the first line boundary of `s`, or `|s|`. */
  function LineEnd(s: string): (i: nat)
    ensures i <= |s| && (i < |s| ==> IsLineBreak(s[i]))
  {
    if s == [] || IsLineBreak(s[0]) then 0 else 1 + LineEnd(s[1..])
  }

  /** No character before `LineEnd(s)` is a line boundary. */
  lemma {:induction false} BeforeLineEnd(s: string)
    ensures forall j :: 0 <= j < LineEnd(s) ==> !IsLineBreak(s[j])
    decreases |s|
  {
    if s != [] && !IsLineBreak(s[0]) {
      BeforeLineEnd(s[1..]);
      assert forall j :: 1 <= j < LineEnd(s) ==> s[j] == s[1..][j - 1];
    }
  }

  /** Where the line after the first boundary of `s` starts: "\r\n" is one boundary. */
  function NextLine(s: string): (j: nat)
    requires LineEnd(s) < |s|
    ensures LineEnd(s) < j <= |s|
  {
    var i := LineEnd(s);
    if s[i] == '\r' && i + 1 < |s| && s[i + 1] == '\n' then i + 2 else i + 1
  }

  /** `s.splitlines()`: "\r\n" ends one line; no empty line follows a final boundary. */
  function SplitLines(s: string): seq<string>
    decreases |s|
  {
    if s == [] then []
    else if LineEnd(s) == |s| then [s]
    else [s[..LineEnd(s)]] + SplitLines(s[NextLine(s)..])
  }

  /** Past the first boundary, `s.splitlines()` is the first line followed by the lines of the rest. */
  lemma SplitLinesStep(s: string)
    requires LineEnd(s) < |s|
    ensures SplitLines(s) == [s[..LineEnd(s)]] + SplitLines(s[NextLine(s)..])
  {
  }

  /** No line of `s.splitlines()` holds a line boundary character. */
  lemma {:induction false} SplitLinesNoBreaks(s: string, k: nat)
    requires k < |SplitLines(s)|
    ensures forall j :: 0 <= j < |SplitLines(s)[k]| ==> !IsLineBreak(SplitLines(s)[k][j])
    decreases |s|
  {
    BeforeLineEnd(s);
    if LineEnd(s) < |s| {
      SplitLinesStep(s);
      if k > 0 {
        SplitLinesNoBreaks(s[NextLine(s)..], k - 1);
      }
    }
  }

  /** Each line of `s.splitlines()` is a slice of `s`. */
  lemma {:induction false} LineIsSlice(s: string, k: nat) returns (a: nat, b: nat)
    requires k < |SplitLines(s)|
    ensures a <= b <= |s| && SplitLines(s)[k] == s[a..b]
    decreases |s|
  {
    if LineEnd(s) == |s| {
      a, b := 0, |s|;
      LastLine(s);
    } else if k == 0 {
      a, b := 0, LineEnd(s);
      SplitLinesStep(s);
    } else {
      var next := NextLine(s);
      LaterLine(s, k);
      var a', b' := LineIsSlice(s[next..], k - 1);
      SliceOfSuffix(s, next, a', b');
      a, b := next + a', next + b';
    }
  }

  lemma LastLine(s: string)
    requires s != [] && LineEnd(s) == |s|
    ensures SplitLines(s) == [s] && s[0..|s|] == s
  {
  }

  lemma LaterLine(s: string, k: nat)
    requires LineEnd(s) < |s| && 0 < k < |SplitLines(s)|
    ensures k - 1 < |SplitLines(s[NextLine(s)..])|
    ensures SplitLines(s)[k] == SplitLines(s[NextLine(s)..])[k - 1]
  {
    SplitLinesStep(s);
  }

  lemma SliceOfSuffix(s: string, next: nat, a: nat, b: nat)
    requires next <= |s| && a <= b <= |s| - next
    ensures s[next..][a..b] == s[next + a..next + b]
  {
  }

  /** A line of `s.splitlines()` that contains `sub` makes `s` contain `sub`. */
  lemma LineInText(s: string, k: nat, sub: string)
    requires k < |SplitLines(s)| && Contains(SplitLines(s)[k], sub)
    ensures Contains(s, sub)
  {
    var a, b := LineIsSlice(s, k);
    ContainsInSlice(s, a, b, sub);
  }

  /** `w` holds no whitespace character. */
  predicate NoSpace(w: string) {
    forall j :: 0 <= j < |w| ==> !IsSpace(w[j])
  }

  /** The leading run of non-whitespace characters of `s`. */
  function Word(s: string): (w: string)
    ensures |w| <= |s| && w == s[..|w|]
    ensures |w| < |s| ==> IsSpace(s[|w|])
  {
    if s == [] || IsSpace(s[0]) then [] else [s[0]] + Word(s[1..])
  }

  /** The leading word holds no whitespace. */
  lemma {:induction false} WordNoSpace(s: string)
    ensures NoSpace(Word(s))
    decreases |s|
  {
    if s != [] && !IsSpace(s[0]) {
      WordNoSpace(s[1..]);
      var w := Word(s);
      assert forall j :: 1 <= j < |w| ==> w[j] == Word(s[1..])[j - 1];
    }
  }

  /** `s.split()`: the maximal runs of non-whitespace characters, in order. */
  function SplitWhitespace(s: string): (words: seq<string>)
    decreases |s|
  {
    var t := StripLeft(s);
    if t == [] then []
    else
      var w := Word(t);
      [w] + SplitWhitespace(t[|w|..])
  }

  /** Every word of `s.split()` is non-empty and free of whitespace. */
  lemma {:induction false} SplitWhitespaceWords(s: string)
    ensures forall k :: 0 <= k < |SplitWhitespace(s)| ==>
      SplitWhitespace(s)[k] != [] && NoSpace(SplitWhitespace(s)[k])
    decreases |s|
  {
    var t := StripLeft(s);
    if t != [] {
      var w := Word(t);
      WordNoSpace(t);
      SplitWhitespaceWords(t[|w|..]);
      var rest := SplitWhitespace(t[|w|..]);
      var words := SplitWhitespace(s);
      assert words == [w] + rest;
      assert w != [];
      forall k | 1 <= k < |words| ensures words[k] == rest[k - 1] {
        ConsAt(w, rest, k);
      }
    }
  }

  lemma ConsAt<T>(x: T, rest: seq<T>, k: nat)
    requires 1 <= k <= |rest|
    ensures ([x] + rest)[k] == rest[k - 1]
  {
  }

  lemma StripLeftAppend(a: string, b: string)
    ensures StripLeft(a) != [] ==> StripLeft(a + b) == StripLeft(a) + b
    ensures StripLeft(a) == [] ==> StripLeft(a + b) == StripLeft(b)
    decreases |a|
  {
    if a != [] {
      assert (a + b)[1..] == a[1..] + b;
      if IsSpace(a[0]) {
        StripLeftAppend(a[1..], b);
      }
    } else {
      assert a + b == b;
    }
  }

  lemma WordBeforeSpace(a: string, b: string)
    requires b != [] && IsSpace(b[0])
    ensures Word(a + b) == Word(a)
    decreases |a|
  {
    if a != [] {
      assert (a + b)[1..] == a[1..] + b;
      if !IsSpace(a[0]) {
        WordBeforeSpace(a[1..], b);
      }
    }
  }

  /**
   * The words of `x + " " + d + " "` are those of `x` followed by `d`, when
   * `d` is a non-empty run of non-whitespace characters.
   */
  lemma {:induction false} SplitWhitespaceLastWord(x: string, d: string)
    requires d != [] && NoSpace(d)
    ensures SplitWhitespace(x + " " + d + " ") == SplitWhitespace(x) + [d]
    decreases |x|
  {
    var tail := " " + d + " ";
    ConcatAssoc(x, " ", d, " ");
    StripLeftAppend(x, tail);
    var t := StripLeft(x);
    if t == [] {
      assert SplitWhitespace(x) == [];
      SplitWhitespaceOfTail(d);
      assert StripLeft(x + tail) == StripLeft(tail);
      assert SplitWhitespace(x + tail) == SplitWhitespace(tail);
    } else {
      var w := Word(t);
      var rest := t[|w|..];
      SplitWhitespaceStep(x, tail);
      SplitWhitespaceLastWord(rest, d);
      ConcatAssoc(rest, " ", d, " ");
      SeqAssoc([w], SplitWhitespace(rest), [d]);
    }
  }

  /** A trailing space adds no word. */
  lemma {:induction false} SplitWhitespaceTrailingSpace(s: string)
    ensures SplitWhitespace(s + " ") == SplitWhitespace(s)
    decreases |s|
  {
    StripLeftAppend(s, " ");
    var t := StripLeft(s);
    if t == [] {
      assert StripLeft(" ") == [] by {
        assert " "[1..] == [];
      }
    } else {
      var w := Word(t);
      SplitWhitespaceStep(s, " ");
      SplitWhitespaceTrailingSpace(t[|w|..]);
    }
  }

  /** One word of `x` is split off the same way whatever follows after whitespace. */
  lemma SplitWhitespaceStep(x: string, tail: string)
    requires StripLeft(x) != [] && tail != [] && IsSpace(tail[0])
    ensures var t := StripLeft(x); var w := Word(t);
      |w| > 0 && |t[|w|..]| < |x|
      && SplitWhitespace(x) == [w] + SplitWhitespace(t[|w|..])
      && SplitWhitespace(x + tail) == [w] + SplitWhitespace(t[|w|..] + tail)
  {
    var t := StripLeft(x);
    var w := Word(t);
    StripLeftAppend(x, tail);
    WordBeforeSpace(t, tail);
    WordNonEmpty(t);
    SplitWhitespaceUnfold(x);
    SplitWhitespaceUnfold(x + tail);
    DropAppend(t, tail, |w|);
  }

  lemma SplitWhitespaceUnfold(x: string)
    requires StripLeft(x) != []
    ensures SplitWhitespace(x) == [Word(StripLeft(x))] + SplitWhitespace(StripLeft(x)[|Word(StripLeft(x))|..])
  {
  }

  lemma WordNonEmpty(t: string)
    requires t != [] && !IsSpace(t[0])
    ensures Word(t) != []
  {
  }

  lemma DropAppend<T>(a: seq<T>, b: seq<T>, n: nat)
    requires n <= |a|
    ensures (a + b)[n..] == a[n..] + b
  {
  }

  lemma SeqAssoc<T>(a: seq<T>, b: seq<T>, c: seq<T>)
    ensures a + (b + c) == (a + b) + c
  {
  }

  lemma ConcatAssoc(a: string, b: string, c: string, d: string)
    ensures a + (b + c + d) == a + b + c + d
  {
  }

  lemma SplitWhitespaceOfTail(d: string)
    requires d != [] && NoSpace(d)
    ensures SplitWhitespace(" " + d + " ") == [d]
  {
    var tail := " " + d + " ";
    assert tail[1..] == d + " ";
    assert StripLeft(tail) == StripLeft(d + " ");
    StripLeftAppend(d, " ");
    assert StripLeft(d + " ") == d + " ";
    WordBeforeSpace(d, " ");
    WordAll(d);
    assert (d + " ")[|d|..] == " ";
    assert " "[1..] == [];
    assert StripLeft(" ") == [];
    assert SplitWhitespace(" ") == [];
  }

  lemma WordAll(d: string)
    requires NoSpace(d)
    ensures Word(d) == d
  {
    if d != [] {
      assert NoSpace(d[1..]) by {
        forall j | 0 <= j < |d[1..]| ensures !IsSpace(d[1..][j]) {
          assert d[1..][j] == d[j + 1];
        }
      }
      WordAll(d[1..]);
    }
  }

  /** The index of the first element of `ss` that contains `sub` (`[x for x in ss if sub in x][0]`). */
  function FirstContaining(ss: seq<string>, sub: string): (r: Option<nat>)
    ensures r.Some? ==> r.value < |ss| && Contains(ss[r.value], sub)
    ensures r.Some? ==> forall j :: 0 <= j < r.value ==> !Contains(ss[j], sub)
    ensures r.None? ==> forall j :: 0 <= j < |ss| ==> !Contains(ss[j], sub)
  {
    if ss == [] then None
    else if Contains(ss[0], sub) then Some(0)
    else
      match FirstContaining(ss[1..], sub)
      case None => None
      case Some(k) => Some(k + 1)
  }

  // ---------------------------------------------------------------- digits and numbers

  /** `"".join(ch for ch in s if ch.isdigit())`, over ASCII digits: the digits of `s`, in order. */
  function Digits(s: string): (d: string)
    ensures AllDigits(d) && |d| <= |s|
  {
    if s == [] then []
    else (if IsDigit(s[0]) then [s[0]] else []) + Digits(s[1..])
  }

  lemma DigitsAppend(a: string, b: string)
    ensures Digits(a + b) == Digits(a) + Digits(b)
  {
    if a != [] {
      assert (a + b)[1..] == a[1..] + b;
      DigitsAppend(a[1..], b);
    } else {
      assert a + b == b;
    }
  }

  lemma DigitsOfDigits(s: string)
    requires AllDigits(s)
    ensures Digits(s) == s
  {
    if s != [] {
      DigitsOfDigits(s[1..]);
    }
  }

  lemma DigitsOfNone(s: string)
    requires forall i :: 0 <= i < |s| ==> !IsDigit(s[i])
    ensures Digits(s) == []
  {
    if s != [] {
      DigitsOfNone(s[1..]);
    }
  }

  /** Whitespace holds no digit, so stripping it keeps the digits. */
  lemma DigitsOfStrip(s: string)
    ensures Digits(Strip(s)) == Digits(s)
  {
    StripIsSlice(s);
    var k := |s| - |StripLeft(s)|;
    DigitsOfSpacedSlice(s, k, k + |Strip(s)|);
  }

  /** Dropping whitespace from both ends of `s` keeps its digits. */
  lemma DigitsOfSpacedSlice(s: string, k: nat, e: nat)
    requires k <= e <= |s|
    requires forall i :: 0 <= i < k ==> IsSpace(s[i])
    requires forall i :: e <= i < |s| ==> IsSpace(s[i])
    ensures Digits(s[k..e]) == Digits(s)
  {
    var front, back := s[..k], s[e..];
    forall i | 0 <= i < |front| ensures !IsDigit(front[i]) {
      SpaceIsNoDigit(s[i]);
    }
    forall i | 0 <= i < |back| ensures !IsDigit(back[i]) {
      SpaceIsNoDigit(s[e + i]);
    }
    DigitsOfNone(front);
    DigitsOfNone(back);
    ThreeSlices(s, k, e);
    DigitsOfThree(front, s[k..e], back);
  }

  /** Digits of three pieces whose outer two have none are the digits of the middle. */
  lemma DigitsOfThree(front: string, mid: string, back: string)
    requires Digits(front) == [] && Digits(back) == []
    ensures Digits(front + mid + back) == Digits(mid)
  {
    DigitsAppend(front + mid, back);
    DigitsAppend(front, mid);
  }

  lemma ThreeSlices<T>(s: seq<T>, k: nat, e: nat)
    requires k <= e <= |s|
    ensures s == s[..k] + s[k..e] + s[e..]
  {
  }

  lemma SpaceIsNoDigit(c: char)
    ensures IsSpace(c) ==> !IsDigit(c)
  {
  }

  /** The value of a string of decimal digits (0 for the empty string). */
  function DecimalValue(s: string): nat
    requires AllDigits(s)
  {
    if s == [] then 0 else 10 * DecimalValue(s[..|s| - 1]) + DigitValue(s[|s| - 1])
  }

  /** `str(n)` for a natural number: its shortest decimal digits, which read back as `n`. */
  function NatToString(n: nat): (s: string)
    ensures s != [] && AllDigits(s)
    ensures DecimalValue(s) == n
    ensures n > 0 ==> s[0] != '0'
  {
    if n < 10 then [DigitChar(n)]
    else
      var p := NatToString(n / 10);
      assert (p + [DigitChar(n % 10)])[..|p|] == p;
      p + [DigitChar(n % 10)]
  }

  /**
   * The characters U+001C to U+001F: whitespace to `str.isspace`, but not
   * skipped by `int()` and `float()`, which refuse them.
   */
  predicate IsSeparatorControl(c: char) {
    '\U{1c}' <= c <= '\U{1f}'
  }

  /** The whitespace `int()` and `float()` skip around a number. */
  predicate IsNumberSpace(c: char) {
    IsSpace(c) && !IsSeparatorControl(c)
  }

  function NumberStripLeft(s: string): (r: string)
    ensures |r| <= |s|
  {
    if s != [] && IsNumberSpace(s[0]) then NumberStripLeft(s[1..]) else s
  }

  function NumberStripRight(s: string): (r: string)
    ensures |r| <= |s|
  {
    if s != [] && IsNumberSpace(s[|s| - 1]) then NumberStripRight(s[..|s| - 1]) else s
  }

  /** What `int()` and `float()` read once the whitespace they skip is gone from both ends. */
  function NumberStrip(s: string): string {
    NumberStripRight(NumberStripLeft(s))
  }

  /** A string that neither starts nor ends with whitespace is what `int()` reads. */
  lemma NumberStripUnchanged(s: string)
    requires Trimmed(s)
    ensures NumberStrip(s) == s
  {
  }

  /** Without U+001C..U+001F, `int()` skips exactly the whitespace `strip()` removes. */
  lemma NumberStripIsStrip(s: string)
    requires forall i :: 0 <= i < |s| ==> !IsSeparatorControl(s[i])
    ensures NumberStrip(s) == Strip(s)
  {
    NumberStripLeftIs(s);
    StripLeftSuffix(s);
    var l := StripLeft(s);
    assert forall i :: 0 <= i < |l| ==> l[i] == s[|s| - |l| + i];
    NumberStripRightIs(l);
  }

  lemma {:induction false} NumberStripLeftIs(s: string)
    requires forall i :: 0 <= i < |s| ==> !IsSeparatorControl(s[i])
    ensures NumberStripLeft(s) == StripLeft(s)
  {
    if s != [] && IsSpace(s[0]) {
      assert forall i :: 0 <= i < |s[1..]| ==> s[1..][i] == s[i + 1];
      NumberStripLeftIs(s[1..]);
    }
  }

  lemma {:induction false} NumberStripRightIs(s: string)
    requires forall i :: 0 <= i < |s| ==> !IsSeparatorControl(s[i])
    ensures NumberStripRight(s) == StripRight(s)
  {
    if s != [] && IsSpace(s[|s| - 1]) {
      assert forall i :: 0 <= i < |s| - 1 ==> s[..|s| - 1][i] == s[i];
      NumberStripRightIs(s[..|s| - 1]);
    }
  }

  /**
   * A port text that starts with U+001C: `strip()` removes it, but `int()`
   * refuses the text.
   */
  lemma SeparatorControlRefused()
    ensures Strip("\U{1c}80") == "80"
    ensures ParseInt("80") == Some(80)
    ensures ParseInt("\U{1c}80") == None
  {
    var s := "\U{1c}80";
    assert IsSpace(s[0]) && s[1..] == "80";
    assert StripLeft(s) == StripLeft("80");
    assert !IsSpace('8') && !IsSpace('0');
    assert StripLeft("80") == "80";
    StripUnchanged("80");
    NumberStripUnchanged("80");
    assert DecimalValue("80") == 80 by {
      assert "80"[..1] == "8";
    }
    assert NumberStripLeft(s) == s;
    assert NumberStripRight(s) == s;
  }

  /**
   * Python's `int(s)`, restricted to optional surrounding whitespace, an
   * optional sign and at least one ASCII digit; `None` where Python raises
   * `ValueError`. The whitespace skipped is `str.isspace`'s less U+001C..U+001F.
   */
  function ParseInt(s: string): Option<int> {
    ParseTrimmed(NumberStrip(s))
  }

  /** `int(t)` once the surrounding whitespace is gone. */
  function ParseTrimmed(t: string): Option<int> {
    if t != [] && (t[0] == '-' || t[0] == '+') then
      if |t| > 1 && AllDigits(t[1..]) then
        var v: int := DecimalValue(t[1..]);
        Some(if t[0] == '-' then -v else v)
      else None
    else if t != [] && AllDigits(t) then Some(DecimalValue(t))
    else None
  }

  /** `int()` of a run of ASCII digits: its value, or `ValueError` for the empty run. */
  lemma ParseIntOfDigits(d: string)
    requires AllDigits(d)
    ensures ParseInt(d) == if d == [] then None else Some(DecimalValue(d))
  {
    if d != [] {
      assert IsDigit(d[0]) && IsDigit(d[|d| - 1]);
      NumberStripUnchanged(d);
    }
  }

  /** `str(i)`: an optional minus sign, then the digits of the magnitude. */
  function IntToString(i: int): (s: string)
    ensures s != [] && (s[0] == '-' || IsDigit(s[0])) && IsDigit(s[|s| - 1])
    ensures i >= 0 ==> AllDigits(s)
  {
    if i < 0 then
      var d := NatToString(-i);
      assert ("-" + d)[|"-" + d| - 1] == d[|d| - 1];
      "-" + d
    else NatToString(i)
  }

  /** `str(i)` holds only a minus sign and digits. */
  lemma CharNotInIntText(c: char, i: int)
    requires c != '-' && !IsDigit(c)
    ensures c !in IntToString(i)
  {
    var s := IntToString(i);
    if i < 0 {
      var d := NatToString(-i);
      assert s == "-" + d;
      assert forall j :: 0 <= j < |d| ==> IsDigit(d[j]);
    } else {
      assert forall j :: 0 <= j < |s| ==> IsDigit(s[j]);
    }
  }

  /** `int(str(i)) == i`, and `str(i)` carries no surrounding whitespace. */
  lemma IntToStringRoundTrip(i: int)
    ensures Trimmed(IntToString(i))
    ensures ParseInt(IntToString(i)) == Some(i)
  {
    IntToStringTrimmed(i);
    if i < 0 {
      assert IntToString(i) == "-" + NatToString(-i);
      ParseIntOfNegative(-i);
    } else {
      assert IntToString(i) == NatToString(i);
      ParseIntOfNat(i);
    }
  }

  lemma IntToStringTrimmed(i: int)
    ensures Trimmed(IntToString(i))
  {
    var s := IntToString(i);
    DigitNotSpace(s[|s| - 1]);
    if i >= 0 {
      DigitNotSpace(s[0]);
    }
  }

  lemma ParseIntOfNat(n: nat)
    ensures ParseInt(NatToString(n)) == Some(n)
  {
    ParseIntOfDigits(NatToString(n));
  }

  lemma ParseIntOfNegative(n: nat)
    ensures ParseInt("-" + NatToString(n)) == Some(-(n as int))
  {
    var d := NatToString(n);
    var s := "-" + d;
    assert s[1..] == d && s[0] == '-';
    assert s[|s| - 1] == d[|d| - 1];
    DigitNotSpace(d[|d| - 1]);
    assert !IsSpace('-');
    NumberStripUnchanged(s);
    assert ParseTrimmed(s) == Some(-(n as int));
  }

  lemma DigitNotSpace(c: char)
    requires IsDigit(c)
    ensures !IsSpace(c)
  {
  }

  function Pow10(n: nat): (p: nat)
    ensures p >= 1
  {
    if n == 0 then 1 else 10 * Pow10(n - 1)
  }

  /**
   * Python's `float(s)`, restricted to optional surrounding whitespace, an
   * optional sign and decimal digits with at most one '.', at least one digit
   * in all; `None` where Python raises `ValueError`.
   */
  function ParseDecimal(s: string): Option<real> {
    var t := NumberStrip(s);
    var negative := t != [] && t[0] == '-';
    var u := if t != [] && (t[0] == '-' || t[0] == '+') then t[1..] else t;
    match IndexOf(u, ".")
    case None =>
      if u != [] && AllDigits(u) then
        var x := DecimalValue(u) as real;
        Some(if negative then -x else x)
      else None
    case Some(p) =>
      var whole, frac := u[..p], u[p + 1..];
      if (whole != [] || frac != []) && AllDigits(whole) && AllDigits(frac) then
        var x := DecimalValue(whole) as real + DecimalValue(frac) as real / Pow10(|frac|) as real;
        Some(if negative then -x else x)
      else None
  }

  /** A plain run of digits reads as its integer value. */
  lemma ParseDecimalOfDigits(s: string)
    requires s != [] && AllDigits(s)
    ensures ParseDecimal(s) == Some(DecimalValue(s) as real)
  {
    NumberStripUnchanged(s);
    MissingCharNotContained(s, ".", '.');
  }

  // ---------------------------------------------------------------- repetition

  /** `c * n` in Python: `n` copies of `c`. */
  function Repeat(c: char, n: nat): (s: string)
    ensures |s| == n && forall i :: 0 <= i < n ==> s[i] == c
  {
    if n == 0 then [] else [c] + Repeat(c, n - 1)
  }
}
