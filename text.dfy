/**
 * The pieces of Rust's `str` API that the server's text handling relies on:
 * `char::is_whitespace`, `trim`, `trim_end_matches`, `trim_matches`,
 * `split_once`, `rsplitn`, `lines`, `split_whitespace` + `join`, and the
 * decimal integer parser behind `str::parse::<u64>()` / `parse::<usize>()`.
 */
module Text {
  import opened Wrappers

  /** `char::is_whitespace`: the Unicode White_Space property. */
  predicate IsWhitespace(c: char) {
    || c == '\t' || c == '\n' || c == '\U{B}' || c == '\U{C}' || c == '\r' || c == ' '
    || c == '\U{85}' || c == '\U{A0}' || c == '\U{1680}' || ('\U{2000}' <= c <= '\U{200A}')
    || c == '\U{2028}' || c == '\U{2029}' || c == '\U{202F}' || c == '\U{205F}' || c == '\U{3000}'
  }

  // ---------------------------------------------------------------- trimming

  /** `str::trim_start`: drops the leading whitespace and nothing else. */
  function TrimStart(s: string): (r: string)
    ensures |r| <= |s| && r == s[|s| - |r|..]
    ensures r == [] || !IsWhitespace(r[0])
    ensures forall i :: 0 <= i < |s| - |r| ==> IsWhitespace(s[i])
  {
    if s != [] && IsWhitespace(s[0]) then TrimStart(s[1..]) else s
  }

  /** `str::trim_end`: drops the trailing whitespace and nothing else. */
  function TrimEnd(s: string): (r: string)
    ensures r <= s
    ensures r == [] || !IsWhitespace(r[|r| - 1])
    ensures forall i :: |r| <= i < |s| ==> IsWhitespace(s[i])
  {
    if s != [] && IsWhitespace(s[|s| - 1]) then TrimEnd(s[..|s| - 1]) else s
  }

  /** `str::trim`. */
  function Trim(s: string): string {
    TrimEnd(TrimStart(s))
  }

  /** A string whose ends are not whitespace is its own trim. */
  lemma TrimNoop(s: string)
    requires s != [] ==> !IsWhitespace(s[0]) && !IsWhitespace(s[|s| - 1])
    ensures Trim(s) == s
  {
  }

  /** `str::trim_start_matches(c)` for one character `c`. */
  function TrimStartChar(s: string, c: char): (r: string)
    ensures |r| <= |s| && r == s[|s| - |r|..]
    ensures r == [] || r[0] != c
    ensures forall i :: 0 <= i < |s| - |r| ==> s[i] == c
  {
    if s != [] && s[0] == c then TrimStartChar(s[1..], c) else s
  }

  /** `str::trim_end_matches(c)` for one character `c`. */
  function TrimEndChar(s: string, c: char): (r: string)
    ensures r <= s
    ensures r == [] || r[|r| - 1] != c
    ensures forall i :: |r| <= i < |s| ==> s[i] == c
  {
    if s != [] && s[|s| - 1] == c then TrimEndChar(s[..|s| - 1], c) else s
  }

  /** One trailing `c` after a text that does not end in `c` is all that is trimmed. */
  lemma TrimEndCharOne(s: string, c: char)
    requires s == [] || s[|s| - 1] != c
    ensures TrimEndChar(s + [c], c) == s
  {
    assert (s + [c])[..|s|] == s;
  }

  /** `str::trim_matches(c)` for one character `c`. */
  function TrimChar(s: string, c: char): string {
    TrimEndChar(TrimStartChar(s, c), c)
  }

  // ---------------------------------------------------------------- searching

  predicate OccursAt(s: string, pat: string, i: nat) {
    i + |pat| <= |s| && s[i..i + |pat|] == pat
  }

  /** The first occurrence of `pat` in `s` at or after `i`. */
  function FindFrom(s: string, pat: string, i: nat): (r: Option<nat>)
    requires i <= |s|
    decreases |s| - i
    ensures r.Some? ==> i <= r.value <= |s| && OccursAt(s, pat, r.value)
    ensures r.Some? ==> forall j :: i <= j < r.value ==> !OccursAt(s, pat, j)
    ensures r.None? ==> forall j :: i <= j <= |s| ==> !OccursAt(s, pat, j)
  {
    if OccursAt(s, pat, i) then Some(i)
    else if i == |s| then None
    else FindFrom(s, pat, i + 1)
  }

  /** `str::find(pat)`. */
  function Find(s: string, pat: string): Option<nat> {
    FindFrom(s, pat, 0)
  }

  /** `str::contains(pat)`. */
  predicate Contains(s: string, pat: string) {
    Find(s, pat).Some?
  }

  /** `str::split_once(pat)`: the text before and after the FIRST occurrence. */
  function SplitOnce(s: string, pat: string): (r: Option<(string, string)>)
    ensures r.Some? ==> s == r.value.0 + pat + r.value.1
    ensures r.Some? ==> forall j :: 0 <= j < |r.value.0| ==> !OccursAt(s, pat, j)
    ensures r.None? ==> forall j :: 0 <= j <= |s| ==> !OccursAt(s, pat, j)
  {
    match Find(s, pat)
    case None => None
    case Some(i) =>
      assert s == s[..i] + s[i..i + |pat|] + s[i + |pat|..];
      Some((s[..i], s[i + |pat|..]))
  }

  /** When `pat` first occurs right after `a`, `split_once` cuts there. */
  lemma SplitOnceAt(a: string, pat: string, b: string)
    requires forall j :: 0 <= j < |a| ==> !OccursAt(a + pat + b, pat, j)
    ensures SplitOnce(a + pat + b, pat) == Some((a, b))
  {
    var s := a + pat + b;
    assert s[|a|..|a| + |pat|] == pat;
    assert OccursAt(s, pat, |a|);
    var r := SplitOnce(s, pat);
    assert |r.value.0| == |a| by {
      if |r.value.0| < |a| {
        assert s[|r.value.0|..|r.value.0| + |pat|] == pat;
        assert OccursAt(s, pat, |r.value.0|);
      }
    }
    assert s[..|a|] == a && s[|a| + |pat|..] == b;
    assert r.value.0 == s[..|a|] && r.value.1 == s[|a| + |pat|..];
  }

  /**
   * A text whose part `a` never holds the first character of `pat`, followed
   * by fewer characters than `pat` has, does not contain `pat`.
   */
  lemma NotContainsBefore(a: string, tail: string, pat: string)
    requires pat != [] && pat[0] !in a && |tail| < |pat|
    ensures !Contains(a + tail, pat)
  {
  }

  /**
   * When `a` followed by all of `pat` but its last character does not
   * contain `pat`, the first occurrence of `pat` is the one right after `a`.
   */
  lemma SplitOnceAfter(a: string, pat: string, b: string)
    requires pat != [] && !Contains(a + pat[..|pat| - 1], pat)
    ensures SplitOnce(a + pat + b, pat) == Some((a, b))
  {
    var s, early := a + pat + b, a + pat[..|pat| - 1];
    forall j | 0 <= j < |a|
      ensures !OccursAt(s, pat, j)
    {
      assert Find(early, pat).None? && !OccursAt(early, pat, j);
      assert s[j..j + |pat|] == early[j..j + |pat|];
    }
    SplitOnceAt(a, pat, b);
  }

  /** When the text before a one-character separator does not hold it, `split_once` cuts at that separator. */
  lemma SplitOnceAtChar(a: string, c: char, b: string)
    requires c !in a
    ensures SplitOnce(a + [c] + b, [c]) == Some((a, b))
  {
    var s := a + [c] + b;
    forall j | 0 <= j < |a|
      ensures !OccursAt(s, [c], j)
    {
      assert s[j..j + 1] == [s[j]] && s[j] == a[j];
    }
    SplitOnceAt(a, [c], b);
  }


  /** The first position of character `c` in `s`. */
  function IndexOf(s: string, c: char): (r: Option<nat>)
    ensures r.Some? ==> r.value < |s| && s[r.value] == c && c !in s[..r.value]
    ensures r.None? ==> c !in s
  {
    if s == [] then None
    else if s[0] == c then Some(0)
    else match IndexOf(s[1..], c)
      case None => None
      case Some(i) => assert s[..i + 1] == [s[0]] + s[1..][..i]; Some(i + 1)
  }

  /** The last position of character `c` in `s`. */
  function LastIndexOf(s: string, c: char): (r: Option<nat>)
    ensures r.Some? ==> r.value < |s| && s[r.value] == c && c !in s[r.value + 1..]
    ensures r.None? ==> c !in s
  {
    if s == [] then None
    else if s[|s| - 1] == c then Some(|s| - 1)
    else
      var r := LastIndexOf(s[..|s| - 1], c);
      assert r.Some? ==> s[r.value + 1..] == s[..|s| - 1][r.value + 1..] + [s[|s| - 1]];
      assert r.None? ==> s == s[..|s| - 1] + [s[|s| - 1]];
      r
  }

  /** `str::rsplit_once(c)`: the text before and after the LAST `c`. */
  function RSplitOnce(s: string, c: char): (r: Option<(string, string)>)
    ensures r.Some? ==> s == r.value.0 + [c] + r.value.1 && c !in r.value.1
    ensures r.None? ==> c !in s
  {
    match LastIndexOf(s, c)
    case None => None
    case Some(i) =>
      assert s == s[..i] + [c] + s[i + 1..];
      Some((s[..i], s[i + 1..]))
  }

  lemma {:induction false} LastIndexOfAt(a: string, c: char, b: string)
    requires c !in b
    ensures LastIndexOf(a + [c] + b, c) == Some(|a|)
  {
    var s := a + [c] + b;
    if b != [] {
      assert s[..|s| - 1] == a + [c] + b[..|b| - 1];
      assert s[|s| - 1] == b[|b| - 1];
      LastIndexOfAt(a, c, b[..|b| - 1]);
    }
  }

  lemma RSplitOnceOf(a: string, c: char, b: string)
    requires c !in b
    ensures RSplitOnce(a + [c] + b, c) == Some((a, b))
  {
    var s := a + [c] + b;
    LastIndexOfAt(a, c, b);
    assert s[..|a|] == a && s[|a| + 1..] == b;
  }

  // ---------------------------------------------------------------- lines

  /** Drops one '\r' that preceded a '\n'. */
  function StripCr(line: string): string {
    if line != [] && line[|line| - 1] == '\r' then line[..|line| - 1] else line
  }

  /**
   * `str::lines`: split at '\n', a "\r\n" ending counts as one line ending,
   * and a final line ending does not produce an empty last line.
   */
  function Lines(s: string): (ls: seq<string>)
    decreases |s|
    ensures |ls| <= |s|
    ensures forall k :: 0 <= k < |ls| ==> '\n' !in ls[k]
  {
    if s == [] then []
    else match IndexOf(s, '\n')
      case None => [s]
      case Some(i) => [StripCr(s[..i])] + Lines(s[i + 1..])
  }

  /** A non-empty text without '\n' is a single line. */
  lemma OneLine(s: string)
    requires s != [] && '\n' !in s
    ensures Lines(s) == [s]
  {
  }

  /** A line without '\n' and not ending in '\r', then '\n', is the first of the lines. */
  lemma LinesCons(line: string, rest: string)
    requires '\n' !in line && (line == [] || line[|line| - 1] != '\r')
    ensures Lines(line + "\n" + rest) == [line] + Lines(rest)
  {
    var s := line + "\n" + rest;
    assert s[|line|] == '\n';
    var i := IndexOf(s, '\n');
    assert i.Some? && i.value == |line|;
    assert s[..|line|] == line && s[|line| + 1..] == rest;
  }

  // ---------------------------------------------------------------- words

  /** The length of the longest whitespace-free prefix of `t`. */
  function WordEnd(t: string): (n: nat)
    ensures n <= |t|
    ensures forall i :: 0 <= i < n ==> !IsWhitespace(t[i])
    ensures n < |t| ==> IsWhitespace(t[n])
  {
    if t == [] || IsWhitespace(t[0]) then 0 else 1 + WordEnd(t[1..])
  }

  predicate IsWord(w: string) {
    w != [] && forall i :: 0 <= i < |w| ==> !IsWhitespace(w[i])
  }

  /** `str::split_whitespace`: the maximal whitespace-free runs, in order. */
  function Words(s: string): (ws: seq<string>)
    decreases |s|
    ensures forall k :: 0 <= k < |ws| ==> IsWord(ws[k])
  {
    var t := TrimStart(s);
    if t == [] then []
    else
      var n := WordEnd(t);
      var rest := Words(t[n..]);
      WordPrefix(t, n);
      ConsWord(t[..n], rest);
      [t[..n]] + rest
  }

  /** The whitespace-free prefix of a text that starts with a non-whitespace character is a word. */
  lemma WordPrefix(t: string, n: nat)
    requires t != [] && !IsWhitespace(t[0]) && n == WordEnd(t)
    ensures IsWord(t[..n])
  {
  }

  lemma ConsWord(w: string, ws: seq<string>)
    requires IsWord(w) && forall k :: 0 <= k < |ws| ==> IsWord(ws[k])
    ensures forall k :: 0 <= k < |[w] + ws| ==> IsWord(([w] + ws)[k])
  {
    forall k | 0 <= k < |[w] + ws| ensures IsWord(([w] + ws)[k]) {
      if k > 0 { assert ([w] + ws)[k] == ws[k - 1]; }
    }
  }

  /** `[String]::join(sep)`. */
  function Join(ws: seq<string>, sep: string): string {
    if |ws| == 0 then []
    else if |ws| == 1 then ws[0]
    else ws[0] + sep + Join(ws[1..], sep)
  }

  /** Joining an item in front of a non-empty list. */
  lemma JoinCons(w: string, ws: seq<string>, sep: string)
    requires ws != []
    ensures Join([w] + ws, sep) == w + sep + Join(ws, sep)
  {
    assert ([w] + ws)[1..] == ws;
  }

  /** Joining two non-empty lists: the two joins with one separator between them. */
  lemma {:induction false} JoinAppend(a: seq<string>, b: seq<string>, sep: string)
    requires a != [] && b != []
    decreases |a|
    ensures Join(a + b, sep) == Join(a, sep) + sep + Join(b, sep)
  {
    if |a| == 1 {
      assert (a + b)[1..] == b;
    } else {
      assert (a + b)[1..] == a[1..] + b;
      JoinAppend(a[1..], b, sep);
    }
  }

  /** Four items joined by single spaces. */
  lemma JoinFour(ws: seq<string>)
    requires |ws| == 4
    ensures Join(ws, " ") == ws[0] + " " + ws[1] + " " + ws[2] + " " + ws[3]
  {
    assert ws == [ws[0]] + ws[1..] && ws[1..] == [ws[1]] + ws[2..] && ws[2..] == [ws[2]] + [ws[3]];
    JoinCons(ws[0], ws[1..], " ");
    JoinCons(ws[1], ws[2..], " ");
    JoinCons(ws[2], [ws[3]], " ");
  }

  /**
   * Whitespace already collapsed: no whitespace at either end, the only
   * whitespace character is ' ', and no two spaces are adjacent.
   */
  predicate Collapsed(s: string) {
    && (s != [] ==> !IsWhitespace(s[0]) && !IsWhitespace(s[|s| - 1]))
    && (forall i :: 0 <= i < |s| ==> (IsWhitespace(s[i]) ==> s[i] == ' '))
    && (forall i :: 0 <= i <= |s| ==> !OccursAt(s, "  ", i))
  }

  predicate AllWords(ws: seq<string>) {
    forall k :: 0 <= k < |ws| ==> IsWord(ws[k])
  }

  /** Words joined by single spaces have collapsed whitespace. */
  lemma {:induction false} JoinWordsCollapsed(ws: seq<string>)
    requires AllWords(ws)
    ensures Collapsed(Join(ws, " "))
    ensures ws != [] ==> Join(ws, " ") != []
  {
    if |ws| == 1 {
      var w := ws[0];
      forall i | 0 <= i <= |w| ensures !OccursAt(w, "  ", i) {
        if i + 2 <= |w| { assert w[i..i + 2][0] == w[i]; }
      }
    } else if |ws| > 1 {
      var w, rest := ws[0], Join(ws[1..], " ");
      JoinWordsCollapsed(ws[1..]);
      var s := Join(ws, " ");
      assert s == w + " " + rest;
      assert |rest| > 0 && !IsWhitespace(rest[0]);
      forall i | 0 <= i < |s| ensures IsWhitespace(s[i]) ==> s[i] == ' ' {
        if i > |w| { assert s[i] == rest[i - |w| - 1]; }
      }
      forall i | 0 <= i <= |s| ensures !OccursAt(s, "  ", i) {
        if i + 2 <= |s| {
          assert s[i..i + 2][0] == s[i] && s[i..i + 2][1] == s[i + 1];
          if i < |w| {
            assert s[i] == w[i];
          } else if i == |w| {
            assert s[i + 1] == rest[0];
          } else {
            assert rest[i - |w| - 1..i - |w| + 1] == s[i..i + 2];
            assert !OccursAt(rest, "  ", i - |w| - 1);
          }
        }
      }
    }
  }

  lemma TrimStartOfSpace(s: string)
    requires s != [] && !IsWhitespace(s[0])
    ensures TrimStart(" " + s) == s
  {
    assert (" " + s)[1..] == s;
  }

  lemma {:induction false} WordEndOfWord(w: string, rest: string)
    requires IsWord(w)
    requires rest != [] ==> IsWhitespace(rest[0])
    ensures WordEnd(w + rest) == |w|
  {
    var s := w + rest;
    assert s[0] == w[0];
    if |w| > 1 {
      var tail := w[1..];
      assert s[1..] == tail + rest;
      assert IsWord(tail) by {
        forall i | 0 <= i < |tail| ensures !IsWhitespace(tail[i]) {
          assert tail[i] == w[i + 1];
        }
      }
      WordEndOfWord(tail, rest);
    } else {
      assert s[1..] == rest;
    }
  }

  /** `split_whitespace` looks only at what follows the leading whitespace. */
  lemma WordsOfSameTrim(a: string, b: string)
    requires TrimStart(a) == TrimStart(b)
    ensures Words(a) == Words(b)
  {
  }

  /** One step of `split_whitespace` on a text that starts with a word. */
  lemma WordsStep(s: string)
    requires s != [] && !IsWhitespace(s[0])
    ensures Words(s) == [s[..WordEnd(s)]] + Words(s[WordEnd(s)..])
  {
  }

  /** A text that starts with a non-whitespace character has a word. */
  lemma HasWord(s: string)
    requires s != [] && !IsWhitespace(s[0])
    ensures Words(s) != []
  {
    WordsStep(s);
  }

  /** A word, one space and a text starting with a word: that word, then the words of the text. */
  lemma WordsOfWordSpace(w: string, rest: string)
    requires IsWord(w) && rest != [] && !IsWhitespace(rest[0])
    ensures Words(w + " " + rest) == [w] + Words(rest)
  {
    var tail := " " + rest;
    var s := w + tail;
    assert s == w + " " + rest;
    WordEndOfWord(w, tail);
    assert s[0] == w[0];
    WordsStep(s);
    assert s[..|w|] == w && s[|w|..] == tail;
    WordsAfterSpace(rest);
  }

  /** A leading space does not change the words. */
  lemma WordsAfterSpace(rest: string)
    requires rest != [] && !IsWhitespace(rest[0])
    ensures Words(" " + rest) == Words(rest)
  {
    TrimStartOfSpace(rest);
    WordsOfSameTrim(" " + rest, rest);
  }

  lemma HeadTail<T>(s: seq<T>)
    requires s != []
    ensures [s[0]] + s[1..] == s
  {
  }

  lemma SuffixCons<T>(s: seq<T>, i: nat)
    requires i < |s|
    ensures s[i..] == [s[i]] + s[i + 1..]
  {
  }

  lemma Associative<T>(a: seq<T>, b: seq<T>, c: seq<T>)
    ensures a + (b + c) == a + b + c
  {
  }

  /** Splitting words joined by single spaces gives the words back. */
  lemma {:induction false} WordsOfJoin(ws: seq<string>)
    requires AllWords(ws)
    ensures Words(Join(ws, " ")) == ws
  {
    if |ws| == 1 {
      var w := ws[0];
      assert w + [] == w;
      WordEndOfWord(w, []);
      WordsStep(w);
      assert w[..|w|] == w && w[|w|..] == [];
      assert Words([]) == [];
    } else if |ws| > 1 {
      var rest := Join(ws[1..], " ");
      assert Join(ws, " ") == ws[0] + " " + rest;
      assert AllWords(ws[1..]) && IsWord(ws[0]);
      JoinWordsCollapsed(ws[1..]);
      WordsOfWordSpace(ws[0], rest);
      WordsOfJoin(ws[1..]);
      HeadTail(ws);
    }
  }

  // ---------------------------------------------------------------- integers

  predicate IsDigit(c: char) {
    '0' <= c <= '9'
  }

  predicate AllDigits(s: string) {
    forall i :: 0 <= i < |s| ==> IsDigit(s[i])
  }

  function DigitValue(c: char): nat
    requires IsDigit(c)
  {
    (c as int) - ('0' as int)
  }

  function DigitChar(d: nat): (c: char)
    requires d < 10
    ensures IsDigit(c) && DigitValue(c) == d
  {
    (('0' as int) + d) as char
  }

  /** `n.to_string()` for a non-negative integer: decimal, no sign, no padding. */
  function Decimal(n: nat): (s: string)
    ensures s != [] && AllDigits(s)
  {
    if n < 10 then [DigitChar(n)] else Decimal(n / 10) + [DigitChar(n % 10)]
  }

  /** `i64::to_string`: an optional '-', then the decimal digits of the magnitude. */
  function IntText(v: int): string {
    if v < 0 then "-" + Decimal(-v) else Decimal(v)
  }

  /** The value of a digit string read left to right onto `acc`. */
  function FoldDigits(s: string, acc: nat): nat
    requires AllDigits(s)
  {
    if s == [] then acc else FoldDigits(s[1..], acc * 10 + DigitValue(s[0]))
  }

  /** `core::num::IntErrorKind`, restricted to what unsigned parsing reports. */
  datatype IntErrorKind = Empty | InvalidDigit | PosOverflow

  /** The `Display` text of `ParseIntError`. */
  function IntErrorMessage(k: IntErrorKind): string {
    match k
    case Empty => "cannot parse integer from empty string"
    case InvalidDigit => "invalid digit found in string"
    case PosOverflow => "number too large to fit in target type"
  }

  /**
   * The digit loop of `from_str_radix` for an unsigned type whose largest
   * value is `max`: a bad digit and an overflow are reported in the order in
   * which the left-to-right scan meets them.
   */
  function ParseDigits(d: string, acc: nat, max: nat): Result<nat, IntErrorKind> {
    if d == [] then Ok(acc)
    else if !IsDigit(d[0]) then Err(InvalidDigit)
    else if acc * 10 > max || acc * 10 + DigitValue(d[0]) > max then Err(PosOverflow)
    else ParseDigits(d[1..], acc * 10 + DigitValue(d[0]), max)
  }

  /** `str::parse::<uN>()` where `max` is uN::MAX: an optional '+', then digits. */
  function ParseUnsigned(s: string, max: nat): Result<nat, IntErrorKind> {
    if s == [] then Err(Empty)
    else if (s[0] == '+' || s[0] == '-') && |s| == 1 then Err(InvalidDigit)
    else ParseDigits(if s[0] == '+' then s[1..] else s, 0, max)
  }

  lemma FoldDigitsGrows(s: string, acc: nat)
    requires AllDigits(s)
    ensures FoldDigits(s, acc) >= acc
  {
  }

  lemma {:induction false} FoldDigitsSnoc(s: string, c: char, acc: nat)
    requires AllDigits(s) && IsDigit(c)
    ensures FoldDigits(s + [c], acc) == FoldDigits(s, acc) * 10 + DigitValue(c)
  {
    if s != [] {
      assert (s + [c])[1..] == s[1..] + [c];
      FoldDigitsSnoc(s[1..], c, acc * 10 + DigitValue(s[0]));
    }
  }

  lemma {:induction false} FoldDecimal(n: nat)
    ensures FoldDigits(Decimal(n), 0) == n
  {
    if n < 10 {
    } else {
      FoldDecimal(n / 10);
      FoldDigitsSnoc(Decimal(n / 10), DigitChar(n % 10), 0);
    }
  }

  /** A digit string whose value fits is parsed to that value. */
  lemma {:induction false} ParseDigitsFits(d: string, acc: nat, max: nat)
    requires AllDigits(d) && FoldDigits(d, acc) <= max
    ensures ParseDigits(d, acc, max) == Ok(FoldDigits(d, acc))
  {
    if d != [] {
      FoldDigitsGrows(d[1..], acc * 10 + DigitValue(d[0]));
      ParseDigitsFits(d[1..], acc * 10 + DigitValue(d[0]), max);
    }
  }

  /** Parsing what `Decimal` prints gives the number back. */
  lemma ParseDecimal(n: nat, max: nat)
    requires n <= max
    ensures ParseUnsigned(Decimal(n), max) == Ok(n)
  {
    var s := Decimal(n);
    assert s[0] != '+' && s[0] != '-';
    FoldDecimal(n);
    ParseDigitsFits(s, 0, max);
  }
}
