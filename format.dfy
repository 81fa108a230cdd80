/**
 * The format tool: one formatter run per target file, a one-line failure
 * reason extracted from each failing run, and the summary and structured
 * content built from the failures.
 */
module Format {
  import opened Wrappers
  import opened Text
  import opened Json
  import opened Host
  import opened StringSet
  import opened Targets

  const MAX_FAILURES_RETURNED: nat := 20
  const UNKNOWN_REASON: string := "Unknown formatting error"

  // ---------------------------------------------------------------- reasons

  lemma UnknownReasonIsCollapsed()
    ensures UNKNOWN_REASON == Join(["Unknown", "formatting", "error"], " ")
    ensures AllWords(["Unknown", "formatting", "error"])
    ensures Collapsed(UNKNOWN_REASON)
    ensures Words(UNKNOWN_REASON) == ["Unknown", "formatting", "error"]
  {
    var ws := ["Unknown", "formatting", "error"];
    assert ws[1..] == ["formatting", "error"] && ws[1..][1..] == ["error"];
    assert Join(ws[1..][1..], " ") == "error";
    assert Join(ws[1..], " ") == "formatting error" by {
      assert "formatting" + " " + "error" == "formatting error";
    }
    assert Join(ws, " ") == "Unknown formatting error" by {
      assert "Unknown" + " " + "formatting error" == "Unknown formatting error";
    }
    JoinWordsCollapsed(ws);
    WordsOfJoin(ws);
  }

  /**
   * `normalize_reason`: the words of `text` separated by single spaces, or
   * "Unknown formatting error" when `text` has no words.
   */
  function NormalizeReason(text: string): (r: string)
    ensures r != [] && Collapsed(r)
    ensures Words(text) != [] ==> Words(r) == Words(text)
    ensures Words(text) == [] ==> r == UNKNOWN_REASON
  {
    var words := Words(text);
    JoinWordsCollapsed(words);
    TrimNoop(Join(words, " "));
    var normalized := Trim(Join(words, " "));
    if normalized == [] then
      UnknownReasonIsCollapsed();
      UNKNOWN_REASON
    else
      WordsOfJoin(words);
      normalized
  }

  /** A normalised reason is its own normal form. */
  lemma NormalizeReasonIdempotent(text: string)
    ensures NormalizeReason(NormalizeReason(text)) == NormalizeReason(text)
  {
    var r := NormalizeReason(text);
    if Words(text) == [] {
      UnknownReasonIsCollapsed();
    }
    var ws := Words(r);
    JoinWordsCollapsed(ws);
    TrimNoop(Join(ws, " "));
    WordsOfJoin(ws);
    CollapsedIsJoinOfWords(r);
  }

  /** In a collapsed text, the first word is followed by one space and then another word. */
  lemma CollapsedGap(s: string)
    requires Collapsed(s) && s != [] && WordEnd(s) < |s|
    ensures s[WordEnd(s)] == ' ' && WordEnd(s) + 1 < |s| && !IsWhitespace(s[WordEnd(s) + 1])
  {
    var n := WordEnd(s);
    assert !OccursAt(s, "  ", n);
    assert s[n..n + 2][0] == s[n] && s[n..n + 2][1] == s[n + 1];
  }

  lemma CollapsedSuffix(s: string, m: nat)
    requires Collapsed(s) && m < |s| && !IsWhitespace(s[m])
    ensures Collapsed(s[m..])
  {
    var rest := s[m..];
    assert forall i :: 0 <= i < |rest| ==> rest[i] == s[m + i];
    assert forall i :: 0 <= i <= |rest| ==> !OccursAt(rest, "  ", i) by {
      forall i | 0 <= i <= |rest| ensures !OccursAt(rest, "  ", i) {
        assert !OccursAt(s, "  ", m + i);
        if i + 2 <= |rest| {
          assert rest[i..i + 2] == s[m + i..m + i + 2];
        }
      }
    }
  }

  lemma SplitAround(s: string, n: nat)
    requires n < |s| && s[n] == ' '
    ensures s[n..] == " " + s[n + 1..]
    ensures s == s[..n] + " " + s[n + 1..]
  {
    assert s[n..] == [s[n]] + s[n + 1..];
    assert s == s[..n] + s[n..];
  }

  /** The words of a collapsed text with more than one word: its first word, then the words of the rest. */
  lemma CollapsedWords(s: string, n: nat)
    requires s != [] && !IsWhitespace(s[0]) && n == WordEnd(s) && n + 1 < |s|
    requires s[n] == ' ' && !IsWhitespace(s[n + 1])
    ensures Words(s) == [s[..n]] + Words(s[n + 1..])
  {
    var rest := s[n + 1..];
    WordsStep(s);
    SplitAround(s, n);
    TrimStartOfSpace(rest);
    WordsOfSameTrim(" " + rest, rest);
  }

  /** A non-empty text without whitespace is its own single word. */
  lemma SingleWord(s: string)
    requires s != [] && WordEnd(s) == |s|
    ensures Words(s) == [s]
  {
    assert !IsWhitespace(s[0]);
    WordsStep(s);
    assert s[..|s|] == s && s[|s|..] == [];
    assert Words([]) == [];
  }

  /** A word, a space and the join of the rest, joined back: the text itself. */
  lemma JoinAroundSpace(s: string, n: nat, ws: seq<string>)
    requires n < |s| && s[n] == ' ' && ws != []
    requires Words(s) == [s[..n]] + ws && Join(ws, " ") == s[n + 1..]
    ensures Join(Words(s), " ") == s
  {
    JoinCons(s[..n], ws, " ");
    SplitAround(s, n);
  }

  /** A collapsed text is the single-space join of its words. */
  lemma {:induction false} CollapsedIsJoinOfWords(s: string)
    requires Collapsed(s)
    decreases |s|
    ensures Join(Words(s), " ") == s
  {
    if s != [] {
      var n := WordEnd(s);
      if n < |s| {
        CollapsedGap(s);
        var rest := s[n + 1..];
        CollapsedSuffix(s, n + 1);
        CollapsedIsJoinOfWords(rest);
        HasWord(rest);
        CollapsedWords(s, n);
        JoinAroundSpace(s, n, Words(rest));
      } else {
        SingleWord(s);
      }
    }
  }

  /** The first `Some` that `pick` gives for a line, scanning `lines` in order. */
  function FirstPick(lines: seq<string>, pick: string -> Option<string>): (r: Option<string>)
    ensures r.None? <==> forall i :: 0 <= i < |lines| ==> pick(lines[i]).None?
    ensures r.Some? ==> exists i :: 0 <= i < |lines| && pick(lines[i]) == r
                                    && forall j :: 0 <= j < i ==> pick(lines[j]).None?
  {
    if lines == [] then None
    else match pick(lines[0])
      case Some(reason) => Some(reason)
      case None =>
        var r := FirstPick(lines[1..], pick);
        assert forall i :: 0 < i < |lines| ==> lines[i] == lines[1..][i - 1];
        assert r.Some? ==> exists i :: 0 < i < |lines| && pick(lines[i]) == r
                                         && forall j :: 0 <= j < i ==> pick(lines[j]).None? by {
          if r.Some? {
            var i :| 0 <= i < |lines[1..]| && pick(lines[1..][i]) == r
                     && forall j :: 0 <= j < i ==> pick(lines[1..][j]).None?;
            assert pick(lines[i + 1]) == r;
          }
        }
        r
  }

  /**
   * The first scan of `extract_format_failure_reason`, for one stderr line:
   * the text after `Error: "`, without trailing quotes, and after its first
   * ": " when it has one.
   */
  function QuotedError(line: string): (r: Option<string>)
    ensures r.Some? <==> Contains(line, "Error: \"")
    ensures r.Some? ==> r.value != [] && Collapsed(r.value)
  {
    match SplitOnce(line, "Error: \"")
    case None =>
      assert Find(line, "Error: \"").None?;
      None
    case Some((_, quotedError)) =>
      assert Find(line, "Error: \"").Some?;
      var trimmed := TrimEndChar(quotedError, '"');
      match SplitOnce(trimmed, ": ")
      case Some((_, reason)) => Some(NormalizeReason(reason))
      case None => Some(NormalizeReason(trimmed))
  }

  /**
   * The second scan, for one stderr line: the text after the first ':'
   * that follows "Failed to format file ", without surrounding quotes.
   */
  function FailedFile(line: string): (r: Option<string>)
    ensures r.Some? ==> Contains(line, "Failed to format file ")
    ensures r.Some? ==> r.value != [] && Collapsed(r.value)
  {
    match SplitOnce(line, "Failed to format file ")
    case None => None
    case Some((_, rest)) =>
      assert Find(line, "Failed to format file ").Some?;
      match SplitOnce(rest, ":")
      case None => None
      case Some((_, reason)) => Some(NormalizeReason(TrimChar(reason, '"')))
  }

  /**
   * `extract_format_failure_reason`: the quoted error of the first stderr
   * line that has one; otherwise the reason of the first "Failed to format
   * file" line; otherwise all of stderr, unless it normalises to the
   * placeholder; otherwise stdout. Every reason is one clean line.
   */
  function ExtractFormatFailureReason(stdout: string, stderr: string): (r: string)
    ensures r != [] && Collapsed(r)
    ensures Words(stderr) == [] && Words(stdout) == [] ==> r == UNKNOWN_REASON
  {
    var lines := Lines(stderr);
    ScansAreClean(stderr);
    match FirstPick(lines, QuotedError)
    case Some(reason) => reason
    case None =>
      match FirstPick(lines, FailedFile)
      case Some(reason) => reason
      case None =>
        var stderrReason := NormalizeReason(stderr);
        if stderrReason != UNKNOWN_REASON then stderrReason
        else NormalizeReason(stdout)
  }

  /**
   * When neither line scan finds a reason, the reason is all of stderr,
   * normalised, unless that is the placeholder; then it is stdout, normalised.
   */
  lemma ReasonFallback(stdout: string, stderr: string)
    requires FirstPick(Lines(stderr), QuotedError).None? && FirstPick(Lines(stderr), FailedFile).None?
    ensures ExtractFormatFailureReason(stdout, stderr)
         == if NormalizeReason(stderr) != UNKNOWN_REASON then NormalizeReason(stderr) else NormalizeReason(stdout)
  {
  }

  /** Both scans give a clean reason, and only for a text that is not blank. */
  lemma ScansAreClean(stderr: string)
    ensures FirstPick(Lines(stderr), QuotedError).Some? ==>
      Words(stderr) != [] && FirstPick(Lines(stderr), QuotedError).value != []
      && Collapsed(FirstPick(Lines(stderr), QuotedError).value)
    ensures FirstPick(Lines(stderr), FailedFile).Some? ==>
      Words(stderr) != [] && FirstPick(Lines(stderr), FailedFile).value != []
      && Collapsed(FirstPick(Lines(stderr), FailedFile).value)
  {
    PickedTextIsNotBlank(stderr, QuotedError, "Error: \"");
    PickedReasonIsClean(Lines(stderr), QuotedError);
    PickedTextIsNotBlank(stderr, FailedFile, "Failed to format file ");
    PickedReasonIsClean(Lines(stderr), FailedFile);
  }

  /** The reason comes from the first stderr line that holds `Error: "`. */
  lemma QuotedErrorWins(stdout: string, stderr: string, i: nat)
    requires i < |Lines(stderr)| && Contains(Lines(stderr)[i], "Error: \"")
    requires forall j :: 0 <= j < i ==> !Contains(Lines(stderr)[j], "Error: \"")
    ensures ExtractFormatFailureReason(stdout, stderr) == QuotedError(Lines(stderr)[i]).value
  {
    FirstPickAt(Lines(stderr), QuotedError, i);
  }

  /**
   * With no `Error: "` line, the reason comes from the first line that has
   * "Failed to format file " followed later by a ':'.
   */
  lemma FailedFileWins(stdout: string, stderr: string, i: nat)
    requires forall j :: 0 <= j < |Lines(stderr)| ==> !Contains(Lines(stderr)[j], "Error: \"")
    requires i < |Lines(stderr)| && FailedFile(Lines(stderr)[i]).Some?
    requires forall j :: 0 <= j < i ==> FailedFile(Lines(stderr)[j]).None?
    ensures ExtractFormatFailureReason(stdout, stderr) == FailedFile(Lines(stderr)[i]).value
  {
    FirstPickAt(Lines(stderr), FailedFile, i);
  }

  /**
   * The first scan on a line of the formatter's error shape: after the first
   * `Error: "` and the context's first ": ", the message up to the closing
   * quote, normalised.
   */
  lemma QuotedErrorOf(pre: string, context: string, message: string)
    requires !Contains(pre + "Error: ", "Error: \"")
    requires !Contains(context + ":", ": ")
    requires message == [] || message[|message| - 1] != '"'
    ensures QuotedError(pre + "Error: \"" + context + ": " + message + "\"") == Some(NormalizeReason(message))
  {
    var body := context + ": " + message;
    assert pre + "Error: \"" + context + ": " + message + "\"" == pre + "Error: \"" + body + "\"";
    QuotedBody(pre, body);
    UnquotedBody(context, message);
    assert ": "[..1] == ":";
    SplitOnceAfter(context, ": ", message);
  }

  /** After the first `Error: "`: the quoted body with its closing quote. */
  lemma QuotedBody(pre: string, body: string)
    requires !Contains(pre + "Error: ", "Error: \"")
    ensures SplitOnce(pre + "Error: \"" + body + "\"", "Error: \"") == Some((pre, body + "\""))
  {
    var marker := "Error: \"";
    assert marker[..|marker| - 1] == "Error: ";
    assert pre + marker + body + "\"" == pre + marker + (body + "\"");
    SplitOnceAfter(pre, marker, body + "\"");
  }

  /** A context, ": " and a message not ending in a quote: trimming the closing quote gives them back. */
  lemma UnquotedBody(context: string, message: string)
    requires message == [] || message[|message| - 1] != '"'
    ensures TrimEndChar(context + ": " + message + "\"", '"') == context + ": " + message
  {
    var body := context + ": " + message;
    assert body[|body| - 1] != '"' by {
      if message == [] { assert body[|body| - 1] == ' '; } else { assert body[|body| - 1] == message[|message| - 1]; }
    }
    TrimEndCharOne(body, '"');
  }

  /**
   * The first scan on a quoted error without a context: the whole message
   * up to the closing quote, normalised.
   */
  lemma QuotedErrorWithoutContext(pre: string, message: string)
    requires !Contains(pre + "Error: ", "Error: \"")
    requires !Contains(message, ": ")
    requires message == [] || message[|message| - 1] != '"'
    ensures QuotedError(pre + "Error: \"" + message + "\"") == Some(NormalizeReason(message))
  {
    var marker, quoted := "Error: \"", message + "\"";
    assert marker[..|marker| - 1] == "Error: ";
    assert pre + "Error: \"" + message + "\"" == pre + marker + quoted;
    SplitOnceAfter(pre, marker, quoted);
    TrimEndCharOne(message, '"');
  }

  /**
   * The second scan on a `Failed to format file` line: what follows the
   * first ':' after the path, quotes trimmed, normalised.
   */
  lemma FailedFileOf(pre: string, path: string, message: string)
    requires !Contains(pre + "Failed to format file", "Failed to format file ")
    requires ':' !in path
    ensures FailedFile(pre + "Failed to format file " + path + ":" + message)
         == Some(NormalizeReason(TrimChar(message, '"')))
  {
    var marker, rest := "Failed to format file ", path + ":" + message;
    assert marker[..|marker| - 1] == "Failed to format file";
    assert pre + "Failed to format file " + path + ":" + message == pre + marker + rest;
    SplitOnceAfter(pre, marker, rest);
    SplitOnceAtChar(path, ':', message);
  }

  /** Words joined by single spaces are already a normalised reason. */
  lemma JoinedWordsAreNormal(ws: seq<string>)
    requires ws != [] && AllWords(ws)
    ensures NormalizeReason(Join(ws, " ")) == Join(ws, " ")
  {
    JoinWordsCollapsed(ws);
    WordsOfJoin(ws);
    TrimNoop(Join(ws, " "));
  }

  /**
   * The source's first test: the formatter's one-line stderr for a file it
   * could not format, written here as its parts (prefix, marker, context,
   * ": ", message, closing quote), gives the message after the file's path.
   */
  lemma TopiaryFailureReason()
    ensures ExtractFormatFailureReason("",
              "Formatting 1 file..." + "Error: \"" + "Failed to format file /tmp/bad.gd" + ": "
              + "Topiary formatting failed" + "\"")
         == "Topiary formatting failed"
  {
    var pre, context, message := "Formatting 1 file...", "Failed to format file /tmp/bad.gd", "Topiary formatting failed";
    ProgressPrefix(pre);
    BadFileContext(context);
    PlainMessage(message);
    QuotedLineReason(pre, context, message);
    TopiaryMessageIsNormal(message);
  }

  /**
   * The source's second test: a file the formatter cannot read gives the
   * operating system's message.
   */
  lemma ReadErrorReason()
    ensures ExtractFormatFailureReason("",
              "Formatting 1 file..." + "Error: \"" + "Failed to read file /tmp/missing.gd" + ": "
              + "No such file or directory (os error 2)" + "\"")
         == "No such file or directory (os error 2)"
  {
    var pre, context, message := "Formatting 1 file...", "Failed to read file /tmp/missing.gd", "No such file or directory (os error 2)";
    ProgressPrefix(pre);
    MissingFileContext(context);
    PlainMessage(message);
    QuotedLineReason(pre, context, message);
    OsMessageIsNormal(message);
  }

  /** The formatter's progress prefix holds no 'E' and no line break. */
  lemma ProgressPrefix(pre: string)
    requires pre == "Formatting 1 file..."
    ensures 'E' !in pre && '\n' !in pre
  {
  }

  /** The first test's context holds no ':' and no line break. */
  lemma BadFileContext(context: string)
    requires context == "Failed to format file /tmp/bad.gd"
    ensures ':' !in context && '\n' !in context
  {
  }

  /** The second test's context holds no ':' and no line break. */
  lemma MissingFileContext(context: string)
    requires context == "Failed to read file /tmp/missing.gd"
    ensures ':' !in context && '\n' !in context
  {
  }

  /** Both tests' messages are one line and do not end in a quote. */
  lemma PlainMessage(message: string)
    requires message == "Topiary formatting failed" || message == "No such file or directory (os error 2)"
    ensures '\n' !in message && message[|message| - 1] != '"'
  {
  }

  /** A stderr of one quoted error line gives that line's message, normalised. */
  lemma QuotedLineReason(pre: string, context: string, message: string)
    requires 'E' !in pre && ':' !in context
    requires '\n' !in pre && '\n' !in context && '\n' !in message
    requires message == [] || message[|message| - 1] != '"'
    ensures ExtractFormatFailureReason("", pre + "Error: \"" + context + ": " + message + "\"")
         == NormalizeReason(message)
  {
    var stderr := pre + "Error: \"" + context + ": " + message + "\"";
    NoBreakIn(pre, "Error: \"");
    NoBreakIn(pre + "Error: \"", context);
    NoBreakIn(pre + "Error: \"" + context, ": ");
    NoBreakIn(pre + "Error: \"" + context + ": ", message);
    NoBreakIn(pre + "Error: \"" + context + ": " + message, "\"");
    OneLine(stderr);
    NotContainsBefore(pre, "Error: ", "Error: \"");
    NotContainsBefore(context, ":", ": ");
    QuotedErrorOf(pre, context, message);
    QuotedErrorWins("", stderr, 0);
  }

  /** Two texts without a line break concatenate to one without. */
  lemma NoBreakIn(a: string, b: string)
    requires '\n' !in a && '\n' !in b
    ensures '\n' !in a + b
  {
  }

  /** The message of the first test is already normal. */
  lemma TopiaryMessageIsNormal(message: string)
    requires message == "Topiary formatting failed"
    ensures NormalizeReason(message) == message
  {
    var ws := ["Topiary", "formatting", "failed"];
    assert AllWords(ws);
    TopiaryJoin(ws);
    JoinedWordsAreNormal(ws);
  }

  /** The first test's message is its three words joined by spaces. */
  lemma TopiaryJoin(ws: seq<string>)
    requires ws == ["Topiary", "formatting", "failed"]
    ensures Join(ws, " ") == "Topiary formatting failed"
  {
    JoinCons(ws[0], ws[1..], " ");
    JoinCons(ws[1], ws[2..], " ");
    assert "formatting" + " " + "failed" == "formatting failed";
    assert "Topiary" + " " + "formatting failed" == "Topiary formatting failed";
  }

  /** The message of the second test is already normal. */
  lemma OsMessageIsNormal(message: string)
    requires message == "No such file or directory (os error 2)"
    ensures NormalizeReason(message) == message
  {
    var head, tail := ["No", "such", "file", "or"], ["directory", "(os", "error", "2)"];
    OsWords(head, tail);
    OsJoin(head, tail);
    JoinedWordsAreNormal(head + tail);
  }

  /** The second test's message splits into eight words. */
  lemma OsWords(head: seq<string>, tail: seq<string>)
    requires head == ["No", "such", "file", "or"] && tail == ["directory", "(os", "error", "2)"]
    ensures AllWords(head + tail)
  {
    assert AllWords(head) && AllWords(tail);
    assert forall k :: 0 <= k < |head + tail| ==> (head + tail)[k] == if k < 4 then head[k] else tail[k - 4];
  }

  /** The second test's message is its eight words joined by spaces. */
  lemma OsJoin(head: seq<string>, tail: seq<string>)
    requires head == ["No", "such", "file", "or"] && tail == ["directory", "(os", "error", "2)"]
    ensures Join(head + tail, " ") == "No such file or directory (os error 2)"
  {
    JoinAppend(head, tail, " ");
    OsHalves(head, tail);
    assert "No such file or" + " " + "directory (os error 2)" == "No such file or directory (os error 2)";
  }

  /** Each half of the second test's message, joined. */
  lemma OsHalves(head: seq<string>, tail: seq<string>)
    requires head == ["No", "such", "file", "or"] && tail == ["directory", "(os", "error", "2)"]
    ensures Join(head, " ") == "No such file or"
    ensures Join(tail, " ") == "directory (os error 2)"
  {
    JoinFour(head);
    assert "No" + " " + "such" + " " + "file" + " " + "or" == "No such file or";
    JoinFour(tail);
    assert "directory" + " " + "(os" + " " + "error" + " " + "2)" == "directory (os error 2)";
  }

  /** The scan stops at the first line that `pick` accepts. */
  lemma {:induction false} FirstPickAt(lines: seq<string>, pick: string -> Option<string>, i: nat)
    requires i < |lines| && pick(lines[i]).Some?
    requires forall j :: 0 <= j < i ==> pick(lines[j]).None?
    ensures FirstPick(lines, pick) == pick(lines[i])
  {
    if i > 0 {
      FirstPickAt(lines[1..], pick, i - 1);
    }
  }

  /** A scan whose every accepted reason is clean returns a clean reason. */
  lemma {:induction false} PickedReasonIsClean(lines: seq<string>, pick: string -> Option<string>)
    requires forall line :: pick(line).Some? ==> pick(line).value != [] && Collapsed(pick(line).value)
    ensures FirstPick(lines, pick).Some? ==> FirstPick(lines, pick).value != [] && Collapsed(FirstPick(lines, pick).value)
  {
    if lines != [] && pick(lines[0]).None? {
      PickedReasonIsClean(lines[1..], pick);
    }
  }

  /** A scan that only accepts lines holding `marker` accepts nothing in a blank text. */
  lemma PickedTextIsNotBlank(s: string, pick: string -> Option<string>, marker: string)
    requires marker != [] && !IsWhitespace(marker[0])
    requires forall line :: pick(line).Some? ==> Contains(line, marker)
    ensures FirstPick(Lines(s), pick).Some? ==> Words(s) != []
  {
    BlankTextHasNoMarker(s, marker);
  }

  /** A text without words has no line containing a marker that starts with a non-space. */
  lemma BlankTextHasNoMarker(s: string, marker: string)
    requires marker != [] && !IsWhitespace(marker[0])
    ensures Words(s) == [] ==> forall i :: 0 <= i < |Lines(s)| ==> !Contains(Lines(s)[i], marker)
  {
    if Words(s) == [] {
      forall i | 0 <= i < |Lines(s)| ensures !Contains(Lines(s)[i], marker) {
        if Contains(Lines(s)[i], marker) {
          var line := Lines(s)[i];
          var k := Find(line, marker).value;
          assert line[k] == marker[0] by {
            assert line[k..k + |marker|][0] == line[k];
          }
          LineCharInText(s, i, k);
        }
      }
    }
  }

  lemma {:induction false} LineCharInText(s: string, i: nat, k: nat)
    requires i < |Lines(s)| && k < |Lines(s)[i]|
    decreases |s|
    ensures exists j :: 0 <= j < |s| && s[j] == Lines(s)[i][k]
  {
    match IndexOf(s, '\n')
    case None =>
      assert Lines(s) == [s];
      assert s[k] == Lines(s)[i][k];
    case Some(n) =>
      if i == 0 {
        assert Lines(s)[0] == StripCr(s[..n]);
        assert s[k] == Lines(s)[i][k];
      } else {
        assert Lines(s)[i] == Lines(s[n + 1..])[i - 1];
        LineCharInText(s[n + 1..], i - 1, k);
        var j :| 0 <= j < |s[n + 1..]| && s[n + 1..][j] == Lines(s)[i][k];
        assert s[n + 1 + j] == Lines(s)[i][k];
      }
  }

  lemma {:induction false} NonWhitespaceHasWords(s: string, j: nat)
    requires j < |s| && !IsWhitespace(s[j])
    ensures Words(s) != []
  {
    assert TrimStart(s) != [];
  }

  // ---------------------------------------------------------------- results

  /** `FormatFailure`. */
  datatype FormatFailure = FormatFailure(file: string, reason: string)

  /** `FormatToolResult`. */
  datatype FormatToolResult = FormatToolResult(success: bool, processedCount: nat, failures: seq<FormatFailure>)

  /** `render_format_summary`. */
  function RenderFormatSummary(result: FormatToolResult): (s: string)
    ensures s == "Format ok." <==> result.success
    ensures !result.success ==> s == "Format failed. failed_count=" + Decimal(|result.failures|) + "."
  {
    if result.success then "Format ok."
    else
      var s := "Format failed. failed_count=" + Decimal(|result.failures|) + ".";
      assert s[7] != "Format ok."[7];
      s
  }

  function FailureJson(f: FormatFailure): Json {
    JObject(map["file" := JString(f.file), "reason" := JString(f.reason)])
  }

  /**
   * `format_structured_content`: the processed count alone on success;
   * otherwise the full failure count, whether the list was cut, and the
   * first 20 failures in order.
   */
  function FormatStructuredContent(result: FormatToolResult): (v: Json)
    ensures v.JObject?
    ensures result.success ==> v.fields == map["ok" := JBool(true), "processed_count" := JInt(result.processedCount)]
    ensures !result.success ==>
      && v.fields.Keys == {"ok", "processed_count", "failed_count", "failures_truncated", "failures"}
      && v.fields["ok"] == JBool(false)
      && v.fields["processed_count"] == JInt(result.processedCount)
      && v.fields["failed_count"] == JInt(|result.failures|)
      && v.fields["failures_truncated"] == JBool(|result.failures| > MAX_FAILURES_RETURNED)
      && v.fields["failures"].JArray?
      && |v.fields["failures"].items| == Min(|result.failures|, MAX_FAILURES_RETURNED)
      && forall k :: 0 <= k < |v.fields["failures"].items| ==>
           v.fields["failures"].items[k] == FailureJson(result.failures[k])
  {
    if result.success then
      JObject(map["ok" := JBool(true), "processed_count" := JInt(result.processedCount)])
    else
      var shown := result.failures[..Min(|result.failures|, MAX_FAILURES_RETURNED)];
      var failures := seq(|shown|, k requires 0 <= k < |shown| => FailureJson(shown[k]));
      JObject(map[
        "ok" := JBool(false),
        "processed_count" := JInt(result.processedCount),
        "failed_count" := JInt(|result.failures|),
        "failures_truncated" := JBool(|result.failures| > MAX_FAILURES_RETURNED),
        "failures" := JArray(failures)])
  }

  // ---------------------------------------------------------------- the tool

  /** The validated arguments of a format call. */
  datatype FormatRequest = FormatRequest(
    files: seq<string>,
    check: bool,
    stdout: bool,
    useSpaces: bool,
    reorderCode: bool,
    safe: bool,
    indentSize: Option<int>)

  /**
   * The argument handling of `call_gdscript_format`: target resolution
   * (required), the getters in order, then the indent check.
   */
  ghost function FormatRequestOf(args: Args, tree: FileTree): Result<FormatRequest, string> {
    match Resolution(args, true, tree)
    case Err(e) => Err(e)
    case Ok(files) =>
      match GetBool(args, "check")
      case Err(e) => Err(e)
      case Ok(check) =>
        match GetBool(args, "stdout")
        case Err(e) => Err(e)
        case Ok(stdout) =>
          match GetBool(args, "use_spaces")
          case Err(e) => Err(e)
          case Ok(useSpaces) =>
            match GetBool(args, "reorder_code")
            case Err(e) => Err(e)
            case Ok(reorderCode) =>
              match GetBool(args, "safe")
              case Err(e) => Err(e)
              case Ok(safe) =>
                match GetOptionalI64(args, "indent_size")
                case Err(e) => Err(e)
                case Ok(indentSize) =>
                  if indentSize.Some? && indentSize.value < 1 then Err("`indent_size` must be at least 1")
                  else Ok(FormatRequest(SortedList(files), check, stdout, useSpaces, reorderCode, safe, indentSize))
  }

  /** The flags a formatter command line carries, the indent size as written. */
  datatype FormatFlags = FormatFlags(
    check: bool, stdout: bool, useSpaces: bool, indentSize: Option<string>, reorderCode: bool, safe: bool)

  /**
   * Reads the flags part of a formatter command line back, each flag at
   * most once and in the order the command line is built in; anything else
   * left over is not a command line the formatter call writes.
   */
  function ReadFormatFlags(flags: seq<string>): Option<FormatFlags> {
    var (check, a) := ReadSwitch(flags, "--check");
    var (stdout, b) := ReadSwitch(a, "--stdout");
    var (useSpaces, c) := ReadSwitch(b, "--use-spaces");
    var (indentSize, d) := ReadValued(c, "--indent-size");
    var (reorderCode, e) := ReadSwitch(d, "--reorder-code");
    var (safe, rest) := ReadSwitch(e, "--safe");
    if rest == [] then Some(FormatFlags(check, stdout, useSpaces, indentSize, reorderCode, safe)) else None
  }

  /** Reading the flags is the six reads in turn, with nothing left after the last. */
  lemma ReadFormatFlagsOf(flags: seq<string>, check: bool, a: seq<string>, stdout: bool, b: seq<string>,
                          useSpaces: bool, c: seq<string>, indentSize: Option<string>, d: seq<string>,
                          reorderCode: bool, e: seq<string>, safe: bool)
    requires ReadSwitch(flags, "--check") == (check, a)
    requires ReadSwitch(a, "--stdout") == (stdout, b)
    requires ReadSwitch(b, "--use-spaces") == (useSpaces, c)
    requires ReadValued(c, "--indent-size") == (indentSize, d)
    requires ReadSwitch(d, "--reorder-code") == (reorderCode, e)
    requires ReadSwitch(e, "--safe") == (safe, [])
    ensures ReadFormatFlags(flags) == Some(FormatFlags(check, stdout, useSpaces, indentSize, reorderCode, safe))
  {
  }

  /** The formatter's flags in their fixed order; they read back as the request's own. */
  function FormatFlagArgs(req: FormatRequest): (flags: seq<string>)
    ensures ReadFormatFlags(flags)
         == Some(FormatFlags(req.check, req.stdout, req.useSpaces,
                             if req.indentSize.Some? then Some(IntText(req.indentSize.value)) else None,
                             req.reorderCode, req.safe))
  {
    var indentSize := if req.indentSize.Some? then Some(IntText(req.indentSize.value)) else None;
    var safe := Switch(req.safe, "--safe");
    var afterReorder := Switch(req.reorderCode, "--reorder-code") + safe;
    var afterIndent := Valued(indentSize, "--indent-size") + afterReorder;
    var afterSpaces := Switch(req.useSpaces, "--use-spaces") + afterIndent;
    var afterStdout := Switch(req.stdout, "--stdout") + afterSpaces;
    var flags := Switch(req.check, "--check") + afterStdout;
    assert safe + [] == safe;
    SwitchReadBack(req.safe, "--safe", []);
    SwitchReadBack(req.reorderCode, "--reorder-code", safe);
    ValuedReadBack(indentSize, "--indent-size", afterReorder);
    SwitchReadBack(req.useSpaces, "--use-spaces", afterIndent);
    SwitchReadBack(req.stdout, "--stdout", afterSpaces);
    SwitchReadBack(req.check, "--check", afterStdout);
    ReadFormatFlagsOf(flags, req.check, afterStdout, req.stdout, afterSpaces, req.useSpaces, afterIndent,
                      indentSize, afterReorder, req.reorderCode, safe, req.safe);
    flags
  }

  /** The formatter's command line: the flags in a fixed order, then the files. */
  function FormatArgv(req: FormatRequest, files: seq<string>): (argv: seq<string>)
    ensures |argv| >= |files| && argv[|argv| - |files|..] == files
    ensures ReadFormatFlags(argv[..|argv| - |files|])
         == Some(FormatFlags(req.check, req.stdout, req.useSpaces,
                             if req.indentSize.Some? then Some(IntText(req.indentSize.value)) else None,
                             req.reorderCode, req.safe))
  {
    var flags := FormatFlagArgs(req);
    assert (flags + files)[..|flags|] == flags;
    flags + files
  }

  /** `build_format_command`. */
  method BuildFormatCommand(program: Path, req: FormatRequest, files: seq<string>) returns (command: Invocation)
    ensures command == Invocation(program, FormatArgv(req, files))
  {
    var indentSize := if req.indentSize.Some? then Some(IntText(req.indentSize.value)) else None;
    ghost var check, stdout, useSpaces := Switch(req.check, "--check"), Switch(req.stdout, "--stdout"), Switch(req.useSpaces, "--use-spaces");
    ghost var indent, reorderCode, safe := Valued(indentSize, "--indent-size"), Switch(req.reorderCode, "--reorder-code"), Switch(req.safe, "--safe");
    var args: seq<string> := [];
    if req.check {
      args := args + ["--check"];
    }
    assert args == check;
    if req.stdout {
      args := args + ["--stdout"];
    }
    assert args == check + stdout;
    ghost var stage := args;
    if req.useSpaces {
      args := args + ["--use-spaces"];
    }
    assert args == stage + useSpaces;
    stage := args;
    if req.indentSize.Some? {
      args := args + ["--indent-size", IntText(req.indentSize.value)];
    }
    assert args == stage + indent;
    stage := args;
    if req.reorderCode {
      args := args + ["--reorder-code"];
    }
    assert args == stage + reorderCode;
    stage := args;
    if req.safe {
      args := args + ["--safe"];
    }
    assert args == stage + safe;
    // The flags were appended one after another; the command line nests them the other way.
    Associative(check + stdout + useSpaces + indent, reorderCode, safe);
    Associative(check + stdout + useSpaces, indent, reorderCode + safe);
    Associative(check + stdout, useSpaces, indent + (reorderCode + safe));
    Associative(check, stdout, useSpaces + (indent + (reorderCode + safe)));
    assert FormatArgv(req, files) == args + files;
    args := args + files;
    command := Invocation(program, args);
  }

  /** The failure, if any, of formatting one file on its own. */
  function FileFailure(req: FormatRequest, program: Path, file: string, run: Runner): (f: Option<FormatFailure>)
    ensures f.Some? ==> f.value.file == file && f.value.reason != [] && Collapsed(f.value.reason)
    ensures f.None? <==> run(Invocation(program, FormatArgv(req, [file]))).Ok?
                         && run(Invocation(program, FormatArgv(req, [file]))).value.status.Success()
    ensures run(Invocation(program, FormatArgv(req, [file]))).Err? ==>
              f == Some(FormatFailure(file, NormalizeReason("Failed to execute formatter: "
                                                            + run(Invocation(program, FormatArgv(req, [file]))).error)))
    ensures run(Invocation(program, FormatArgv(req, [file]))).Ok? && f.Some? ==>
              var out := run(Invocation(program, FormatArgv(req, [file]))).value;
              f.value.reason == ExtractFormatFailureReason(out.stdout, out.stderr)
  {
    match run(Invocation(program, FormatArgv(req, [file])))
    case Err(e) => Some(FormatFailure(file, NormalizeReason("Failed to execute formatter: " + e)))
    case Ok(out) =>
      if out.status.Success() then None
      else Some(FormatFailure(file, ExtractFormatFailureReason(out.stdout, out.stderr)))
  }

  /** The file of each failure. */
  function FilesOf(fs: seq<FormatFailure>): (files: seq<string>)
    ensures |files| == |fs| && forall k :: 0 <= k < |fs| ==> files[k] == fs[k].file
  {
    seq(|fs|, k requires 0 <= k < |fs| => fs[k].file)
  }

  /** The outcome of formatting each file on its own, in file order. */
  function Outcomes(req: FormatRequest, program: Path, files: seq<string>, run: Runner)
    : (os: seq<Option<FormatFailure>>)
    ensures |os| == |files|
    ensures forall i :: 0 <= i < |files| ==> os[i] == FileFailure(req, program, files[i], run)
  {
    seq(|files|, i requires 0 <= i < |files| => FileFailure(req, program, files[i], run))
  }

  /** The failures among the outcomes, in order: what the loop pushes. */
  function Failed(os: seq<Option<FormatFailure>>): (fs: seq<FormatFailure>)
    ensures |fs| <= |os|
  {
    if os == [] then []
    else Failed(os[..|os| - 1]) + (if os[|os| - 1].Some? then [os[|os| - 1].value] else [])
  }

  /** Every reported failure is the outcome of some file. */
  lemma {:induction false} FailedSound(os: seq<Option<FormatFailure>>, k: nat)
    requires k < |Failed(os)|
    ensures exists i :: 0 <= i < |os| && os[i] == Some(Failed(os)[k])
  {
    var init := os[..|os| - 1];
    var last := if os[|os| - 1].Some? then [os[|os| - 1].value] else [];
    assert Failed(os) == Failed(init) + last;
    if k < |Failed(init)| {
      FailedSound(init, k);
      var i :| 0 <= i < |init| && init[i] == Some(Failed(init)[k]);
      assert os[i] == Some(Failed(os)[k]);
    } else {
      assert os[|os| - 1] == Some(Failed(os)[k]);
    }
  }

  /** Every failed outcome is reported. */
  lemma {:induction false} FailedComplete(os: seq<Option<FormatFailure>>)
    ensures forall i :: 0 <= i < |os| && os[i].Some? ==> os[i].value in Failed(os)
  {
    if os != [] {
      var init := os[..|os| - 1];
      FailedComplete(init);
      assert forall i :: 0 <= i < |init| ==> init[i] == os[i];
    }
  }

  /** With one outcome per file and the files ascending, the failed files are ascending too. */
  lemma {:induction false} FailedInFileOrder(os: seq<Option<FormatFailure>>, files: seq<string>)
    requires |os| == |files| && StrictlySorted(files)
    requires forall i :: 0 <= i < |os| && os[i].Some? ==> os[i].value.file == files[i]
    ensures StrictlySorted(FilesOf(Failed(os)))
  {
    if os != [] {
      var n := |os| - 1;
      var init, initFiles := os[..n], files[..n];
      FailedInFileOrder(init, initFiles);
      if os[n].Some? {
        var fs := Failed(os);
        assert fs == Failed(init) + [os[n].value];
        forall k | 0 <= k < |Failed(init)| ensures Less(fs[k].file, fs[|fs| - 1].file) {
          FailedSound(init, k);
          var i :| 0 <= i < |init| && init[i] == Some(Failed(init)[k]);
          assert fs[k].file == files[i];
        }
      }
    }
  }

  lemma OutcomesSnoc(req: FormatRequest, program: Path, files: seq<string>, i: nat, run: Runner)
    requires i < |files|
    ensures Outcomes(req, program, files[..i + 1], run)
         == Outcomes(req, program, files[..i], run) + [FileFailure(req, program, files[i], run)]
    ensures var f := FileFailure(req, program, files[i], run);
            Failed(Outcomes(req, program, files[..i + 1], run))
            == Failed(Outcomes(req, program, files[..i], run)) + (if f.Some? then [f.value] else [])
  {
    var longer, shorter := Outcomes(req, program, files[..i + 1], run), Outcomes(req, program, files[..i], run);
    forall k | 0 <= k < i ensures longer[k] == shorter[k] {
      assert files[..i + 1][k] == files[..i][k];
    }
    assert longer[i] == FileFailure(req, program, files[i], run) by {
      assert files[..i + 1][i] == files[i];
    }
    Snoc(longer, shorter, FileFailure(req, program, files[i], run));
    assert longer[..i] == shorter;
  }

  lemma Snoc<T>(longer: seq<T>, shorter: seq<T>, last: T)
    requires |longer| == |shorter| + 1 && longer[|shorter|] == last
    requires forall k :: 0 <= k < |shorter| ==> longer[k] == shorter[k]
    ensures longer == shorter + [last]
  {
  }

  /** What `call_gdscript_format` returns, given what `ensure_binary` would return and what each run does. */
  ghost function FormatOutcome(args: Args, tree: FileTree, binary: Result<Path, string>, run: Runner)
    : Result<FormatToolResult, string>
  {
    match FormatRequestOf(args, tree)
    case Err(e) => Err(e)
    case Ok(req) =>
      match binary
      case Err(e) => Err(e)
      case Ok(program) =>
        var failures := Failed(Outcomes(req, program, req.files, run));
        Ok(FormatToolResult(failures == [], |req.files|, failures))
  }

  /** The argument handling at the start of `call_gdscript_format`. */
  method ReadFormatRequest(args: Args, tree: FileTree) returns (r: Result<FormatRequest, string>)
    ensures r == FormatRequestOf(args, tree)
  {
    var files := ResolveTargetFiles(args, true, tree);
    if files.Err? {
      return Err(files.error);
    }
    SortedUnique(files.value, SortedList(Elements(files.value)));
    var check := GetBool(args, "check");
    if check.Err? {
      return Err(check.error);
    }
    var stdout := GetBool(args, "stdout");
    if stdout.Err? {
      return Err(stdout.error);
    }
    var useSpaces := GetBool(args, "use_spaces");
    if useSpaces.Err? {
      return Err(useSpaces.error);
    }
    var reorderCode := GetBool(args, "reorder_code");
    if reorderCode.Err? {
      return Err(reorderCode.error);
    }
    var safe := GetBool(args, "safe");
    if safe.Err? {
      return Err(safe.error);
    }
    var indentSize := GetOptionalI64(args, "indent_size");
    if indentSize.Err? {
      return Err(indentSize.error);
    }
    if indentSize.value.Some? && indentSize.value.value < 1 {
      return Err("`indent_size` must be at least 1");
    }
    return Ok(FormatRequest(files.value, check.value, stdout.value, useSpaces.value, reorderCode.value, safe.value,
                            indentSize.value));
  }

  /** One pass of the loop in `call_gdscript_format`: runs the formatter on one file and reports its failure, if any. */
  method FormatFile(req: FormatRequest, program: Path, file: string, run: Runner) returns (f: Option<FormatFailure>)
    ensures f == FileFailure(req, program, file, run)
  {
    var command := BuildFormatCommand(program, req, [file]);
    var output := run(command);
    if output.Ok? {
      if !output.value.status.Success() {
        return Some(FormatFailure(file, ExtractFormatFailureReason(output.value.stdout, output.value.stderr)));
      }
      return None;
    }
    return Some(FormatFailure(file, NormalizeReason("Failed to execute formatter: " + output.error)));
  }

  /** The loop of `call_gdscript_format`: each file in turn, pushing the failures. */
  method FormatFiles(req: FormatRequest, program: Path, run: Runner) returns (failures: seq<FormatFailure>)
    ensures failures == Failed(Outcomes(req, program, req.files, run))
  {
    var files := req.files;
    failures := [];
    for i := 0 to |files|
      invariant failures == Failed(Outcomes(req, program, files[..i], run))
    {
      OutcomesSnoc(req, program, files, i, run);
      var failure := FormatFile(req, program, files[i], run);
      if failure.Some? {
        failures := failures + [failure.value];
      }
    }
    assert files[..|files|] == files;
  }

  /** `call_gdscript_format`: formats the files one by one and collects the failures. */
  method CallGdscriptFormat(args: Args, tree: FileTree, binary: Result<Path, string>, run: Runner)
    returns (r: Result<FormatToolResult, string>)
    ensures r == FormatOutcome(args, tree, binary, run)
  {
    var request := ReadFormatRequest(args, tree);
    if request.Err? {
      return Err(request.error);
    }
    var req := request.value;
    if binary.Err? {
      return Err(binary.error);
    }
    var failures := FormatFiles(req, binary.value, run);
    return Ok(FormatToolResult(|failures| == 0, |req.files|, failures));
  }

  // ---------------------------------------------------------------- properties

  /**
   * The failures of a format call are exactly the files whose own run
   * failed, each once, in ascending order, with the reason of its own run.
   */
  lemma FailuresAreTheFailingFiles(req: FormatRequest, program: Path, run: Runner)
    requires StrictlySorted(req.files)
    ensures var fs := Failed(Outcomes(req, program, req.files, run));
            && StrictlySorted(FilesOf(fs))
            && (forall f :: f in fs ==> f.file in req.files && FileFailure(req, program, f.file, run) == Some(f))
            && (forall file :: file in req.files && FileFailure(req, program, file, run).Some? ==>
                  FileFailure(req, program, file, run).value in fs)
  {
    var os := Outcomes(req, program, req.files, run);
    FailedOfOutcomes(os, req.files);
    var fs := Failed(os);
    forall f | f in fs ensures f.file in req.files && FileFailure(req, program, f.file, run) == Some(f) {
      var i :| 0 <= i < |os| && os[i] == Some(f);
      assert f.file == req.files[i];
    }
    forall file | file in req.files && FileFailure(req, program, file, run).Some?
      ensures FileFailure(req, program, file, run).value in fs
    {
      var i :| 0 <= i < |req.files| && req.files[i] == file;
      assert os[i] == FileFailure(req, program, file, run);
    }
  }

  /** The failures of a run over ascending files: exactly the failed outcomes, ascending by file. */
  lemma FailedOfOutcomes(os: seq<Option<FormatFailure>>, files: seq<string>)
    requires |os| == |files| && StrictlySorted(files)
    requires forall i :: 0 <= i < |os| && os[i].Some? ==> os[i].value.file == files[i]
    ensures StrictlySorted(FilesOf(Failed(os)))
    ensures forall f :: f in Failed(os) ==> exists i :: 0 <= i < |os| && os[i] == Some(f)
    ensures forall i :: 0 <= i < |os| && os[i].Some? ==> os[i].value in Failed(os)
  {
    forall f | f in Failed(os) ensures exists i :: 0 <= i < |os| && os[i] == Some(f) {
      var k :| 0 <= k < |Failed(os)| && Failed(os)[k] == f;
      FailedSound(os, k);
    }
    FailedComplete(os);
    FailedInFileOrder(os, files);
  }

  /** A format call counts every file and succeeds exactly when no file failed. */
  lemma FormatOutcomeSummary(args: Args, tree: FileTree, binary: Result<Path, string>, run: Runner)
    requires FormatOutcome(args, tree, binary, run).Ok?
    ensures var result := FormatOutcome(args, tree, binary, run).value;
            var req := FormatRequestOf(args, tree).value;
            && result.processedCount == |req.files|
            && (result.success <==> result.failures == [])
            && result.failures == Failed(Outcomes(req, binary.value, req.files, run))
  {
  }

  /** The files a format call works on are its target set, in ascending order. */
  lemma FormatRequestFilesSorted(args: Args, tree: FileTree)
    requires FormatRequestOf(args, tree).Ok?
    ensures StrictlySorted(FormatRequestOf(args, tree).value.files)
    ensures Elements(FormatRequestOf(args, tree).value.files) == Resolution(args, true, tree).value
  {
  }

  /** A bad `indent_size` is reported before the binary is acquired, whatever that would give. */
  lemma IndentSizeCheckedFirst(args: Args, tree: FileTree, binary: Result<Path, string>, run: Runner, n: int)
    requires Resolution(args, true, tree).Ok?
    requires GetBool(args, "check").Ok? && GetBool(args, "stdout").Ok? && GetBool(args, "use_spaces").Ok?
    requires GetBool(args, "reorder_code").Ok? && GetBool(args, "safe").Ok?
    requires GetOptionalI64(args, "indent_size") == Ok(Some(n)) && n < 1
    ensures FormatOutcome(args, tree, binary, run) == Err("`indent_size` must be at least 1")
  {
  }
}
