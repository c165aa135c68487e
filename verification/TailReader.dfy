/**
  Reading the last records of the log without reading the log: chunks from the end of the file,
  doubled until they hold enough lines.
 */
module TailReader {
  import opened Prelude

  const NEWLINE := '\n'
  const FIRST_CHUNK := 65_536
  const BYTES_PER_LINE := 512

  /** What `trim` strips. */
  predicate IsSpace(c: char) {
    c in {' ', '\t', '\n', '\r', '\U{B}', '\U{C}', '\U{A0}', '\U{1680}', '\U{2028}', '\U{2029}', '\U{202F}',
      '\U{205F}', '\U{3000}', '\U{FEFF}'}
    || '\U{2000}' <= c <= '\U{200A}'
  }

  function IndexOfNewline(t: string): (i: int)
    ensures -1 <= i < |t|
    ensures i >= 0 ==> t[i] == NEWLINE
    ensures forall j :: 0 <= j < (if i < 0 then |t| else i) ==> t[j] != NEWLINE
  {
    if t == "" then -1
    else if t[0] == NEWLINE then 0
    else
      var rest := IndexOfNewline(t[1..]);
      assert forall j :: 1 <= j < |t| ==> t[j] == t[1..][j - 1];
      if rest < 0 then -1 else rest + 1
  }

  function TrimStart(t: string): string {
    if t != "" && IsSpace(t[0]) then TrimStart(t[1..]) else t
  }

  function TrimEnd(t: string): string {
    if t != "" && IsSpace(t[|t| - 1]) then TrimEnd(t[..|t| - 1]) else t
  }

  function Trim(t: string): string {
    TrimEnd(TrimStart(t))
  }

  function SplitLines(t: string): seq<string>
    decreases |t|
  {
    var i := IndexOfNewline(t);
    if i < 0 then [t] else [t[..i]] + SplitLines(t[i + 1..])
  }

  function NonEmpty(lines: seq<string>): seq<string> {
    if lines == [] then []
    else (if lines[0] == "" then [] else [lines[0]]) + NonEmpty(lines[1..])
  }

  /** The complete lines of the file from `start` on; mid-file, the piece up to the first newline is dropped. */
  function ReadChunkLines(file: string, start: nat): seq<string>
    requires start <= |file|
  {
    var text := file[start..];
    var firstNl := IndexOfNewline(text);
    NonEmpty(SplitLines(Trim(if start > 0 && firstNl >= 0 then text[firstNl + 1..] else text)))
  }

  /** Parse each line and drop what does not parse. */
  function Parsed<E>(lines: seq<string>, parse: string -> Option<E>): seq<E> {
    if lines == [] then []
    else
      (match parse(lines[0]) case None => [] case Some(e) => [e]) + Parsed(lines[1..], parse)
  }

  function ParseTailLines<E>(lines: seq<string>, limit: nat, parse: string -> Option<E>): seq<E> {
    Parsed(LastN(lines, limit), parse)
  }

  // ---- logs ----

  /** A line of a log: not blank, and no newline inside. */
  ghost predicate IsLine(line: string) {
    && (exists j :: 0 <= j < |line| && !IsSpace(line[j]))
    && (forall j :: 0 <= j < |line| ==> line[j] != NEWLINE)
  }

  /** White space around the line does not matter to the parser. */
  ghost predicate SpaceBlind<E(!new)>(parse: string -> Option<E>, line: string) {
    parse(TrimStart(line)) == parse(line) == parse(TrimEnd(line)) == parse(Trim(line))
  }

  ghost predicate IsLog<E(!new)>(lines: seq<string>, parse: string -> Option<E>) {
    forall i :: 0 <= i < |lines| ==> IsLine(lines[i]) && SpaceBlind(parse, lines[i])
  }

  ghost predicate AreLines(lines: seq<string>) {
    forall i :: 0 <= i < |lines| ==> IsLine(lines[i])
  }

  /** What the store writes: nothing around it for `trim` to take, so every parser will do. */
  ghost predicate IsRecord(line: string) {
    && line != "" && !IsSpace(line[0]) && !IsSpace(line[|line| - 1])
    && forall j :: 0 <= j < |line| ==> line[j] != NEWLINE
  }

  lemma RecordsMakeLogs<E(!new)>(lines: seq<string>, parse: string -> Option<E>)
    requires forall i :: 0 <= i < |lines| ==> IsRecord(lines[i])
    ensures IsLog(lines, parse)
  {
    forall i | 0 <= i < |lines|
      ensures IsLine(lines[i]) && SpaceBlind(parse, lines[i])
    {
      assert IsRecord(lines[i]) && !IsSpace(lines[i][0]);
    }
  }

  /** The file: every line followed by a newline. */
  function Text(lines: seq<string>): string {
    if lines == [] then "" else lines[0] + [NEWLINE] + Text(lines[1..])
  }

  /** The same lines with newlines only in between. */
  function Joined(lines: seq<string>): string
    requires lines != []
  {
    if |lines| == 1 then lines[0] else lines[0] + [NEWLINE] + Joined(lines[1..])
  }

  // ---- trimming a text trims its first and its last line ----

  ghost predicate HasInk(t: string) {
    exists j :: 0 <= j < |t| && !IsSpace(t[j])
  }

  lemma {:induction false} TrimStartOfConcat(a: string, b: string)
    requires HasInk(a)
    ensures TrimStart(a + b) == TrimStart(a) + b && HasInk(TrimStart(a))
  {
    if !IsSpace(a[0]) {
    } else {
      var j :| 0 <= j < |a| && !IsSpace(a[j]);
      assert !IsSpace(a[1..][j - 1]);
      TrimStartOfConcat(a[1..], b);
      assert (a + b)[1..] == a[1..] + b;
    }
  }

  lemma {:induction false} TrimEndOfConcat(a: string, b: string)
    requires HasInk(b)
    ensures TrimEnd(a + b) == a + TrimEnd(b) && HasInk(TrimEnd(b))
  {
    var n := |b|;
    if !IsSpace(b[n - 1]) {
    } else {
      var j :| 0 <= j < |b| && !IsSpace(b[j]);
      assert !IsSpace(b[..n - 1][j]);
      TrimEndOfConcat(a, b[..n - 1]);
      assert (a + b)[..|a + b| - 1] == a + b[..n - 1];
    }
  }

  lemma {:induction false} TrimmedHasNoNewline(line: string)
    requires forall j :: 0 <= j < |line| ==> line[j] != NEWLINE
    ensures forall j :: 0 <= j < |TrimStart(line)| ==> TrimStart(line)[j] != NEWLINE
    ensures forall j :: 0 <= j < |TrimEnd(line)| ==> TrimEnd(line)[j] != NEWLINE
    decreases |line|
  {
    if line == "" {
    } else {
      TrimmedHasNoNewline(line[1..]);
      TrimmedHasNoNewline(line[..|line| - 1]);
    }
  }

  lemma {:induction false} LineTrims(line: string)
    requires IsLine(line)
    ensures IsLine(TrimStart(line)) && IsLine(TrimEnd(line))
  {
    TrimStartOfConcat(line, "");
    TrimEndOfConcat("", line);
    TrimmedHasNoNewline(line);
  }

  function FirstTrimmed(lines: seq<string>): seq<string>
    requires lines != []
  {
    lines[0 := TrimStart(lines[0])]
  }

  function LastTrimmed(lines: seq<string>): seq<string>
    requires lines != []
  {
    lines[|lines| - 1 := TrimEnd(lines[|lines| - 1])]
  }

  lemma {:induction false} TrimStartOfText(lines: seq<string>)
    requires lines != [] && AreLines(lines)
    ensures TrimStart(Text(lines)) == Text(FirstTrimmed(lines)) && AreLines(FirstTrimmed(lines))
  {
    hide TrimStart, TrimEnd;
    assert IsLine(lines[0]);
    LineTrims(lines[0]);
    TrimStartOfConcat(lines[0], [NEWLINE] + Text(lines[1..]));
    assert lines[0] + ([NEWLINE] + Text(lines[1..])) == Text(lines);
    assert FirstTrimmed(lines)[1..] == lines[1..];
  }

  lemma {:induction false} TrimEndOfText(lines: seq<string>)
    requires lines != [] && AreLines(lines)
    ensures TrimEnd(Text(lines)) == Joined(LastTrimmed(lines)) && AreLines(LastTrimmed(lines))
    ensures HasInk(Text(lines))
  {
    var line, rest := lines[0], lines[1..];
    assert IsLine(line);
    LineTrims(line);
    var j :| 0 <= j < |line| && !IsSpace(line[j]);
    assert Text(lines)[j] == line[j];
    if rest == [] {
      var text := line + [NEWLINE];
      assert text[..|text| - 1] == line;
      assert Text(lines) == text;
    } else {
      TrimEndOfText(rest);
      TrimEndOfConcat(line + [NEWLINE], Text(rest));
      assert LastTrimmed(lines)[1..] == LastTrimmed(rest);
    }
  }

  lemma {:induction false} FirstNewlineAfter(line: string, rest: string)
    requires forall j :: 0 <= j < |line| ==> line[j] != NEWLINE
    ensures IndexOfNewline(line + [NEWLINE] + rest) == |line|
    ensures (line + [NEWLINE] + rest)[..|line|] == line
    ensures (line + [NEWLINE] + rest)[|line| + 1..] == rest
  {
    var t := line + [NEWLINE] + rest;
    assert t[|line|] == NEWLINE;
    assert forall j :: 0 <= j < |line| ==> t[j] == line[j];
  }

  lemma {:induction false} SplitJoined(lines: seq<string>)
    requires lines != [] && AreLines(lines)
    ensures SplitLines(Joined(lines)) == lines
  {
    assert IsLine(lines[0]);
    if |lines| == 1 {
      assert IndexOfNewline(lines[0]) < 0;
    } else {
      SplitJoined(lines[1..]);
      FirstNewlineAfter(lines[0], Joined(lines[1..]));
    }
  }

  lemma {:induction false} NothingEmpty(lines: seq<string>)
    requires AreLines(lines)
    ensures NonEmpty(lines) == lines
  {
    if lines == [] {
    } else {
      assert IsLine(lines[0]);
      NothingEmpty(lines[1..]);
    }
  }

  /** What a chunk reader makes of a whole log: its lines, trimmed at the two outer ends. */
  function Trimmed(lines: seq<string>): (r: seq<string>)
    ensures |r| == |lines|
  {
    if lines == [] then [] else LastTrimmed(FirstTrimmed(lines))
  }

  lemma {:induction false} LinesOfText(lines: seq<string>)
    requires AreLines(lines)
    ensures NonEmpty(SplitLines(Trim(Text(lines)))) == Trimmed(lines)
  {
    if lines == [] {
    } else {
      TrimStartOfText(lines);
      TrimEndOfText(FirstTrimmed(lines));
      SplitJoined(Trimmed(lines));
      NothingEmpty(Trimmed(lines));
    }
  }

  // ---- a torn last line ----

  /** The lines of a file that ends in `torn`: what an interrupted append left counts as a line unless it is blank. */
  ghost function WithTorn(lines: seq<string>, torn: string): seq<string> {
    if HasInk(torn) then lines + [torn] else lines
  }

  /** What an interrupted append can leave: part of a line, without its newline. */
  ghost predicate IsTorn(torn: string) {
    forall j :: 0 <= j < |torn| ==> torn[j] != NEWLINE
  }

  lemma {:induction false} TrimEndOfBlank(t: string, blank: string)
    requires !HasInk(blank)
    ensures TrimEnd(t + blank) == TrimEnd(t)
  {
    if blank == "" {
      assert t + blank == t;
    } else {
      var n := |blank|;
      assert IsSpace(blank[n - 1]);
      assert (t + blank)[..|t + blank| - 1] == t + blank[..n - 1];
      assert forall j :: 0 <= j < n - 1 ==> blank[..n - 1][j] == blank[j];
      TrimEndOfBlank(t, blank[..n - 1]);
    }
  }

  lemma {:induction false} TrimStartOfBlank(blank: string)
    requires !HasInk(blank)
    ensures TrimStart(blank) == ""
  {
    if blank == "" {
    } else {
      assert forall j :: 0 <= j < |blank| - 1 ==> blank[1..][j] == blank[j + 1];
      TrimStartOfBlank(blank[1..]);
    }
  }

  lemma TrimOfBlankEnd(t: string, blank: string)
    requires !HasInk(blank)
    ensures Trim(t + blank) == Trim(t)
  {
    if HasInk(t) {
      TrimStartOfConcat(t, blank);
      TrimEndOfBlank(TrimStart(t), blank);
    } else {
      assert !HasInk(t + blank) by {
        assert forall j :: 0 <= j < |t + blank| ==> IsSpace((t + blank)[j]);
      }
      TrimStartOfBlank(t);
      TrimStartOfBlank(t + blank);
    }
  }

  lemma {:induction false} TextSnoc(lines: seq<string>, line: string)
    ensures Text(lines + [line]) == Text(lines) + line + [NEWLINE]
  {
    if lines == [] {
      assert Text([]) + line + [NEWLINE] == line + [NEWLINE] + Text([]);
    } else {
      assert (lines + [line])[1..] == lines[1..] + [line];
      TextSnoc(lines[1..], line);
    }
  }

  lemma {:induction false} LinesOfTorn(lines: seq<string>, torn: string)
    requires AreLines(lines) && IsTorn(torn)
    ensures AreLines(WithTorn(lines, torn))
    ensures NonEmpty(SplitLines(Trim(Text(lines) + torn))) == Trimmed(WithTorn(lines, torn))
  {
    hide Trim, NonEmpty, SplitLines, Trimmed;
    if HasInk(torn) {
      TextSnoc(lines, torn);
      TrimOfBlankEnd(Text(lines) + torn, [NEWLINE]);
    } else {
      TrimOfBlankEnd(Text(lines), torn);
    }
    LinesOfText(WithTorn(lines, torn));
  }

  lemma LogWithTorn<E(!new)>(lines: seq<string>, torn: string, parse: string -> Option<E>, k: nat)
    requires IsLog(WithTorn(lines, torn), parse) && k <= |lines|
    ensures AreLines(lines)
    ensures WithTorn(lines[k..], torn) == WithTorn(lines, torn)[k..] && IsLog(WithTorn(lines[k..], torn), parse)
  {
    assert forall i :: 0 <= i < |lines| ==> lines[i] == WithTorn(lines, torn)[i];
  }

  // ---- chunks ----

  /** Anywhere inside a log, what follows the next newline is a log of its last lines. */
  lemma {:induction false} AfterNextNewline(lines: seq<string>, start: nat) returns (k: nat)
    requires AreLines(lines) && start < |Text(lines)|
    ensures k <= |lines|
    ensures var text := Text(lines)[start..];
      IndexOfNewline(text) >= 0 && text[IndexOfNewline(text) + 1..] == Text(lines[k..])
  {
    var line, rest := lines[0], Text(lines[1..]);
    assert IsLine(line);
    if start <= |line| {
      FirstNewlineAfter(line[start..], rest);
      assert Text(lines)[start..] == line[start..] + [NEWLINE] + rest;
      k := 1;
    } else {
      var inner := start - |line| - 1;
      assert Text(lines)[start..] == rest[inner..];
      k := AfterNextNewline(lines[1..], inner);
      assert lines[1..][k..] == lines[k + 1..];
      k := k + 1;
    }
  }

  lemma {:induction false} NewlineInFront(front: string, back: string)
    requires IndexOfNewline(front) >= 0
    ensures IndexOfNewline(front + back) == IndexOfNewline(front)
    ensures (front + back)[IndexOfNewline(front) + 1..] == front[IndexOfNewline(front) + 1..] + back
  {
    var i := IndexOfNewline(front);
    assert forall j :: 0 <= j <= i ==> (front + back)[j] == front[j];
  }

  /** A chunk gives exactly the last so-many lines, its outer ends trimmed; from the start of the file, all of them. */
  lemma ChunkIsSuffix(lines: seq<string>, torn: string, start: nat) returns (k: nat)
    requires AreLines(lines) && IsTorn(torn) && (start == 0 || start < |Text(lines)|)
    ensures k <= |lines| && ReadChunkLines(Text(lines) + torn, start) == Trimmed(WithTorn(lines[k..], torn))
    ensures start == 0 ==> k == 0
  {
    hide Trimmed, Trim, SplitLines, NonEmpty;
    var file := Text(lines) + torn;
    if start == 0 {
      k := 0;
      assert file[0..] == file && lines[0..] == lines;
    } else {
      k := AfterNextNewline(lines, start);
      assert file[start..] == Text(lines)[start..] + torn;
      NewlineInFront(Text(lines)[start..], torn);
    }
    LinesOfTorn(lines[k..], torn);
  }

  lemma {:induction false} ParsedAlike<E(!new)>(a: seq<string>, b: seq<string>, parse: string -> Option<E>)
    requires |a| == |b| && forall i :: 0 <= i < |a| ==> parse(a[i]) == parse(b[i])
    ensures Parsed(a, parse) == Parsed(b, parse)
  {
    if a == [] {
    } else {
      ParsedAlike(a[1..], b[1..], parse);
    }
  }

  lemma TrimmedLine(lines: seq<string>, i: nat)
    requires i < |lines|
    ensures Trimmed(lines)[i] in {lines[i], TrimStart(lines[i]), TrimEnd(lines[i]), Trim(lines[i])}
  {
    hide TrimStart, TrimEnd;
    var first := FirstTrimmed(lines);
    assert first[i] == if i == 0 then TrimStart(lines[0]) else lines[i];
    assert Trimmed(lines)[i] == if i == |lines| - 1 then TrimEnd(first[i]) else first[i];
  }

  /** Trimming the outer ends of a log changes nothing for the parser. */
  lemma TrimmedParsesAlike<E(!new)>(lines: seq<string>, parse: string -> Option<E>, limit: nat)
    requires IsLog(lines, parse)
    ensures Parsed(LastN(Trimmed(lines), limit), parse) == Parsed(LastN(lines, limit), parse)
  {
    hide TrimStart, TrimEnd, Trim, Trimmed, Parsed, IsLine;
    forall i | 0 <= i < |lines|
      ensures parse(Trimmed(lines)[i]) == parse(lines[i])
    {
      assert SpaceBlind(parse, lines[i]);
      TrimmedLine(lines, i);
    }
    ParsedAlike(LastN(Trimmed(lines), limit), LastN(lines, limit), parse);
  }

  /** Grow the chunk until it holds enough lines or the whole file, from any first size that covers a torn line. */
  method ReadGrowing<E(!new)>(file: string, limit: nat, firstChunk: nat, parse: string -> Option<E>,
                              ghost lines: seq<string>, ghost torn: string) returns (events: seq<E>)
    requires 0 < firstChunk <= |file| && (|torn| < firstChunk || firstChunk == |file|)
    requires limit > 0 && IsLog(WithTorn(lines, torn), parse) && IsTorn(torn) && file == Text(lines) + torn
    ensures events == Parsed(LastN(WithTorn(lines, torn), limit), parse)
  {
    hide Text, ReadChunkLines, Parsed, Trimmed, IsLine, SpaceBlind, IsTorn, HasInk;
    LogWithTorn(lines, torn, parse, 0);
    var chunkSize := firstChunk;
    while chunkSize <= |file|
      invariant firstChunk <= chunkSize <= |file|
      decreases |file| - chunkSize
    {
      var chunk := ReadChunkLines(file, |file| - chunkSize);
      ghost var k := ChunkIsSuffix(lines, torn, |file| - chunkSize);
      if |chunk| >= limit || chunkSize >= |file| {
        LogWithTorn(lines, torn, parse, k);
        assert LastN(WithTorn(lines[k..], torn), limit) == LastN(WithTorn(lines, torn), limit);
        TrimmedParsesAlike(WithTorn(lines[k..], torn), parse, limit);
        return ParseTailLines(chunk, limit, parse);
      }
      chunkSize := Min(|file|, chunkSize * 2);
    }
    assert false;
    events := [];
  }

  /**
    The last `limit` lines of a log, those that do not parse dropped. A torn last line takes one of
    the `limit` places.
   */
  method ReadFileTail<E(!new)>(file: string, limit: nat, parse: string -> Option<E>,
                               ghost lines: seq<string>, ghost torn: string) returns (events: seq<E>)
    requires limit > 0 && IsLog(WithTorn(lines, torn), parse) && file == Text(lines) + torn
    requires IsTorn(torn) && |torn| < FIRST_CHUNK
    ensures events == Parsed(LastN(WithTorn(lines, torn), limit), parse)
  {
    if |file| == 0 {
      return [];
    }
    events := ReadGrowing(file, limit, Min(|file|, Max(FIRST_CHUNK, limit * BYTES_PER_LINE)), parse, lines, torn);
  }
}
