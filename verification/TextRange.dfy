/**
 Reading a window of lines: the streaming form, which never holds more than the window, against
 the whole-file form. Text here is what a universal-newline handle yields, so `\n` alone ends lines.
 */
module TextRange {
  import opened Wrappers

  datatype TextFileRange = TextFileRange(lines: seq<string>, startLine: nat, totalLines: Option<nat>,
                                         hasMore: bool, charsTruncated: bool)

  // ---------------------------------------------------------------- lines of a text

  /** Where the line that begins at `from` ends. */
  function Eol(s: string, from: nat): (k: nat)
    requires from <= |s|
    ensures from <= k <= |s| && (k < |s| ==> s[k] == '\n')
    ensures forall i :: from <= i < k ==> s[i] != '\n'
    decreases |s| - from
  {
    if from == |s| || s[from] == '\n' then from else Eol(s, from + 1)
  }

  /** Where the next line begins. */
  function Next(s: string, from: nat): (k: nat)
    requires from <= |s|
    ensures from <= k <= |s| && (from < |s| ==> from < k)
  {
    if Eol(s, from) < |s| then Eol(s, from) + 1 else |s|
  }

  /** The lines from `from` on; a final newline ends the last one and opens no other. */
  function Lines(s: string, from: nat): seq<string>
    requires from <= |s|
    decreases |s| - from
  {
    if from == |s| then [] else [s[from..Eol(s, from)]] + Lines(s, Next(s, from))
  }

  predicate EndsWithNewline(s: string) {
    s != "" && s[|s| - 1] == '\n'
  }

  /** `str.split("\n")` of the text from `from` on */
  function Split(s: string, from: nat): (parts: seq<string>)
    requires from <= |s|
    ensures parts != []
    decreases |s| - from
  {
    if Eol(s, from) < |s| then [s[from..Eol(s, from)]] + Split(s, Eol(s, from) + 1) else [s[from..]]
  }

  /** `"\n".join` */
  function Join(lines: seq<string>): string {
    if lines == [] then ""
    else if |lines| == 1 then lines[0]
    else lines[0] + "\n" + Join(lines[1..])
  }

  /** `_split_lines` */
  function SplitLines(s: string): (seq<string>, bool) {
    if s == "" then ([], false)
    else if EndsWithNewline(s) then (Split(s, 0)[..|Split(s, 0)| - 1], true)
    else (Split(s, 0), false)
  }

  lemma {:induction false} SplitOfEnded(s: string, from: nat)
    requires from <= |s| && EndsWithNewline(s)
    ensures Split(s, from) == Lines(s, from) + [""]
    decreases |s| - from
  {
    if from < |s| {
      var e := Eol(s, from);
      assert e < |s|;
      SplitOfEnded(s, e + 1);
      ConcatAssociates([s[from..e]], Lines(s, e + 1), [""]);
    } else {
      assert s[from..] == "";
    }
  }

  lemma {:induction false} SplitOfUnended(s: string, from: nat)
    requires from < |s| && !EndsWithNewline(s)
    ensures Split(s, from) == Lines(s, from)
    decreases |s| - from
  {
    var e := Eol(s, from);
    if e < |s| {
      assert e + 1 < |s|;
      SplitOfUnended(s, e + 1);
    } else {
      assert s[from..] == s[from..e];
      assert Next(s, from) == |s| && Lines(s, |s|) == [];
    }
  }

  lemma SplitLinesAreTheLines(s: string)
    ensures SplitLines(s).0 == Lines(s, 0)
  {
    if EndsWithNewline(s) { SplitOfEnded(s, 0); } else if s != "" { SplitOfUnended(s, 0); }
  }

  // ---------------------------------------------------------------- joined lines

  lemma {:induction false} JoinSnoc(lines: seq<string>, last: string)
    requires lines != []
    ensures Join(lines + [last]) == Join(lines) + "\n" + last
  {
    var all := lines + [last];
    assert all[0] == lines[0] && all[1..] == lines[1..] + [last];
    if |lines| == 1 {
      assert all[1..] == [last];
    } else {
      JoinSnoc(lines[1..], last);
      ConcatAssociates(lines[0] + "\n", Join(lines[1..]), "\n" + last);
      ConcatAssociates(Join(lines[1..]), "\n", last);
      ConcatAssociates(Join(lines), "\n", last);
    }
  }

  /** The characters that `line` adds after `lines`. */
  function Added(lines: seq<string>, line: string): string {
    if lines == [] then line else "\n" + line
  }

  lemma JoinAdds(lines: seq<string>, line: string)
    ensures Join(lines + [line]) == Join(lines) + Added(lines, line)
  {
    if lines == [] {
      assert lines + [line] == [line];
    } else {
      JoinSnoc(lines, line);
      ConcatAssociates(Join(lines), "\n", line);
    }
  }

  predicate IsPrefix(a: string, b: string) {
    |a| <= |b| && b[..|a|] == a
  }

  lemma PrefixTrans(a: string, b: string, c: string)
    requires IsPrefix(a, b) && IsPrefix(b, c)
    ensures IsPrefix(a, c)
  {
  }

  lemma {:induction false} JoinPrefix(w: seq<string>, k: nat)
    requires k <= |w|
    ensures IsPrefix(Join(w[..k]), Join(w))
    decreases |w| - k
  {
    if k == |w| {
      assert w[..k] == w;
    } else {
      assert w[..k + 1] == w[..k] + [w[k]];
      JoinAdds(w[..k], w[k]);
      JoinPrefix(w, k + 1);
      PrefixTrans(Join(w[..k]), Join(w[..k + 1]), Join(w));
    }
  }

  lemma JoinGrows(w: seq<string>, k: nat)
    requires k < |w|
    ensures |Join(w)| >= |Join(w[..k])| + |Added(w[..k], w[k])| + (if k + 1 < |w| then 1 else 0)
    ensures k + 1 == |w| ==> |Join(w)| == |Join(w[..k])| + |Added(w[..k], w[k])|
  {
    assert w[..k + 1] == w[..k] + [w[k]];
    JoinAdds(w[..k], w[k]);
    JoinPrefix(w, k + 1);
    if k + 1 < |w| {
      assert w[..k + 2] == w[..k + 1] + [w[k + 1]];
      JoinAdds(w[..k + 1], w[k + 1]);
      JoinPrefix(w, k + 2);
    } else {
      assert w[..k + 1] == w;
    }
  }

  // ---------------------------------------------------------------- the window, and the simple form

  function Min(a: nat, b: nat): nat { if a < b then a else b }

  function Window(lines: seq<string>, offset: nat, limit: nat): seq<string>
    requires offset >= 1
  {
    if offset - 1 >= |lines| then [] else lines[offset - 1..Min(|lines|, offset - 1 + limit)]
  }

  /** `Environment.read_text_range` on normalized content */
  function SimpleRange(text: string, offset: nat, limit: nat, maxChars: nat): TextFileRange
    requires offset >= 1
  {
    var lines := SplitLines(text).0;
    var selected := Window(lines, offset, limit);
    var joined := Join(selected);
    var truncated := |joined| > maxChars;
    TextFileRange(if truncated then Split(joined[..maxChars], 0) else selected, offset, Some(|lines|),
                  offset - 1 + limit < |lines| || truncated, truncated)
  }

  /** When the streaming form flags truncation: the window is too long, or it fits and the stream
      stops for want of room before it can see that nothing but an empty line, or nothing at all,
      is left. */
  predicate Overrun(text: string, w: seq<string>, limit: nat, maxChars: nat) {
    || |Join(w)| > maxChars
    || (|w| >= 2 && w[|w| - 1] == "" && |Join(w)| == maxChars)
    || (0 < |w| < limit && EndsWithNewline(text) && |Join(w)| + 1 >= maxChars)
  }

  /** What the streaming form promises of its answer. */
  predicate Answers(text: string, offset: nat, limit: nat, maxChars: nat, countToEof: bool, r: TextFileRange)
    requires offset >= 1
  {
    var lines := Lines(text, 0);
    var w := Window(lines, offset, limit);
    && r.startLine == offset
    && (r.charsTruncated <==> Overrun(text, w, limit, maxChars))
    && (!r.charsTruncated ==>
          && r.lines == w && r.hasMore == (offset - 1 + limit < |lines|)
          && (r.totalLines == None || r.totalLines == Some(|lines|))
          && (countToEof || !r.hasMore ==> r.totalLines.Some?))
    && (r.charsTruncated ==>
          && IsPrefix(Join(r.lines), Join(w)) && maxChars <= |Join(r.lines)| + 1 && |Join(r.lines)| <= maxChars
          && r.totalLines == None && r.hasMore)
  }

  // ---------------------------------------------------------------- the stream

  class TextStream {
    const text: string
    var pos: nat

    ghost predicate Valid()
      reads this
    {
      pos <= |text|
    }

    constructor (text: string)
      ensures Valid() && this.text == text && pos == 0
    {
      this.text := text;
      pos := 0;
    }

    /** `readline(size)` */
    method ReadLine(size: nat) returns (chunk: string)
      requires Valid()
      modifies this
      ensures Valid() && pos == Min(old(pos) + size, Next(text, old(pos))) && chunk == text[old(pos)..pos]
    {
      var end := Min(pos + size, Next(text, pos));
      chunk := text[pos..end];
      pos := end;
    }

    /** `read(1)` */
    method ReadOne() returns (c: string)
      requires Valid()
      modifies this
      ensures Valid() && (c == "" <==> old(pos) == |text|)
    {
      if pos == |text| { return ""; }
      c := [text[pos]];
      pos := pos + 1;
    }

    /** One chunk of a line, without the newline that may end it. */
    method ReadPiece(size: nat) returns (content: string, ended: bool, eof: bool)
      requires Valid() && size >= 1
      modifies this
      ensures Valid() && eof == (old(pos) == |text|) && (eof ==> pos == |text|)
      ensures !eof ==>
                var end := Eol(text, old(pos));
                var stop := old(pos) + |content|;
                && stop <= end && content == text[old(pos)..stop]
                && (ended ==> stop == end < |text| && pos == end + 1)
                && (!ended ==> stop == pos && old(pos) < pos)
    {
      var chunk := ReadLine(size);
      if chunk == "" { return "", false, true; }
      assert chunk[|chunk| - 1] == text[pos - 1];
      ended := chunk[|chunk| - 1] == '\n';
      content := if ended then chunk[..|chunk| - 1] else chunk;
      eof := false;
    }

    /** `_read_text_line` with chunks of `size`: the chunking cannot be seen. */
    method ReadTextLine(size: nat, collectLimit: Option<nat>) returns (line: Option<string>, atEof: bool, truncated: bool)
      requires Valid() && size >= 1
      modifies this
      ensures Valid()
      ensures LineRead(text, old(pos), collectLimit, line, atEof, truncated)
      ensures !truncated ==> pos == Next(text, old(pos))
    {
      var parts, seenContent := "", false;
      var remaining: Option<nat> := collectLimit;
      ghost var start, end := pos, Eol(text, pos);
      while true
        invariant start <= pos <= end <= |text| && Eol(text, pos) == end
        invariant seenContent <==> pos > start
        invariant remaining.Some? == collectLimit.Some?
        invariant collectLimit.None? ==> parts == ""
        invariant collectLimit.Some? ==> parts == text[start..pos] && pos - start + remaining.value == collectLimit.value
        decreases |text| - pos
      {
        ghost var from := pos;
        var content, ended, eof := ReadPiece(size);
        if eof {
          return if seenContent then Some(parts) else None, true, false;
        }
        seenContent := true;
        if remaining.Some? {
          Slices(text, start, from, from + |content|);
          if |content| > remaining.value {
            Slices(text, start, from, from + remaining.value);
            SliceOfSlice(text, from, from + |content|, remaining.value);
            return Some(parts + content[..remaining.value]), false, true;
          }
          parts := parts + content;
          remaining := Some(remaining.value - |content|);
        }
        if ended {
          return Some(parts), false, false;
        }
        EolLater(text, from, pos);
      }
    }

    /** Pass over `count` lines; `done` when the text has no more. */
    method SkipLines(size: nat, count: nat) returns (number: nat, done: bool)
      requires Valid() && size >= 1 && At(text, pos, 0)
      modifies this
      ensures number <= count && (done ==> number == |Lines(text, 0)|)
      ensures !done ==> number == count && At(text, pos, count)
    {
      number := 0;
      while number < count
        invariant number <= count && At(text, pos, number)
        decreases count - number
      {
        LineAt(text, pos, number);
        var line, atEof, _ := ReadTextLine(size, None);
        if line == None { return number, true; }
        number := number + 1;
        if atEof { return number, true; }
      }
      done := false;
    }

    /** Count what is left of the lines. */
    method CountLines(size: nat, from: nat) returns (number: nat)
      requires Valid() && size >= 1 && At(text, pos, from)
      modifies this
      ensures number == |Lines(text, 0)|
    {
      number := from;
      while true
        invariant At(text, pos, number)
        decreases |text| - pos
      {
        LineAt(text, pos, number);
        var line, atEof, _ := ReadTextLine(size, None);
        if line == None { return; }
        number := number + 1;
        if atEof { return; }
      }
    }

    /** One turn of the collecting loop; `end` says whether and how it was the last. */
    method SelectOne(size: nat, from: nat, limit: nat, maxChars: nat, selected: seq<string>, charsUsed: nat)
      returns (more: seq<string>, used: nat, end: Option<End>)
      requires Valid() && size >= 1 && |selected| < limit && maxChars >= 1
      requires Collected(text, pos, from, limit, maxChars, selected) && charsUsed == |Join(selected)|
      modifies this
      ensures Valid()
      ensures end.Some? ==> Outcome(text, from, limit, maxChars, more, end.value) && end.value != Filled
      ensures end.None? ==> |more| == |selected| + 1 && Collected(text, pos, from, limit, maxChars, more)
      ensures end.None? ==> used == |Join(more)|
    {
      var separatorChars := if selected == [] then 0 else 1;
      if maxChars - charsUsed - separatorChars < 1 {
        NoRoom(text, pos, from, limit, maxChars, selected);
        return selected, charsUsed, Some(Stopped);
      }
      var remaining := maxChars - charsUsed - separatorChars;
      ghost var start := pos;
      var line, atEof, truncated := ReadTextLine(size, Some(remaining));
      if line == None {
        AllShown(text, start, from, limit, maxChars, selected);
        return selected, charsUsed, Some(Exhausted);
      }
      if truncated {
        TooLong(text, start, from, limit, maxChars, selected, remaining);
        return selected + [line.value], maxChars, Some(Stopped);
      }
      OneMore(text, start, from, limit, maxChars, selected);
      more := selected + [line.value];
      used := charsUsed + separatorChars + |line.value|;
      end := if atEof then Some(Exhausted) else None;
    }

    /** Collect up to `limit` lines from number `from` on within the budget of characters. `end`
        says how the collecting ended. */
    method SelectLines(size: nat, from: nat, limit: nat, maxChars: nat) returns (selected: seq<string>, end: End)
      requires Valid() && size >= 1 && limit >= 1 && maxChars >= 1 && At(text, pos, from)
      modifies this
      ensures Valid() && Outcome(text, from, limit, maxChars, selected, end)
      ensures end == Filled ==> At(text, pos, from + limit)
    {
      selected := [];
      var charsUsed := 0;
      while |selected| < limit
        invariant Collected(text, pos, from, limit, maxChars, selected)
        invariant charsUsed == |Join(selected)|
        decreases limit - |selected|
      {
        var more, used, ended := SelectOne(size, from, limit, maxChars, selected, charsUsed);
        if ended.Some? { return more, ended.value; }
        selected, charsUsed := more, used;
      }
      end := Filled;
      AllFilled(text, pos, from, limit, maxChars, selected);
    }

    /** `_read_text_range` from the start of the stream, with chunks of `size` */
    method ReadTextRange(size: nat, offset: nat, limit: nat, maxChars: nat, countToEof: bool) returns (r: TextFileRange)
      requires Valid() && pos == 0 && size >= 1 && offset >= 1 && limit >= 1 && maxChars >= 1
      modifies this
      ensures Answers(text, offset, limit, maxChars, countToEof, r)
    {
      assert At(text, pos, 0);
      var number, done := SkipLines(size, offset - 1);
      if done {
        return TextFileRange([], offset, Some(number), false, false);
      }
      var selected, end := SelectLines(size, offset - 1, limit, maxChars);
      if end == Stopped {
        return TextFileRange(selected, offset, None, true, true);
      }
      number := number + |selected|;
      if end == Exhausted {
        return TextFileRange(selected, offset, Some(number), false, false);
      }
      if countToEof {
        var shownEnd := number;
        number := CountLines(size, number);
        return TextFileRange(selected, offset, Some(number), number > shownEnd, false);
      }
      LineAt(text, pos, number);
      var next := ReadOne();
      var hasMore := next != "";
      r := TextFileRange(selected, offset, if hasMore then None else Some(number), hasMore, false);
    }
  }

  /** What reading one line from `from` must answer. */
  predicate LineRead(text: string, from: nat, limit: Option<nat>, line: Option<string>, atEof: bool, truncated: bool)
    requires from <= |text|
  {
    var end := Eol(text, from);
    && truncated == (limit.Some? && end > from + limit.value)
    && atEof == (end == |text| && !truncated)
    && line == if from == |text| then None
               else if truncated then Some(text[from..from + limit.value])
               else Some(if limit.None? then "" else text[from..end])
  }

  datatype End = Stopped | Exhausted | Filled

  /** The stream stands at the start of line number `k`. */
  ghost predicate At(text: string, pos: nat, k: nat) {
    && pos <= |text| && k <= |Lines(text, 0)| && Lines(text, 0)[k..] == Lines(text, pos)
    && (pos > 0 ==> text[pos - 1] == '\n')
  }

  lemma LineAt(text: string, pos: nat, k: nat)
    requires At(text, pos, k)
    ensures pos == |text| <==> k == |Lines(text, 0)|
    ensures pos < |text| ==>
              && Lines(text, 0)[k] == text[pos..Eol(text, pos)]
              && Lines(text, 0)[k + 1..] == Lines(text, Next(text, pos))
              && (Eol(text, pos) < |text| ==> At(text, Next(text, pos), k + 1))
              && (Eol(text, pos) == |text| ==> k + 1 == |Lines(text, 0)| && !EndsWithNewline(text))
  {
  }

  lemma Slices(s: string, a: nat, b: nat, c: nat)
    requires a <= b <= c <= |s|
    ensures s[a..b] + s[b..c] == s[a..c]
  {
  }

  /** A line ends where it ends, from wherever in it one looks. */
  lemma {:induction false} EolLater(s: string, from: nat, later: nat)
    requires from <= later <= |s| && later <= Eol(s, from)
    ensures Eol(s, later) == Eol(s, from)
    decreases later - from
  {
  }

  // ---------------------------------------------------------------- collecting, case by case

  /** A whole number of lines, or all but the last of one, that nearly fills the budget. */
  ghost predicate CutShort(selected: seq<string>, w: seq<string>, maxChars: nat) {
    IsPrefix(Join(selected), Join(w)) && maxChars <= |Join(selected)| + 1 && |Join(selected)| <= maxChars
  }

  ghost predicate Outcome(text: string, from: nat, limit: nat, maxChars: nat, selected: seq<string>, end: End) {
    var lines := Lines(text, 0);
    var w := Window(lines, from + 1, limit);
    && (end == Stopped <==> Overrun(text, w, limit, maxChars))
    && (end == Stopped ==> CutShort(selected, w, maxChars))
    && (end != Stopped ==> selected == w)
    && (end == Exhausted ==> from + |w| == |lines|)
    && (end == Filled ==> |w| == limit)
  }

  /** The lines collected so far: the first of the window, and before the last of them was read
      there was room for at least a character of it. */
  ghost predicate Collected(text: string, pos: nat, from: nat, limit: nat, maxChars: nat, selected: seq<string>) {
    && |selected| <= limit && At(text, pos, from + |selected|)
    && Roomy(Lines(text, 0), from, maxChars, selected)
  }

  ghost predicate Roomy(lines: seq<string>, from: nat, maxChars: nat, selected: seq<string>) {
    && from + |selected| <= |lines| && selected == lines[from..from + |selected|]
    && |Join(selected)| <= maxChars
    && (|selected| >= 2 ==> |Join(selected[..|selected| - 1])| + 1 < maxChars)
  }

  lemma WindowBegins(lines: seq<string>, from: nat, limit: nat, k: nat)
    requires k <= limit && from + k <= |lines|
    ensures var w := Window(lines, from + 1, limit);
            && k <= |w| && w[..k] == lines[from..from + k]
            && (k < limit ==> (k < |w| <==> from + k < |lines|))
            && (k < |w| ==> w[k] == lines[from + k])
            && (k == limit ==> |w| == limit && w == lines[from..from + k])
  {
  }

  /** Without room for another character, the window overruns if it goes on or may go on. */
  lemma NoRoomLeft(text: string, w: seq<string>, k: nat, limit: nat, maxChars: nat)
    requires 0 < k <= |w| && k < limit && maxChars <= |Join(w[..k])| + 1 && |Join(w[..k])| <= maxChars
    requires k == |w| ==> EndsWithNewline(text)
    ensures Overrun(text, w, limit, maxChars) && CutShort(w[..k], w, maxChars)
  {
    JoinPrefix(w, k);
    if k < |w| { JoinGrows(w, k); } else { assert w[..k] == w; }
  }

  lemma NoRoom(text: string, pos: nat, from: nat, limit: nat, maxChars: nat, selected: seq<string>)
    requires maxChars >= 1 && |selected| < limit && Collected(text, pos, from, limit, maxChars, selected)
    requires maxChars - |Join(selected)| - (if selected == [] then 0 else 1) < 1
    ensures Outcome(text, from, limit, maxChars, selected, Stopped)
  {
    WindowBegins(Lines(text, 0), from, limit, |selected|);
    LineAt(text, pos, from + |selected|);
    NoRoomLeft(text, Window(Lines(text, 0), from + 1, limit), |selected|, limit, maxChars);
  }

  lemma Fits(text: string, w: seq<string>, limit: nat, maxChars: nat)
    requires |Join(w)| <= maxChars
    requires |w| >= 2 ==> |Join(w[..|w| - 1])| + 1 < maxChars
    requires 0 < |w| < limit && EndsWithNewline(text) ==> |Join(w)| + 1 < maxChars
    ensures !Overrun(text, w, limit, maxChars)
  {
    if |w| >= 2 { JoinGrows(w, |w| - 1); }
  }

  lemma Ended(text: string, from: nat, limit: nat, maxChars: nat, selected: seq<string>)
    requires |selected| <= limit && Roomy(Lines(text, 0), from, maxChars, selected)
    requires from + |selected| == |Lines(text, 0)|
    requires selected != [] && EndsWithNewline(text) ==> |Join(selected)| + 1 < maxChars
    ensures Outcome(text, from, limit, maxChars, selected, Exhausted)
  {
    WindowBegins(Lines(text, 0), from, limit, |selected|);
    var w := Window(Lines(text, 0), from + 1, limit);
    assert w[..|selected|] == w;
    Fits(text, w, limit, maxChars);
  }

  lemma AllShown(text: string, pos: nat, from: nat, limit: nat, maxChars: nat, selected: seq<string>)
    requires |selected| < limit && Collected(text, pos, from, limit, maxChars, selected) && pos == |text|
    requires selected != [] ==> |Join(selected)| + 1 < maxChars
    ensures Outcome(text, from, limit, maxChars, selected, Exhausted)
  {
  }

  lemma AllFilled(text: string, pos: nat, from: nat, limit: nat, maxChars: nat, selected: seq<string>)
    requires |selected| == limit && Collected(text, pos, from, limit, maxChars, selected)
    ensures Outcome(text, from, limit, maxChars, selected, Filled)
  {
    WindowBegins(Lines(text, 0), from, limit, limit);
    Fits(text, selected, limit, maxChars);
  }

  /** A line cut after `room` characters joins to a prefix of what the whole line joins to. */
  lemma CutJoins(selected: seq<string>, line: string, room: nat)
    requires room <= |line|
    ensures IsPrefix(Join(selected + [line[..room]]), Join(selected + [line]))
    ensures |Join(selected + [line[..room]])| == |Join(selected)| + room + (if selected == [] then 0 else 1)
    ensures |Join(selected + [line])| == |Join(selected)| + |line| + (if selected == [] then 0 else 1)
  {
    JoinAdds(selected, line);
    JoinAdds(selected, line[..room]);
  }

  lemma CutLine(text: string, w: seq<string>, selected: seq<string>, line: string, room: nat, limit: nat, maxChars: nat)
    requires |selected| < |w| && w[..|selected|] == selected && w[|selected|] == line && room < |line|
    requires |Join(selected)| + room + (if selected == [] then 0 else 1) == maxChars
    ensures Overrun(text, w, limit, maxChars) && CutShort(selected + [line[..room]], w, maxChars)
  {
    CutJoins(selected, line, room);
    assert w[..|selected| + 1] == selected + [line];
    JoinPrefix(w, |selected| + 1);
    PrefixTrans(Join(selected + [line[..room]]), Join(selected + [line]), Join(w));
  }

  lemma SliceOfSlice(s: string, a: nat, b: nat, n: nat)
    requires a + n <= b <= |s|
    ensures s[a..b][..n] == s[a..a + n]
  {
  }

  /** A line that does not fit is cut where the budget ends. */
  lemma TooLong(text: string, pos: nat, from: nat, limit: nat, maxChars: nat, selected: seq<string>, room: nat)
    requires |selected| < limit && Collected(text, pos, from, limit, maxChars, selected) && pos < |text|
    requires |Join(selected)| + room + (if selected == [] then 0 else 1) == maxChars
    requires Eol(text, pos) > pos + room
    ensures Outcome(text, from, limit, maxChars, selected + [text[pos..pos + room]], Stopped)
  {
    WindowBegins(Lines(text, 0), from, limit, |selected|);
    LineAt(text, pos, from + |selected|);
    SliceOfSlice(text, pos, Eol(text, pos), room);
    CutLine(text, Window(Lines(text, 0), from + 1, limit), selected, text[pos..Eol(text, pos)], room, limit, maxChars);
  }

  lemma RoomyGrows(lines: seq<string>, from: nat, maxChars: nat, selected: seq<string>, line: string)
    requires Roomy(lines, from, maxChars, selected) && from + |selected| < |lines| && lines[from + |selected|] == line
    requires |Join(selected)| + |line| + (if selected == [] then 0 else 1) <= maxChars
    requires selected != [] ==> |Join(selected)| + 1 < maxChars
    ensures Roomy(lines, from, maxChars, selected + [line])
    ensures |Join(selected + [line])| == |Join(selected)| + |line| + (if selected == [] then 0 else 1)
  {
    CutJoins(selected, line, 0);
    var more := selected + [line];
    assert more[..|more| - 1] == selected;
    assert more == lines[from..from + |more|];
  }

  lemma OneMore(text: string, pos: nat, from: nat, limit: nat, maxChars: nat, selected: seq<string>)
    requires |selected| < limit && Collected(text, pos, from, limit, maxChars, selected) && pos < |text|
    requires |Join(selected)| + (Eol(text, pos) - pos) + (if selected == [] then 0 else 1) <= maxChars
    requires selected != [] ==> |Join(selected)| + 1 < maxChars
    ensures var line := text[pos..Eol(text, pos)];
            && |Join(selected + [line])| == |Join(selected)| + |line| + (if selected == [] then 0 else 1)
            && (Eol(text, pos) < |text| ==> Collected(text, Next(text, pos), from, limit, maxChars, selected + [line]))
            && (Eol(text, pos) == |text| ==> Outcome(text, from, limit, maxChars, selected + [line], Exhausted))
  {
    LineAt(text, pos, from + |selected|);
    var line := text[pos..Eol(text, pos)];
    RoomyGrows(Lines(text, 0), from, maxChars, selected, line);
    if Eol(text, pos) == |text| {
      Ended(text, from, limit, maxChars, selected + [line]);
    }
  }

  // ---------------------------------------------------------------- against the simple form

  /** Where the streaming form flags truncation although the window fits. */
  predicate Overcautious(text: string, w: seq<string>, limit: nat, maxChars: nat) {
    && |Join(w)| <= maxChars
    && (|| (|w| >= 2 && w[|w| - 1] == "" && |Join(w)| == maxChars)
        || (0 < |w| < limit && EndsWithNewline(text) && |Join(w)| + 1 >= maxChars))
  }

  /** Any answer of the streaming form against the whole-file form: the same unless it flags
      truncation, and then a prefix one character short at most; it flags exactly when the whole
      file form does or when it is overcautious. */
  lemma StreamingAgainstSimple(text: string, offset: nat, limit: nat, maxChars: nat, countToEof: bool, r: TextFileRange)
    requires offset >= 1 && limit >= 1 && maxChars >= 1 && Answers(text, offset, limit, maxChars, countToEof, r)
    ensures var simple := SimpleRange(text, offset, limit, maxChars);
            var w := Window(Lines(text, 0), offset, limit);
            && (r.charsTruncated <==> simple.charsTruncated || Overcautious(text, w, limit, maxChars))
            && (!r.charsTruncated ==>
                  r.lines == simple.lines && r.hasMore == simple.hasMore && !simple.charsTruncated
                  && (r.totalLines.Some? ==> r.totalLines == simple.totalLines))
            && (r.charsTruncated ==> IsPrefix(Join(r.lines), Join(simple.lines)))
            && (simple.charsTruncated ==> |Join(simple.lines)| == maxChars <= |Join(r.lines)| + 1)
  {
    SplitLinesAreTheLines(text);
    var joined := Join(Window(Lines(text, 0), offset, limit));
    if |joined| > maxChars {
      JoinOfSplit(joined[..maxChars], 0);
      assert joined[..maxChars][0..] == joined[..maxChars];
      assert joined[..maxChars][..|Join(r.lines)|] == joined[..|Join(r.lines)|];
    }
  }

  lemma CutAtNewline(s: string, from: nat, e: nat)
    requires from <= e < |s| && s[e] == '\n'
    ensures s[from..] == s[from..e] + "\n" + s[e + 1..]
  {
  }

  lemma {:induction false} JoinOfSplit(s: string, from: nat)
    requires from <= |s|
    ensures Join(Split(s, from)) == s[from..]
    decreases |s| - from
  {
    var e := Eol(s, from);
    if e < |s| {
      JoinOfSplit(s, e + 1);
      var rest := Split(s, e + 1);
      assert ([s[from..e]] + rest)[1..] == rest;
      CutAtNewline(s, from, e);
    }
  }

  /** The streaming form may flag truncation of a window that fits. */
  lemma StreamingIsOvercautious()
    ensures Overcautious("ab\n", Window(Lines("ab\n", 0), 1, 5), 5, 2)
    ensures !SimpleRange("ab\n", 1, 5, 2).charsTruncated
  {
  }

  // ---------------------------------------------------------------- newlines

  /** `str.replace("\r\n", "\n")` */
  function DropReturns(s: string): string {
    if s == "" then ""
    else if |s| >= 2 && s[0] == '\r' && s[1] == '\n' then "\n" + DropReturns(s[2..])
    else [s[0]] + DropReturns(s[1..])
  }

  /** `str.replace("\r", "\n")` */
  function TurnReturns(s: string): string {
    if s == "" then "" else [if s[0] == '\r' then '\n' else s[0]] + TurnReturns(s[1..])
  }

  /** `_normalize_newlines` */
  function NormalizeNewlines(s: string): string {
    TurnReturns(DropReturns(s))
  }

  /** Universal newlines, as a text handle translates them in one pass. */
  function Universal(s: string): string {
    if s == "" then ""
    else if s[0] == '\r' then "\n" + Universal(if |s| >= 2 && s[1] == '\n' then s[2..] else s[1..])
    else [s[0]] + Universal(s[1..])
  }

  /** The text that the two forms read is the same, and holds no carriage return. */
  lemma {:induction false} NormalizedIsUniversal(s: string)
    ensures NormalizeNewlines(s) == Universal(s) && '\r' !in Universal(s)
  {
    if s != "" {
      if |s| >= 2 && s[0] == '\r' && s[1] == '\n' {
        NormalizedIsUniversal(s[2..]);
        assert ("\n" + DropReturns(s[2..]))[1..] == DropReturns(s[2..]);
      } else {
        NormalizedIsUniversal(s[1..]);
        assert ([s[0]] + DropReturns(s[1..]))[1..] == DropReturns(s[1..]);
      }
    }
  }
}
