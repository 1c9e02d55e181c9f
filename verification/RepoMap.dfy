/**
 The repository map: a walk that spends a shared budget of lines and characters, holding back from
 every subtree of the root what the rest of the root needs, and a renderer that stays within a
 limit. Which entries of a directory are candidates, in what order, and what its omission line
 says, is left to a choice function: nothing here depends on it.
 */
module RepoMap {
  import opened Wrappers
  import opened TextRange
  import opened Decimals

  // ---------------------------------------------------------------- lengths of joined lines

  /** Characters of the lines with a newline each. */
  function Weight(lines: seq<string>): nat {
    if lines == [] then 0 else Weight(lines[..|lines| - 1]) + |lines[|lines| - 1]| + 1
  }

  lemma {:induction false} JoinWeighs(lines: seq<string>)
    ensures |Join(lines)| == if lines == [] then 0 else Weight(lines) - 1
  {
    if lines != [] {
      var n := |lines| - 1;
      assert lines == lines[..n] + [lines[n]];
      JoinAdds(lines[..n], lines[n]);
      JoinWeighs(lines[..n]);
    }
  }

  lemma {:induction false} WeightConcat(a: seq<string>, b: seq<string>)
    ensures Weight(a + b) == Weight(a) + Weight(b)
    decreases |b|
  {
    if b == [] {
      assert a + b == a;
    } else {
      assert (a + b)[..|a + b| - 1] == a + b[..|b| - 1];
      WeightConcat(a, b[..|b| - 1]);
    }
  }

  lemma WeightFirst(lines: seq<string>)
    requires lines != []
    ensures Weight(lines) == |lines[0]| + 1 + Weight(lines[1..])
  {
    assert lines == [lines[0]] + lines[1..];
    WeightConcat([lines[0]], lines[1..]);
    var none: seq<string> := [lines[0]][..0];
    assert Weight(none) == 0 && Weight([lines[0]]) == Weight(none) + |lines[0]| + 1;
  }

  // ---------------------------------------------------------------- the tree and the choice

  /** `listing` is what a scan yields; a directory that cannot be scanned has none. */
  datatype Node = File(name: string) | Dir(name: string, listing: Option<seq<Node>>)

  /** The candidates of a directory, and the line about what they leave out. */
  datatype Choice = Choice(candidates: seq<Node>, omission: Option<string>)

  /** From the entries scanned at a depth, and whether those were all. */
  type Chooser = (seq<Node>, nat, bool) -> Choice

  function Indent(depth: nat): string {
    if depth == 0 then "" else Indent(depth - 1) + "  "
  }

  function EntryLine(n: Node, depth: nat): string {
    Indent(depth) + n.name + if n.Dir? then "/" else ""
  }

  function EntryLines(nodes: seq<Node>, depth: nat): (lines: seq<string>)
    ensures |lines| == |nodes|
  {
    seq(|nodes|, i requires 0 <= i < |nodes| => EntryLine(nodes[i], depth))
  }

  /** All the lines of one directory's own level. */
  function OwnLines(c: Choice, depth: nat): seq<string> {
    EntryLines(c.candidates, depth) + if c.omission.Some? then [c.omission.value] else []
  }

  // ---------------------------------------------------------------- the walk as a function

  /** The limits that never change: of depth, of directories walked, of entries scanned. */
  datatype Limits = Limits(depth: nat, dirs: nat, scanned: nat)
  /** Those that a subtree of the root sees lowered: of lines, and of their characters. */
  datatype Caps = Caps(entries: nat, chars: nat)

  /** What a walk has come to. */
  datatype Walked = Walked(lines: seq<string>, scanned: nat, dirs: nat, truncated: bool)

  const Start := Walked([], 0, 0, false)

  predicate Fit(lines: seq<string>, caps: Caps) {
    |lines| <= caps.entries && Weight(lines) <= caps.chars + 1
  }

  lemma FitIsJoined(lines: seq<string>, caps: Caps)
    ensures Fit(lines, caps) <==> |lines| <= caps.entries && |Join(lines)| <= caps.chars
  {
    JoinWeighs(lines);
  }

  /** `_WalkBudget.append`, and whether it took the line */
  function Appended(w: Walked, line: string, caps: Caps): (Walked, bool) {
    if Fit(w.lines + [line], caps) then (w.(lines := w.lines + [line]), true) else (w.(truncated := true), false)
  }

  /** A scan: what it counts, and what is chosen of the entries it sees. */
  function Scanned(w: Walked, entries: seq<Node>, depth: nat, lim: Limits, choose: Chooser): (Walked, Choice) {
    var seen := if lim.scanned <= w.scanned then 0 else Min(|entries|, lim.scanned - w.scanned);
    var completed := w.scanned + seen < lim.scanned;
    (w.(scanned := w.scanned + seen, truncated := w.truncated || !completed), choose(entries[..seen], depth, completed))
  }

  /** `_walk` below the root */
  function WalkOf(w: Walked, dir: Node, depth: nat, lim: Limits, caps: Caps, choose: Chooser): Walked
    requires dir.Dir? && depth < lim.depth
    decreases lim.depth - depth, 1, 0
  {
    if w.truncated then w
    else if w.dirs >= lim.dirs then w.(truncated := true)
    else
      var entered := w.(dirs := w.dirs + 1);
      if dir.listing.None? then entered
      else
        var (scanned, c) := Scanned(entered, dir.listing.value, depth, lim, choose);
        EntriesOf(scanned, c, depth, lim, caps, choose)
  }

  /** Its loop over the candidates of one directory. */
  function EntriesOf(w: Walked, c: Choice, depth: nat, lim: Limits, caps: Caps, choose: Chooser): Walked
    requires depth < lim.depth
    decreases lim.depth - depth, 0, |c.candidates|
  {
    if c.candidates == [] then
      if c.omission.None? then w else Appended(w, c.omission.value, caps).0
    else
      var node := c.candidates[0];
      var (shown, ok) := Appended(w, EntryLine(node, depth), caps);
      if !ok then shown
      else
        var after := if node.Dir? && depth + 1 < lim.depth then WalkOf(shown, node, depth + 1, lim, caps, choose) else shown;
        EntriesOf(after, c.(candidates := c.candidates[1..]), depth, lim, caps, choose)
  }

  /** The caps of a subtree when the lines `coming` of the root are still to be shown. */
  function Lowered(w: Walked, coming: seq<string>, caps: Caps): Caps {
    Caps(Max(|w.lines|, caps.entries - |coming|), Max(|Join(w.lines)|, caps.chars - Weight(coming)))
  }

  function Max(a: int, b: int): (m: int)
    ensures m >= a && m >= b
  {
    if a > b then a else b
  }

  /** The subtree below one line of the root. */
  function Subtree(w: Walked, own: seq<string>, nodes: seq<Node>, lim: Limits, caps: Caps, choose: Chooser): Walked
    requires own != []
  {
    if nodes != [] && nodes[0].Dir? && 1 < lim.depth
    then WalkOf(w, nodes[0], 1, lim, Lowered(w, own[1..], caps), choose) else w
  }

  function Rest<T>(s: seq<T>): seq<T> {
    if s == [] then [] else s[1..]
  }

  /** `_walk`'s loop at the root: `own` are its lines still to show, the first of them for `nodes`. */
  function RootOf(w: Walked, own: seq<string>, nodes: seq<Node>, lim: Limits, caps: Caps, choose: Chooser): Walked
    decreases |own|
  {
    if own == [] then w
    else
      var (shown, ok) := Appended(w, own[0], caps);
      if !ok then shown
      else RootOf(Subtree(shown, own, nodes, lim, caps, choose), own[1..], Rest(nodes), lim, caps, choose)
  }

  /** The lines that loop shows below each of its own. */
  function BelowOf(w: Walked, own: seq<string>, nodes: seq<Node>, lim: Limits, caps: Caps, choose: Chooser): seq<seq<string>>
    decreases |own|
  {
    if own == [] then []
    else
      var (shown, ok) := Appended(w, own[0], caps);
      if !ok then []
      else
        var after := Subtree(shown, own, nodes, lim, caps, choose);
        [Beyond(after.lines, |shown.lines|)] + BelowOf(after, own[1..], Rest(nodes), lim, caps, choose)
  }

  function Beyond(s: seq<string>, n: nat): seq<string> {
    if n <= |s| then s[n..] else []
  }

  /** What the root's scan chooses. */
  function RootChoice(entries: seq<Node>, lim: Limits, choose: Chooser): Choice {
    Scanned(Start, entries, 0, lim, choose).1
  }

  function ChosenOf(w: Walked, c: Choice, lim: Limits, caps: Caps, choose: Chooser): Walked {
    RootOf(w, OwnLines(c, 0), c.candidates, lim, caps, choose)
  }

  /** `_walk` from the root on a fresh budget */
  function MapOf(entries: seq<Node>, lim: Limits, caps: Caps, choose: Chooser): Walked {
    if lim.dirs == 0 then Start.(truncated := true)
    else
      var (w, c) := Scanned(Start.(dirs := 1), entries, 0, lim, choose);
      ChosenOf(w, c, lim, caps, choose)
  }

  // ---------------------------------------------------------------- what every walk keeps

  /** Nothing shown is taken back, nothing is shown beyond the caps, and truncation stays. */
  ghost predicate Grows(w: Walked, next: Walked, caps: Caps) {
    && w.lines <= next.lines && (next.lines == w.lines || Fit(next.lines, caps)) && (w.truncated ==> next.truncated)
    && w.scanned <= next.scanned && w.dirs <= next.dirs
  }

  lemma {:induction false} WalkGrows(w: Walked, dir: Node, depth: nat, lim: Limits, caps: Caps, choose: Chooser)
    requires dir.Dir? && depth < lim.depth
    ensures Grows(w, WalkOf(w, dir, depth, lim, caps, choose), caps)
    decreases lim.depth - depth, 1, 0
  {
    if !w.truncated && w.dirs < lim.dirs && dir.listing.Some? {
      var (scanned, c) := Scanned(w.(dirs := w.dirs + 1), dir.listing.value, depth, lim, choose);
      EntriesGrow(scanned, c, depth, lim, caps, choose);
    }
  }

  lemma {:induction false} EntriesGrow(w: Walked, c: Choice, depth: nat, lim: Limits, caps: Caps, choose: Chooser)
    requires depth < lim.depth
    ensures Grows(w, EntriesOf(w, c, depth, lim, caps, choose), caps)
    decreases lim.depth - depth, 0, |c.candidates|
  {
    if c.candidates != [] {
      var node := c.candidates[0];
      var (shown, ok) := Appended(w, EntryLine(node, depth), caps);
      if ok {
        var after := if node.Dir? && depth + 1 < lim.depth then WalkOf(shown, node, depth + 1, lim, caps, choose) else shown;
        if node.Dir? && depth + 1 < lim.depth { WalkGrows(shown, node, depth + 1, lim, caps, choose); }
        EntriesGrow(after, c.(candidates := c.candidates[1..]), depth, lim, caps, choose);
      }
    }
  }

  // ---------------------------------------------------------------- a walk that is not truncated

  /** All there is to show of a part of the tree, the entries to scan and the directories to walk. */
  datatype Census = Census(lines: seq<string>, entries: nat, dirs: nat)

  function Plus(a: Census, b: Census): Census {
    Census(a.lines + b.lines, a.entries + b.entries, a.dirs + b.dirs)
  }

  function OneLine(line: string): Census {
    Census([line], 0, 0)
  }

  function DirCensus(dir: Node, depth: nat, lim: Limits, choose: Chooser): (n: Census)
    requires dir.Dir? && depth < lim.depth
    decreases lim.depth - depth, 1, 0
  {
    if dir.listing.None? then Census([], 0, 1)
    else Plus(Census([], |dir.listing.value|, 1), EntriesCensus(choose(dir.listing.value, depth, true), depth, lim, choose))
  }

  function NodeCensus(node: Node, depth: nat, lim: Limits, choose: Chooser): Census
    requires depth < lim.depth
    decreases lim.depth - depth, 0, 0
  {
    Plus(OneLine(EntryLine(node, depth)),
         if node.Dir? && depth + 1 < lim.depth then DirCensus(node, depth + 1, lim, choose) else Census([], 0, 0))
  }

  function EntriesCensus(c: Choice, depth: nat, lim: Limits, choose: Chooser): Census
    requires depth < lim.depth
    decreases lim.depth - depth, 0, |c.candidates| + 1
  {
    if c.candidates == [] then if c.omission.None? then Census([], 0, 0) else OneLine(c.omission.value)
    else Plus(NodeCensus(c.candidates[0], depth, lim, choose),
              EntriesCensus(c.(candidates := c.candidates[1..]), depth, lim, choose))
  }

  /** A walk that can take in `n` more without reaching any limit. */
  predicate Fits(w: Walked, n: Census, lim: Limits, caps: Caps) {
    w.dirs + n.dirs <= lim.dirs && w.scanned + n.entries < lim.scanned && Fit(w.lines + n.lines, caps)
  }

  function With(w: Walked, n: Census): Walked {
    Walked(w.lines + n.lines, w.scanned + n.entries, w.dirs + n.dirs, w.truncated)
  }

  ghost predicate Roomy(w: Walked, lim: Limits, caps: Caps) {
    !w.truncated && Fits(w, Census([], 0, 0), lim, caps)
  }

  /** Taking in `n` is complete where it fits, and is truncated where it does not. */
  ghost predicate Takes(w: Walked, n: Census, next: Walked, lim: Limits, caps: Caps) {
    if Fits(w, n, lim, caps) then next == With(w, n) else next.truncated
  }

  lemma FitShorter(a: seq<string>, b: seq<string>, caps: Caps)
    requires Fit(a + b, caps)
    ensures Fit(a, caps)
  {
    WeightConcat(a, b);
  }

  lemma FitsPlus(w: Walked, a: Census, b: Census, lim: Limits, caps: Caps)
    ensures Fits(w, Plus(a, b), lim, caps) <==> Fits(w, a, lim, caps) && Fits(With(w, a), b, lim, caps)
    ensures With(With(w, a), b) == With(w, Plus(a, b))
  {
    ConcatAssociates(w.lines, a.lines, b.lines);
    if Fit(w.lines + a.lines + b.lines, caps) { FitShorter(w.lines + a.lines, b.lines, caps); }
  }

  lemma WithFits(w: Walked, n: Census, lim: Limits, caps: Caps)
    requires !w.truncated && Fits(w, n, lim, caps)
    ensures Roomy(With(w, n), lim, caps)
  {
    assert With(w, n).lines + [] == With(w, n).lines;
  }

  lemma TakesNothing(w: Walked, lim: Limits, caps: Caps)
    requires Roomy(w, lim, caps)
    ensures Takes(w, Census([], 0, 0), w, lim, caps)
  {
    assert w.lines + [] == w.lines;
  }

  lemma TakesLine(w: Walked, line: string, lim: Limits, caps: Caps)
    requires Roomy(w, lim, caps)
    ensures Takes(w, OneLine(line), Appended(w, line, caps).0, lim, caps)
    ensures Appended(w, line, caps).1 <==> Fits(w, OneLine(line), lim, caps)
  {
  }

  /** One after the other, `a` and then `b`: whatever follows a truncation stays truncated. */
  lemma TakesBoth(w: Walked, a: Census, mid: Walked, b: Census, next: Walked, lim: Limits, caps: Caps)
    requires !w.truncated && Takes(w, a, mid, lim, caps) && (mid.truncated ==> next.truncated)
    requires !mid.truncated ==> Takes(mid, b, next, lim, caps)
    ensures Takes(w, Plus(a, b), next, lim, caps)
  {
    FitsPlus(w, a, b, lim, caps);
  }

  lemma {:induction false} WalkTakes(w: Walked, dir: Node, depth: nat, lim: Limits, caps: Caps, choose: Chooser)
    requires dir.Dir? && depth < lim.depth && Roomy(w, lim, caps)
    ensures Takes(w, DirCensus(dir, depth, lim, choose), WalkOf(w, dir, depth, lim, caps, choose), lim, caps)
    decreases lim.depth - depth, 1, 0
  {
    assert w.lines + [] == w.lines;
    if w.dirs < lim.dirs && dir.listing.Some? {
      var entries := dir.listing.value;
      var (scanned, c) := Scanned(w.(dirs := w.dirs + 1), entries, depth, lim, choose);
      EntriesGrow(scanned, c, depth, lim, caps, choose);
      ScanTakes(w, entries, depth, lim, caps, choose);
      if !scanned.truncated {
        EntriesTake(scanned, c, depth, lim, caps, choose);
      }
      TakesBoth(w, Census([], |entries|, 1), scanned, EntriesCensus(choose(entries, depth, true), depth, lim, choose),
                WalkOf(w, dir, depth, lim, caps, choose), lim, caps);
    }
  }

  lemma ScanTakes(w: Walked, entries: seq<Node>, depth: nat, lim: Limits, caps: Caps, choose: Chooser)
    requires Roomy(w, lim, caps) && w.dirs < lim.dirs
    ensures var (scanned, c) := Scanned(w.(dirs := w.dirs + 1), entries, depth, lim, choose);
            && Takes(w, Census([], |entries|, 1), scanned, lim, caps)
            && (!scanned.truncated ==> Roomy(scanned, lim, caps) && c == choose(entries, depth, true))
  {
    assert w.lines + [] == w.lines;
    assert entries[..|entries|] == entries;
  }

  lemma {:induction false} NodeTakes(w: Walked, node: Node, depth: nat, lim: Limits, caps: Caps, choose: Chooser)
    requires depth < lim.depth && Roomy(w, lim, caps) && Appended(w, EntryLine(node, depth), caps).1
    ensures var shown := Appended(w, EntryLine(node, depth), caps).0;
            var after := if node.Dir? && depth + 1 < lim.depth then WalkOf(shown, node, depth + 1, lim, caps, choose) else shown;
            Takes(w, NodeCensus(node, depth, lim, choose), after, lim, caps)
    decreases lim.depth - depth, 0, 0
  {
    var line := OneLine(EntryLine(node, depth));
    TakesLine(w, EntryLine(node, depth), lim, caps);
    var shown := Appended(w, EntryLine(node, depth), caps).0;
    WithFits(w, line, lim, caps);
    if node.Dir? && depth + 1 < lim.depth {
      WalkTakes(shown, node, depth + 1, lim, caps, choose);
      TakesBoth(w, line, shown, DirCensus(node, depth + 1, lim, choose),
                WalkOf(shown, node, depth + 1, lim, caps, choose), lim, caps);
    } else {
      TakesNothing(shown, lim, caps);
      TakesBoth(w, line, shown, Census([], 0, 0), shown, lim, caps);
    }
  }

  lemma {:induction false} EntriesTake(w: Walked, c: Choice, depth: nat, lim: Limits, caps: Caps, choose: Chooser)
    requires depth < lim.depth && Roomy(w, lim, caps)
    ensures Takes(w, EntriesCensus(c, depth, lim, choose), EntriesOf(w, c, depth, lim, caps, choose), lim, caps)
    decreases lim.depth - depth, 0, |c.candidates| + 1
  {
    if c.candidates == [] {
      if c.omission.None? { TakesNothing(w, lim, caps); } else { TakesLine(w, c.omission.value, lim, caps); }
    } else {
      var node, more := c.candidates[0], c.(candidates := c.candidates[1..]);
      var (shown, ok) := Appended(w, EntryLine(node, depth), caps);
      var first, rest := NodeCensus(node, depth, lim, choose), EntriesCensus(more, depth, lim, choose);
      if ok {
        var after := if node.Dir? && depth + 1 < lim.depth then WalkOf(shown, node, depth + 1, lim, caps, choose) else shown;
        NodeTakes(w, node, depth, lim, caps, choose);
        EntriesGrow(after, more, depth, lim, caps, choose);
        if !after.truncated {
          WithFits(w, first, lim, caps);
          EntriesTake(after, more, depth, lim, caps, choose);
        }
        TakesBoth(w, first, after, rest, EntriesOf(after, more, depth, lim, caps, choose), lim, caps);
      } else {
        TakesLine(w, EntryLine(node, depth), lim, caps);
        NotEvenTheLine(w, node, depth, rest, lim, caps, choose);
      }
    }
  }

  lemma NotEvenTheLine(w: Walked, node: Node, depth: nat, rest: Census, lim: Limits, caps: Caps, choose: Chooser)
    requires depth < lim.depth && !Fits(w, OneLine(EntryLine(node, depth)), lim, caps)
    ensures !Fits(w, Plus(NodeCensus(node, depth, lim, choose), rest), lim, caps)
  {
    FitsPlus(w, NodeCensus(node, depth, lim, choose), rest, lim, caps);
    FitsPlus(w, OneLine(EntryLine(node, depth)),
             if node.Dir? && depth + 1 < lim.depth then DirCensus(node, depth + 1, lim, choose) else Census([], 0, 0), lim, caps);
  }

  // ---------------------------------------------------------------- the root

  /** The lines still to come fit behind those there are. */
  ghost predicate Room(lines: seq<string>, coming: seq<string>, caps: Caps) {
    |lines| + |coming| <= caps.entries && Weight(lines) + Weight(coming) <= caps.chars + 1
  }

  lemma RoomForFirst(lines: seq<string>, coming: seq<string>, caps: Caps)
    requires Room(lines, coming, caps) && coming != []
    ensures Fit(lines + [coming[0]], caps) && Room(lines + [coming[0]], coming[1..], caps)
  {
    WeightFirst(coming);
    assert (lines + [coming[0]])[..|lines|] == lines;
  }

  lemma LoweredFits(w: Walked, coming: seq<string>, caps: Caps, more: seq<string>)
    requires w.lines != []
    ensures Fit(w.lines, Lowered(w, coming, caps))
    ensures Room(w.lines + more, coming, caps) ==> Fit(w.lines + more, Lowered(w, coming, caps))
    ensures Fit(w.lines, caps) && Fit(w.lines + more, Lowered(w, coming, caps)) ==> Fit(w.lines + more, caps)
    ensures Room(w.lines, coming, caps) && Fit(w.lines + more, Lowered(w, coming, caps)) ==> Room(w.lines + more, coming, caps)
  {
    JoinWeighs(w.lines);
  }

  lemma SubtreeGrows(w: Walked, own: seq<string>, nodes: seq<Node>, lim: Limits, caps: Caps, choose: Chooser)
    requires own != [] && w.lines != []
    ensures var after := Subtree(w, own, nodes, lim, caps, choose);
            Grows(w, after, Lowered(w, own[1..], caps)) && (Room(w.lines, own[1..], caps) ==> Room(after.lines, own[1..], caps))
  {
    if nodes != [] && nodes[0].Dir? && 1 < lim.depth {
      WalkGrows(w, nodes[0], 1, lim, Lowered(w, own[1..], caps), choose);
      var after := Subtree(w, own, nodes, lim, caps, choose);
      var more := after.lines[|w.lines|..];
      assert after.lines == w.lines + more;
      LoweredFits(w, own[1..], caps, more);
    }
  }

  /** Each line of `own` with the lines `below` it. */
  function Interleaved(own: seq<string>, below: seq<seq<string>>): seq<string>
    requires |own| == |below|
  {
    if own == [] then [] else [own[0]] + below[0] + Interleaved(own[1..], below[1..])
  }

  /** If the root's own lines fit the caps, all of them are shown, in order, each followed by what is
      shown of its subtree, whatever the subtrees hold. */
  lemma {:induction false} RootShowsItsOwn(w: Walked, own: seq<string>, nodes: seq<Node>, lim: Limits, caps: Caps, choose: Chooser)
    requires Room(w.lines, own, caps)
    ensures var below := BelowOf(w, own, nodes, lim, caps, choose);
            && |below| == |own| && RootOf(w, own, nodes, lim, caps, choose).lines == w.lines + Interleaved(own, below)
    decreases |own|
  {
    if own == [] {
      assert w.lines + Interleaved(own, []) == w.lines;
    } else {
      RoomForFirst(w.lines, own, caps);
      var shown := Appended(w, own[0], caps).0;
      SubtreeGrows(shown, own, nodes, lim, caps, choose);
      var after := Subtree(shown, own, nodes, lim, caps, choose);
      RootShowsItsOwn(after, own[1..], Rest(nodes), lim, caps, choose);
      var first, rest := Beyond(after.lines, |shown.lines|), BelowOf(after, own[1..], Rest(nodes), lim, caps, choose);
      assert after.lines == shown.lines + first;
      Unfolded(w.lines, own, first, rest);
    }
  }

  lemma Unfolded(lines: seq<string>, own: seq<string>, first: seq<string>, rest: seq<seq<string>>)
    requires own != [] && |rest| == |own| - 1
    ensures lines + [own[0]] + first + Interleaved(own[1..], rest) == lines + Interleaved(own, [first] + rest)
  {
    var below := [first] + rest;
    assert below[0] == first && below[1..] == rest;
    var tail := Interleaved(own[1..], rest);
    ConcatAssociates(lines, [own[0]], first + tail);
    ConcatAssociates(lines + [own[0]], first, tail);
    ConcatAssociates([own[0]], first, tail);
  }

  lemma {:induction false} RootGrows(w: Walked, own: seq<string>, nodes: seq<Node>, lim: Limits, caps: Caps, choose: Chooser)
    requires w.truncated
    ensures RootOf(w, own, nodes, lim, caps, choose).truncated
    decreases |own|
  {
    if own != [] && Appended(w, own[0], caps).1 {
      var shown := Appended(w, own[0], caps).0;
      SubtreeGrows(shown, own, nodes, lim, caps, choose);
      RootGrows(Subtree(shown, own, nodes, lim, caps, choose), own[1..], Rest(nodes), lim, caps, choose);
    }
  }

  /** All there is below one line of the root, and below the lines of the root together. */
  function SubtreeCensus(nodes: seq<Node>, lim: Limits, choose: Chooser): Census {
    if nodes != [] && nodes[0].Dir? && 1 < lim.depth then DirCensus(nodes[0], 1, lim, choose) else Census([], 0, 0)
  }

  function RootCensus(own: seq<string>, nodes: seq<Node>, lim: Limits, choose: Chooser): (n: Census)
    ensures |own| <= |n.lines|
    decreases |own|
  {
    if own == [] then Census([], 0, 0)
    else Plus(Plus(OneLine(own[0]), SubtreeCensus(nodes, lim, choose)), RootCensus(own[1..], Rest(nodes), lim, choose))
  }

  lemma {:induction false} RootCensusWeighs(own: seq<string>, nodes: seq<Node>, lim: Limits, choose: Chooser)
    ensures Weight(own) <= Weight(RootCensus(own, nodes, lim, choose).lines)
    decreases |own|
  {
    if own != [] {
      var sub, rest := SubtreeCensus(nodes, lim, choose), RootCensus(own[1..], Rest(nodes), lim, choose);
      RootCensusWeighs(own[1..], Rest(nodes), lim, choose);
      WeightFirst(own);
      WeightConcat([own[0]] + sub.lines, rest.lines);
      WeightConcat([own[0]], sub.lines);
      OneWeighs(own[0]);
    }
  }

  lemma OneWeighs(line: string)
    ensures Weight([line]) == |line| + 1
  {
    var none: seq<string> := [line][..0];
    assert Weight(none) == 0;
  }

  /** The subtree is complete under its lowered caps exactly if it fits with the rest of the root. */
  lemma SubtreeTakes(w: Walked, own: seq<string>, nodes: seq<Node>, lim: Limits, caps: Caps, choose: Chooser)
    requires own != [] && w.lines != [] && Roomy(w, lim, caps)
    ensures var after := Subtree(w, own, nodes, lim, caps, choose);
            Takes(w, SubtreeCensus(nodes, lim, choose), after, lim, Lowered(w, own[1..], caps))
  {
    var low := Lowered(w, own[1..], caps);
    LoweredFits(w, own[1..], caps, []);
    assert w.lines + [] == w.lines;
    if nodes != [] && nodes[0].Dir? && 1 < lim.depth {
      WalkTakes(w, nodes[0], 1, lim, low, choose);
    } else {
      TakesNothing(w, lim, low);
    }
  }

  lemma SubtreeFits(w: Walked, own: seq<string>, sub: Census, rest: Census, lim: Limits, caps: Caps)
    requires own != [] && w.lines != [] && Roomy(w, lim, caps)
    requires |own[1..]| <= |rest.lines| && Weight(own[1..]) <= Weight(rest.lines)
    ensures Fits(w, Plus(sub, rest), lim, caps) ==> Fits(w, sub, lim, Lowered(w, own[1..], caps))
    ensures Fits(w, sub, lim, Lowered(w, own[1..], caps)) ==> Fits(w, sub, lim, caps)
  {
    assert w.lines + [] == w.lines;
    LoweredFits(w, own[1..], caps, sub.lines);
    ConcatAssociates(w.lines, sub.lines, rest.lines);
    WeightConcat(w.lines + sub.lines, rest.lines);
  }

  lemma {:induction false} RootTakes(w: Walked, own: seq<string>, nodes: seq<Node>, lim: Limits, caps: Caps, choose: Chooser)
    requires Roomy(w, lim, caps)
    ensures Takes(w, RootCensus(own, nodes, lim, choose), RootOf(w, own, nodes, lim, caps, choose), lim, caps)
    decreases |own|
  {
    if own == [] {
      TakesNothing(w, lim, caps);
    } else {
      var line, sub := OneLine(own[0]), SubtreeCensus(nodes, lim, choose);
      var rest := RootCensus(own[1..], Rest(nodes), lim, choose);
      var (shown, ok) := Appended(w, own[0], caps);
      TakesLine(w, own[0], lim, caps);
      RootSplits(w, line, sub, rest, lim, caps);
      if ok {
        WithFits(w, line, lim, caps);
        RootGoesOn(shown, own, nodes, lim, caps, choose);
      }
    }
  }

  lemma RootSplits(w: Walked, line: Census, sub: Census, rest: Census, lim: Limits, caps: Caps)
    ensures Fits(w, Plus(Plus(line, sub), rest), lim, caps) <==>
            Fits(w, line, lim, caps) && Fits(With(w, line), Plus(sub, rest), lim, caps)
    ensures With(w, Plus(Plus(line, sub), rest)) == With(With(w, line), Plus(sub, rest))
  {
    FitsPlus(w, Plus(line, sub), rest, lim, caps);
    FitsPlus(w, line, sub, lim, caps);
    FitsPlus(With(w, line), sub, rest, lim, caps);
  }

  /** The rest of the loop at the root, once a line is shown. */
  lemma {:induction false} RootGoesOn(shown: Walked, own: seq<string>, nodes: seq<Node>, lim: Limits, caps: Caps, choose: Chooser)
    requires own != [] && shown.lines != [] && Roomy(shown, lim, caps)
    ensures Takes(shown, Plus(SubtreeCensus(nodes, lim, choose), RootCensus(own[1..], Rest(nodes), lim, choose)),
                  RootOf(Subtree(shown, own, nodes, lim, caps, choose), own[1..], Rest(nodes), lim, caps, choose), lim, caps)
    decreases |own|, 0
  {
    var sub, rest := SubtreeCensus(nodes, lim, choose), RootCensus(own[1..], Rest(nodes), lim, choose);
    var after := Subtree(shown, own, nodes, lim, caps, choose);
    var end := RootOf(after, own[1..], Rest(nodes), lim, caps, choose);
    SubtreeTakes(shown, own, nodes, lim, caps, choose);
    RootCensusWeighs(own[1..], Rest(nodes), lim, choose);
    SubtreeFits(shown, own, sub, rest, lim, caps);
    FitsPlus(shown, sub, rest, lim, caps);
    if Fits(shown, sub, lim, Lowered(shown, own[1..], caps)) {
      WithFits(shown, sub, lim, caps);
      RootTakes(after, own[1..], Rest(nodes), lim, caps, choose);
    } else {
      RootGrows(after, own[1..], Rest(nodes), lim, caps, choose);
    }
  }

  lemma {:induction false} RootCensusIsEntries(c: Choice, lim: Limits, choose: Chooser)
    requires lim.depth > 0
    ensures RootCensus(OwnLines(c, 0), c.candidates, lim, choose) == EntriesCensus(c, 0, lim, choose)
    decreases |c.candidates|
  {
    var own := OwnLines(c, 0);
    if c.candidates == [] {
      if c.omission.Some? {
        assert own == [c.omission.value] && own[1..] == [];
        var none := Census([], 0, 0);
        assert RootCensus(own[1..], [], lim, choose) == none;
        assert Plus(Plus(OneLine(own[0]), none), none) == OneLine(own[0]);
      } else {
        assert own == [];
      }
    } else {
      var more := c.(candidates := c.candidates[1..]);
      assert own[1..] == OwnLines(more, 0) && own[0] == EntryLine(c.candidates[0], 0);
      RootCensusIsEntries(more, lim, choose);
    }
  }

  /** All there is to show of a repository within the depth, with what it takes to walk it. */
  function Whole(entries: seq<Node>, lim: Limits, choose: Chooser): Census
    requires lim.depth > 0
  {
    DirCensus(Dir("", Some(entries)), 0, lim, choose)
  }

  /** The walk is not truncated exactly when the whole of the tree stays within every limit, and then
      shows all of it. */
  lemma NotTruncatedIff(entries: seq<Node>, lim: Limits, caps: Caps, choose: Chooser)
    requires lim.depth > 0 && lim.dirs > 0 && lim.scanned > 0
    ensures var n, w := Whole(entries, lim, choose), MapOf(entries, lim, caps, choose);
            && (!w.truncated <==> n.dirs <= lim.dirs && n.entries < lim.scanned
                                  && |n.lines| <= caps.entries && |Join(n.lines)| <= caps.chars)
            && (!w.truncated ==> w.lines == n.lines)
  {
    var n := Whole(entries, lim, choose);
    var (w, c) := Scanned(Start.(dirs := 1), entries, 0, lim, choose);
    var own, end := OwnLines(c, 0), MapOf(entries, lim, caps, choose);
    assert Roomy(Start, lim, caps);
    ScanTakes(Start, entries, 0, lim, caps, choose);
    if w.truncated {
      RootGrows(w, own, c.candidates, lim, caps, choose);
    } else {
      RootTakes(w, own, c.candidates, lim, caps, choose);
    }
    RootCensusIsEntries(choose(entries, 0, true), lim, choose);
    TakesBoth(Start, Census([], |entries|, 1), w, EntriesCensus(choose(entries, 0, true), 0, lim, choose), end, lim, caps);
    assert Start.lines + n.lines == n.lines;
    FitIsJoined(n.lines, caps);
  }

  // ---------------------------------------------------------------- the walk's own state

  class WalkBudget {
    const lim: Limits
    var maxEntries: nat
    var maxChars: nat
    var lines: seq<string>
    var shownEntries: nat
    var scannedEntries: nat
    var scannedDirs: nat
    var bodyChars: nat
    var truncated: bool

    ghost predicate Valid()
      reads this
    {
      shownEntries == |lines| && bodyChars == |Join(lines)|
    }

    ghost function State(): Walked
      reads this
    {
      Walked(lines, scannedEntries, scannedDirs, truncated)
    }

    ghost function Limit(): Caps
      reads this
    {
      Caps(maxEntries, maxChars)
    }

    constructor (lim: Limits, caps: Caps)
      ensures Valid() && State() == Start && Limit() == caps && this.lim == lim
    {
      this.lim := lim;
      maxEntries, maxChars := caps.entries, caps.chars;
      lines, shownEntries, scannedEntries, scannedDirs, bodyChars, truncated := [], 0, 0, 0, 0, false;
    }

    /** `_WalkBudget.append` */
    method Append(line: string) returns (ok: bool)
      requires Valid()
      modifies this`lines, this`shownEntries, this`bodyChars, this`truncated
      ensures Valid() && (State(), ok) == Appended(old(State()), line, Limit())
    {
      JoinAdds(lines, line);
      FitIsJoined(lines + [line], Limit());
      var separator := if lines != [] then 1 else 0;
      if shownEntries >= maxEntries || bodyChars + separator + |line| > maxChars {
        truncated := true;
        return false;
      }
      lines := lines + [line];
      shownEntries := shownEntries + 1;
      bodyChars := bodyChars + separator + |line|;
      ok := true;
    }

    /** The scan of one directory, within what is left of the entries to scan. */
    method Scan(entries: seq<Node>, depth: nat, choose: Chooser) returns (c: Choice)
      modifies this`scannedEntries, this`truncated
      ensures (State(), c) == Scanned(old(State()), entries, depth, lim, choose)
    {
      var n, i := scannedEntries, 0;
      while i < |entries| && scannedEntries < lim.scanned
        invariant 0 <= i <= |entries| && scannedEntries == n + i
        invariant (i == 0 || n + i <= lim.scanned) && truncated == old(truncated)
      {
        scannedEntries := scannedEntries + 1;
        i := i + 1;
      }
      var completed := scannedEntries < lim.scanned;
      if !completed { truncated := true; }
      c := choose(entries[..i], depth, completed);
    }

    /** `_walk` below the root */
    method Walk(dir: Node, depth: nat, choose: Chooser)
      requires Valid() && dir.Dir? && 0 < depth < lim.depth
      modifies this
      ensures Valid() && Limit() == old(Limit())
      ensures State() == WalkOf(old(State()), dir, depth, lim, old(Limit()), choose)
      decreases lim.depth - depth, 1
    {
      if truncated { return; }
      if scannedDirs >= lim.dirs {
        truncated := true;
        return;
      }
      scannedDirs := scannedDirs + 1;
      if dir.listing.None? { return; }
      var c := Scan(dir.listing.value, depth, choose);
      ShowEntries(c, depth, choose);
    }

    method ShowEntries(c: Choice, depth: nat, choose: Chooser)
      requires Valid() && 0 < depth < lim.depth
      modifies this
      ensures Valid() && Limit() == old(Limit())
      ensures State() == EntriesOf(old(State()), c, depth, lim, old(Limit()), choose)
      decreases lim.depth - depth, 0
    {
      var i := 0;
      assert c.(candidates := c.candidates[0..]) == c;
      while i < |c.candidates|
        invariant 0 <= i <= |c.candidates| && Valid() && Limit() == old(Limit())
        invariant EntriesOf(State(), c.(candidates := c.candidates[i..]), depth, lim, Limit(), choose)
                  == EntriesOf(old(State()), c, depth, lim, old(Limit()), choose)
      {
        assert c.candidates[i..][1..] == c.candidates[i + 1..];
        var ok := Append(EntryLine(c.candidates[i], depth));
        if !ok { return; }
        if c.candidates[i].Dir? && depth + 1 < lim.depth {
          Walk(c.candidates[i], depth + 1, choose);
        }
        i := i + 1;
      }
      if c.omission.Some? {
        var _ := Append(c.omission.value);
      }
    }

    /** The walk of a subtree with its limits lowered for the `reserved` lines still to come. */
    method WalkReserved(dir: Node, reserved: seq<string>, choose: Chooser)
      requires Valid() && dir.Dir? && 1 < lim.depth
      modifies this
      ensures Valid() && Limit() == old(Limit())
      ensures State() == WalkOf(old(State()), dir, 1, lim, Lowered(old(State()), reserved, old(Limit())), choose)
    {
      var priorMaxEntries, priorMaxChars := maxEntries, maxChars;
      maxEntries := Max(shownEntries, priorMaxEntries - |reserved|);
      maxChars := Max(bodyChars, priorMaxChars - Weight(reserved));
      Walk(dir, 1, choose);
      maxEntries, maxChars := priorMaxEntries, priorMaxChars;
    }

    /** One turn of the loop at the root: a line, and the subtree below it if there is one. */
    method ShowOwn(own: seq<string>, nodes: seq<Node>, choose: Chooser) returns (ok: bool)
      requires Valid() && own != []
      modifies this
      ensures Valid() && Limit() == old(Limit())
      ensures var (shown, taken) := Appended(old(State()), own[0], old(Limit()));
              ok == taken && State() == if ok then Subtree(shown, own, nodes, lim, old(Limit()), choose) else shown
    {
      ok := Append(own[0]);
      if ok && nodes != [] && nodes[0].Dir? && 1 < lim.depth {
        WalkReserved(nodes[0], own[1..], choose);
      }
    }

    /** `_walk`'s loop at the root */
    method ShowRoot(c: Choice, choose: Chooser)
      requires Valid()
      modifies this
      ensures Valid() && State() == ChosenOf(old(State()), c, lim, old(Limit()), choose)
    {
      var own, nodes, i := OwnLines(c, 0), c.candidates, 0;
      assert own[0..] == own && Tail(nodes, 0) == nodes;
      while i < |own|
        invariant 0 <= i <= |own| && Valid() && Limit() == old(Limit())
        invariant RootOf(State(), own[i..], Tail(nodes, i), lim, Limit(), choose)
                  == RootOf(old(State()), own, nodes, lim, old(Limit()), choose)
      {
        assert own[i..][1..] == own[i + 1..] && Rest(Tail(nodes, i)) == Tail(nodes, i + 1);
        var ok := ShowOwn(own[i..], Tail(nodes, i), choose);
        if !ok { return; }
        i := i + 1;
      }
      assert own[i..] == [];
    }

    /** `_walk` at the root of a fresh budget */
    method WalkRoot(entries: seq<Node>, choose: Chooser)
      requires Valid() && State() == Start && lim.dirs >= 1
      modifies this
      ensures Valid() && State() == MapOf(entries, lim, old(Limit()), choose)
    {
      scannedDirs := scannedDirs + 1;
      assert State() == Start.(dirs := 1);
      var c := Scan(entries, 0, choose);
      ShowRoot(c, choose);
    }
  }

  function Tail<T>(s: seq<T>, n: nat): seq<T> {
    if n <= |s| then s[n..] else []
  }

  // ---------------------------------------------------------------- the bounded renderer

  function Marker(omitted: nat): string {
    "... (" + Decimal(omitted) + " entries omitted; repository map truncated)"
  }

  /** The first `k` lines and how many that omits. */
  function Cut(lines: seq<string>, k: nat): string
    requires k <= |lines|
  {
    Join(lines[..k] + [Marker(|lines| - k)])
  }

  lemma CutLength(lines: seq<string>, k: nat)
    requires k <= |lines|
    ensures |Cut(lines, k)| == Weight(lines[..k]) + |Marker(|lines| - k)|
  {
    var all := lines[..k] + [Marker(|lines| - k)];
    JoinWeighs(all);
    assert all[..k] == lines[..k];
  }

  /** Showing one line more never makes the rendering shorter. */
  lemma CutGrows(lines: seq<string>, k: nat)
    requires k + 1 <= |lines|
    ensures |Cut(lines, k)| <= |Cut(lines, k + 1)|
  {
    CutLength(lines, k);
    CutLength(lines, k + 1);
    assert lines[..k + 1][..k] == lines[..k];
    DecimalLengths(|lines| - k - 1);
  }

  lemma {:induction false} CutMonotone(lines: seq<string>, j: nat, k: nat)
    requires j <= k <= |lines|
    ensures |Cut(lines, j)| <= |Cut(lines, k)|
    decreases k
  {
    if j < k {
      CutMonotone(lines, j, k - 1);
      CutGrows(lines, k - 1);
    }
  }

  /** What is rendered within `max`: everything if it fits, else the longest prefix of lines that
      fits together with the number of lines it omits, else nothing. */
  ghost predicate Rendered(lines: seq<string>, max: nat, r: string) {
    && |r| <= max
    && (|Join(lines)| <= max ==> r == Join(lines))
    && (|Join(lines)| > max && |Marker(|lines|)| > max ==> r == "")
    && (|Join(lines)| > max && |Marker(|lines|)| <= max ==>
          exists k :: 0 <= k < |lines| && r == Cut(lines, k) && forall j :: k < j < |lines| ==> |Cut(lines, j)| > max)
  }

  /** The line loop of the renderer: how many lines fit together with their marker. */
  method Select(lines: seq<string>, max: nat) returns (k: nat)
    requires |Join(lines)| > max
    ensures k < |lines| && (k > 0 ==> |Cut(lines, k)| <= max)
    ensures k + 1 < |lines| ==> |Cut(lines, k + 1)| > max
  {
    var selected: seq<string> := [];
    k := 0;
    while k < |lines|
      invariant k <= |lines| && selected == lines[..k]
      invariant k == |lines| ==> |Join(lines)| <= max
      invariant 0 < k < |lines| ==> |Cut(lines, k)| <= max
    {
      assert lines[..k + 1] == lines[..k] + [lines[k]];
      var omitted := |lines| - k - 1;
      var suffix := if omitted > 0 then [Marker(omitted)] else [];
      var candidate := selected + [lines[k]] + suffix;
      assert omitted == 0 ==> candidate == lines;
      if |Join(candidate)| > max { return; }
      selected := selected + [lines[k]];
      k := k + 1;
    }
  }

  /** `_render_bounded_lines` */
  method RenderBoundedLines(lines: seq<string>, maxChars: int) returns (r: Result<string>)
    ensures maxChars <= 0 <==> r.Err?
    ensures r.Ok? ==> Rendered(lines, maxChars, r.value)
  {
    if maxChars <= 0 { return Err; }
    var body := Join(lines);
    if |body| <= maxChars { return Ok(body); }
    var k := Select(lines, maxChars);
    while k > 0 && |Cut(lines, k)| > maxChars
      invariant 0 <= k < |lines| && (k + 1 < |lines| ==> |Cut(lines, k + 1)| > maxChars)
    {
      k := k - 1;
    }
    assert lines[..0] + [Marker(|lines|)] == [Marker(|lines|)];
    CutMonotone(lines, 0, k);
    if |Marker(|lines| - k)| > maxChars {
      CutLength(lines, k);
      return Ok("");
    }
    NoLongerCut(lines, k, maxChars);
    return Ok(Cut(lines, k));
  }

  lemma NoLongerCut(lines: seq<string>, k: nat, max: nat)
    requires k < |lines| && (k + 1 < |lines| ==> |Cut(lines, k + 1)| > max)
    ensures forall j :: k < j < |lines| ==> |Cut(lines, j)| > max
  {
    forall j | k < j < |lines| ensures |Cut(lines, j)| > max { CutMonotone(lines, k + 1, j); }
  }

  /** The longest cut of at most `k` lines that fits, or -1. */
  function Longest(lines: seq<string>, max: nat, k: nat): (j: int)
    requires k <= |lines|
    ensures -1 <= j <= k
  {
    if |Cut(lines, k)| <= max then k else if k == 0 then -1 else Longest(lines, max, k - 1)
  }

  /** How many of the lines the renderer shows; -1 when it shows nothing at all. */
  function KeptLines(lines: seq<string>, max: nat): (k: int)
    ensures -1 <= k <= |lines|
  {
    if |Join(lines)| <= max || lines == [] then |lines| else Longest(lines, max, |lines| - 1)
  }

  function RenderedText(lines: seq<string>, max: nat): string {
    var k := KeptLines(lines, max);
    if k == |lines| then Join(lines) else if k < 0 then "" else Cut(lines, k)
  }

  lemma {:induction false} LongestFits(lines: seq<string>, max: nat, k: nat, p: nat)
    requires p <= k <= |lines|
    ensures var j := Longest(lines, max, k);
            && (j >= 0 ==> |Cut(lines, j)| <= max) && (forall i :: j < i <= k ==> |Cut(lines, i)| > max)
            && (j >= p <==> |Cut(lines, p)| <= max)
  {
    if |Cut(lines, k)| <= max {
      CutMonotone(lines, p, k);
    } else if k > 0 {
      LongestFits(lines, max, k - 1, if p == k then 0 else p);
    }
  }

  /** The renderer shows the first `p` lines exactly when everything fits or they do with their remark. */
  lemma KeepsIff(lines: seq<string>, max: nat, p: nat)
    requires p < |lines|
    ensures KeptLines(lines, max) >= p <==> |Join(lines)| <= max || |Cut(lines, p)| <= max
  {
    LongestFits(lines, max, |lines| - 1, p);
  }

  lemma LongestIsUnique(lines: seq<string>, max: nat, k: nat)
    requires k < |lines| && |Cut(lines, k)| <= max && forall j :: k < j < |lines| ==> |Cut(lines, j)| > max
    ensures Longest(lines, max, |lines| - 1) == k
  {
    LongestFits(lines, max, |lines| - 1, k);
  }

  lemma NothingFits(lines: seq<string>, max: nat)
    requires lines != [] && |Marker(|lines|)| > max
    ensures Longest(lines, max, |lines| - 1) == -1
  {
    LongestFits(lines, max, |lines| - 1, 0);
    assert lines[..0] + [Marker(|lines|)] == [Marker(|lines|)];
  }

  /** What the renderer's contract describes is one text. */
  lemma RenderedIsOneText(lines: seq<string>, max: nat, r: string)
    requires Rendered(lines, max, r)
    ensures r == RenderedText(lines, max)
  {
    if |Join(lines)| > max {
      if |Marker(|lines|)| <= max {
        var k :| 0 <= k < |lines| && r == Cut(lines, k) && forall j :: k < j < |lines| ==> |Cut(lines, j)| > max;
        LongestIsUnique(lines, max, k);
      } else {
        NothingFits(lines, max);
      }
    }
  }

  // ---------------------------------------------------------------- the whole map

  const Header := "## Repository layout\n\n"
  const TruncatedMarker := "... (repository map truncated; traversal budget reached)"

  function MapLines(w: Walked): seq<string> {
    w.lines + if w.truncated then [TruncatedMarker] else []
  }

  /** What the reader gets of a walk. */
  function MapText(w: Walked, max: nat): string {
    if w.lines == [] && !w.truncated then "" else Header + RenderedText(MapLines(w), max)
  }

  /** `build_repo_map` of a directory that can be scanned */
  method BuildRepoMap(entries: seq<Node>, choose: Chooser, maxDepth: int, maxChars: int, maxEntries: int, maxDirs: int, maxScanned: int)
    returns (r: Result<string>)
    ensures r.Err? <==> maxDepth < 1 || maxChars < 1 || maxEntries < 1 || maxDirs < 1 || maxScanned < 1
    ensures r.Ok? ==>
              r.value == MapText(MapOf(entries, Limits(maxDepth, maxDirs, maxScanned), Caps(maxEntries, maxChars), choose), maxChars)
  {
    if maxDepth < 1 || maxChars < 1 || maxEntries < 1 || maxDirs < 1 || maxScanned < 1 { return Err; }
    var budget := new WalkBudget(Limits(maxDepth, maxDirs, maxScanned), Caps(maxEntries, maxChars));
    budget.WalkRoot(entries, choose);
    if budget.lines == [] && !budget.truncated { return Ok(""); }
    var rendered := budget.lines + if budget.truncated then [TruncatedMarker] else [];
    var body := RenderBoundedLines(rendered, maxChars);
    RenderedIsOneText(rendered, maxChars, body.value);
    r := Ok(Header + body.value);
  }

  // ---------------------------------------------------------------- what of the root reaches the reader

  /** The root's own lines, and what the walk shows below each. */
  function RootLines(entries: seq<Node>, lim: Limits, choose: Chooser): seq<string> {
    OwnLines(RootChoice(entries, lim, choose), 0)
  }

  function RootBelow(entries: seq<Node>, lim: Limits, caps: Caps, choose: Chooser): seq<seq<string>> {
    var (w, c) := Scanned(Start.(dirs := 1), entries, 0, lim, choose);
    BelowOf(w, OwnLines(c, 0), c.candidates, lim, caps, choose)
  }

  /** Where the last of the root's own lines ends among all that are shown. */
  function OwnEnd(own: seq<string>, below: seq<seq<string>>): nat
    requires |own| == |below| && own != []
  {
    |Interleaved(own[..|own| - 1], below[..|own| - 1])| + 1
  }

  lemma {:induction false} InterleavedLast(own: seq<string>, below: seq<seq<string>>)
    requires |own| == |below| && own != []
    ensures var l := |own| - 1;
            && Interleaved(own, below) == Interleaved(own[..l], below[..l]) + [own[l]] + below[l]
            && OwnEnd(own, below) <= |Interleaved(own, below)|
            && Interleaved(own, below)[..OwnEnd(own, below)] == Interleaved(own[..l], below[..l]) + [own[l]]
  {
    var l := |own| - 1;
    if l == 0 {
      assert own[1..] == [] && below[1..] == [] && own[..0] == [] && below[..0] == [];
      assert Interleaved(own, below) == [own[0]] + below[0] + [];
    } else {
      InterleavedLast(own[1..], below[1..]);
      var o, b := own[..l], below[..l];
      assert own[1..][..l - 1] == o[1..] && below[1..][..l - 1] == b[1..];
      assert own[1..][l - 1] == own[l] && below[1..][l - 1] == below[l];
      var mid := Interleaved(o[1..], b[1..]);
      assert Interleaved(o, b) == [own[0]] + below[0] + mid;
      assert [own[0]] + below[0] + (mid + [own[l]] + below[l]) == ([own[0]] + below[0] + mid) + [own[l]] + below[l];
    }
  }

  /** Root lines that fit the limits alone are all collected. */
  lemma RootLinesAreCollected(entries: seq<Node>, lim: Limits, caps: Caps, choose: Chooser)
    requires lim.depth > 0 && lim.dirs > 0 && lim.scanned > 0
    requires var own := RootLines(entries, lim, choose); own != [] && |own| <= caps.entries && |Join(own)| <= caps.chars
    ensures var own, below := RootLines(entries, lim, choose), RootBelow(entries, lim, caps, choose);
            && |below| == |own| && MapOf(entries, lim, caps, choose).lines == Interleaved(own, below)
            && OwnEnd(own, below) <= |Interleaved(own, below)|
  {
    var own, below := RootLines(entries, lim, choose), RootBelow(entries, lim, caps, choose);
    var (first, c) := Scanned(Start.(dirs := 1), entries, 0, lim, choose);
    FitIsJoined(own, caps);
    assert c == RootChoice(entries, lim, choose) && Weight(first.lines) == 0;
    RootShowsItsOwn(first, own, c.candidates, lim, caps, choose);
    assert first.lines + Interleaved(own, below) == Interleaved(own, below);
    InterleavedLast(own, below);
  }

  lemma LinesReachTheReaderIff(w: Walked, max: nat, end: nat)
    requires 0 < end <= |w.lines| && (!w.truncated ==> |Join(w.lines)| <= max)
    ensures MapText(w, max) == Header + RenderedText(MapLines(w), max)
    ensures KeptLines(MapLines(w), max) >= end <==>
            !w.truncated || |Join(MapLines(w))| <= max || |Cut(MapLines(w), end)| <= max
  {
    if w.truncated {
      KeepsIff(MapLines(w), max, end);
    } else {
      assert MapLines(w) == w.lines;
    }
  }

  /** Root lines that fit the limits alone all reach the reader exactly when the walk was not
      truncated, or there is room for everything and the remark on truncation, or for what is shown
      up to the last of them and the number of lines left out. */
  lemma RootLinesReachTheReaderIff(entries: seq<Node>, lim: Limits, caps: Caps, choose: Chooser)
    requires lim.depth > 0 && lim.dirs > 0 && lim.scanned > 0
    requires var own := RootLines(entries, lim, choose); own != [] && |own| <= caps.entries && |Join(own)| <= caps.chars
    ensures var own, below := RootLines(entries, lim, choose), RootBelow(entries, lim, caps, choose);
            var w := MapOf(entries, lim, caps, choose);
            && |below| == |own| && w.lines == Interleaved(own, below) && OwnEnd(own, below) <= |w.lines|
            && MapText(w, caps.chars) == Header + RenderedText(MapLines(w), caps.chars)
            && (KeptLines(MapLines(w), caps.chars) >= OwnEnd(own, below) <==>
                  || !w.truncated || |Join(MapLines(w))| <= caps.chars
                  || |Cut(MapLines(w), OwnEnd(own, below))| <= caps.chars)
  {
    RootLinesAreCollected(entries, lim, caps, choose);
    NotTruncatedIff(entries, lim, caps, choose);
    LinesReachTheReaderIff(MapOf(entries, lim, caps, choose), caps.chars,
                           OwnEnd(RootLines(entries, lim, choose), RootBelow(entries, lim, caps, choose)));
  }

  /** A repository within every limit is shown whole. */
  lemma WholeMapReachesTheReader(entries: seq<Node>, lim: Limits, caps: Caps, choose: Chooser)
    requires lim.depth > 0 && lim.dirs > 0 && lim.scanned > 0
    requires var n := Whole(entries, lim, choose);
             n.dirs <= lim.dirs && n.entries < lim.scanned && 0 < |n.lines| <= caps.entries && |Join(n.lines)| <= caps.chars
    ensures MapText(MapOf(entries, lim, caps, choose), caps.chars) == Header + Join(Whole(entries, lim, choose).lines)
  {
    NotTruncatedIff(entries, lim, caps, choose);
    var w := MapOf(entries, lim, caps, choose);
    assert MapLines(w) == w.lines;
  }

  // ---------------------------------------------------------------- root lines that are dropped

  const TakeAll: Chooser := (entries, depth, completed) => Choice(entries, None)

  /** With room for three characters, the one line of the root fits and what is below it does not. */
  lemma TightWalk()
    ensures var entries := [Dir("a", Some([File("x")]))];
            && RootLines(entries, Limits(2, 10, 10), TakeAll) == ["a/"]
            && MapOf(entries, Limits(2, 10, 10), Caps(10, 3), TakeAll) == Walked(["a/"], 2, 2, true)
  {
    var x, a := File("x"), Dir("a", Some([File("x")]));
    var lim, caps := Limits(2, 10, 10), Caps(10, 3);
    var entries := [a];
    assert entries[..1] == entries;
    assert EntryLine(a, 0) == "a/" && EntryLines([a], 0) == ["a/"];
    var c := Choice([a], None);
    assert OwnLines(c, 0) == ["a/"];
    assert Scanned(Start.(dirs := 1), entries, 0, lim, TakeAll) == (Walked([], 1, 1, false), c);
    OneWeighs("a/");
    assert Start.lines + ["a/"] == ["a/"];
    var shown := Walked(["a/"], 1, 1, false);
    assert Appended(Walked([], 1, 1, false), "a/", caps) == (shown, true);
    TightSubtree(shown);
    assert ["a/"][1..] == [];
    var none: seq<string> := [];
    assert Lowered(shown, none, caps) == Caps(10, 3);
    assert RootOf(Walked(["a/"], 2, 2, true), none, [], lim, caps, TakeAll) == Walked(["a/"], 2, 2, true);
  }

  lemma TightSubtree(shown: Walked)
    requires shown == Walked(["a/"], 1, 1, false)
    ensures WalkOf(shown, Dir("a", Some([File("x")])), 1, Limits(2, 10, 10), Caps(10, 3), TakeAll) == Walked(["a/"], 2, 2, true)
  {
    var lim, entries := Limits(2, 10, 10), [File("x")];
    assert entries[..1] == entries;
    var scanned := Walked(["a/"], 2, 2, false);
    assert Scanned(Walked(["a/"], 1, 2, false), entries, 1, lim, TakeAll) == (scanned, Choice(entries, None));
    assert Indent(1) == "  " && EntryLine(File("x"), 1) == "  x";
    WeightConcat(["a/"], ["  x"]);
    OneWeighs("a/");
    OneWeighs("  x");
    assert !Appended(scanned, "  x", Caps(10, 3)).1;
  }

  lemma RemarksAreLong()
    ensures |TruncatedMarker| > 3 && |Marker(2)| > 3
  {
  }

  lemma TightRender(all: seq<string>, remark: string)
    requires all == ["a/", remark] && |remark| > 3
    ensures RenderedText(all, 3) == ""
  {
    JoinAdds(["a/"], remark);
    assert ["a/"] + [remark] == all;
    RemarksAreLong();
    NothingFits(all, 3);
  }

  /** So root lines that fit the limits by themselves may all be dropped: of this repository the
      reader gets the heading alone. */
  lemma RootLinesMayBeDropped()
    ensures var entries := [Dir("a", Some([File("x")]))];
            && |Join(RootLines(entries, Limits(2, 10, 10), TakeAll))| <= 3
            && MapText(MapOf(entries, Limits(2, 10, 10), Caps(10, 3), TakeAll), 3) == Header
  {
    TightWalk();
    RemarksAreLong();
    var w := Walked(["a/"], 2, 2, true);
    assert MapLines(w) == ["a/", TruncatedMarker];
    TightRender(MapLines(w), TruncatedMarker);
    assert MapText(w, 3) == Header + "";
  }
}
