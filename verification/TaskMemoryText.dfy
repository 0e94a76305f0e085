/** Rendering task memory within a character budget (demo/task_memory.py, render): section by section in
    rounds, whole lines only. */
module TaskMemoryText {

  /** One section: its title, its lines in order of preference, and for the lines looked at so far
      whether they were taken. */
  datatype ShelfData = Shelf(title: string, lines: seq<string>, taken: seq<bool>)
  type Shelf = s: ShelfData | |s.taken| <= |s.lines| witness Shelf("", [], [])

  function Picked(lines: seq<string>, taken: seq<bool>): seq<string>
    requires |taken| <= |lines|
  {
    if taken == [] then []
    else
      var n := |taken| - 1;
      Picked(lines, taken[..n]) + if taken[n] then [lines[n]] else []
  }

  function Size(lines: seq<string>): nat {
    if lines == [] then 0 else Size(lines[..|lines| - 1]) + |lines[|lines| - 1]| + 1
  }

  /** The output lines of one section: nothing, or the title line and the chosen ones. */
  function ShelfLines(s: Shelf): seq<string>
  {
    var chosen := Picked(s.lines, s.taken);
    if chosen == [] then [] else [s.title + "："] + chosen
  }

  function AllLines(shelves: seq<Shelf>): seq<string>
  {
    if shelves == [] then [] else AllLines(shelves[..|shelves| - 1]) + ShelfLines(shelves[|shelves| - 1])
  }

  function Sum(xs: seq<nat>): nat {
    if xs == [] then 0 else Sum(xs[..|xs| - 1]) + xs[|xs| - 1]
  }

  function ShelfSize(s: Shelf): nat {
    Size(ShelfLines(s))
  }

  function Sizes(shelves: seq<Shelf>): (r: seq<nat>)
    ensures |r| == |shelves| && forall k :: 0 <= k < |r| ==> r[k] == ShelfSize(shelves[k])
  {
    seq(|shelves|, k requires 0 <= k < |shelves| => ShelfSize(shelves[k]))
  }

  /** The size of all sections together. */
  function AllSize(shelves: seq<Shelf>): nat {
    Sum(Sizes(shelves))
  }

  lemma {:induction false} AllSizeIs(shelves: seq<Shelf>)
    ensures AllSize(shelves) == Size(AllLines(shelves))
    decreases |shelves|
  {
    if shelves != [] {
      var n := |shelves| - 1;
      AllSizeIs(shelves[..n]);
      SizeAppend(AllLines(shelves[..n]), ShelfLines(shelves[n]));
      assert Sizes(shelves)[..n] == Sizes(shelves[..n]);
    }
  }

  lemma {:induction false} SumUpdate(xs: seq<nat>, k: nat, x: nat)
    requires k < |xs|
    ensures Sum(xs[k := x]) == Sum(xs) - xs[k] + x
    decreases |xs|
  {
    var n := |xs| - 1;
    if k < n {
      assert xs[k := x][..n] == xs[..n][k := x];
      SumUpdate(xs[..n], k, x);
    } else {
      assert xs[k := x][..n] == xs[..n];
    }
  }

  /** Sums of entries that are nowhere larger, and smaller by `extra` at k. */
  lemma {:induction false} SumBelow(xs: seq<nat>, ys: seq<nat>, k: nat, extra: nat)
    requires |xs| == |ys| && forall j :: 0 <= j < |xs| ==> xs[j] <= ys[j]
    requires k < |xs| ==> xs[k] + extra <= ys[k]
    ensures Sum(xs) + (if k < |xs| then extra else 0) <= Sum(ys)
    decreases |xs|
  {
    if xs != [] {
      SumBelow(xs[..|xs| - 1], ys[..|ys| - 1], k, extra);
    }
  }

  /** The lines after the notice, each on its own line. */
  function Breaks(notice: string, lines: seq<string>): string {
    if lines == [] then notice else Breaks(notice, lines[..|lines| - 1]) + "\n" + lines[|lines| - 1]
  }

  lemma {:induction false} BreaksLength(notice: string, lines: seq<string>)
    ensures |Breaks(notice, lines)| == |notice| + Size(lines)
    decreases |lines|
  {
    if lines != [] {
      BreaksLength(notice, lines[..|lines| - 1]);
    }
  }

  lemma {:induction false} SizeAppend(a: seq<string>, b: seq<string>)
    ensures Size(a + b) == Size(a) + Size(b)
    decreases |b|
  {
    if b == [] {
      assert a + b == a;
    } else {
      SizeAppend(a, b[..|b| - 1]);
      assert (a + b)[..|a + b| - 1] == a + b[..|b| - 1];
    }
  }

  /** What a line adds: itself and a line break, and with a section's first line its title line. */
  function Extra(s: Shelf, line: string): nat
  {
    |line| + 1 + if Picked(s.lines, s.taken) == [] then |s.title| + 2 else 0
  }

  /** Line i was looked at and left: it does not fit beside what has been chosen. */
  predicate LeftBecauseFull(s: Shelf, i: nat, used: nat, maxChars: int) {
    i < |s.taken| && !s.taken[i] ==> used + Extra(s, s.lines[i]) > maxChars
  }

  ghost predicate NoneLeftInVain(s: Shelf, used: nat, maxChars: int) {
    forall i: nat :: LeftBecauseFull(s, i, used, maxChars)
  }

  lemma {:induction false} Later(s: Shelf, used: nat, more: nat, maxChars: int)
    requires NoneLeftInVain(s, used, maxChars) && used <= more
    ensures NoneLeftInVain(s, more, maxChars)
  {
    forall i: nat ensures LeftBecauseFull(s, i, more, maxChars) {
      assert LeftBecauseFull(s, i, used, maxChars);
    }
  }

  lemma {:induction false} ShelfTakes(s: Shelf, b: bool)
    requires |s.taken| < |s.lines|
    ensures var t := s.(taken := s.taken + [b]);
            Size(ShelfLines(t)) == Size(ShelfLines(s)) + if b then Extra(s, s.lines[|s.taken|]) else 0
  {
    var t, chosen := s.(taken := s.taken + [b]), Picked(s.lines, s.taken);
    var line := s.lines[|s.taken|];
    assert t.taken[..|s.taken|] == s.taken;
    SizeAppend(chosen, [line]);
    SizeAppend([s.title + "："], chosen);
    SizeAppend([s.title + "："], chosen + [line]);
    assert Size([line]) == |line| + 1 && Size([s.title + "："]) == |s.title| + 2;
    assert chosen + [] == chosen;
  }

  /** The next line of a section is taken if it fits, and left for good if not. */
  method Offer(s: Shelf, used: nat, maxChars: int) returns (t: Shelf, now: nat)
    requires |s.taken| < |s.lines| && used <= maxChars && NoneLeftInVain(s, used, maxChars)
    ensures t.title == s.title && t.lines == s.lines && |t.taken| == |s.taken| + 1 && s.taken == t.taken[..|s.taken|]
    ensures used <= now <= maxChars && now - used == ShelfSize(t) - ShelfSize(s)
    ensures NoneLeftInVain(t, now, maxChars)
  {
    var line := s.lines[|s.taken|];
    var extra := Extra(s, line);
    var fits := used + extra <= maxChars;
    ShelfTakes(s, fits);
    t, now := s.(taken := s.taken + [fits]), if fits then used + extra else used;
    forall i: nat ensures LeftBecauseFull(t, i, now, maxChars) {
      assert LeftBecauseFull(s, i, used, maxChars);
      assert t.taken[..|s.taken|] == s.taken;
    }
  }

  // ---------------------------------------------------------------- rounds

  /** Before round r a section has had its first r lines looked at. */
  predicate EvenAt(shelves: seq<Shelf>, k: nat, r: nat) {
    k < |shelves| ==> |shelves[k].taken| == if r <= |shelves[k].lines| then r else |shelves[k].lines|
  }

  /** Within round r, when the sections before k have had their turn. */
  predicate MidAt(shelves: seq<Shelf>, j: nat, r: nat, k: nat) {
    EvenAt(shelves, j, if j < k then r + 1 else r)
  }

  predicate SameAt(a: seq<Shelf>, b: seq<Shelf>, k: nat) {
    k < |a| && k < |b| ==> a[k].title == b[k].title && a[k].lines == b[k].lines
  }

  ghost predicate FullAt(shelves: seq<Shelf>, k: nat, used: nat, maxChars: int) {
    k < |shelves| ==> NoneLeftInVain(shelves[k], used, maxChars)
  }

  /** The state between rounds. */
  ghost predicate Between(first: seq<Shelf>, shelves: seq<Shelf>, r: nat, used: nat, maxChars: int) {
    && |shelves| == |first|
    && (forall k: nat :: EvenAt(shelves, k, r))
    && (forall k: nat :: SameAt(first, shelves, k))
    && (forall k: nat :: FullAt(shelves, k, used, maxChars))
  }

  lemma {:induction false} SizeUpdate(shelves: seq<Shelf>, k: nat, t: Shelf)
    requires k < |shelves|
    ensures AllSize(shelves[k := t]) == AllSize(shelves) - ShelfSize(shelves[k]) + ShelfSize(t)
  {
    SumUpdate(Sizes(shelves), k, ShelfSize(t));
    assert Sizes(shelves[k := t]) == Sizes(shelves)[k := ShelfSize(t)];
  }

  /** Section k has had its line of round r, the ones after it not yet. */
  ghost predicate Within(first: seq<Shelf>, shelves: seq<Shelf>, r: nat, k: nat, used: nat, maxChars: int) {
    && |shelves| == |first|
    && (forall j: nat :: MidAt(shelves, j, r, k))
    && (forall j: nat :: SameAt(first, shelves, j))
    && (forall j: nat :: FullAt(shelves, j, used, maxChars))
  }

  lemma {:induction false} SkipKeeps(first: seq<Shelf>, shelves: seq<Shelf>, r: nat, k: nat, used: nat, maxChars: int)
    requires Within(first, shelves, r, k, used, maxChars) && k < |shelves| && |shelves[k].taken| == |shelves[k].lines|
    ensures Within(first, shelves, r, k + 1, used, maxChars)
  {
    assert MidAt(shelves, k, r, k);
    var up := k + 1;
    forall j: nat ensures MidAt(shelves, j, r, up) {
      assert MidAt(shelves, j, r, k);
    }
  }

  lemma {:induction false} OfferKeeps(first: seq<Shelf>, shelves: seq<Shelf>, r: nat, k: nat, used: nat, maxChars: int, t: Shelf, now: nat)
    requires Within(first, shelves, r, k, used, maxChars) && k < |shelves| && |shelves[k].taken| < |shelves[k].lines|
    requires t.title == shelves[k].title && t.lines == shelves[k].lines && |t.taken| == |shelves[k].taken| + 1
    requires used <= now && NoneLeftInVain(t, now, maxChars)
    ensures Within(first, shelves[k := t], r, k + 1, now, maxChars)
  {
    var after := shelves[k := t];
    assert MidAt(shelves, k, r, k);
    var up := k + 1;
    forall j: nat ensures MidAt(after, j, r, up) {
      assert MidAt(shelves, j, r, k);
    }
    forall j: nat ensures SameAt(first, after, j) {
      assert SameAt(first, shelves, j);
    }
    forall j: nat ensures FullAt(after, j, now, maxChars) {
      assert FullAt(shelves, j, used, maxChars);
      if j < |shelves| && j != k {
        Later(shelves[j], used, now, maxChars);
      }
    }
  }

  lemma {:induction false} RoundOver(first: seq<Shelf>, shelves: seq<Shelf>, r: nat, used: nat, maxChars: int)
    requires Within(first, shelves, r, |shelves|, used, maxChars)
    ensures Between(first, shelves, r + 1, used, maxChars)
  {
    var up := r + 1;
    forall k: nat ensures EvenAt(shelves, k, up) {
      assert MidAt(shelves, k, r, |shelves|);
    }
  }

  lemma {:induction false} RoundBegins(first: seq<Shelf>, shelves: seq<Shelf>, r: nat, used: nat, maxChars: int)
    requires Between(first, shelves, r, used, maxChars)
    ensures Within(first, shelves, r, 0, used, maxChars)
  {
    forall j: nat ensures MidAt(shelves, j, r, 0) {
      assert EvenAt(shelves, j, r);
    }
  }

  /** One round: the next line of every section that has one. */
  method Round(ghost first: seq<Shelf>, shelves: seq<Shelf>, used: nat, maxChars: int, ghost r: nat) returns (next: seq<Shelf>, now: nat)
    requires used <= maxChars && Between(first, shelves, r, used, maxChars)
    ensures used <= now <= maxChars && now - used == AllSize(next) - AllSize(shelves)
    ensures Between(first, next, r + 1, now, maxChars)
  {
    next, now := shelves, used;
    RoundBegins(first, shelves, r, used, maxChars);
    for k := 0 to |shelves|
      invariant |next| == |shelves| && Within(first, next, r, k, now, maxChars)
      invariant used <= now <= maxChars && now - used == AllSize(next) - AllSize(shelves)
    {
      if |next[k].taken| < |next[k].lines| {
        assert FullAt(next, k, now, maxChars);
        var t, more := Offer(next[k], now, maxChars);
        SizeUpdate(next, k, t);
        OfferKeeps(first, next, r, k, now, maxChars, t, more);
        next, now := next[k := t], more;
      } else {
        SkipKeeps(first, next, r, k, now, maxChars);
      }
    }
    RoundOver(first, next, r, now, maxChars);
  }

  predicate AnyWaiting(shelves: seq<Shelf>) {
    exists k :: 0 <= k < |shelves| && |shelves[k].taken| < |shelves[k].lines|
  }

  function Longest(shelves: seq<Shelf>): (n: nat)
    ensures forall k :: 0 <= k < |shelves| ==> |shelves[k].lines| <= n
  {
    if shelves == [] then 0
    else
      var n, last := Longest(shelves[..|shelves| - 1]), |shelves[|shelves| - 1].lines|;
      if last > n then last else n
  }

  /** The shelves before the first round. */
  predicate Unopened(shelves: seq<Shelf>) {
    forall k :: 0 <= k < |shelves| ==> shelves[k].taken == []
  }

  /** What comes out of a render: every line looked at, the chosen ones joined, and no line left that
      would still fit. */
  ghost predicate Rendered(first: seq<Shelf>, notice: string, maxChars: int, done: seq<Shelf>, out: string) {
    && |done| == |first| && !AnyWaiting(done)
    && (forall k: nat :: SameAt(first, done, k))
    && out == Breaks(notice, AllLines(done)) && |out| <= maxChars
    && (forall k: nat :: FullAt(done, k, |out|, maxChars))
  }

  /** render: nothing when not even the notice fits. */
  method Render(notice: string, shelves: seq<Shelf>, maxChars: int) returns (out: string, done: seq<Shelf>)
    requires Unopened(shelves)
    ensures maxChars < |notice| ==> out == ""
    ensures maxChars >= |notice| ==> Rendered(shelves, notice, maxChars, done, out)
  {
    if maxChars < |notice| {
      return "", shelves;
    }
    done := shelves;
    var used: nat := |notice|;
    ghost var r := 0;
    NothingChosen(shelves, used, maxChars);
    while AnyWaiting(done)
      invariant Between(shelves, done, r, used, maxChars)
      invariant used == |notice| + AllSize(done) <= maxChars
      decreases Longest(shelves) - r
    {
      SomeoneBehind(shelves, done, r, used, maxChars);
      done, used := Round(shelves, done, used, maxChars, r);
      r := r + 1;
    }
    out := Breaks(notice, AllLines(done));
    BreaksLength(notice, AllLines(done));
    AllSizeIs(done);
  }

  lemma {:induction false} SomeoneBehind(first: seq<Shelf>, shelves: seq<Shelf>, r: nat, used: nat, maxChars: int)
    requires Between(first, shelves, r, used, maxChars) && AnyWaiting(shelves)
    ensures r < Longest(first)
  {
    var k :| 0 <= k < |shelves| && |shelves[k].taken| < |shelves[k].lines|;
    assert EvenAt(shelves, k, r) && SameAt(first, shelves, k);
  }

  lemma {:induction false} NothingChosen(shelves: seq<Shelf>, used: nat, maxChars: int)
    requires Unopened(shelves)
    ensures AllSize(shelves) == 0 && Between(shelves, shelves, 0, used, maxChars)
    decreases |shelves|
  {
    if shelves != [] {
      NothingChosen(shelves[..|shelves| - 1], used, maxChars);
      assert Sizes(shelves)[..|shelves| - 1] == Sizes(shelves[..|shelves| - 1]);
    }
    forall k: nat ensures FullAt(shelves, k, used, maxChars) {
      if k < |shelves| {
        forall i: nat ensures LeftBecauseFull(shelves[k], i, used, maxChars) {
        }
      }
    }
  }

  // ---------------------------------------------------------------- what stands where

  /** The line stands at this place of the text, after a line break. */
  predicate StandsAt(text: string, line: string, at: nat) {
    at + 1 + |line| <= |text| && text[at] == '\n' && text[at + 1..at + 1 + |line|] == line
  }

  lemma {:induction false} BreaksAppend(notice: string, a: seq<string>, b: seq<string>)
    ensures Breaks(notice, a + b) == Breaks(notice, a) + Breaks("", b)
    decreases |b|
  {
    if b == [] {
      assert a + b == a;
    } else {
      var n := |b| - 1;
      BreaksAppend(notice, a, b[..n]);
      assert (a + b)[..|a + b| - 1] == a + b[..n] && (a + b)[|a + b| - 1] == b[n];
    }
  }

  lemma {:induction false} BreaksAt(notice: string, a: seq<string>, line: string, b: seq<string>)
    ensures StandsAt(Breaks(notice, a + [line] + b), line, |notice| + Size(a))
  {
    BreaksAppend(notice, a + [line], b);
    BreaksLength(notice, a);
    assert (a + [line])[..|a|] == a;
    var front, text := Breaks(notice, a), Breaks(notice, a + [line]);
    assert text == front + ("\n" + line);
    assert text[|front| + 1..|front| + 1 + |line|] == line;
    assert (text + Breaks("", b))[|front| + 1..|front| + 1 + |line|] == text[|front| + 1..|front| + 1 + |line|];
  }

  lemma {:induction false} PickedSplit(lines: seq<string>, taken: seq<bool>, i: nat) returns (rest: seq<string>)
    requires i < |taken| <= |lines| && taken[i]
    ensures Picked(lines, taken) == Picked(lines, taken[..i]) + [lines[i]] + rest
    decreases |taken|
  {
    var n := |taken| - 1;
    rest := [];
    if i < n {
      rest := PickedSplit(lines, taken[..n], i);
      assert taken[..n][..i] == taken[..i];
      rest := rest + if taken[n] then [lines[n]] else [];
    }
  }

  lemma {:induction false} Assoc(a: seq<string>, b: seq<string>, c: seq<string>, d: seq<string>)
    ensures (a + b + c) + d == a + b + (c + d)
  {
  }

  lemma {:induction false} AllLinesSplit(shelves: seq<Shelf>, k: nat) returns (rest: seq<string>)
    requires k < |shelves|
    ensures AllLines(shelves) == AllLines(shelves[..k]) + ShelfLines(shelves[k]) + rest
    decreases |shelves|
  {
    var n := |shelves| - 1;
    var front, last := shelves[..n], ShelfLines(shelves[n]);
    assert AllLines(shelves) == AllLines(front) + last;
    if k < n {
      var some := AllLinesSplit(front, k);
      assert front[..k] == shelves[..k];
      Assoc(AllLines(shelves[..k]), ShelfLines(shelves[k]), some, last);
      rest := some + last;
    } else {
      rest := [];
      assert AllLines(shelves) + rest == AllLines(shelves);
    }
  }

  /** Where the title of section k stands, and where its line i does. */
  function TitleAt(notice: string, shelves: seq<Shelf>, k: nat): nat
    requires k <= |shelves|
  {
    |notice| + Size(AllLines(shelves[..k]))
  }

  function LineAt(notice: string, shelves: seq<Shelf>, k: nat, i: nat): nat
    requires k < |shelves| && i <= |shelves[k].taken|
  {
    TitleAt(notice, shelves, k) + |shelves[k].title| + 2 + Size(Picked(shelves[k].lines, shelves[k].taken[..i]))
  }

  /** The title stands in the text, the line below it, and both before the section's end. */
  predicate InSection(text: string, title: string, titleAt: nat, line: string, lineAt: nat, end: nat) {
    StandsAt(text, title, titleAt) && StandsAt(text, line, lineAt) && titleAt + |title| + 1 <= lineAt && lineAt + |line| + 1 <= end
  }

  /** A chosen line and its section's title stand in the text, the title first, and the section ends before
      any later one begins. */
  lemma {:induction false} LineStands(notice: string, shelves: seq<Shelf>, k: nat, i: nat) returns (title: nat, line: nat, end: nat)
    requires k < |shelves| && i < |shelves[k].taken| && shelves[k].taken[i]
    ensures title == TitleAt(notice, shelves, k) && line == LineAt(notice, shelves, k, i) && end == title + ShelfSize(shelves[k])
    ensures InSection(Breaks(notice, AllLines(shelves)), shelves[k].title + "：", title, shelves[k].lines[i], line, end)
    ensures |notice| <= title
  {
    var after := AllLinesSplit(shelves, k);
    var rest := ShelfSplit(shelves[k], i);
    title, line, end := BothStand(notice, AllLines(shelves), AllLines(shelves[..k]), shelves[k].title + "：",
                                  Picked(shelves[k].lines, shelves[k].taken[..i]), shelves[k].lines[i], rest,
                                  ShelfLines(shelves[k]), after);
  }

  lemma {:induction false} ShelfSplit(s: Shelf, i: nat) returns (rest: seq<string>)
    requires i < |s.taken| && s.taken[i]
    ensures ShelfLines(s) == [s.title + "："] + (Picked(s.lines, s.taken[..i]) + [s.lines[i]] + rest)
  {
    rest := PickedSplit(s.lines, s.taken, i);
    assert Picked(s.lines, s.taken) != [];
  }

  lemma {:induction false} BothStand(notice: string, all: seq<string>, before: seq<string>, title: string, chosen: seq<string>,
                                     line: string, rest: seq<string>, section: seq<string>, after: seq<string>)
    returns (titleAt: nat, lineAt: nat, end: nat)
    requires section == [title] + (chosen + [line] + rest) && all == before + section + after
    ensures titleAt == |notice| + Size(before) && lineAt == titleAt + |title| + 1 + Size(chosen) && end == titleAt + Size(section)
    ensures InSection(Breaks(notice, all), title, titleAt, line, lineAt, end)
  {
    titleAt := |notice| + Size(before);
    lineAt, end := titleAt + |title| + 1 + Size(chosen), titleAt + Size(section);
    BreaksAt(notice, before, title, chosen + [line] + rest + after);
    BreaksAt(notice, before + [title] + chosen, line, rest + after);
    assert all == before + [title] + (chosen + [line] + rest + after);
    assert all == (before + [title] + chosen) + [line] + (rest + after);
    SectionSizes(before, title, chosen, line, rest);
  }

  lemma {:induction false} SectionSizes(before: seq<string>, title: string, chosen: seq<string>, line: string, rest: seq<string>)
    ensures Size(before + [title] + chosen) == Size(before) + |title| + 1 + Size(chosen)
    ensures Size([title] + (chosen + [line] + rest)) >= |title| + 1 + Size(chosen) + |line| + 1
  {
    SizeAppend(before + [title], chosen);
    SizeAppend(before, [title]);
    SizeAppend([title], chosen + [line] + rest);
    SizeAppend(chosen + [line], rest);
    SizeAppend(chosen, [line]);
    assert Size([title]) == |title| + 1 && Size([line]) == |line| + 1;
  }

  lemma {:induction false} SectionsApart(notice: string, shelves: seq<Shelf>, k: nat, j: nat)
    requires k < j <= |shelves|
    ensures TitleAt(notice, shelves, k) + ShelfSize(shelves[k]) <= TitleAt(notice, shelves, j)
  {
    var rest := AllLinesSplit(shelves[..j], k);
    assert shelves[..j][..k] == shelves[..k];
    SizeAppend(AllLines(shelves[..k]) + ShelfLines(shelves[k]), rest);
    SizeAppend(AllLines(shelves[..k]), ShelfLines(shelves[k]));
  }

  lemma {:induction false} LinesApart(notice: string, shelves: seq<Shelf>, k: nat, i: nat, j: nat)
    requires k < |shelves| && i < j <= |shelves[k].taken| && shelves[k].taken[i]
    ensures LineAt(notice, shelves, k, i) + |shelves[k].lines[i]| + 1 <= LineAt(notice, shelves, k, j)
  {
    var s := shelves[k];
    var rest := PickedSplit(s.lines, s.taken[..j], i);
    assert s.taken[..j][..i] == s.taken[..i];
    var chosen := Picked(s.lines, s.taken[..i]);
    SizeAppend(chosen + [s.lines[i]], rest);
    SizeAppend(chosen, [s.lines[i]]);
    assert Size([s.lines[i]]) == |s.lines[i]| + 1;
  }

  /** Line i of section k is chosen. */
  predicate Chosen(shelves: seq<Shelf>, k: nat, i: nat) {
    k < |shelves| && i < |shelves[k].taken| && shelves[k].taken[i]
  }

  /** The output begins with the notice. After it the sections stand in their order, each chosen line on its
      own line below the title of its section, in the order of the section's lines: of two chosen lines the
      one of the earlier section, or of the same section and earlier in it, comes first, and the title of a
      section comes after all lines of earlier ones. */
  lemma {:induction false} ShownInOrder(first: seq<Shelf>, notice: string, maxChars: int, done: seq<Shelf>, out: string,
                                        k: nat, i: nat, j: nat, l: nat)
    returns (title: nat, line: nat, otherTitle: nat, otherLine: nat)
    requires Rendered(first, notice, maxChars, done, out)
    requires Chosen(done, k, i) && Chosen(done, j, l) && (k < j || (k == j && i < l))
    ensures k < |first| && j < |first| && i < |first[k].lines| && l < |first[j].lines|
    ensures notice <= out && |notice| <= title
    ensures StandsAt(out, first[k].title + "：", title) && StandsAt(out, first[k].lines[i], line)
    ensures StandsAt(out, first[j].title + "：", otherTitle) && StandsAt(out, first[j].lines[l], otherLine)
    ensures title + |first[k].title| + 2 <= line && otherTitle + |first[j].title| + 2 <= otherLine
    ensures line + |first[k].lines[i]| + 1 <= if k == j then otherLine else otherTitle
    ensures k == j ==> title == otherTitle
  {
    assert SameAt(first, done, k) && SameAt(first, done, j);
    var end, otherEnd;
    title, line, end := LineStands(notice, done, k, i);
    otherTitle, otherLine, otherEnd := LineStands(notice, done, j, l);
    if k == j {
      LinesApart(notice, done, k, i, l);
    } else {
      SectionsApart(notice, done, k, j);
    }
    BreaksAppend(notice, [], AllLines(done));
    assert [] + AllLines(done) == AllLines(done);
  }

  // ---------------------------------------------------------------- when nothing is left out

  function Opened(s: Shelf): Shelf {
    Shelf(s.title, s.lines, seq(|s.lines|, _ => true))
  }

  function FullSizes(shelves: seq<Shelf>): (r: seq<nat>)
    ensures |r| == |shelves| && forall k :: 0 <= k < |r| ==> r[k] == ShelfSize(Opened(shelves[k]))
  {
    seq(|shelves|, k requires 0 <= k < |shelves| => ShelfSize(Opened(shelves[k])))
  }

  /** The size with every line taken. */
  function FullSize(shelves: seq<Shelf>): nat {
    Sum(FullSizes(shelves))
  }

  lemma {:induction false} PickedAll(lines: seq<string>, taken: seq<bool>)
    requires |taken| <= |lines| && forall i :: 0 <= i < |taken| ==> taken[i]
    ensures Picked(lines, taken) == lines[..|taken|]
    decreases |taken|
  {
    if taken != [] {
      PickedAll(lines, taken[..|taken| - 1]);
    }
  }

  lemma {:induction false} PickedSize(lines: seq<string>, taken: seq<bool>)
    requires |taken| == |lines|
    ensures Size(Picked(lines, taken)) <= Size(lines)
    ensures Picked(lines, taken) != [] ==> lines != []
    decreases |lines|
  {
    if lines != [] {
      PickedSize(lines[..|lines| - 1], taken[..|lines| - 1]);
      PickedLast(lines, taken);
    }
  }

  lemma {:induction false} PickedLast(lines: seq<string>, taken: seq<bool>)
    requires |taken| == |lines| > 0
    ensures var n := |lines| - 1;
            Size(Picked(lines, taken)) == Size(Picked(lines[..n], taken[..n])) + if taken[n] then |lines[n]| + 1 else 0
  {
    var n := |lines| - 1;
    PickedPrefix(lines, taken[..n]);
    var chosen := Picked(lines[..n], taken[..n]);
    if taken[n] {
      SizeAppend(chosen, [lines[n]]);
    } else {
      assert chosen + [] == chosen;
    }
  }

  lemma {:induction false} PickedPrefix(lines: seq<string>, taken: seq<bool>)
    requires |taken| <= |lines|
    ensures Picked(lines, taken) == Picked(lines[..|taken|], taken)
    decreases |taken|
  {
    if taken != [] {
      var n := |taken| - 1;
      PickedPrefix(lines, taken[..n]);
      PickedPrefix(lines[..n + 1], taken[..n]);
      assert lines[..n + 1][..n] == lines[..n];
    }
  }

  /** A left line would still have had its place in the whole section. */
  lemma {:induction false} LeftSize(lines: seq<string>, taken: seq<bool>, i: nat)
    requires |taken| == |lines| && i < |lines| && !taken[i]
    ensures Size(Picked(lines, taken)) + |lines[i]| + 1 <= Size(lines)
    decreases |lines|
  {
    var n := |lines| - 1;
    PickedLast(lines, taken);
    if i < n {
      LeftSize(lines[..n], taken[..n], i);
    } else {
      PickedSize(lines[..n], taken[..n]);
    }
  }

  lemma {:induction false} OpenedSize(s: Shelf, i: nat)
    requires |s.taken| == |s.lines|
    ensures ShelfSize(s) <= ShelfSize(Opened(s))
    ensures i < |s.lines| && !s.taken[i] ==> ShelfSize(s) + Extra(s, s.lines[i]) <= ShelfSize(Opened(s))
  {
    var chosen := Picked(s.lines, s.taken);
    PickedAll(s.lines, Opened(s).taken);
    assert s.lines[..|s.lines|] == s.lines;
    SizeAppend([s.title + "："], chosen);
    SizeAppend([s.title + "："], s.lines);
    PickedSize(s.lines, s.taken);
    if i < |s.lines| && !s.taken[i] {
      LeftSize(s.lines, s.taken, i);
    }
  }

  predicate LookedThrough(shelves: seq<Shelf>) {
    forall j :: 0 <= j < |shelves| ==> |shelves[j].taken| == |shelves[j].lines|
  }

  predicate NothingLeft(shelves: seq<Shelf>) {
    forall k, i :: 0 <= k < |shelves| && 0 <= i < |shelves[k].taken| ==> shelves[k].taken[i]
  }

  /** Every line is rendered exactly when all of them together fit. */
  lemma {:induction false} NothingLeftIffAllFit(first: seq<Shelf>, notice: string, maxChars: int, done: seq<Shelf>, out: string)
    requires Rendered(first, notice, maxChars, done, out)
    ensures NothingLeft(done) <==> |notice| + FullSize(done) <= maxChars
  {
    BreaksLength(notice, AllLines(done));
    AllSizeIs(done);
    NothingLeftOrNoRoom(done, |out|, maxChars);
  }

  lemma {:induction false} NothingLeftOrNoRoom(done: seq<Shelf>, used: nat, maxChars: int)
    requires LookedThrough(done) && forall k: nat :: FullAt(done, k, used, maxChars)
    ensures NothingLeft(done) ==> FullSize(done) == AllSize(done)
    ensures !NothingLeft(done) ==> used - AllSize(done) + FullSize(done) > maxChars
  {
    if NothingLeft(done) {
      NothingLeftIsFull(done);
    } else {
      var k: nat, i: nat :| k < |done| && i < |done[k].taken| && !done[k].taken[i];
      LeftNoRoom(done, k, i, used, maxChars);
    }
  }

  lemma {:induction false} NothingLeftIsFull(done: seq<Shelf>)
    requires NothingLeft(done) && LookedThrough(done)
    ensures FullSize(done) == AllSize(done)
  {
    forall k | 0 <= k < |done| ensures done[k] == Opened(done[k]) {
      assert done[k].taken == Opened(done[k]).taken;
    }
    assert FullSizes(done) == Sizes(done);
  }

  lemma {:induction false} LeftNoRoom(done: seq<Shelf>, k: nat, i: nat, used: nat, maxChars: int)
    requires LookedThrough(done) && k < |done| && i < |done[k].taken| && !done[k].taken[i]
    requires FullAt(done, k, used, maxChars)
    ensures used - AllSize(done) + FullSize(done) > maxChars
  {
    assert LeftBecauseFull(done[k], i, used, maxChars);
    LeftRoom(done, k, i);
  }

  lemma {:induction false} LeftRoom(done: seq<Shelf>, k: nat, i: nat)
    requires LookedThrough(done) && k < |done| && i < |done[k].lines| && !done[k].taken[i]
    ensures AllSize(done) + Extra(done[k], done[k].lines[i]) <= FullSize(done)
  {
    forall j | 0 <= j < |done| ensures Sizes(done)[j] <= FullSizes(done)[j] {
      OpenedSize(done[j], 0);
    }
    OpenedSize(done[k], i);
    SumBelow(Sizes(done), FullSizes(done), k, Extra(done[k], done[k].lines[i]));
  }
}
