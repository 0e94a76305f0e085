/** Numbers in text, read as maximal runs of ASCII digits, and what quoting does to them.
    demo/semantic_memory.py lets a summary state a number only when one of its own quotes
    contains that number, and lets no quote cut a number of the original message. */
module Numbers {

  datatype Span = Span(start: nat, end: nat)

  predicate IsDigit(c: char) {
    '0' <= c <= '9'
  }

  /** [a, b) is a run of digits that cannot be extended on either side. */
  predicate IsRun(s: string, a: int, b: int) {
    && 0 <= a < b <= |s|
    && (forall k :: a <= k < b ==> IsDigit(s[k]))
    && (a == 0 || !IsDigit(s[a - 1]))
    && (b == |s| || !IsDigit(s[b]))
  }

  ghost function NumbersOf(s: string): set<string> {
    set a: nat, b: nat | a <= |s| && b <= |s| && IsRun(s, a, b) :: s[a..b]
  }

  /** The end of the digit run that covers position i. */
  function RunEnd(s: string, i: nat): (e: nat)
    requires i <= |s|
    ensures i <= e <= |s|
    ensures forall k :: i <= k < e ==> IsDigit(s[k])
    ensures e == |s| || !IsDigit(s[e])
    decreases |s| - i
  {
    if i < |s| && IsDigit(s[i]) then RunEnd(s, i + 1) else i
  }

  /** The scan of a number pattern over the text: every run from position `from` on, left to right. */
  function Runs(s: string, from: nat): (spans: seq<Span>)
    requires from <= |s|
    decreases |s| - from
  {
    if from == |s| then []
    else if IsDigit(s[from]) then
      var e := RunEnd(s, from);
      [Span(from, e)] + Runs(s, e)
    else Runs(s, from + 1)
  }

  /** The scan finds exactly the maximal runs, in order and without overlap. */
  lemma {:induction false} RunsExact(s: string, from: nat)
    requires from <= |s|
    requires from == 0 || from == |s| || !IsDigit(s[from - 1]) || !IsDigit(s[from])
    ensures forall r :: r in Runs(s, from) ==> from <= r.start && IsRun(s, r.start, r.end)
    ensures forall a: nat, b: nat :: from <= a && IsRun(s, a, b) ==> Span(a, b) in Runs(s, from)
    ensures forall i, j :: 0 <= i < j < |Runs(s, from)| ==> Runs(s, from)[i].end <= Runs(s, from)[j].start
    decreases |s| - from
  {
    if from == |s| {
    } else if IsDigit(s[from]) {
      var e := RunEnd(s, from);
      RunsExact(s, e);
      assert IsRun(s, from, e);
      forall a: nat, b: nat | from <= a && IsRun(s, a, b)
        ensures Span(a, b) in Runs(s, from)
      {
        if a < e {
          assert a == from;
          assert b == e;
        }
      }
    } else {
      RunsExact(s, from + 1);
      forall a: nat, b: nat | from <= a && IsRun(s, a, b)
        ensures Span(a, b) in Runs(s, from)
      {
        assert IsDigit(s[a]);
      }
    }
  }

  /** A number of a slice that cuts no number of the whole text is a number of the whole text. */
  lemma {:induction false} SliceNumberIsWhole(s: string, lo: nat, hi: nat, a: nat, b: nat)
    requires lo <= hi <= |s|
    requires IsRun(s[lo..hi], a, b)
    requires forall x: nat, y: nat :: IsRun(s, x, y) && x < hi && lo < y ==> lo <= x && y <= hi
    ensures IsRun(s, lo + a, lo + b)
    ensures s[lo + a..lo + b] == s[lo..hi][a..b]
  {
    var t := s[lo..hi];
    assert forall k :: 0 <= k < |t| ==> t[k] == s[lo + k];
    assert IsDigit(t[a]);
    var x := RunStart(s, lo + a);
    var y := RunEnd(s, lo + a);
    assert IsRun(s, x, y);
    assert lo <= x && y <= hi;
    assert x == lo + a by {
      assert a > 0 ==> !IsDigit(s[lo + (a - 1)]);
    }
    assert y == lo + b by {
      assert b < |t| ==> !IsDigit(s[lo + b]);
      assert IsDigit(t[b - 1]) && IsDigit(s[lo + (b - 1)]);
      assert forall k :: lo + a <= k < lo + b ==> s[k] == t[k - lo] && IsDigit(s[k]);
    }
    assert forall k :: 0 <= k < b - a ==> s[x..y][k] == t[a..b][k];
  }

  /** The start of the digit run that covers position i. */
  ghost function RunStart(s: string, i: nat): (a: nat)
    requires i < |s| && IsDigit(s[i])
    ensures a <= i
    ensures forall k :: a <= k <= i ==> IsDigit(s[k])
    ensures a == 0 || !IsDigit(s[a - 1])
  {
    if i > 0 && IsDigit(s[i - 1]) then RunStart(s, i - 1) else i
  }

  /** The quotes of one item, joined by a line break as the number check joins them. */
  function Joined(quotes: seq<string>): string {
    if quotes == [] then ""
    else if |quotes| == 1 then quotes[0]
    else quotes[0] + "\n" + Joined(quotes[1..])
  }

  /** A line break separates numbers: a run of q + "\n" + rest is a run of q or of rest. */
  lemma {:induction false} RunInJoin(q: string, rest: string, a: nat, b: nat)
    requires IsRun(q + "\n" + rest, a, b)
    ensures var m := |q| + 1;
            || (b <= |q| && IsRun(q, a, b) && q[a..b] == (q + "\n" + rest)[a..b])
            || (m <= a && IsRun(rest, a - m, b - m) && rest[a - m..b - m] == (q + "\n" + rest)[a..b])
  {
    var j, m := q + "\n" + rest, |q| + 1;
    assert j[|q|] == '\n';
    assert forall k :: 0 <= k < |q| ==> q[k] == j[k];
    assert forall k :: 0 <= k < |rest| ==> rest[k] == j[m + k];
    if b <= |q| {
      assert q[a..b] == j[a..b];
    } else {
      assert m <= a;
      assert rest[a - m..b - m] == j[a..b];
    }
  }

  /** Joining never creates a number: each number of the joined text is a number of one quote. */
  lemma {:induction false} JoinedNumbers(quotes: seq<string>, n: string)
    requires n in NumbersOf(Joined(quotes))
    ensures exists i :: 0 <= i < |quotes| && n in NumbersOf(quotes[i])
  {
    var j := Joined(quotes);
    var a: nat, b: nat :| a <= |j| && b <= |j| && IsRun(j, a, b) && n == j[a..b];
    if |quotes| <= 1 {
      assert |quotes| == 1 && j == quotes[0];
    } else {
      var q, rest := quotes[0], Joined(quotes[1..]);
      RunInJoin(q, rest, a, b);
      if b > |q| {
        assert n in NumbersOf(rest) by {
          var x: nat, y: nat := a - |q| - 1, b - |q| - 1;
          assert IsRun(rest, x, y) && n == rest[x..y];
        }
        JoinedNumbers(quotes[1..], n);
        var i :| 0 <= i < |quotes[1..]| && n in NumbersOf(quotes[1..][i]);
        assert quotes[i + 1] == quotes[1..][i];
      }
    }
  }
}
