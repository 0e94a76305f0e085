/** Which places of a list a filter keeps: the list of their indices, in order and without a gap. */
module Places {

  predicate Wanted(want: seq<bool>, i: nat) {
    i < |want| && want[i]
  }

  ghost predicate Increasing(places: seq<nat>) {
    forall j, k :: 0 <= j < k < |places| ==> places[j] < places[k]
  }

  /** `places` lists exactly the wanted indices, in order. */
  ghost predicate Picks(want: seq<bool>, places: seq<nat>) {
    && Increasing(places)
    && (forall i: nat :: i in places <==> Wanted(want, i))
  }

  /** `part` is what stands in `all` at these places. */
  ghost predicate Takes<T>(part: seq<T>, all: seq<T>, places: seq<nat>) {
    |part| == |places| && forall k :: 0 <= k < |places| ==> places[k] < |all| && part[k] == all[places[k]]
  }

  function Shifted(places: seq<nat>): seq<nat> {
    seq(|places|, k requires 0 <= k < |places| => places[k] + 1)
  }

  function Before(w: bool, rest: seq<nat>): seq<nat> {
    if w then [0] + Shifted(rest) else Shifted(rest)
  }

  lemma {:induction false} ShiftedHas(rest: seq<nat>, i: nat)
    ensures i in Shifted(rest) <==> i > 0 && i - 1 in rest
  {
    if i > 0 && i - 1 in rest {
      var k :| 0 <= k < |rest| && rest[k] == i - 1;
      assert Shifted(rest)[k] == i;
    }
    if i in Shifted(rest) {
      var k :| 0 <= k < |rest| && Shifted(rest)[k] == i;
    }
  }

  /** One element more in front. */
  lemma {:induction false} PicksBefore(w: bool, want: seq<bool>, rest: seq<nat>)
    requires Picks(want, rest)
    ensures Picks([w] + want, Before(w, rest))
  {
    forall i: nat ensures i in Before(w, rest) <==> Wanted([w] + want, i) {
      ShiftedHas(rest, i);
      assert i > 0 ==> (i - 1 in rest <==> Wanted(want, i - 1));
      assert w ==> (i in Before(w, rest) <==> i == 0 || i in Shifted(rest));
    }
  }

  lemma {:induction false} TakesBefore<T>(w: bool, x: T, part: seq<T>, all: seq<T>, rest: seq<nat>)
    requires Takes(part, all, rest)
    ensures Takes(if w then [x] + part else part, [x] + all, Before(w, rest))
  {
  }
}
