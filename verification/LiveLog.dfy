/** The event log of a turn (demo/chat_service.py): numbered events in memory and in a jsonl file, and
    the followers that replay them. */
module LiveLog {
  import opened Wrappers

  type SessionId = nat
  type TurnId = nat
  type FollowerId = nat

  const LIVE_MAX_SESSIONS: nat := 256

  datatype Kind = Session | Context | Status | Token | Collaboration | Error | Done | Heartbeat

  /** Everything but the heartbeat is numbered and logged. */
  predicate Logged(k: Kind) {
    !k.Heartbeat?
  }

  predicate Ends(k: Kind) {
    k.Error? || k.Done?
  }

  datatype Entry = Entry(number: nat, kind: Kind, data: string)

  /** One turn's record in _LIVE with its file; `lost` are the numbers whose write failed. */
  datatype Record = Record(session: SessionId, count: nat, events: seq<Entry>, done: bool, open: bool, file: seq<Entry>, lost: set<nat>)

  function Noted(r: Record, kind: Kind, data: string, written: bool): Record {
    if !Logged(kind) || r.done then r
    else
      var e := Entry(r.count + 1, kind, data);
      Record(r.session, r.count + 1, r.events + [e], Ends(kind), r.open && !Ends(kind),
             if r.open && written then r.file + [e] else r.file,
             if r.open && written then r.lost else r.lost + {r.count + 1})
  }

  function Closed(r: Record): Record {
    r.(done := true, open := false)
  }

  // ---------------------------------------------------------------- the table of live turns

  /** _LIVE as an insertion-ordered map, and every record made so far. */
  datatype Table = Table(order: seq<SessionId>, live: map<SessionId, TurnId>, records: map<TurnId, Record>)

  function Without(order: seq<SessionId>, session: SessionId): (r: seq<SessionId>)
    ensures session !in r && |r| <= |order|
    ensures forall x :: x in r <==> x in order && x != session
  {
    if order == [] then []
    else if order[0] == session then Without(order[1..], session)
    else [order[0]] + Without(order[1..], session)
  }

  /** What the eviction loop leaves: the newest entries, one place short of the limit. */
  function Newest(order: seq<SessionId>): seq<SessionId> {
    if |order| >= LIVE_MAX_SESSIONS then order[|order| - (LIVE_MAX_SESSIONS - 1)..] else order
  }

  function OpenedOrder(order: seq<SessionId>, session: SessionId): seq<SessionId> {
    Newest(Without(order, session)) + [session]
  }

  function OpenedLive(live: map<SessionId, TurnId>, order: seq<SessionId>, session: SessionId, turn: TurnId)
    : map<SessionId, TurnId>
  {
    (map x | x in live && x in order :: live[x])[session := turn]
  }

  function Opened(t: Table, session: SessionId, turn: TurnId): Table {
    var order := OpenedOrder(t.order, session);
    var live := OpenedLive(t.live, order, session, turn);
    Table(order, live, ShutDropped(t.records, live)[turn := Record(session, 0, [], false, true, [], {})])
  }

  predicate Listed(session: SessionId, turn: TurnId, live: map<SessionId, TurnId>) {
    session in live && live[session] == turn
  }

  /** The files of records that have left the table are closed. */
  function ShutDropped(records: map<TurnId, Record>, live: map<SessionId, TurnId>): map<TurnId, Record> {
    map x | x in records :: if Listed(records[x].session, x, live) then records[x] else records[x].(open := false)
  }

  function NotedIn(t: Table, session: SessionId, kind: Kind, data: string, written: bool): Table {
    if session in t.live && t.live[session] in t.records
    then t.(records := t.records[t.live[session] := Noted(t.records[t.live[session]], kind, data, written)]) else t
  }

  function ClosedIn(t: Table, session: SessionId): Table {
    if session in t.live && t.live[session] in t.records
    then t.(records := t.records[t.live[session] := Closed(t.records[t.live[session]])]) else t
  }

  // ---------------------------------------------------------------- followers

  /** The entries a reader that already has everything up to `after` still needs. */
  function Above(events: seq<Entry>, after: int): (r: seq<Entry>)
    ensures |r| <= |events|
  {
    if events == [] then []
    else
      var last := events[|events| - 1];
      Above(events[..|events| - 1], after) + if last.number > after then [last] else []
  }

  /** The loop of replay_events over one batch. */
  method Deliver(batch: seq<Entry>, after: int) returns (out: seq<Entry>)
    ensures out == Above(batch, after)
  {
    out := [];
    for j := 0 to |batch|
      invariant out == Above(batch[..j], after)
    {
      assert batch[..j + 1][..j] == batch[..j];
      if batch[j].number > after {
        out := out + [batch[j]];
      }
    }
    assert batch[..|batch|] == batch;
  }

  datatype Follower = Follower(turn: TurnId, after: int, i: nat, out: seq<Entry>, fromFile: bool, ended: bool, alive: bool)

  /** latest: the file a session points at; owner: the turn holding the session's lease; closing: the
      owners whose producer is past _live_close. */
  datatype State = State(table: Table, latest: map<SessionId, TurnId>, owner: map<SessionId, TurnId>,
                         closing: set<SessionId>, followers: map<FollowerId, Follower>)

  datatype Event =
    | Begin(session: SessionId, turn: TurnId)
    | Note(session: SessionId, kind: Kind, data: string, written: bool)
    | Close(session: SessionId)
    | Finish(session: SessionId)
    | Follow(f: FollowerId, session: SessionId, after: int)
    | Poll(f: FollowerId)
    | Drop(f: FollowerId)
    | Restart

  /** One round of the follower's loop; an empty batch of an unfinished log is a ping. */
  function Polled(f: Follower, r: Record): Follower {
    var batch := if f.i <= |r.events| then r.events[f.i..] else [];
    f.(i := |r.events|, out := f.out + Above(batch, f.after), ended := r.done)
  }

  function Dropped(followers: map<FollowerId, Follower>): map<FollowerId, Follower> {
    map f | f in followers :: followers[f].(alive := false)
  }

  function Step(s: State, e: Event): Option<State> {
    match e
    case Begin(session, turn) =>
      // one turn per session at a time, and a turn id is never used twice
      if session in s.owner || turn in s.table.records then None
      else Some(s.(table := Opened(s.table, session, turn), latest := s.latest[session := turn],
                   owner := s.owner[session := turn]))
    case Note(session, kind, data, written) =>
      if session !in s.owner || session in s.closing then None
      else Some(s.(table := NotedIn(s.table, session, kind, data, written)))
    case Close(session) =>
      if session !in s.owner then None
      else Some(s.(table := ClosedIn(s.table, session), closing := s.closing + {session}))
    case Finish(session) =>
      if session !in s.closing then None
      else Some(s.(owner := s.owner - {session}, closing := s.closing - {session}))
    case Follow(f, session, after) =>
      if f in s.followers then None
      else if session in s.table.live then
        Some(s.(followers := s.followers[f := Follower(s.table.live[session], after, 0, [], false, false, true)]))
      else if session in s.latest && s.latest[session] in s.table.records then
        var r := s.table.records[s.latest[session]];
        Some(s.(followers := s.followers[f := Follower(s.latest[session], after, 0, Above(r.file, after), true, true, false)]))
      else None
    case Poll(f) =>
      if f !in s.followers || !s.followers[f].alive || s.followers[f].ended
         || s.followers[f].turn !in s.table.records then None
      else Some(s.(followers := s.followers[f := Polled(s.followers[f], s.table.records[s.followers[f].turn])]))
    case Drop(f) =>
      if f !in s.followers then None
      else Some(s.(followers := s.followers[f := s.followers[f].(alive := false)]))
    case Restart =>
      Some(State(Table([], map[], ShutDropped(s.table.records, map[])), s.latest, map[], {},
                 Dropped(s.followers)))
  }

  function Run(s: State, events: seq<Event>): Option<State>
    decreases |events|
  {
    if events == [] then Some(s)
    else
      var t := Step(s, events[0]);
      if t.None? then None else Run(t.value, events[1..])
  }

  const INITIAL := State(Table([], map[], map[]), map[], map[], {}, map[])

  // ---------------------------------------------------------------- the objects behind the steps

  class LiveTable {
    var order: seq<SessionId>
    var live: map<SessionId, TurnId>
    var records: map<TurnId, Record>

    function View(): Table
      reads this
    {
      Table(order, live, records)
    }

    /** The eviction loop of _live_begin. */
    method EvictOldest()
      requires Distinct(order) && forall x :: x in order <==> x in live
      modifies this`order, this`live
      ensures order == Newest(old(order))
      ensures forall x :: x in order <==> x in live
      ensures forall x :: x in live ==> x in old(live) && live[x] == old(live)[x]
    {
      ghost var was := order;
      while |order| >= LIVE_MAX_SESSIONS
        invariant |order| <= |was| && order == was[|was| - |order|..]
        invariant |order| < LIVE_MAX_SESSIONS - 1 ==> order == was
        invariant Distinct(order)
        invariant forall x :: x in order <==> x in live
        invariant forall x :: x in live ==> x in old(live) && live[x] == old(live)[x]
      {
        TailDistinct(order);
        live := live - {order[0]};
        order := order[1..];
      }
    }

    /** _live_begin: replace the session's old entry, evict the oldest while the table is full. */
    method BeginTurn(session: SessionId, turn: TurnId)
      requires TableOk(View()) && turn !in records
      modifies this
      ensures View() == Opened(old(View()), session, turn)
      ensures |order| <= 256 && session in live
    {
      WithoutDistinct(order, session);
      order := Without(order, session);
      live := live - {session};
      EvictOldest();
      OpenedLiveIs(old(live), live, order, session, turn);
      order := order + [session];
      live := live[session := turn];
      records := ShutDropped(records, live)[turn := Record(session, 0, [], false, true, [], {})];
    }

    /** _live_note */
    method NoteEvent(session: SessionId, kind: Kind, data: string, written: bool)
      requires TableOk(View())
      modifies this`records
      ensures View() == NotedIn(old(View()), session, kind, data, written)
    {
      if !Logged(kind) || session !in live {
        assert forall t :: t in records ==> records[t := records[t]] == records;
        return;
      }
      var turn := live[session];
      var r := records[turn];
      if r.done {
        assert records[turn := r] == records;
        return;
      }
      var e := Entry(r.count + 1, kind, data);
      r := r.(count := r.count + 1, events := r.events + [e]);
      if Ends(kind) {
        r := r.(done := true);
      }
      if r.open && written {
        r := r.(file := r.file + [e]);
      } else {
        r := r.(lost := r.lost + {e.number});
      }
      if r.done {
        r := r.(open := false);
      }
      records := records[turn := r];
    }
  }

  // ---------------------------------------------------------------- the invariant

  predicate Distinct(order: seq<SessionId>) {
    forall i, j :: 0 <= i < j < |order| ==> order[i] != order[j]
  }

  ghost predicate TableOk(t: Table) {
    && Distinct(t.order)
    && (forall x :: x in t.order <==> x in t.live)
    && (forall x :: x in t.live ==> t.live[x] in t.records && t.records[t.live[x]].session == x)
  }

  /** The entries of `events` whose number is not in `lost`. */
  function Kept(events: seq<Entry>, lost: set<nat>): seq<Entry> {
    if events == [] then []
    else
      var last := events[|events| - 1];
      Kept(events[..|events| - 1], lost) + if last.number !in lost then [last] else []
  }

  /** Numbered 1..n without gaps, closed by its ending event, and the file is what was not lost. */
  predicate RecordOk(r: Record) {
    && r.count == |r.events|
    && Numbered(r.events)
    && (forall k :: 0 <= k < |r.events| && Ends(r.events[k].kind) ==> k == |r.events| - 1 && r.done)
    && (r.done ==> !r.open)
    && (forall n :: n in r.lost ==> 1 <= n <= |r.events|)
    && r.file == Kept(r.events, r.lost)
  }

  predicate FollowerOk(f: Follower, t: Table) {
    && f.turn in t.records
    && var r := t.records[f.turn];
       && f.i <= |r.events|
       && (f.fromFile ==> f.ended && !r.open && f.out == Above(r.file, f.after))
       && (!f.fromFile ==> f.out == Above(r.events[..f.i], f.after))
       && (!f.fromFile && f.ended ==> r.done && f.i == |r.events|)
  }

  /** A listed record's file is open until it is done; the file of any other is closed. */
  predicate PlaceOk(r: Record, x: TurnId, live: map<SessionId, TurnId>) {
    RecordOk(r) && r.open == (Listed(r.session, x, live) && !r.done)
  }

  ghost predicate TableInv(t: Table) {
    TableOk(t) && forall x :: x in t.records ==> PlaceOk(t.records[x], x, t.live)
  }

  /** A live record belongs to the session's lease holder while that one still writes; otherwise it is done. */
  ghost predicate OwnerInv(table: Table, latest: map<SessionId, TurnId>, owner: map<SessionId, TurnId>, closing: set<SessionId>) {
    && (forall x :: x in table.live ==> x in latest && latest[x] == table.live[x] && latest[x] in table.records)
    && (forall x :: x in owner ==> x in latest && latest[x] == owner[x])
    && (forall x :: x in latest ==> latest[x] in table.records && table.records[latest[x]].session == x)
    && (forall x :: x in closing ==> x in owner)
    && (forall x :: x in table.live && (x !in owner || x in closing) ==> table.records[latest[x]].done)
  }

  ghost predicate FollowersOk(followers: map<FollowerId, Follower>, t: Table) {
    forall f :: f in followers ==> FollowerOk(followers[f], t)
  }

  ghost predicate Inv(s: State) {
    TableInv(s.table) && OwnerInv(s.table, s.latest, s.owner, s.closing) && FollowersOk(s.followers, s.table)
  }

  lemma {:induction false} WithoutDistinct(order: seq<SessionId>, session: SessionId)
    requires Distinct(order)
    ensures Distinct(Without(order, session))
    ensures session in order ==> |Without(order, session)| == |order| - 1
    ensures session !in order ==> Without(order, session) == order
    decreases |order|
  {
    if order != [] {
      WithoutDistinct(order[1..], session);
      assert order == [order[0]] + order[1..];
      assert order[0] !in order[1..];
    }
  }

  lemma {:induction false} TailDistinct(order: seq<SessionId>)
    requires Distinct(order) && order != []
    ensures Distinct(order[1..])
    ensures forall x :: x in order[1..] <==> x in order && x != order[0]
  {
    assert order == [order[0]] + order[1..];
  }

  lemma {:induction false} OpenedLiveIs(live: map<SessionId, TurnId>, kept: map<SessionId, TurnId>,
                                        order: seq<SessionId>, session: SessionId, turn: TurnId)
    requires session !in order
    requires forall x :: x in order <==> x in kept
    requires forall x :: x in kept ==> x in live && kept[x] == live[x]
    ensures OpenedLive(live, order + [session], session, turn) == kept[session := turn]
  {
    assert forall x :: x in order + [session] <==> x in kept || x == session;
  }

  // ---------------------------------------------------------------- entries

  lemma {:induction false} AboveAppend(events: seq<Entry>, e: Entry, after: int)
    ensures Above(events + [e], after) == Above(events, after) + if e.number > after then [e] else []
  {
    assert (events + [e])[..|events + [e]| - 1] == events;
  }

  lemma {:induction false} AboveSplit(events: seq<Entry>, i: nat, after: int)
    requires i <= |events|
    ensures Above(events, after) == Above(events[..i], after) + Above(events[i..], after)
    decreases |events|
  {
    if i == |events| {
      assert events[..i] == events;
    } else {
      var front := events[..|events| - 1];
      AboveSplit(front, i, after);
      assert front[..i] == events[..i];
      assert events[i..][..|events[i..]| - 1] == front[i..];
    }
  }

  /** How many of the entries 1..n a reader at `after` already has. */
  function Clip(after: int, n: nat): nat {
    if after < 0 then 0 else if after > n then n else after
  }

  predicate Numbered(events: seq<Entry>) {
    forall k :: 0 <= k < |events| ==> events[k].number == k + 1
  }

  lemma {:induction false} AboveOfPrefix(events: seq<Entry>, n: nat, after: int)
    requires Numbered(events) && n <= |events|
    ensures Above(events[..n], after) == events[Clip(after, n)..n]
  {
    if n != 0 {
      var head, last := events[..n - 1], events[n - 1];
      AboveOfPrefix(events, n - 1, after);
      assert events[..n] == head + [last] && last.number == n;
      AboveAppend(head, last, after);
      if after < n {
        assert events[Clip(after, n)..n] == events[Clip(after, n - 1)..n - 1] + [last];
      }
    }
  }

  lemma {:induction false} AboveIsSuffix(events: seq<Entry>, after: int)
    requires Numbered(events)
    ensures Above(events, after) == events[Clip(after, |events|)..]
  {
    AboveOfPrefix(events, |events|, after);
    assert events[..|events|] == events;
  }

  lemma {:induction false} KeptSame(events: seq<Entry>, lost: set<nat>, n: nat)
    requires forall k :: 0 <= k < |events| ==> events[k].number != n
    ensures Kept(events, lost + {n}) == Kept(events, lost)
    decreases |events|
  {
    if events != [] {
      KeptSame(events[..|events| - 1], lost, n);
    }
  }

  // ---------------------------------------------------------------- steps keep the invariant

  /** What may happen to a record: it grows until it is done, and its file only while it is open. */
  predicate RecordMoves(a: Record, b: Record) {
    && a.session == b.session && a.events <= b.events
    && (a.done ==> b.done && b.events == a.events)
    && (!a.open ==> !b.open && b.file == a.file && (a.done ==> b.lost == a.lost))
  }

  lemma {:induction false} NotedMoves(r: Record, kind: Kind, data: string, written: bool)
    requires RecordOk(r)
    ensures RecordOk(Noted(r, kind, data, written)) && RecordMoves(r, Noted(r, kind, data, written))
  {
    if Logged(kind) && !r.done {
      var e := Entry(r.count + 1, kind, data);
      KeptSame(r.events, r.lost, e.number);
    }
  }

  ghost predicate TableMoves(a: Table, b: Table) {
    forall x :: x in a.records ==> x in b.records && RecordMoves(a.records[x], b.records[x])
  }

  lemma {:induction false} MovesSelf(t: Table)
    ensures TableMoves(t, t)
  {
  }

  lemma {:induction false} FollowerStable(f: Follower, a: Table, b: Table)
    requires FollowerOk(f, a) && TableMoves(a, b)
    ensures FollowerOk(f, b)
  {
    var r, q := a.records[f.turn], b.records[f.turn];
    assert r.events[..f.i] == q.events[..f.i];
  }

  lemma {:induction false} FollowersStable(followers: map<FollowerId, Follower>, a: Table, b: Table)
    requires FollowersOk(followers, a) && TableMoves(a, b)
    ensures FollowersOk(followers, b)
  {
    forall f | f in followers ensures FollowerOk(followers[f], b) {
      FollowerStable(followers[f], a, b);
    }
  }

  lemma {:induction false} UpdateTable(t: Table, session: SessionId, r: Record)
    requires TableInv(t) && session in t.live
    requires RecordOk(r) && RecordMoves(t.records[t.live[session]], r) && r.open == !r.done
    ensures TableInv(t.(records := t.records[t.live[session] := r]))
    ensures TableMoves(t, t.(records := t.records[t.live[session] := r]))
  {
    var turn := t.live[session];
    var records := t.records[turn := r];
    assert PlaceOk(r, turn, t.live);
    forall x | x in records ensures PlaceOk(records[x], x, t.live) && x in t.records && RecordMoves(t.records[x], records[x]) {
      if x != turn {
        assert PlaceOk(t.records[x], x, t.live);
      }
    }
  }

  lemma {:induction false} NotedInKeeps(t: Table, session: SessionId, kind: Kind, data: string, written: bool)
    requires TableInv(t)
    ensures TableInv(NotedIn(t, session, kind, data, written)) && TableMoves(t, NotedIn(t, session, kind, data, written))
    ensures NotedIn(t, session, kind, data, written).live == t.live
  {
    MovesSelf(t);
    if session in t.live {
      var r := t.records[t.live[session]];
      assert PlaceOk(r, t.live[session], t.live);
      NotedMoves(r, kind, data, written);
      UpdateTable(t, session, Noted(r, kind, data, written));
    }
  }

  lemma {:induction false} ClosedInKeeps(t: Table, session: SessionId)
    requires TableInv(t)
    ensures TableInv(ClosedIn(t, session)) && TableMoves(t, ClosedIn(t, session))
  {
    MovesSelf(t);
    if session in t.live {
      assert PlaceOk(t.records[t.live[session]], t.live[session], t.live);
      UpdateTable(t, session, Closed(t.records[t.live[session]]));
    }
  }

  lemma {:induction false} OpenedOrderOk(order: seq<SessionId>, session: SessionId)
    requires Distinct(order)
    ensures Distinct(OpenedOrder(order, session))
    ensures forall x :: x in OpenedOrder(order, session) ==> x in order || x == session
    ensures session in OpenedOrder(order, session)
  {
    WithoutDistinct(order, session);
  }

  lemma {:induction false} OpenedTableOk(t: Table, session: SessionId, turn: TurnId)
    requires TableOk(t) && turn !in t.records
    ensures TableOk(Opened(t, session, turn))
    ensures forall x :: x in Opened(t, session, turn).live ==>
              x == session || (x in t.live && Opened(t, session, turn).live[x] == t.live[x])
  {
    OpenedOrderOk(t.order, session);
  }

  lemma {:induction false} ShutMoves(records: map<TurnId, Record>, live: map<SessionId, TurnId>, x: TurnId)
    requires x in records && RecordOk(records[x])
    ensures var r := ShutDropped(records, live)[x];
            && RecordOk(r) && RecordMoves(records[x], r)
            && (Listed(r.session, x, live) ==> r == records[x])
            && (!Listed(r.session, x, live) ==> !r.open)
  {
  }

  ghost predicate LiveNarrows(a: map<SessionId, TurnId>, b: map<SessionId, TurnId>, session: SessionId, turn: TurnId) {
    && session in b && b[session] == turn
    && forall x :: x in b && x != session ==> x in a && b[x] == a[x]
  }

  lemma {:induction false} OpenedRecord(t: Table, live: map<SessionId, TurnId>, session: SessionId, turn: TurnId, x: TurnId)
    requires TableInv(t) && turn !in t.records && LiveNarrows(t.live, live, session, turn)
    requires x in t.records
    ensures var r := ShutDropped(t.records, live)[x];
            PlaceOk(r, x, live) && RecordMoves(t.records[x], r)
  {
    assert PlaceOk(t.records[x], x, t.live);
    ShutMoves(t.records, live, x);
  }

  lemma {:induction false} OpenedRecords(t: Table, b: Table, session: SessionId, turn: TurnId)
    requires TableInv(t) && turn !in t.records && LiveNarrows(t.live, b.live, session, turn)
    requires b.records == ShutDropped(t.records, b.live)[turn := Record(session, 0, [], false, true, [], {})]
    requires TableOk(b)
    ensures TableInv(b) && TableMoves(t, b)
  {
    forall x | x in b.records
      ensures PlaceOk(b.records[x], x, b.live)
      ensures x in t.records ==> RecordMoves(t.records[x], b.records[x])
    {
      if x != turn {
        OpenedRecord(t, b.live, session, turn, x);
      }
    }
  }

  lemma {:induction false} OpenedInv(t: Table, session: SessionId, turn: TurnId)
    requires TableInv(t) && turn !in t.records
    ensures TableInv(Opened(t, session, turn)) && TableMoves(t, Opened(t, session, turn))
  {
    OpenedTableOk(t, session, turn);
    OpenedRecords(t, Opened(t, session, turn), session, turn);
  }

  lemma {:induction false} OwnerStable(a: Table, b: Table, latest: map<SessionId, TurnId>, owner: map<SessionId, TurnId>, closing: set<SessionId>)
    requires OwnerInv(a, latest, owner, closing) && TableMoves(a, b) && b.live == a.live
    ensures OwnerInv(b, latest, owner, closing)
  {
  }

  lemma {:induction false} OwnerBegins(a: Table, b: Table, latest: map<SessionId, TurnId>, owner: map<SessionId, TurnId>,
                                       closing: set<SessionId>, session: SessionId, turn: TurnId)
    requires OwnerInv(a, latest, owner, closing) && TableMoves(a, b) && LiveNarrows(a.live, b.live, session, turn)
    requires session !in owner && turn in b.records && b.records[turn].session == session
    ensures OwnerInv(b, latest[session := turn], owner[session := turn], closing)
  {
  }

  lemma {:induction false} OwnerCloses(a: Table, latest: map<SessionId, TurnId>, owner: map<SessionId, TurnId>,
                                       closing: set<SessionId>, session: SessionId)
    requires OwnerInv(a, latest, owner, closing) && session in owner
    requires session in a.live && latest[session] in a.records ==> a.records[latest[session]].done
    ensures OwnerInv(a, latest, owner, closing + {session})
  {
  }

  lemma {:induction false} ClosedInDone(t: Table, session: SessionId)
    requires TableInv(t)
    ensures var b := ClosedIn(t, session); b.live == t.live && (session in b.live ==> b.records[b.live[session]].done)
  {
  }

  lemma {:induction false} OwnerFinishes(a: Table, latest: map<SessionId, TurnId>, owner: map<SessionId, TurnId>,
                                         closing: set<SessionId>, session: SessionId)
    requires OwnerInv(a, latest, owner, closing) && session in closing
    ensures OwnerInv(a, latest, owner - {session}, closing - {session})
  {
  }

  lemma {:induction false} ShutAll(t: Table)
    requires TableInv(t)
    ensures var b := Table([], map[], ShutDropped(t.records, map[])); TableInv(b) && TableMoves(t, b)
  {
    forall x | x in t.records
      ensures PlaceOk(ShutDropped(t.records, map[])[x], x, map[]) && RecordMoves(t.records[x], ShutDropped(t.records, map[])[x])
    {
      assert PlaceOk(t.records[x], x, t.live);
      ShutMoves(t.records, map[], x);
    }
  }

  lemma {:induction false} OwnerRestarts(a: Table, b: Table, latest: map<SessionId, TurnId>, owner: map<SessionId, TurnId>, closing: set<SessionId>)
    requires OwnerInv(a, latest, owner, closing) && TableMoves(a, b) && b.live == map[]
    ensures OwnerInv(b, latest, map[], {})
  {
  }

  lemma {:induction false} DroppedOk(followers: map<FollowerId, Follower>, t: Table)
    requires FollowersOk(followers, t)
    ensures FollowersOk(Dropped(followers), t)
  {
    forall f | f in followers ensures FollowerOk(Dropped(followers)[f], t) {
      assert FollowerOk(followers[f], t);
    }
  }

  lemma {:induction false} RestartKeeps(s: State, t: State)
    requires Inv(s) && Step(s, Restart) == Some(t)
    ensures Inv(t) && TableMoves(s.table, t.table)
  {
    var b := Table([], map[], ShutDropped(s.table.records, map[]));
    ShutAll(s.table);
    OwnerRestarts(s.table, b, s.latest, s.owner, s.closing);
    FollowersStable(s.followers, s.table, b);
    DroppedOk(s.followers, b);
    assert t == State(b, s.latest, map[], {}, Dropped(s.followers));
  }

  lemma {:induction false} PollKeeps(f: Follower, t: Table)
    requires TableInv(t) && FollowerOk(f, t) && !f.ended
    ensures FollowerOk(Polled(f, t.records[f.turn]), t)
  {
    var r := t.records[f.turn];
    AboveSplit(r.events, f.i, f.after);
    assert r.events[..|r.events|] == r.events;
  }

  lemma {:induction false} FollowOk(s: State, session: SessionId, after: int)
    requires Inv(s)
    ensures session in s.table.live ==> FollowerOk(Follower(s.table.live[session], after, 0, [], false, false, true), s.table)
    ensures session !in s.table.live && session in s.latest ==>
              && s.latest[session] in s.table.records
              && FollowerOk(Follower(s.latest[session], after, 0, Above(s.table.records[s.latest[session]].file, after), true, true, false),
                            s.table)
  {
  }

  lemma {:induction false} FollowersUpdate(followers: map<FollowerId, Follower>, t: Table, f: FollowerId, g: Follower)
    requires FollowersOk(followers, t) && FollowerOk(g, t)
    ensures FollowersOk(followers[f := g], t)
  {
  }

  lemma {:induction false} BeginKeeps(s: State, t: State, session: SessionId, turn: TurnId)
    requires Inv(s) && Step(s, Begin(session, turn)) == Some(t)
    ensures Inv(t) && TableMoves(s.table, t.table)
  {
    OpenedInv(s.table, session, turn);
    OpenedTableOk(s.table, session, turn);
    OwnerBegins(s.table, t.table, s.latest, s.owner, s.closing, session, turn);
    FollowersStable(s.followers, s.table, t.table);
  }

  lemma {:induction false} CloseKeeps(s: State, t: State, session: SessionId)
    requires Inv(s) && Step(s, Close(session)) == Some(t)
    ensures Inv(t) && TableMoves(s.table, t.table)
  {
    ClosedInKeeps(s.table, session);
    ClosedInDone(s.table, session);
    OwnerStable(s.table, t.table, s.latest, s.owner, s.closing);
    OwnerCloses(t.table, s.latest, s.owner, s.closing, session);
    FollowersStable(s.followers, s.table, t.table);
  }

  lemma {:induction false} NoteKeeps(s: State, t: State, session: SessionId, kind: Kind, data: string, written: bool)
    requires Inv(s) && Step(s, Note(session, kind, data, written)) == Some(t)
    ensures Inv(t) && TableMoves(s.table, t.table)
  {
    var b := NotedIn(s.table, session, kind, data, written);
    assert t == State(b, s.latest, s.owner, s.closing, s.followers);
    NotedInKeeps(s.table, session, kind, data, written);
    OwnerStable(s.table, b, s.latest, s.owner, s.closing);
    FollowersStable(s.followers, s.table, b);
  }

  lemma {:induction false} StepKeeps(s: State, e: Event)
    requires Inv(s) && Step(s, e).Some?
    ensures Inv(Step(s, e).value) && TableMoves(s.table, Step(s, e).value.table)
  {
    var t := Step(s, e).value;
    if e.Begin? {
      BeginKeeps(s, t, e.session, e.turn);
    } else if e.Note? {
      NoteKeeps(s, t, e.session, e.kind, e.data, e.written);
    } else if e.Close? {
      CloseKeeps(s, t, e.session);
    } else if e.Restart? {
      RestartKeeps(s, t);
    } else {
      MovesSelf(s.table);
      if e.Finish? {
        OwnerFinishes(s.table, s.latest, s.owner, s.closing, e.session);
      } else {
        if e.Follow? {
          FollowOk(s, e.session, e.after);
        } else if e.Poll? {
          PollKeeps(s.followers[e.f], s.table);
        }
        FollowersUpdate(s.followers, s.table, e.f, t.followers[e.f]);
      }
    }
  }

  // ---------------------------------------------------------------- what a run shows

  lemma {:induction false} RunKeeps(s: State, events: seq<Event>)
    requires Inv(s) && Run(s, events).Some?
    ensures Inv(Run(s, events).value) && TableMoves(s.table, Run(s, events).value.table)
    decreases |events|
  {
    MovesSelf(s.table);
    if events != [] {
      var t := Step(s, events[0]).value;
      StepKeeps(s, events[0]);
      RunKeeps(t, events[1..]);
      MovesTwice(s.table, t.table, Run(s, events).value.table);
    }
  }

  lemma {:induction false} MovesTwice(a: Table, b: Table, c: Table)
    requires TableMoves(a, b) && TableMoves(b, c)
    ensures TableMoves(a, c)
  {
    forall x | x in a.records ensures x in c.records && RecordMoves(a.records[x], c.records[x]) {
      assert RecordMoves(a.records[x], b.records[x]) && RecordMoves(b.records[x], c.records[x]);
    }
  }

  lemma {:induction false} ReachableInv(events: seq<Event>)
    requires Run(INITIAL, events).Some?
    ensures Inv(Run(INITIAL, events).value)
  {
    RunKeeps(INITIAL, events);
  }

  /** The numbers of a turn are 1..n; whatever runs later only appends, and after an event that ends the
      turn, or after the close, nothing is appended any more. */
  lemma {:induction false} NumberedAndFinal(before: seq<Event>, s: State, after: seq<Event>, turn: TurnId)
    requires Run(INITIAL, before) == Some(s) && Run(s, after).Some? && turn in s.table.records
    ensures var a := s.table.records[turn];
            && (forall k :: 0 <= k < |a.events| ==> a.events[k].number == k + 1)
            && (forall k :: 0 <= k < |a.events| && (a.events[k].kind.Error? || a.events[k].kind.Done?) ==>
                              k == |a.events| - 1 && a.done)
            && turn in Run(s, after).value.table.records
            && var b := Run(s, after).value.table.records[turn];
               a.events <= b.events && (a.done ==> b.done && b.events == a.events)
  {
    ReachableInv(before);
    RunKeeps(s, after);
    assert PlaceOk(s.table.records[turn], turn, s.table.live);
  }

  /** A write failure only skips its line: the file is the log without the failed numbers, and it is
      the whole log exactly when no write failed. */
  lemma {:induction false} FileIsLogIffNothingLost(events: seq<Event>, turn: TurnId)
    requires Run(INITIAL, events).Some? && turn in Run(INITIAL, events).value.table.records
    ensures var r := Run(INITIAL, events).value.table.records[turn];
            r.file == Kept(r.events, r.lost) && (r.file == r.events <==> r.lost == {})
  {
    ReachableInv(events);
    var s := Run(INITIAL, events).value;
    var r := s.table.records[turn];
    assert PlaceOk(r, turn, s.table.live);
    KeptAllIff(r.events, r.lost);
    if r.lost != {} {
      var n :| n in r.lost;
      assert r.events[n - 1].number == n;
    }
  }

  lemma {:induction false} KeptAllIff(events: seq<Entry>, lost: set<nat>)
    ensures |Kept(events, lost)| <= |events|
    ensures Kept(events, lost) == events <==> forall k :: 0 <= k < |events| ==> events[k].number !in lost
    decreases |events|
  {
    if events != [] {
      var n := |events| - 1;
      KeptAllIff(events[..n], lost);
      assert events == events[..n] + [events[n]];
      assert forall k :: 0 <= k < n ==> events[..n][k] == events[k];
    }
  }

  lemma {:induction false} AboveKept(events: seq<Entry>, lost: set<nat>, after: int)
    ensures Above(Kept(events, lost), after) == Kept(Above(events, after), lost)
    decreases |events|
  {
    if events != [] {
      var front, last := events[..|events| - 1], events[|events| - 1];
      AboveKept(front, lost, after);
      if last.number !in lost {
        AboveAppend(Kept(front, lost), last, after);
      } else {
        assert Kept(events, lost) == Kept(front, lost);
      }
      assert last.number <= after ==> Above(events, after) == Above(front, after);
    }
  }

  lemma {:induction false} SuffixNumbers(events: seq<Entry>, lost: set<nat>, after: int)
    requires Numbered(events) && forall n :: n in lost ==> 1 <= n <= |events|
    ensures (forall k :: 0 <= k < |events| - Clip(after, |events|) ==> events[Clip(after, |events|)..][k].number !in lost)
            <==> (forall n :: n in lost ==> n <= after)
  {
    var c := Clip(after, |events|);
    var suffix := events[c..];
    forall k | 0 <= k < |suffix| ensures suffix[k].number == c + k + 1 {
      assert suffix[k] == events[c + k];
    }
    if exists n :: n in lost && n > after {
      var n :| n in lost && n > after;
      assert suffix[n - 1 - c].number == n;
    }
  }

  /** What a reader at `after` gets from the file is what the memory log has, exactly when no write
      with a number above `after` failed. */
  lemma {:induction false} FileExact(r: Record, after: int)
    requires RecordOk(r)
    ensures Above(r.file, after) == Above(r.events, after) <==> forall n :: n in r.lost ==> n <= after
  {
    AboveKept(r.events, r.lost, after);
    AboveIsSuffix(r.events, after);
    SuffixNumbers(r.events, r.lost, after);
    KeptAllIff(r.events[Clip(after, |r.events|)..], r.lost);
  }

  /** Whether a follower can miss nothing: it reads memory, or no write above its start failed. */
  predicate Complete(f: Follower, r: Record) {
    f.fromFile ==> forall n :: n in r.lost ==> n <= f.after
  }

  /** A follower has, in order and once each, the entries after its start up to where it has read;
      a finished one has them all, and its log is done. */
  lemma {:induction false} FollowerSeesExactly(s: State, f: FollowerId)
    requires Inv(s) && f in s.followers
    requires s.followers[f].turn in s.table.records && Complete(s.followers[f], s.table.records[s.followers[f].turn])
    ensures var g, r := s.followers[f], s.table.records[s.followers[f].turn];
            && g.out <= r.events[Clip(g.after, |r.events|)..]
            && (g.ended ==> g.out == r.events[Clip(g.after, |r.events|)..] && (g.fromFile || r.done))
  {
    var g, r := s.followers[f], s.table.records[s.followers[f].turn];
    assert FollowerOk(g, s.table) && PlaceOk(r, g.turn, s.table.live);
    AboveIsSuffix(r.events, g.after);
    if g.fromFile {
      FileExact(r, g.after);
    } else {
      AboveIsSuffix(r.events[..g.i], g.after);
      assert r.events[..g.i][Clip(g.after, g.i)..] <= r.events[Clip(g.after, |r.events|)..];
      assert g.i == |r.events| ==> r.events[..g.i] == r.events;
    }
  }

  lemma {:induction false} PrefixResume(events: seq<Entry>, after: int, out: seq<Entry>, m: nat)
    requires Numbered(events) && out <= events[Clip(after, |events|)..] && m <= |out|
    ensures var k := if m == 0 then after else out[m - 1].number;
            out[..m] + events[Clip(k, |events|)..] == events[Clip(after, |events|)..]
  {
    var c := Clip(after, |events|);
    if m == 0 {
      assert out[..m] == [];
    } else {
      assert out[m - 1] == events[c..][m - 1] == events[c + m - 1];
      assert out[..m] == events[c..c + m];
      assert events[c..c + m] + events[c + m..] == events[c..];
    }
  }

  /** Stop and resume: a reader that received the first m entries of one follower and follows again
      from the last number it has gets, in both parts together, exactly the log from its first start. */
  lemma {:induction false} ResumeIsExact(events: seq<Event>, s: State, f: FollowerId, g: FollowerId, m: nat)
    requires Run(INITIAL, events) == Some(s) && f in s.followers && g in s.followers
    requires var a, b := s.followers[f], s.followers[g];
             && a.turn == b.turn && a.turn in s.table.records
             && Complete(a, s.table.records[a.turn]) && Complete(b, s.table.records[a.turn])
             && m <= |a.out| && b.ended
             && b.after == if m == 0 then a.after else a.out[m - 1].number
    ensures var a, b, r := s.followers[f], s.followers[g], s.table.records[s.followers[f].turn];
            a.out[..m] + b.out == r.events[Clip(a.after, |r.events|)..]
  {
    ReachableInv(events);
    var a, b, r := s.followers[f], s.followers[g], s.table.records[s.followers[f].turn];
    FollowerSeesExactly(s, f);
    FollowerSeesExactly(s, g);
    assert PlaceOk(r, a.turn, s.table.live);
    PrefixResume(r.events, a.after, a.out, m);
  }

  /** A follower's next round ends it exactly when the log is done, with everything above its start;
      and a turn whose producer has closed its listed log is done. */
  lemma {:induction false} EndsOnceDone(s: State, f: FollowerId)
    requires Inv(s) && f in s.followers && s.followers[f].alive && !s.followers[f].ended
    ensures s.followers[f].turn in s.table.records && Step(s, Poll(f)).Some?
    ensures var r, g := s.table.records[s.followers[f].turn], Step(s, Poll(f)).value.followers[f];
            && (g.ended <==> r.done)
            && g.out == r.events[Clip(g.after, |r.events|)..]
            && (r.session in s.closing && Listed(r.session, g.turn, s.table.live) ==> r.done)
  {
    var r := s.table.records[s.followers[f].turn];
    assert FollowerOk(s.followers[f], s.table) && PlaceOk(r, s.followers[f].turn, s.table.live);
    PollKeeps(s.followers[f], s.table);
    assert r.events[..|r.events|] == r.events;
    AboveIsSuffix(r.events, s.followers[f].after);
  }

  /** An event of the running turn goes to the running turn's record and to no other; it is dropped
      exactly when the session has been evicted (or the log is done, or it is a heartbeat). It is in the
      file too unless its write failed, and the log is done after it iff it is an error or the end. */
  lemma {:induction false} NoteReachesOwnRecord(s: State, session: SessionId, kind: Kind, data: string, written: bool, turn: TurnId)
    requires Inv(s) && Step(s, Note(session, kind, data, written)).Some? && turn in s.table.records
    ensures var t := Step(s, Note(session, kind, data, written)).value;
            && turn in t.table.records
            && (turn != s.owner[session] ==> t.table.records[turn] == s.table.records[turn])
            && (turn == s.owner[session] ==>
                  var a, b := s.table.records[turn], t.table.records[turn];
                  var e := Entry(|a.events| + 1, kind, data);
                  if session in s.table.live && kind != Heartbeat && !a.done
                  then && b.events == a.events + [e] && (b.done <==> kind in {Error, Done})
                       && b.file == (if written then a.file + [e] else a.file)
                       && b.lost == (if written then a.lost else a.lost + {e.number})
                  else b == a)
  {
    assert PlaceOk(s.table.records[turn], turn, s.table.live);
    NoteTarget(s.table, s.latest, s.owner, s.closing, session);
  }

  lemma {:induction false} NoteTarget(t: Table, latest: map<SessionId, TurnId>, owner: map<SessionId, TurnId>, closing: set<SessionId>,
                                      session: SessionId)
    requires TableInv(t) && OwnerInv(t, latest, owner, closing) && session in owner
    ensures owner[session] in t.records
    ensures session in t.live ==> t.live[session] == owner[session]
  {
  }

  lemma {:induction false} DistinctBound(order: seq<SessionId>, universe: set<SessionId>)
    requires Distinct(order) && forall x :: x in order ==> x in universe
    ensures |order| <= |universe|
    decreases |order|
  {
    if order != [] {
      TailDistinct(order);
      DistinctBound(order[1..], universe - {order[0]});
    }
  }

  /** Opening a turn evicts nobody exactly when fewer than 256 other sessions are listed; in
      particular while all sessions come from a set of at most 256. */
  lemma {:induction false} NobodyEvicted(t: Table, session: SessionId, turn: TurnId, universe: set<SessionId>)
    requires TableOk(t)
    ensures |Without(t.order, session)| < 256 <==>
            forall x :: x in t.live && x != session ==> x in Opened(t, session, turn).live
    ensures session in universe && |universe| <= 256 && (forall x :: x in t.live ==> x in universe) ==>
              |Without(t.order, session)| < 256
  {
    var rest := Without(t.order, session);
    WithoutDistinct(t.order, session);
    var b := Opened(t, session, turn);
    if |rest| >= LIVE_MAX_SESSIONS {
      assert rest[0] in rest;
      assert rest[0] !in Newest(rest);
      assert rest[0] in t.live && rest[0] !in b.live;
    } else {
      assert forall x :: x in t.live && x != session ==> x in OpenedOrder(t.order, session);
    }
    if session in universe && |universe| <= LIVE_MAX_SESSIONS && (forall x :: x in t.live ==> x in universe) {
      DistinctBound(rest, universe - {session});
    }
  }
}
