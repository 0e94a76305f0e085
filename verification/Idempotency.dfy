/** Idempotency keys (gateway/idempotency.py): the refcounted lock map, the response store, and any
    number of concurrent requests going through them in atomic steps. */
module Idempotency {
  import opened Wrappers

  /** A (scope, key) pair, a body fingerprint, a stored response: compared for equality only. */
  type Ident = nat
  type Body = nat
  type Response = nat
  type ReqId = nat

  datatype Entry = Entry(lock: nat, users: nat)
  datatype Row = Row(body: Body, response: Response, createdAt: nat)

  // ---------------------------------------------------------------- the lock map

  /** _enter: the key's lock (a new one when nobody uses the key) with one more user. */
  function Entered(table: map<Ident, Entry>, i: Ident, spare: nat): map<Ident, Entry> {
    if i in table then table[i := table[i].(users := table[i].users + 1)] else table[i := Entry(spare, 1)]
  }

  /** _leave: one user less; the last one removes the entry. */
  function Left(table: map<Ident, Entry>, i: Ident): map<Ident, Entry>
    requires i in table
  {
    if table[i].users <= 1 then table - {i} else table[i := table[i].(users := table[i].users - 1)]
  }

  /** _THREAD_LOCKS under its guard. */
  class LockMap {
    var table: map<Ident, Entry>
    var nextLock: nat

    method Enter(i: Ident) returns (lock: nat)
      modifies this
      ensures table == Entered(old(table), i, old(nextLock))
      ensures i in table && lock == table[i].lock
      ensures nextLock == old(nextLock) + 1
    {
      var entry := if i in table then table[i] else Entry(nextLock, 0);
      nextLock := nextLock + 1;
      table := table[i := Entry(entry.lock, entry.users + 1)];
      lock := entry.lock;
    }

    method Leave(i: Ident)
      requires i in table
      modifies this
      ensures table == Left(old(table), i) && nextLock == old(nextLock)
    {
      var entry := table[i];
      if entry.users <= 1 {
        table := table - {i};
      } else {
        table := table[i := Entry(entry.lock, entry.users - 1)];
      }
    }
  }

  // ---------------------------------------------------------------- the response store

  predicate Fresh(store: map<Ident, Row>, i: Ident, now: nat, ttl: nat) {
    i in store && now <= store[i].createdAt + ttl
  }

  datatype Found = Nothing | Reused | Stored(response: Response)

  /** lookup: nothing, the stored response, or a key already used for another body. */
  function Lookup(store: map<Ident, Row>, i: Ident, body: Body, now: nat, ttl: nat): Found {
    if !Fresh(store, i, now, ttl) then Nothing
    else if store[i].body != body then Reused
    else Stored(store[i].response)
  }

  /** _put: drop what has expired, then store the response under the key. */
  function Remembered(store: map<Ident, Row>, i: Ident, row: Row, ttl: nat): map<Ident, Row> {
    (map k | k in store && row.createdAt <= store[k].createdAt + ttl :: store[k])[i := row]
  }

  // ---------------------------------------------------------------- requests as atomic steps

  datatype Outcome = Replay(response: Response) | KeyReused | Ran | Crashed | GoneAway

  datatype Pc =
    | New
    | Polling(lock: nat)
    | Inside(lock: nat)
    | Running(lock: nat)
    | Completed(lock: nat, response: Response)
    | Unlocking(lock: nat, outcome: Outcome)
    | Leaving(lock: nat, outcome: Outcome)
    | Gone(outcome: Outcome)

  datatype Request = Request(ident: Ident, body: Body, pc: Pc)

  /** `started` lists the keys of all runs begun, oldest first. */
  datatype State = State(table: map<Ident, Entry>, nextLock: nat, held: map<nat, ReqId>, store: map<Ident, Row>,
                         reqs: map<ReqId, Request>, now: nat, ttl: nat, started: seq<Ident>)

  datatype Choice = Go | Disconnect | Succeed(response: Response) | NotStored | Crash

  datatype Event = Arrive(r: ReqId, ident: Ident, body: Body) | Do(r: ReqId, choice: Choice) | Tick(d: nat)

  function At(s: State, r: ReqId, pc: Pc): State
    requires r in s.reqs
  {
    s.(reqs := s.reqs[r := s.reqs[r].(pc := pc)])
  }

  function EnterStep(s: State, r: ReqId): State
    requires r in s.reqs
  {
    var table := Entered(s.table, s.reqs[r].ident, s.nextLock);
    At(s, r, Polling(table[s.reqs[r].ident].lock)).(table := table, nextLock := s.nextLock + 1)
  }

  function AcquireStep(s: State, r: ReqId, l: nat): State
    requires r in s.reqs
  {
    At(s, r, Inside(l)).(held := s.held[l := r])
  }

  function LookupStep(s: State, r: ReqId, l: nat): State
    requires r in s.reqs
  {
    match Lookup(s.store, s.reqs[r].ident, s.reqs[r].body, s.now, s.ttl)
    case Nothing => At(s, r, Running(l)).(started := s.started + [s.reqs[r].ident])
    case Reused => At(s, r, Unlocking(l, KeyReused))
    case Stored(response) => At(s, r, Unlocking(l, Replay(response)))
  }

  /** Only a completed 200 response is remembered; a refusal, a crash or a store failure is not. */
  function RememberStep(s: State, r: ReqId, l: nat, response: Response, c: Choice): State
    requires r in s.reqs
  {
    var t := At(s, r, Unlocking(l, Ran));
    if c.NotStored? then t
    else t.(store := Remembered(s.store, s.reqs[r].ident, Row(s.reqs[r].body, response, s.now), s.ttl))
  }

  function UnlockStep(s: State, r: ReqId, l: nat, outcome: Outcome): State
    requires r in s.reqs
  {
    At(s, r, Leaving(l, outcome)).(held := s.held - {l})
  }

  function LeaveStep(s: State, r: ReqId, outcome: Outcome): State
    requires r in s.reqs && s.reqs[r].ident in s.table
  {
    At(s, r, Gone(outcome)).(table := Left(s.table, s.reqs[r].ident))
  }

  /** One atomic step of request r; None when it cannot take this step now. */
  function StepOf(s: State, r: ReqId, c: Choice): Option<State>
    requires r in s.reqs
  {
    match s.reqs[r].pc
    case New => Some(EnterStep(s, r))
    case Polling(l) =>
      if c.Disconnect? then Some(At(s, r, Leaving(l, GoneAway)))
      else if l !in s.held then Some(AcquireStep(s, r, l))
      else None
    case Inside(l) =>
      // the store raises, or the request is cancelled while it waits for the store
      if c.Crash? then Some(At(s, r, Unlocking(l, Crashed))) else Some(LookupStep(s, r, l))
    case Running(l) =>
      (match c
       case Succeed(response) => Some(At(s, r, Completed(l, response)))
       case NotStored => Some(At(s, r, Unlocking(l, Ran)))
       case Crash => Some(At(s, r, Unlocking(l, Crashed)))
       case _ => None)
    case Completed(l, response) => Some(RememberStep(s, r, l, response, c))
    case Unlocking(l, outcome) => Some(UnlockStep(s, r, l, outcome))
    case Leaving(l, outcome) => if s.reqs[r].ident in s.table then Some(LeaveStep(s, r, outcome)) else None
    case Gone(_) => None
  }

  function Step(s: State, e: Event): Option<State> {
    match e
    case Arrive(r, i, body) => if r in s.reqs then None else Some(s.(reqs := s.reqs[r := Request(i, body, New)]))
    case Do(r, c) => if r in s.reqs then StepOf(s, r, c) else None
    case Tick(d) => Some(s.(now := s.now + d))
  }

  function Run(s: State, events: seq<Event>): Option<State>
    decreases |events|
  {
    if events == [] then Some(s)
    else
      var t := Step(s, events[0]);
      if t.None? then None else Run(t.value, events[1..])
  }

  // ---------------------------------------------------------------- the invariant

  predicate IsInside(pc: Pc) {
    !pc.New? && !pc.Gone?
  }

  predicate HoldsLock(pc: Pc) {
    pc.Inside? || pc.Running? || pc.Completed? || pc.Unlocking?
  }

  /** The requests of one key between _enter and _leave. */
  ghost function Users(reqs: map<ReqId, Request>, i: Ident): set<ReqId> {
    set r | r in reqs && reqs[r].ident == i && IsInside(reqs[r].pc)
  }

  /** An entry exists exactly while requests are inside, and counts them; no two keys share a lock. */
  ghost predicate TableOk(s: State) {
    && (forall i :: i in s.table ==> s.table[i].users == |Users(s.reqs, i)| && s.table[i].users > 0 && s.table[i].lock < s.nextLock)
    && (forall i :: i !in s.table ==> Users(s.reqs, i) == {})
    && (forall i, j :: i in s.table && j in s.table && s.table[i].lock == s.table[j].lock ==> i == j)
  }

  predicate ReqOk(q: Request, r: ReqId, table: map<Ident, Entry>, held: map<nat, ReqId>) {
    && (IsInside(q.pc) ==> q.ident in table && table[q.ident].lock == q.pc.lock)
    && (HoldsLock(q.pc) ==> q.pc.lock in held && held[q.pc.lock] == r)
  }

  predicate InRun(pc: Pc) {
    pc.Running? || pc.Completed?
  }

  ghost predicate ReqsOk(s: State) {
    forall r :: r in s.reqs ==> ReqOk(s.reqs[r], r, s.table, s.held)
  }

  /** Whoever runs found no fresh response, and none can have appeared since. */
  ghost predicate RunsOk(s: State) {
    forall r :: r in s.reqs && InRun(s.reqs[r].pc) ==> !Fresh(s.store, s.reqs[r].ident, s.now, s.ttl)
  }

  ghost predicate HeldOk(s: State) {
    forall l :: l in s.held ==> s.held[l] in s.reqs && HoldsLock(s.reqs[s.held[l]].pc) && s.reqs[s.held[l]].pc.lock == l
  }

  ghost predicate Inv(s: State) {
    TableOk(s) && ReqsOk(s) && RunsOk(s) && HeldOk(s)
  }

  lemma {:induction false} UsersAfter(reqs: map<ReqId, Request>, r: ReqId, q: Request, i: Ident)
    ensures Users(reqs[r := q], i) == if q.ident == i && IsInside(q.pc) then Users(reqs, i) + {r} else Users(reqs, i) - {r}
  {
  }

  /** A step that keeps r inside (or outside) its key and leaves the lock map alone. */
  lemma {:induction false} SameUsers(s: State, t: State, r: ReqId, q: Request)
    requires TableOk(s) && t.reqs == s.reqs[r := q] && t.table == s.table && t.nextLock >= s.nextLock
    requires r in s.reqs ==> s.reqs[r].ident == q.ident && (IsInside(s.reqs[r].pc) <==> IsInside(q.pc))
    requires r !in s.reqs ==> !IsInside(q.pc)
    ensures TableOk(t)
  {
    forall i ensures Users(t.reqs, i) == Users(s.reqs, i) {
      UsersAfter(s.reqs, r, q, i);
    }
  }

  /** Only one request holds the lock of a key. */
  lemma {:induction false} MutualExclusion(s: State, r: ReqId, x: ReqId)
    requires Inv(s) && r in s.reqs && x in s.reqs && s.reqs[r].ident == s.reqs[x].ident
    requires HoldsLock(s.reqs[r].pc) && HoldsLock(s.reqs[x].pc)
    ensures r == x
  {
    assert ReqOk(s.reqs[r], r, s.table, s.held) && ReqOk(s.reqs[x], x, s.table, s.held);
  }

  lemma {:induction false} EnterTable(s: State, r: ReqId)
    requires TableOk(s) && r in s.reqs && s.reqs[r].pc.New?
    ensures TableOk(EnterStep(s, r))
  {
    var t, i := EnterStep(s, r), s.reqs[r].ident;
    forall k ensures Users(t.reqs, k) == if k == i then Users(s.reqs, k) + {r} else Users(s.reqs, k) {
      UsersAfter(s.reqs, r, t.reqs[r], k);
    }
    assert r !in Users(s.reqs, i);
  }

  lemma {:induction false} EnterKeeps(s: State, r: ReqId)
    requires Inv(s) && r in s.reqs && s.reqs[r].pc.New?
    ensures Inv(EnterStep(s, r))
  {
    var t := EnterStep(s, r);
    EnterTable(s, r);
    forall x | x in t.reqs ensures ReqOk(t.reqs[x], x, t.table, t.held) {
      assert ReqOk(s.reqs[x], x, s.table, s.held);
    }
  }

  lemma {:induction false} LeaveTable(s: State, r: ReqId)
    requires TableOk(s) && r in s.reqs && s.reqs[r].pc.Leaving? && s.reqs[r].ident in s.table
    ensures TableOk(LeaveStep(s, r, s.reqs[r].pc.outcome))
  {
    var t, i := LeaveStep(s, r, s.reqs[r].pc.outcome), s.reqs[r].ident;
    forall k ensures Users(t.reqs, k) == if k == i then Users(s.reqs, k) - {r} else Users(s.reqs, k) {
      UsersAfter(s.reqs, r, t.reqs[r], k);
    }
    assert r in Users(s.reqs, i);
    if s.table[i].users <= 1 {
      OnlyUser(s, r);
    }
  }

  /** Another request inside the key keeps the entry alive when r leaves. */
  lemma {:induction false} LeaveSpares(s: State, r: ReqId, x: ReqId)
    requires TableOk(s) && r in s.reqs && s.reqs[r].pc.Leaving? && s.reqs[r].ident in s.table
    requires x in s.reqs && x != r && IsInside(s.reqs[x].pc) && s.reqs[x].ident == s.reqs[r].ident
    ensures s.table[s.reqs[r].ident].users > 1
  {
    AtLeastTwo(Users(s.reqs, s.reqs[r].ident), r, x);
  }

  lemma {:induction false} LeaveKeeps(s: State, r: ReqId)
    requires Inv(s) && r in s.reqs && s.reqs[r].pc.Leaving? && s.reqs[r].ident in s.table
    ensures Inv(LeaveStep(s, r, s.reqs[r].pc.outcome))
  {
    var t := LeaveStep(s, r, s.reqs[r].pc.outcome);
    LeaveTable(s, r);
    forall x | x in t.reqs ensures ReqOk(t.reqs[x], x, t.table, t.held) {
      assert ReqOk(s.reqs[x], x, s.table, s.held);
      if x != r && IsInside(s.reqs[x].pc) && s.reqs[x].ident == s.reqs[r].ident {
        LeaveSpares(s, r, x);
      }
    }
  }

  lemma {:induction false} AtLeastTwo(users: set<ReqId>, r: ReqId, x: ReqId)
    requires r in users && x in users && r != x
    ensures |users| >= 2
  {
    assert {r, x} <= users;
    assert |users - {r, x}| == |users| - |{r, x}|;
  }

  lemma {:induction false} OnlyUser(s: State, r: ReqId)
    requires TableOk(s) && r in s.reqs && IsInside(s.reqs[r].pc) && s.reqs[r].ident in s.table
    requires s.table[s.reqs[r].ident].users <= 1
    ensures Users(s.reqs, s.reqs[r].ident) == {r}
  {
    var users := Users(s.reqs, s.reqs[r].ident);
    assert r in users;
    if x :| x in users && x != r {
      AtLeastTwo(users, r, x);
    }
  }

  lemma {:induction false} AcquireKeeps(s: State, r: ReqId)
    requires Inv(s) && r in s.reqs && s.reqs[r].pc.Polling? && s.reqs[r].pc.lock !in s.held
    ensures Inv(AcquireStep(s, r, s.reqs[r].pc.lock))
  {
    var t := AcquireStep(s, r, s.reqs[r].pc.lock);
    SameUsers(s, t, r, t.reqs[r]);
    forall x | x in t.reqs ensures ReqOk(t.reqs[x], x, t.table, t.held) {
      assert ReqOk(s.reqs[x], x, s.table, s.held);
    }
  }

  lemma {:induction false} UnlockKeeps(s: State, r: ReqId)
    requires Inv(s) && r in s.reqs && s.reqs[r].pc.Unlocking?
    ensures Inv(UnlockStep(s, r, s.reqs[r].pc.lock, s.reqs[r].pc.outcome))
  {
    var t := UnlockStep(s, r, s.reqs[r].pc.lock, s.reqs[r].pc.outcome);
    SameUsers(s, t, r, t.reqs[r]);
    assert ReqOk(s.reqs[r], r, s.table, s.held);
    forall x | x in t.reqs ensures ReqOk(t.reqs[x], x, t.table, t.held) {
      assert ReqOk(s.reqs[x], x, s.table, s.held);
    }
  }

  /** A step inside the lock (or into _leave) that changes neither locks nor store. */
  lemma {:induction false} MoveKeeps(s: State, r: ReqId, pc: Pc)
    requires Inv(s) && r in s.reqs && IsInside(s.reqs[r].pc) && IsInside(pc) && pc.lock == s.reqs[r].pc.lock
    requires HoldsLock(s.reqs[r].pc) <==> HoldsLock(pc)
    requires InRun(pc) ==> !Fresh(s.store, s.reqs[r].ident, s.now, s.ttl)
    ensures Inv(At(s, r, pc))
  {
    var t := At(s, r, pc);
    SameUsers(s, t, r, t.reqs[r]);
    forall x | x in t.reqs ensures ReqOk(t.reqs[x], x, t.table, t.held) {
      assert ReqOk(s.reqs[x], x, s.table, s.held);
    }
  }

  /** Fields outside the lock map, the requests and the store do not matter to the invariant. */
  lemma {:induction false} StartedIrrelevant(s: State, started: seq<Ident>)
    requires Inv(s)
    ensures Inv(s.(started := started))
  {
  }

  lemma {:induction false} RememberKeeps(s: State, r: ReqId, c: Choice)
    requires Inv(s) && r in s.reqs && s.reqs[r].pc.Completed?
    ensures Inv(RememberStep(s, r, s.reqs[r].pc.lock, s.reqs[r].pc.response, c))
  {
    var t, m := RememberStep(s, r, s.reqs[r].pc.lock, s.reqs[r].pc.response, c), At(s, r, Unlocking(s.reqs[r].pc.lock, Ran));
    MoveKeeps(s, r, Unlocking(s.reqs[r].pc.lock, Ran));
    if !c.NotStored? {
      forall x | x in t.reqs && InRun(t.reqs[x].pc) ensures !Fresh(t.store, t.reqs[x].ident, t.now, t.ttl) {
        assert !Fresh(s.store, s.reqs[x].ident, s.now, s.ttl);
        if t.reqs[x].ident == s.reqs[r].ident {
          MutualExclusion(s, r, x);
        }
      }
      assert t == m.(store := t.store);
      assert ReqsOk(t) && HeldOk(t) by {
        assert forall x :: x in m.reqs ==> ReqOk(m.reqs[x], x, m.table, m.held);
      }
    }
  }

  lemma {:induction false} TickKeeps(s: State, d: nat)
    requires Inv(s)
    ensures Inv(s.(now := s.now + d))
  {
  }

  lemma {:induction false} StepKeeps(s: State, e: Event)
    requires Inv(s) && Step(s, e).Some?
    ensures Inv(Step(s, e).value)
  {
    match e
    case Arrive(r, i, body) =>
      var t := Step(s, e).value;
      SameUsers(s, t, r, t.reqs[r]);
      forall x | x in t.reqs ensures ReqOk(t.reqs[x], x, t.table, t.held) {
        assert x != r ==> ReqOk(s.reqs[x], x, s.table, s.held);
      }
    case Tick(d) => TickKeeps(s, d);
    case Do(r, c) => DoKeeps(s, r, c);
  }

  lemma {:induction false} LookupKeeps(s: State, r: ReqId)
    requires Inv(s) && r in s.reqs && s.reqs[r].pc.Inside?
    ensures Inv(LookupStep(s, r, s.reqs[r].pc.lock))
  {
    var t := LookupStep(s, r, s.reqs[r].pc.lock);
    MoveKeeps(s, r, t.reqs[r].pc);
    StartedIrrelevant(At(s, r, t.reqs[r].pc), t.started);
  }

  lemma {:induction false} DoKeeps(s: State, r: ReqId, c: Choice)
    requires Inv(s) && r in s.reqs && StepOf(s, r, c).Some?
    ensures Inv(StepOf(s, r, c).value)
  {
    match s.reqs[r].pc {
      case New => EnterKeeps(s, r);
      case Polling(l) =>
        if c.Disconnect? {
          MoveKeeps(s, r, Leaving(l, GoneAway));
        } else {
          AcquireKeeps(s, r);
        }
      case Inside(l) =>
        if c.Crash? {
          MoveKeeps(s, r, Unlocking(l, Crashed));
        } else {
          LookupKeeps(s, r);
        }
      case Running(l) => MoveKeeps(s, r, StepOf(s, r, c).value.reqs[r].pc);
      case Completed(l, response) => RememberKeeps(s, r, c);
      case Unlocking(l, outcome) => UnlockKeeps(s, r);
      case Leaving(l, outcome) => LeaveKeeps(s, r);
    }
  }

  lemma {:induction false} RunKeeps(s: State, events: seq<Event>)
    requires Inv(s) && Run(s, events).Some?
    ensures Inv(Run(s, events).value)
    decreases |events|
  {
    if events != [] {
      StepKeeps(s, events[0]);
      RunKeeps(Step(s, events[0]).value, events[1..]);
    }
  }

  // ---------------------------------------------------------------- what the invariant gives

  ghost predicate Initial(s: State) {
    s.table == map[] && s.held == map[] && s.reqs == map[] && s.started == []
  }

  lemma {:induction false} InitialInv(s: State)
    requires Initial(s)
    ensures Inv(s)
  {
    assert forall i :: Users(s.reqs, i) == {};
  }

  /** In every reachable state an entry exists exactly while requests are inside its key, counts them, and
      all of them share its lock; and at most one of them runs. */
  lemma {:induction false} LockMapExact(s: State, events: seq<Event>, i: Ident)
    requires Initial(s) && Run(s, events).Some?
    ensures var t := Run(s, events).value;
            && (i in t.table <==> Users(t.reqs, i) != {})
            && (i in t.table ==> t.table[i].users == |Users(t.reqs, i)|)
            && (forall r :: i in t.table && r in Users(t.reqs, i) ==> t.reqs[r].pc.lock == t.table[i].lock)
            && (forall r, x :: (r in Users(t.reqs, i) && x in Users(t.reqs, i)
                                && HoldsLock(t.reqs[r].pc) && HoldsLock(t.reqs[x].pc)) ==> r == x)
  {
    InitialInv(s);
    RunKeeps(s, events);
    var t := Run(s, events).value;
    assert forall r :: r in t.reqs ==> ReqOk(t.reqs[r], r, t.table, t.held);
  }

  function CountOf(xs: seq<Ident>, i: Ident): nat {
    if xs == [] then 0 else CountOf(xs[..|xs| - 1], i) + if xs[|xs| - 1] == i then 1 else 0
  }

  lemma {:induction false} FreshStays(s: State, e: Event, i: Ident)
    requires Inv(s) && Step(s, e).Some? && Fresh(s.store, i, s.now, s.ttl)
    requires Step(s, e).value.now <= s.store[i].createdAt + s.ttl
    ensures var t := Step(s, e).value;
            t.ttl == s.ttl && s.now <= t.now && i in t.store && t.store[i] == s.store[i]
            && CountOf(t.started, i) == CountOf(s.started, i)
  {
    if e.Do? {
      if s.reqs[e.r].pc.Inside? {
        LookupStarts(s, e.r, i);
      } else if s.reqs[e.r].pc.Completed? {
        assert !Fresh(s.store, s.reqs[e.r].ident, s.now, s.ttl);
      }
    }
  }

  lemma {:induction false} LookupStarts(s: State, r: ReqId, i: Ident)
    requires r in s.reqs && s.reqs[r].pc.Inside? && Fresh(s.store, i, s.now, s.ttl)
    ensures CountOf(LookupStep(s, r, s.reqs[r].pc.lock).started, i) == CountOf(s.started, i)
  {
    var started := s.started + [s.reqs[r].ident];
    assert started[..|started| - 1] == s.started;
  }

  /** Within the TTL: from the moment a response is stored, no run of that key starts again, and the stored
      response stays what it is, whatever the other requests do. */
  lemma {:induction false} NoSecondRun(s: State, events: seq<Event>, i: Ident)
    requires Inv(s) && Run(s, events).Some? && Fresh(s.store, i, s.now, s.ttl)
    requires Run(s, events).value.now <= s.store[i].createdAt + s.ttl
    ensures var t := Run(s, events).value;
            i in t.store && t.store[i] == s.store[i] && CountOf(t.started, i) == CountOf(s.started, i)
    decreases |events|
  {
    if events != [] {
      var m := Step(s, events[0]).value;
      TimeGrows(m, events[1..]);
      FreshStays(s, events[0], i);
      StepKeeps(s, events[0]);
      NoSecondRun(m, events[1..], i);
    }
  }

  lemma {:induction false} TimeGrows(s: State, events: seq<Event>)
    requires Run(s, events).Some?
    ensures s.now <= Run(s, events).value.now
    decreases |events|
  {
    if events != [] {
      TimeGrows(Step(s, events[0]).value, events[1..]);
    }
  }

  /** A request that gets the lock while a response is fresh replays it to the same body and refuses any
      other; neither starts a run. A run starts exactly when the lookup succeeds and finds nothing fresh. */
  lemma {:induction false} LookupDecides(s: State, r: ReqId, c: Choice)
    requires r in s.reqs && s.reqs[r].pc.Inside?
    ensures Step(s, Do(r, c)).Some?
    ensures var t, q := Step(s, Do(r, c)).value, s.reqs[r];
            var stored := Fresh(s.store, q.ident, s.now, s.ttl);
            && (t.reqs[r].pc.Running? <==> !stored && !c.Crash?)
            && (t.started != s.started <==> !stored && !c.Crash?)
            && (c.Crash? ==> t.reqs[r].pc == Unlocking(q.pc.lock, Crashed))
            && (stored && !c.Crash? ==>
                  t.reqs[r].pc == Unlocking(q.pc.lock, if s.store[q.ident].body == q.body
                                                       then Replay(s.store[q.ident].response) else KeyReused))
  {
    var t := Step(s, Do(r, c)).value;
    assert t.started == s.started || |t.started| == |s.started| + 1;
  }

  /** What a successful run stores is what an equal request is answered with, and storing it changes no
      other key's answer although expired rows are dropped. */
  lemma {:induction false} StoredIsReplayed(s: State, r: ReqId)
    requires r in s.reqs && s.reqs[r].pc.Completed?
    ensures var q, t := s.reqs[r], RememberStep(s, r, s.reqs[r].pc.lock, s.reqs[r].pc.response, Go);
            && Fresh(t.store, q.ident, t.now, t.ttl)
            && Lookup(t.store, q.ident, q.body, t.now, t.ttl) == Stored(q.pc.response)
            && (forall k, b :: k != q.ident ==> Lookup(t.store, k, b, t.now, t.ttl) == Lookup(s.store, k, b, s.now, s.ttl))
  {
  }

  // ---------------------------------------------------------------- from a success to every later answer

  /** Nobody but r moves r. */
  ghost predicate Spared(events: seq<Event>, r: ReqId) {
    forall e :: e in events ==> !(e.Do? && e.r == r)
  }

  lemma {:induction false} OthersSpare(s: State, e: Event, r: ReqId)
    requires r in s.reqs && Step(s, e).Some? && !(e.Do? && e.r == r)
    ensures r in Step(s, e).value.reqs && Step(s, e).value.reqs[r] == s.reqs[r] && Step(s, e).value.ttl == s.ttl
  {
  }

  lemma {:induction false} RunSpares(s: State, events: seq<Event>, r: ReqId)
    requires r in s.reqs && Run(s, events).Some? && Spared(events, r)
    ensures r in Run(s, events).value.reqs && Run(s, events).value.reqs[r] == s.reqs[r] && Run(s, events).value.ttl == s.ttl
    decreases |events|
  {
    if events != [] {
      assert events[0] in events;
      OthersSpare(s, events[0], r);
      RunSpares(Step(s, events[0]).value, events[1..], r);
    }
  }

  lemma {:induction false} RunTwice(s: State, a: seq<Event>, b: seq<Event>)
    requires Run(s, a).Some?
    ensures Run(s, a + b) == Run(Run(s, a).value, b)
    decreases |a|
  {
    if a == [] {
      assert a + b == b;
    } else {
      assert (a + b)[0] == a[0] && (a + b)[1..] == a[1..] + b;
      RunTwice(Step(s, a[0]).value, a[1..], b);
    }
  }

  lemma {:induction false} RunOne(s: State, e: Event)
    ensures Run(s, [e]) == Step(s, e)
  {
    assert [e][1..] == [];
  }

  /** The two steps of a success. */
  lemma {:induction false} SucceedStep(s: State, r: ReqId, x: Response) returns (m: State)
    requires r in s.reqs && s.reqs[r].pc.Running?
    ensures Step(s, Do(r, Succeed(x))) == Some(m) && m == At(s, r, Completed(s.reqs[r].pc.lock, x))
  {
    m := Step(s, Do(r, Succeed(x))).value;
  }

  lemma {:induction false} RememberedStep(m: State, r: ReqId) returns (t: State)
    requires r in m.reqs && m.reqs[r].pc.Completed?
    ensures Step(m, Do(r, Go)) == Some(t)
    ensures var q := m.reqs[r];
            && t.reqs == m.reqs[r := q.(pc := Unlocking(q.pc.lock, Ran))]
            && q.ident in t.store && t.store[q.ident] == Row(q.body, q.pc.response, m.now)
            && t.now == m.now && t.ttl == m.ttl && t.started == m.started
  {
    t := Step(m, Do(r, Go)).value;
  }

  /** A run that succeeds with x ends by storing x under its key, whatever the others do between the two steps. */
  lemma {:induction false} SuccessIsStored(s: State, r: ReqId, x: Response, mid: seq<Event>, m: State) returns (t: State)
    requires Inv(s) && r in s.reqs && s.reqs[r].pc.Running? && Spared(mid, r)
    requires Run(s, [Do(r, Succeed(x))] + mid) == Some(m)
    ensures Run(s, [Do(r, Succeed(x))] + mid + [Do(r, Go)]) == Some(t) && Inv(t)
    ensures var q := s.reqs[r];
            && r in t.reqs && t.reqs[r] == q.(pc := Unlocking(q.pc.lock, Ran))
            && q.ident in t.store && t.store[q.ident] == Row(q.body, x, m.now)
            && t.now == m.now && t.ttl == s.ttl && t.started == m.started
  {
    var a, z := [Do(r, Succeed(x))], [Do(r, Go)];
    RunKeeps(s, a + mid);
    var b := SucceedStep(s, r, x);
    RunOne(s, a[0]);
    RunTwice(s, a, mid);
    RunSpares(b, mid, r);
    t := RememberedStep(m, r);
    RunTwice(s, a + mid, z);
    RunOne(m, z[0]);
    StepKeeps(m, z[0]);
  }

  /** If y is about to look key i up, and the lookup succeeds, it starts no run: it is answered x for the same body
      and refused for another. */
  predicate Served(u: State, y: ReqId, c: Choice, i: Ident, body: Body, x: Response) {
    y in u.reqs && u.reqs[y].ident == i && u.reqs[y].pc.Inside? && !c.Crash? ==>
      var v, q := StepOf(u, y, c), u.reqs[y];
      v == Some(At(u, y, Unlocking(q.pc.lock, if q.body == body then Replay(x) else KeyReused)))
  }

  /** Once x is stored for a body, then in every continuation within the TTL no run of the key starts, and every
      request for it whose lookup succeeds is answered from it. */
  lemma {:induction false} StoredServesAll(s: State, events: seq<Event>, i: Ident, y: ReqId, c: Choice)
    requires Inv(s) && i in s.store && s.now <= s.store[i].createdAt + s.ttl
    requires Run(s, events).Some? && Run(s, events).value.now <= s.store[i].createdAt + s.ttl
    ensures var u := Run(s, events).value;
            CountOf(u.started, i) == CountOf(s.started, i) && Served(u, y, c, i, s.store[i].body, s.store[i].response)
  {
    NoSecondRun(s, events, i);
    TtlStays(s, events);
    TimeGrows(s, events);
  }

  lemma {:induction false} TtlStays(s: State, events: seq<Event>)
    requires Run(s, events).Some?
    ensures Run(s, events).value.ttl == s.ttl
    decreases |events|
  {
    if events != [] {
      TtlStays(Step(s, events[0]).value, events[1..]);
    }
  }

  /** A success is answered from for the whole TTL: no further run of its key starts, and equal requests get its
      response. */
  lemma {:induction false} SuccessServesAll(s: State, r: ReqId, x: Response, mid: seq<Event>, m: State, events: seq<Event>, y: ReqId,
                                            c: Choice)
    returns (t: State)
    requires Inv(s) && r in s.reqs && s.reqs[r].pc.Running? && Spared(mid, r)
    requires Run(s, [Do(r, Succeed(x))] + mid) == Some(m)
    ensures Run(s, [Do(r, Succeed(x))] + mid + [Do(r, Go)]) == Some(t)
    ensures Run(t, events).Some? && Run(t, events).value.now <= m.now + s.ttl ==>
              var i, u := s.reqs[r].ident, Run(t, events).value;
              CountOf(u.started, i) == CountOf(m.started, i) && Served(u, y, c, i, s.reqs[r].body, x)
  {
    t := SuccessIsStored(s, r, x, mid, m);
    if Run(t, events).Some? && Run(t, events).value.now <= m.now + s.ttl {
      StoredServesAll(t, events, s.reqs[r].ident, y, c);
    }
  }

  /** A decided outcome is what the request leaves with. */
  predicate Decided(pc: Pc, o: Outcome) {
    match pc
    case Unlocking(_, x) => x == o
    case Leaving(_, x) => x == o
    case Gone(x) => x == o
    case _ => false
  }

  lemma {:induction false} OutcomeStands(s: State, events: seq<Event>, r: ReqId, o: Outcome)
    requires r in s.reqs && Decided(s.reqs[r].pc, o) && Run(s, events).Some?
    ensures r in Run(s, events).value.reqs && Decided(Run(s, events).value.reqs[r].pc, o)
    decreases |events|
  {
    if events != [] {
      if !(events[0].Do? && events[0].r == r) {
        OthersSpare(s, events[0], r);
      }
      OutcomeStands(Step(s, events[0]).value, events[1..], r, o);
    }
  }

  /** A run that is answered without being stored, or that raises, leaves the store as it was and ends as what
      it was. */
  lemma {:induction false} FailureStoresNothing(s: State, r: ReqId, c: Choice, a: State, b: State, t: State)
    requires Inv(s) && r in s.reqs && s.reqs[r].pc.Running? && !c.Succeed?
    requires Step(s, Do(r, c)) == Some(a) && Step(a, Do(r, Go)) == Some(b) && Step(b, Do(r, Go)) == Some(t)
    ensures t.store == s.store && t.started == s.started
    ensures r in t.reqs && t.reqs[r].pc == Gone(if c.Crash? then Crashed else Ran)
  {
    FailureUnlocks(s, r, c, a);
    UnlockLeaves(a, r, b);
    LeaveEnds(b, r, t);
  }

  lemma {:induction false} FailureUnlocks(s: State, r: ReqId, c: Choice, a: State)
    requires r in s.reqs && s.reqs[r].pc.Running? && !c.Succeed? && Step(s, Do(r, c)) == Some(a)
    ensures a.store == s.store && a.started == s.started && r in a.reqs
    ensures a.reqs[r].pc == Unlocking(s.reqs[r].pc.lock, if c.Crash? then Crashed else Ran)
  {
  }

  lemma {:induction false} UnlockLeaves(s: State, r: ReqId, t: State)
    requires r in s.reqs && s.reqs[r].pc.Unlocking? && Step(s, Do(r, Go)) == Some(t)
    ensures t.store == s.store && t.started == s.started && r in t.reqs
    ensures t.reqs[r].pc == Leaving(s.reqs[r].pc.lock, s.reqs[r].pc.outcome)
  {
  }

  lemma {:induction false} LeaveEnds(s: State, r: ReqId, t: State)
    requires r in s.reqs && s.reqs[r].pc.Leaving? && Step(s, Do(r, Go)) == Some(t)
    ensures t.store == s.store && t.started == s.started && r in t.reqs && t.reqs[r].pc == Gone(s.reqs[r].pc.outcome)
  {
  }

  /** Storing a response takes out every expired row, keeps every other one, and adds its own. */
  lemma {:induction false} StoringExpires(s: State, r: ReqId, c: Choice, t: State, i: Ident)
    requires r in s.reqs && s.reqs[r].pc.Completed? && !c.NotStored? && Step(s, Do(r, c)) == Some(t)
    ensures i in t.store ==> t.now <= t.store[i].createdAt + t.ttl
    ensures i != s.reqs[r].ident ==>
              (i in t.store <==> i in s.store && s.now <= s.store[i].createdAt + s.ttl)
              && (i in t.store ==> t.store[i] == s.store[i])
    ensures s.reqs[r].ident in t.store && t.store[s.reqs[r].ident] == Row(s.reqs[r].body, s.reqs[r].pc.response, s.now)
  {
  }
}
