/** Run slots, session locks and draining in the tender link (gateway/web_link.py, _locked_run): any
    number of requests and their late tool workers, as interleaved atomic steps. */
module WebLink {
  import opened Wrappers
  import opened WebRetention

  type ReqId = nat
  type LockId = nat

  // ---------------------------------------------------------------- the shared tables

  /** _RUNS (free slots), _SESSION_USERS, _SESSION_LOCKS and _DRAINING_SESSIONS; `made` names the next lock. */
  datatype Shared = Shared(slots: nat, users: map<SessionId, nat>, locks: map<SessionId, LockId>,
                           draining: set<SessionId>, made: LockId)

  function LockOf(sh: Shared, session: SessionId): LockId {
    if session in sh.locks then sh.locks[session] else sh.made
  }

  /** Registration: the session's lock, created on first use, and one more user. */
  function Registered(sh: Shared, session: SessionId): Shared {
    sh.(users := sh.users[session := (if session in sh.users then sh.users[session] else 0) + 1],
        locks := sh.locks[session := LockOf(sh, session)],
        made := sh.made + 1)
  }

  /** One user less; the last one takes the session's lock with it. */
  function Left(sh: Shared, session: SessionId, acquired: bool): Shared
    requires session in sh.users
  {
    var t := sh.(draining := if acquired then sh.draining - {session} else sh.draining);
    if sh.users[session] <= 1 then t.(users := sh.users - {session}, locks := sh.locks - {session})
    else t.(users := sh.users[session := sh.users[session] - 1])
  }

  class LinkRuns {
    var slots: nat
    var users: map<SessionId, nat>
    var locks: map<SessionId, LockId>
    var draining: set<SessionId>
    var made: LockId

    function View(): Shared
      reads this
    {
      Shared(slots, users, locks, draining, made)
    }

    /** _RUNS.acquire(blocking=False) */
    method TryAcquire() returns (ok: bool)
      modifies this`slots
      ensures ok <==> old(slots) > 0
      ensures slots == if ok then old(slots) - 1 else old(slots)
    {
      ok := slots > 0;
      if ok {
        slots := slots - 1;
      }
    }

    /** Refused while the session drains, with nothing registered. */
    method Register(session: SessionId) returns (lock: Option<LockId>)
      modifies this`users, this`locks, this`made
      ensures lock.None? <==> session in draining
      ensures View() == if lock.None? then old(View()) else Registered(old(View()), session)
      ensures lock.Some? ==> session in locks && locks[session] == lock.value
    {
      if session in draining {
        return None;
      }
      if session !in locks {
        locks := locks[session := made];
      }
      made := made + 1;
      var count := if session in users then users[session] else 0;
      users := users[session := count + 1];
      assert locks == old(View()).locks[session := LockOf(old(View()), session)];
      lock := Some(locks[session]);
    }

    /** The bookkeeping of release, and what it protects from pruning. */
    method Leave(session: SessionId, acquired: bool, folders: LinkFolders)
      requires session in users
      modifies this`users, this`locks, this`draining, folders
      ensures View() == Left(old(View()), session, acquired)
      ensures folders.root == Pruned(old(folders.root), users.Keys)
    {
      if acquired {
        draining := draining - {session};
      }
      if users[session] <= 1 {
        users := users - {session};
        locks := locks - {session};
      } else {
        users := users[session := users[session] - 1];
      }
      folders.PruneIdle(users.Keys);
    }
  }

  // ---------------------------------------------------------------- requests as atomic steps

  datatype Pc =
    | SlotHeld
    | Refusing
    | Waiting(lock: LockId)
    | Working(lock: LockId)
    | Draining(lock: LockId, acquired: bool, index: nat)
    | Freed
    | Over

  /** workers: the engine runs a request has started, true once their workers have exited. */
  datatype Request = Request(session: SessionId, pc: Pc, workers: seq<bool>)

  datatype State = State(sh: Shared, holder: map<LockId, ReqId>, reqs: map<ReqId, Request>, root: Root)

  datatype Event =
    | Enter(r: ReqId, session: SessionId)
    | Register(r: ReqId)
    | Refuse(r: ReqId)
    | TakeLock(r: ReqId)
    | TimeOut(r: ReqId)
    | StartTool(r: ReqId)
    | NewJob(r: ReqId, job: JobId, demo: bool, mtime: nat)
    | WorkerIdle(r: ReqId, i: nat)
    | EndWork(r: ReqId)
    | NextWorker(r: ReqId)
    | Release(r: ReqId)
    | FreeSlot(r: ReqId)

  function At(s: State, r: ReqId, pc: Pc): State
    requires r in s.reqs
  {
    s.(reqs := s.reqs[r := s.reqs[r].(pc := pc)])
  }

  function WithJob(root: Root, session: SessionId, job: JobId, demo: bool, mtime: nat): Root {
    if session in root then root[session := Folder(root[session].demo, mtime, root[session].jobs + {job})]
    else root[session := Folder(demo, mtime, {job})]
  }

  function StepOf(s: State, e: Event, r: ReqId): Option<State>
    requires r in s.reqs
  {
    var q := s.reqs[r];
    match e
    case Enter(_, _) => None
    case Register(_) =>
      if !q.pc.SlotHeld? then None
      else if q.session in s.sh.draining then Some(At(s, r, Refusing))
      else Some(At(s, r, Waiting(LockOf(s.sh, q.session))).(sh := Registered(s.sh, q.session)))
    case Refuse(_) =>
      if !q.pc.Refusing? then None
      else Some(At(s, r, Over).(sh := s.sh.(slots := s.sh.slots + 1)))
    case TakeLock(_) =>
      if !q.pc.Waiting? || q.pc.lock in s.holder then None
      else Some(At(s, r, Working(q.pc.lock)).(holder := s.holder[q.pc.lock := r]))
    case TimeOut(_) =>
      if !q.pc.Waiting? then None else Some(At(s, r, Draining(q.pc.lock, false, 0)))
    case StartTool(_) =>
      if !q.pc.Working? then None
      else Some(s.(reqs := s.reqs[r := q.(workers := q.workers + [false])]))
    case NewJob(_, job, demo, mtime) =>
      if !q.pc.Working? then None
      else Some(s.(root := WithJob(s.root, q.session, job, demo, mtime)))
    case WorkerIdle(_, i) =>
      if i >= |q.workers| then None
      else Some(s.(reqs := s.reqs[r := q.(workers := q.workers[i := true])]))
    case EndWork(_) =>
      if !q.pc.Working? then None
      else Some(At(s, r, Draining(q.pc.lock, true, 0)).(sh := s.sh.(draining := s.sh.draining + {q.session})))
    case NextWorker(_) =>
      // when_idle of worker `index` calls back
      if !q.pc.Draining? || q.pc.index >= |q.workers| || !q.workers[q.pc.index] then None
      else Some(At(s, r, q.pc.(index := q.pc.index + 1)))
    case Release(_) =>
      if !q.pc.Draining? || q.pc.index != |q.workers| || q.session !in s.sh.users then None
      else
        var sh := Left(s.sh, q.session, q.pc.acquired);
        Some(At(s, r, Freed).(sh := sh, holder := if q.pc.acquired then s.holder - {q.pc.lock} else s.holder,
                              root := Pruned(s.root, sh.users.Keys)))
    case FreeSlot(_) =>
      if !q.pc.Freed? then None
      else Some(At(s, r, Over).(sh := s.sh.(slots := s.sh.slots + 1)))
  }

  function Step(s: State, e: Event): Option<State> {
    if e.Enter? then
      if e.r in s.reqs then None
      else if s.sh.slots == 0 then Some(s.(reqs := s.reqs[e.r := Request(e.session, Over, [])]))
      else Some(s.(sh := s.sh.(slots := s.sh.slots - 1), reqs := s.reqs[e.r := Request(e.session, SlotHeld, [])]))
    else if e.r in s.reqs then StepOf(s, e, e.r) else None
  }

  function Run(s: State, events: seq<Event>): Option<State>
    decreases |events|
  {
    if events == [] then Some(s)
    else
      var t := Step(s, events[0]);
      if t.None? then None else Run(t.value, events[1..])
  }

  /** A server starts over whatever the root holds. */
  function Initial(limit: nat, root: Root): State {
    State(Shared(limit, map[], map[], {}, 0), map[], map[], root)
  }

  // ---------------------------------------------------------------- the invariant

  predicate HoldsSlot(pc: Pc) {
    !pc.Over?
  }

  predicate IsUser(pc: Pc) {
    pc.Waiting? || pc.Working? || pc.Draining?
  }

  predicate HoldsLock(pc: Pc) {
    pc.Working? || (pc.Draining? && pc.acquired)
  }

  function Holding(reqs: map<ReqId, Request>): set<ReqId> {
    set r | r in reqs && HoldsSlot(reqs[r].pc)
  }

  function UsersOf(reqs: map<ReqId, Request>, session: SessionId): set<ReqId> {
    set r | r in reqs && reqs[r].session == session && IsUser(reqs[r].pc)
  }

  predicate AllIdle(workers: seq<bool>, n: nat)
    requires n <= |workers|
  {
    forall i :: 0 <= i < n ==> workers[i]
  }

  /** Every slot is free or held by one request that has not given it back. */
  predicate SlotsOk(slots: nat, reqs: map<ReqId, Request>, limit: nat) {
    slots + |Holding(reqs)| == limit
  }

  predicate CountOk(users: map<SessionId, nat>, x: SessionId, n: nat) {
    if x in users then users[x] == n && n > 0 else n == 0
  }

  /** The user counts are the number of requests in each session. */
  ghost predicate CountsOk(users: map<SessionId, nat>, reqs: map<ReqId, Request>) {
    forall x: SessionId :: CountOk(users, x, |UsersOf(reqs, x)|)
  }

  /** The lock map has the domain of the user counts, and no two sessions share a lock. */
  ghost predicate LocksOk(users: map<SessionId, nat>, locks: map<SessionId, LockId>, made: LockId) {
    && users.Keys == locks.Keys
    && (forall x :: x in locks ==> locks[x] < made)
    && (forall x, y :: x in locks && y in locks && locks[x] == locks[y] ==> x == y)
  }

  predicate ReqOk(q: Request, r: ReqId, locks: map<SessionId, LockId>, draining: set<SessionId>, holder: map<LockId, ReqId>) {
    && (IsUser(q.pc) ==> q.session in locks && locks[q.session] == q.pc.lock)
    && (HoldsLock(q.pc) ==> q.pc.lock in holder && holder[q.pc.lock] == r)
    && (q.pc.SlotHeld? || q.pc.Refusing? || q.pc.Waiting? ==> q.workers == [])
    && (q.pc.Draining? ==> q.pc.index <= |q.workers| && AllIdle(q.workers, q.pc.index))
    && (q.pc.Draining? && q.pc.acquired ==> q.session in draining)
    && (q.pc.Freed? || q.pc.Over? ==> AllIdle(q.workers, |q.workers|))
  }

  ghost predicate ReqsOk(reqs: map<ReqId, Request>, locks: map<SessionId, LockId>, draining: set<SessionId>, holder: map<LockId, ReqId>) {
    forall r :: r in reqs ==> ReqOk(reqs[r], r, locks, draining, holder)
  }

  predicate Holds(reqs: map<ReqId, Request>, r: ReqId, l: LockId) {
    r in reqs && HoldsLock(reqs[r].pc) && reqs[r].pc.lock == l
  }

  ghost predicate HolderOk(holder: map<LockId, ReqId>, reqs: map<ReqId, Request>) {
    forall l :: l in holder ==> Holds(reqs, holder[l], l)
  }

  predicate DrainsAt(x: SessionId, locks: map<SessionId, LockId>, holder: map<LockId, ReqId>, reqs: map<ReqId, Request>) {
    && x in locks && locks[x] in holder
    && holder[locks[x]] in reqs && reqs[holder[locks[x]]].pc.Draining?
  }

  /** A draining session is one whose lock holder waits for its workers. */
  ghost predicate DrainingOk(draining: set<SessionId>, locks: map<SessionId, LockId>, holder: map<LockId, ReqId>, reqs: map<ReqId, Request>) {
    forall x :: x in draining ==> DrainsAt(x, locks, holder, reqs)
  }

  ghost predicate Inv(s: State, limit: nat) {
    && SlotsOk(s.sh.slots, s.reqs, limit)
    && CountsOk(s.sh.users, s.reqs)
    && LocksOk(s.sh.users, s.sh.locks, s.sh.made)
    && ReqsOk(s.reqs, s.sh.locks, s.sh.draining, s.holder)
    && HolderOk(s.holder, s.reqs)
    && DrainingOk(s.sh.draining, s.sh.locks, s.holder, s.reqs)
  }

  // ---------------------------------------------------------------- steps keep the invariant

  lemma {:induction false} SlotsAfter(reqs: map<ReqId, Request>, r: ReqId, q: Request, slots: nat, left: nat, limit: nat)
    requires SlotsOk(slots, reqs, limit)
    requires var before, after := r in reqs && HoldsSlot(reqs[r].pc), HoldsSlot(q.pc);
             slots + (if before then 1 else 0) == left + if after then 1 else 0
    ensures SlotsOk(left, reqs[r := q], limit)
  {
    assert Holding(reqs[r := q]) == if HoldsSlot(q.pc) then Holding(reqs) + {r} else Holding(reqs) - {r};
    assert r in Holding(reqs) <==> r in reqs && HoldsSlot(reqs[r].pc);
  }

  lemma {:induction false} UsersAfter(reqs: map<ReqId, Request>, r: ReqId, q: Request, x: SessionId)
    requires r in reqs ==> reqs[r].session == q.session
    ensures UsersOf(reqs[r := q], x) ==
            if q.session != x then UsersOf(reqs, x) else if IsUser(q.pc) then UsersOf(reqs, x) + {r} else UsersOf(reqs, x) - {r}
    ensures r in UsersOf(reqs, x) <==> r in reqs && x == q.session && IsUser(reqs[r].pc)
  {
  }

  /** r stays in its session, or stays out of it. */
  lemma {:induction false} CountsSame(users: map<SessionId, nat>, reqs: map<ReqId, Request>, r: ReqId, q: Request)
    requires CountsOk(users, reqs)
    requires r in reqs ==> reqs[r].session == q.session && (IsUser(reqs[r].pc) <==> IsUser(q.pc))
    requires r !in reqs ==> !IsUser(q.pc)
    ensures CountsOk(users, reqs[r := q])
  {
    var after := reqs[r := q];
    forall x: SessionId ensures CountOk(users, x, |UsersOf(after, x)|) {
      UsersAfter(reqs, r, q, x);
      assert CountOk(users, x, |UsersOf(reqs, x)|);
      assert UsersOf(after, x) == UsersOf(reqs, x);
    }
  }

  /** r joins its session. */
  lemma {:induction false} CountsJoin(users: map<SessionId, nat>, reqs: map<ReqId, Request>, r: ReqId, q: Request)
    requires CountsOk(users, reqs) && r in reqs && reqs[r].session == q.session && !IsUser(reqs[r].pc) && IsUser(q.pc)
    ensures CountsOk(users[q.session := (if q.session in users then users[q.session] else 0) + 1], reqs[r := q])
  {
    var more := users[q.session := (if q.session in users then users[q.session] else 0) + 1];
    var after := reqs[r := q];
    forall x: SessionId ensures CountOk(more, x, |UsersOf(after, x)|) {
      UsersAfter(reqs, r, q, x);
      assert CountOk(users, x, |UsersOf(reqs, x)|);
    }
  }

  /** r leaves its session. */
  lemma {:induction false} CountsLeave(users: map<SessionId, nat>, reqs: map<ReqId, Request>, r: ReqId, q: Request)
    requires CountsOk(users, reqs) && r in reqs && reqs[r].session == q.session && IsUser(reqs[r].pc) && !IsUser(q.pc)
    ensures q.session in users
    ensures CountsOk(if users[q.session] <= 1 then users - {q.session} else users[q.session := users[q.session] - 1], reqs[r := q])
  {
    assert CountOk(users, q.session, |UsersOf(reqs, q.session)|);
    UsersAfter(reqs, r, q, q.session);
    assert |UsersOf(reqs, q.session) - {r}| == |UsersOf(reqs, q.session)| - 1;
    var less := if users[q.session] <= 1 then users - {q.session} else users[q.session := users[q.session] - 1];
    var after := reqs[r := q];
    forall x: SessionId ensures CountOk(less, x, |UsersOf(after, x)|) {
      UsersAfter(reqs, r, q, x);
      assert CountOk(users, x, |UsersOf(reqs, x)|);
    }
  }

  /** A session with another user than r counts at least two. */
  lemma {:induction false} TwoUsers(users: map<SessionId, nat>, reqs: map<ReqId, Request>, r: ReqId, x: ReqId)
    requires CountsOk(users, reqs) && r in reqs && x in reqs && x != r
    requires IsUser(reqs[r].pc) && IsUser(reqs[x].pc) && reqs[x].session == reqs[r].session
    ensures reqs[r].session in users && users[reqs[r].session] > 1
  {
    var session := reqs[r].session;
    assert CountOk(users, session, |UsersOf(reqs, session)|);
    assert {r, x} <= UsersOf(reqs, session);
    assert |UsersOf(reqs, session) - {r, x}| == |UsersOf(reqs, session)| - |{r, x}|;
  }

  /** The lock and draining tables see no difference: r keeps its lock, its user count and its slot. */
  predicate Quiet(a: Request, b: Request) {
    && a.session == b.session
    && (HoldsSlot(a.pc) <==> HoldsSlot(b.pc)) && (IsUser(a.pc) <==> IsUser(b.pc)) && (HoldsLock(a.pc) <==> HoldsLock(b.pc))
    && (HoldsLock(a.pc) ==> b.pc.lock == a.pc.lock) && (a.pc.Draining? ==> b.pc.Draining?)
  }

  lemma {:induction false} HolderSame(holder: map<LockId, ReqId>, reqs: map<ReqId, Request>, r: ReqId, q: Request)
    requires HolderOk(holder, reqs)
    requires r in reqs && HoldsLock(reqs[r].pc) ==> HoldsLock(q.pc) && q.pc.lock == reqs[r].pc.lock
    ensures HolderOk(holder, reqs[r := q])
  {
    forall l | l in holder ensures Holds(reqs[r := q], holder[l], l) {
      assert Holds(reqs, holder[l], l);
    }
  }

  lemma {:induction false} DrainingSame(draining: set<SessionId>, locks: map<SessionId, LockId>, holder: map<LockId, ReqId>,
                                        reqs: map<ReqId, Request>, r: ReqId, q: Request)
    requires DrainingOk(draining, locks, holder, reqs)
    requires r in reqs && reqs[r].pc.Draining? ==> q.pc.Draining?
    ensures DrainingOk(draining, locks, holder, reqs[r := q])
  {
    forall x | x in draining ensures DrainsAt(x, locks, holder, reqs[r := q]) {
      assert DrainsAt(x, locks, holder, reqs);
    }
  }

  lemma {:induction false} QuietKeeps(s: State, limit: nat, r: ReqId, q: Request)
    requires Inv(s, limit) && r in s.reqs && Quiet(s.reqs[r], q) && ReqOk(q, r, s.sh.locks, s.sh.draining, s.holder)
    ensures Inv(s.(reqs := s.reqs[r := q]), limit)
  {
    SlotsAfter(s.reqs, r, q, s.sh.slots, s.sh.slots, limit);
    CountsSame(s.sh.users, s.reqs, r, q);
    HolderSame(s.holder, s.reqs, r, q);
    DrainingSame(s.sh.draining, s.sh.locks, s.holder, s.reqs, r, q);
  }

  predicate IsQuiet(s: State, e: Event) {
    e.TimeOut? || e.StartTool? || e.WorkerIdle? || e.NextWorker?
    || (e.Register? && e.r in s.reqs && s.reqs[e.r].session in s.sh.draining)
  }

  lemma {:induction false} QuietNext(s: State, e: Event, t: State)
    requires IsQuiet(s, e) && Step(s, e) == Some(t)
    requires ReqOk(s.reqs[e.r], e.r, s.sh.locks, s.sh.draining, s.holder)
    ensures e.r in t.reqs && t == s.(reqs := s.reqs[e.r := t.reqs[e.r]])
    ensures Quiet(s.reqs[e.r], t.reqs[e.r]) && ReqOk(t.reqs[e.r], e.r, s.sh.locks, s.sh.draining, s.holder)
  {
  }

  lemma {:induction false} EnterKeeps(s: State, limit: nat, r: ReqId, session: SessionId, t: State)
    requires Inv(s, limit) && Step(s, Enter(r, session)) == Some(t)
    ensures Inv(t, limit)
  {
    var q := t.reqs[r];
    assert t == State(s.sh.(slots := t.sh.slots), s.holder, s.reqs[r := q], s.root);
    assert ReqOk(q, r, s.sh.locks, s.sh.draining, s.holder);
    SlotsAfter(s.reqs, r, q, s.sh.slots, t.sh.slots, limit);
    CountsSame(s.sh.users, s.reqs, r, q);
    HolderSame(s.holder, s.reqs, r, q);
    DrainingSame(s.sh.draining, s.sh.locks, s.holder, s.reqs, r, q);
  }

  lemma {:induction false} RegisterKeeps(s: State, limit: nat, r: ReqId, t: State)
    requires Inv(s, limit) && !IsQuiet(s, Register(r)) && Step(s, Register(r)) == Some(t)
    ensures Inv(t, limit)
  {
    var q := t.reqs[r];
    assert t == State(Registered(s.sh, q.session), s.holder, s.reqs[r := q], s.root);
    SlotsAfter(s.reqs, r, q, s.sh.slots, s.sh.slots, limit);
    CountsJoin(s.sh.users, s.reqs, r, q);
    HolderSame(s.holder, s.reqs, r, q);
    forall x | x in t.reqs ensures ReqOk(t.reqs[x], x, t.sh.locks, t.sh.draining, t.holder) {
      assert ReqOk(s.reqs[x], x, s.sh.locks, s.sh.draining, s.holder);
    }
    forall x | x in t.sh.draining ensures DrainsAt(x, t.sh.locks, t.holder, t.reqs) {
      assert DrainsAt(x, s.sh.locks, s.holder, s.reqs);
    }
  }

  lemma {:induction false} TakeLockKeeps(s: State, limit: nat, r: ReqId, t: State)
    requires Inv(s, limit) && Step(s, TakeLock(r)) == Some(t)
    ensures Inv(t, limit)
  {
    var q := t.reqs[r];
    var l := q.pc.lock;
    assert t == State(s.sh, s.holder[l := r], s.reqs[r := q], s.root);
    SlotsAfter(s.reqs, r, q, s.sh.slots, s.sh.slots, limit);
    CountsSame(s.sh.users, s.reqs, r, q);
    HolderSame(s.holder, s.reqs, r, q);
    forall x | x in t.reqs ensures ReqOk(t.reqs[x], x, t.sh.locks, t.sh.draining, t.holder) {
      assert ReqOk(s.reqs[x], x, s.sh.locks, s.sh.draining, s.holder);
    }
    forall x | x in t.sh.draining ensures DrainsAt(x, t.sh.locks, t.holder, t.reqs) {
      assert DrainsAt(x, s.sh.locks, s.holder, s.reqs);
    }
  }

  lemma {:induction false} EndWorkKeeps(s: State, limit: nat, r: ReqId, t: State)
    requires Inv(s, limit) && Step(s, EndWork(r)) == Some(t)
    ensures Inv(t, limit)
  {
    var q := t.reqs[r];
    assert ReqOk(s.reqs[r], r, s.sh.locks, s.sh.draining, s.holder);
    assert t == State(s.sh.(draining := s.sh.draining + {q.session}), s.holder, s.reqs[r := q], s.root);
    SlotsAfter(s.reqs, r, q, s.sh.slots, s.sh.slots, limit);
    CountsSame(s.sh.users, s.reqs, r, q);
    HolderSame(s.holder, s.reqs, r, q);
    forall x | x in t.reqs ensures ReqOk(t.reqs[x], x, t.sh.locks, t.sh.draining, t.holder) {
      assert ReqOk(s.reqs[x], x, s.sh.locks, s.sh.draining, s.holder);
    }
    forall x | x in t.sh.draining ensures DrainsAt(x, t.sh.locks, t.holder, t.reqs) {
      assert x != q.session ==> DrainsAt(x, s.sh.locks, s.holder, s.reqs);
    }
  }

  lemma {:induction false} GiveBackKeeps(s: State, limit: nat, r: ReqId, t: State)
    requires Inv(s, limit) && r in s.reqs && (s.reqs[r].pc.Refusing? || s.reqs[r].pc.Freed?)
    requires t == At(s, r, Over).(sh := s.sh.(slots := s.sh.slots + 1))
    ensures Inv(t, limit)
  {
    var q := t.reqs[r];
    assert ReqOk(s.reqs[r], r, s.sh.locks, s.sh.draining, s.holder);
    SlotsAfter(s.reqs, r, q, s.sh.slots, t.sh.slots, limit);
    CountsSame(s.sh.users, s.reqs, r, q);
    HolderSame(s.holder, s.reqs, r, q);
    DrainingSame(s.sh.draining, s.sh.locks, s.holder, s.reqs, r, q);
  }

  lemma {:induction false} ReleaseOther(s: State, limit: nat, r: ReqId, t: State, x: ReqId)
    requires Inv(s, limit) && Step(s, Release(r)) == Some(t) && x in s.reqs
    ensures ReqOk(t.reqs[x], x, t.sh.locks, t.sh.draining, t.holder)
  {
    assert ReqOk(s.reqs[x], x, s.sh.locks, s.sh.draining, s.holder);
    assert ReqOk(s.reqs[r], r, s.sh.locks, s.sh.draining, s.holder);
    if x != r && IsUser(s.reqs[x].pc) && s.reqs[x].session == s.reqs[r].session {
      TwoUsers(s.sh.users, s.reqs, r, x);
    }
  }

  lemma {:induction false} ReleaseHolder(s: State, limit: nat, r: ReqId, t: State, l: LockId)
    requires Inv(s, limit) && Step(s, Release(r)) == Some(t) && l in t.holder
    ensures Holds(t.reqs, t.holder[l], l)
  {
    assert Holds(s.reqs, s.holder[l], l);
    assert ReqOk(s.reqs[r], r, s.sh.locks, s.sh.draining, s.holder);
  }

  lemma {:induction false} ReleaseDraining(s: State, limit: nat, r: ReqId, t: State, x: SessionId)
    requires Inv(s, limit) && Step(s, Release(r)) == Some(t) && x in t.sh.draining
    ensures DrainsAt(x, t.sh.locks, t.holder, t.reqs)
  {
    assert DrainsAt(x, s.sh.locks, s.holder, s.reqs);
    var l := s.sh.locks[x];
    var h := s.holder[l];
    assert Holds(s.reqs, h, l);
    assert ReqOk(s.reqs[h], h, s.sh.locks, s.sh.draining, s.holder);
    assert ReqOk(s.reqs[r], r, s.sh.locks, s.sh.draining, s.holder);
    assert s.reqs[h].session == x;
    if h != r && x == s.reqs[r].session {
      TwoUsers(s.sh.users, s.reqs, r, h);
    }
  }

  lemma {:induction false} ReleaseTables(s: State, limit: nat, r: ReqId, t: State)
    requires Inv(s, limit) && Step(s, Release(r)) == Some(t)
    ensures ReqsOk(t.reqs, t.sh.locks, t.sh.draining, t.holder)
    ensures HolderOk(t.holder, t.reqs) && DrainingOk(t.sh.draining, t.sh.locks, t.holder, t.reqs)
  {
    forall x | x in t.reqs ensures ReqOk(t.reqs[x], x, t.sh.locks, t.sh.draining, t.holder) {
      ReleaseOther(s, limit, r, t, x);
    }
    forall l | l in t.holder ensures Holds(t.reqs, t.holder[l], l) {
      ReleaseHolder(s, limit, r, t, l);
    }
    forall x | x in t.sh.draining ensures DrainsAt(x, t.sh.locks, t.holder, t.reqs) {
      ReleaseDraining(s, limit, r, t, x);
    }
  }

  lemma {:induction false} ReleaseCounts(s: State, limit: nat, r: ReqId, t: State)
    requires Inv(s, limit) && Step(s, Release(r)) == Some(t)
    ensures r in t.reqs && SlotsOk(t.sh.slots, t.reqs, limit) && CountsOk(t.sh.users, t.reqs)
    ensures LocksOk(t.sh.users, t.sh.locks, t.sh.made)
  {
    var q := t.reqs[r];
    assert t.reqs == s.reqs[r := q];
    SlotsAfter(s.reqs, r, q, s.sh.slots, s.sh.slots, limit);
    CountsLeave(s.sh.users, s.reqs, r, q);
  }

  lemma {:induction false} StepKeeps(s: State, limit: nat, e: Event, t: State)
    requires Inv(s, limit) && Step(s, e) == Some(t)
    ensures Inv(t, limit)
  {
    if IsQuiet(s, e) {
      assert ReqOk(s.reqs[e.r], e.r, s.sh.locks, s.sh.draining, s.holder);
      QuietNext(s, e, t);
      QuietKeeps(s, limit, e.r, t.reqs[e.r]);
    } else if e.Enter? {
      EnterKeeps(s, limit, e.r, e.session, t);
    } else if e.Register? {
      RegisterKeeps(s, limit, e.r, t);
    } else if e.TakeLock? {
      TakeLockKeeps(s, limit, e.r, t);
    } else if e.EndWork? {
      EndWorkKeeps(s, limit, e.r, t);
    } else if e.Release? {
      ReleaseTables(s, limit, e.r, t);
      ReleaseCounts(s, limit, e.r, t);
    } else if e.NewJob? {
      assert ReqOk(s.reqs[e.r], e.r, s.sh.locks, s.sh.draining, s.holder);
    } else {
      GiveBackKeeps(s, limit, e.r, t);
    }
  }

  lemma {:induction false} RunKeeps(s: State, limit: nat, events: seq<Event>)
    requires Inv(s, limit) && Run(s, events).Some?
    ensures Inv(Run(s, events).value, limit)
    decreases |events|
  {
    if events != [] {
      StepKeeps(s, limit, events[0], Step(s, events[0]).value);
      RunKeeps(Step(s, events[0]).value, limit, events[1..]);
    }
  }

  // ---------------------------------------------------------------- what a run shows

  lemma {:induction false} ReachableInv(limit: nat, root: Root, events: seq<Event>)
    requires Run(Initial(limit, root), events).Some?
    ensures Inv(Run(Initial(limit, root), events).value, limit)
  {
    var s := Initial(limit, root);
    assert Holding(s.reqs) == {};
    forall x: SessionId ensures CountOk(s.sh.users, x, |UsersOf(s.reqs, x)|) {
      assert UsersOf(s.reqs, x) == {};
    }
    RunKeeps(s, limit, events);
  }

  /** Slots in use are exactly the requests that have not given theirs back; the tables have one domain,
      the sessions with a request inside, and every draining session is among them. */
  lemma {:induction false} TablesAccounted(limit: nat, root: Root, events: seq<Event>, x: SessionId)
    requires Run(Initial(limit, root), events).Some?
    ensures var s := Run(Initial(limit, root), events).value;
            && s.sh.slots + |Holding(s.reqs)| == limit
            && s.sh.users.Keys == s.sh.locks.Keys && s.sh.draining <= s.sh.users.Keys
            && (x in s.sh.users <==> UsersOf(s.reqs, x) != {})
            && (x in s.sh.users ==> s.sh.users[x] == |UsersOf(s.reqs, x)|)
  {
    ReachableInv(limit, root, events);
    var s := Run(Initial(limit, root), events).value;
    assert CountOk(s.sh.users, x, |UsersOf(s.reqs, x)|);
    forall y | y in s.sh.draining ensures y in s.sh.users.Keys {
      assert DrainsAt(y, s.sh.locks, s.holder, s.reqs);
    }
  }

  /** At most one request of a session is working or waiting for its workers to stop. */
  lemma {:induction false} OneWorkPerSession(limit: nat, root: Root, events: seq<Event>, a: ReqId, b: ReqId)
    requires Run(Initial(limit, root), events).Some?
    requires a in Run(Initial(limit, root), events).value.reqs && b in Run(Initial(limit, root), events).value.reqs
    ensures var reqs := Run(Initial(limit, root), events).value.reqs;
            HoldsLock(reqs[a].pc) && HoldsLock(reqs[b].pc) && reqs[a].session == reqs[b].session ==> a == b
  {
    ReachableInv(limit, root, events);
    var s := Run(Initial(limit, root), events).value;
    assert ReqOk(s.reqs[a], a, s.sh.locks, s.sh.draining, s.holder);
    assert ReqOk(s.reqs[b], b, s.sh.locks, s.sh.draining, s.holder);
  }

  /** A slot comes back only with the end of a request that held one and whose workers have all exited
      (or that started none), never beyond the limit; and an ended request never moves again. */
  lemma {:induction false} SlotFreedOnce(s: State, limit: nat, e: Event, t: State, r: ReqId)
    requires Inv(s, limit) && Step(s, e) == Some(t) && r in s.reqs
    ensures t.sh.slots > s.sh.slots ==>
              && t.sh.slots == s.sh.slots + 1 <= limit
              && e.r in s.reqs && HoldsSlot(s.reqs[e.r].pc) && t.reqs[e.r].pc.Over?
              && AllIdle(s.reqs[e.r].workers, |s.reqs[e.r].workers|)
    ensures r in t.reqs && (s.reqs[r].pc.Over? ==> t.reqs[r].pc.Over? && |t.reqs[r].workers| == |s.reqs[r].workers|)
    ensures HoldsSlot(s.reqs[r].pc) && !HoldsSlot(t.reqs[r].pc) ==> e.r == r && t.sh.slots == s.sh.slots + 1
  {
    if e.r in s.reqs {
      assert ReqOk(s.reqs[e.r], e.r, s.sh.locks, s.sh.draining, s.holder);
      StepKeeps(s, limit, e, t);
    }
  }

  /** The lock of a session is given up only by the request that holds it, and only once all the workers
      it started have exited. */
  lemma {:induction false} LockOutlivesWorkers(s: State, limit: nat, e: Event, t: State, l: LockId)
    requires Inv(s, limit) && Step(s, e) == Some(t) && l in s.holder
    requires l !in t.holder || t.holder[l] != s.holder[l]
    ensures var r := s.holder[l];
            e == Release(r) && r in s.reqs && AllIdle(s.reqs[r].workers, |s.reqs[r].workers|) && l !in t.holder
  {
    assert Holds(s.reqs, s.holder[l], l);
    HolderMoves(s, e, t);
    if e.Release? {
      assert ReqOk(s.reqs[e.r], e.r, s.sh.locks, s.sh.draining, s.holder);
    }
  }

  lemma {:induction false} HolderMoves(s: State, e: Event, t: State)
    requires Step(s, e) == Some(t)
    ensures e.TakeLock? ==> e.r in s.reqs && s.reqs[e.r].pc.Waiting? && s.reqs[e.r].pc.lock !in s.holder
                            && t.holder == s.holder[s.reqs[e.r].pc.lock := e.r]
    ensures e.Release? ==> e.r in s.reqs && s.reqs[e.r].pc.Draining? && s.reqs[e.r].pc.index == |s.reqs[e.r].workers|
                           && t.holder == if s.reqs[e.r].pc.acquired then s.holder - {s.reqs[e.r].pc.lock} else s.holder
    ensures !e.TakeLock? && !e.Release? ==> t.holder == s.holder
  {
  }

  lemma {:induction false} RootMoves(s: State, e: Event, t: State)
    requires Step(s, e) == Some(t)
    ensures e.Release? ==> t.root == Pruned(s.root, t.sh.users.Keys)
    ensures e.NewJob? ==> e.r in s.reqs && t.root == WithJob(s.root, s.reqs[e.r].session, e.job, e.demo, e.mtime)
    ensures !e.Release? && !e.NewJob? ==> t.root == s.root
  {
  }

  /** Some pruning that protects x, a new job, or nothing. */
  lemma {:induction false} RootKeeps(root: Root, more: Root, protected: set<SessionId>, x: SessionId)
    requires x in root && x in protected
    requires more == root || more == Pruned(root, protected)
             || exists y, job, demo, mtime :: more == WithJob(root, y, job, demo, mtime)
    ensures x in more && root[x].jobs <= more[x].jobs
  {
    ProtectedKept(root, protected, x);
  }

  /** No step removes a job of a session that still has a request inside, waiting or draining. */
  lemma {:induction false} JobsKept(s: State, e: Event, t: State, x: SessionId)
    requires Step(s, e) == Some(t) && x in t.sh.users && x in s.root
    ensures x in t.root && s.root[x].jobs <= t.root[x].jobs
  {
    RootMoves(s, e, t);
    RootKeeps(s.root, t.root, t.sh.users.Keys, x);
  }

  lemma {:induction false} UserStep(s: State, limit: nat, e: Event, t: State, r: ReqId)
    requires Inv(s, limit) && Step(s, e) == Some(t) && r in s.reqs
    ensures r in t.reqs && t.reqs[r].session == s.reqs[r].session
    ensures s.reqs[r].pc.Freed? || s.reqs[r].pc.Over? ==> t.reqs[r].pc.Freed? || t.reqs[r].pc.Over?
    ensures IsUser(s.reqs[r].pc) ==> IsUser(t.reqs[r].pc) || t.reqs[r].pc.Freed?
  {
    if e.r != r {
      assert t.reqs[r] == s.reqs[r];
    } else {
      assert e.r in s.reqs && StepOf(s, e, r) == Some(t);
    }
  }

  lemma {:induction false} LeftForGood(s: State, limit: nat, events: seq<Event>, r: ReqId)
    requires Inv(s, limit) && Run(s, events).Some? && r in s.reqs && (s.reqs[r].pc.Freed? || s.reqs[r].pc.Over?)
    ensures r in Run(s, events).value.reqs && !IsUser(Run(s, events).value.reqs[r].pc)
    decreases |events|
  {
    if events != [] {
      var t := Step(s, events[0]).value;
      StepKeeps(s, limit, events[0], t);
      UserStep(s, limit, events[0], t, r);
      LeftForGood(t, limit, events[1..], r);
    }
  }

  /** A job that a working request makes is in its session's folder, beside all that was there, and no other
      folder changes. */
  lemma {:induction false} NewJobIsThere(s: State, r: ReqId, job: JobId, demo: bool, mtime: nat, t: State)
    requires Step(s, NewJob(r, job, demo, mtime)) == Some(t)
    ensures r in s.reqs && s.reqs[r].pc.Working?
    ensures var x := s.reqs[r].session;
            && t.root.Keys == s.root.Keys + {x} && t.root[x].mtime == mtime
            && t.root[x].jobs == (if x in s.root then s.root[x].jobs else {}) + {job}
            && t.root[x].demo == (if x in s.root then s.root[x].demo else demo)
            && forall y :: y in s.root && y != x ==> t.root[y] == s.root[y]
  {
  }

  /** From the moment a request registers until it is released, every job of its session survives:
      the record it has to be compared with is still there. */
  lemma {:induction false} UserKeepsJobs(s: State, limit: nat, events: seq<Event>, r: ReqId)
    requires Inv(s, limit) && Run(s, events).Some? && r in s.reqs && IsUser(s.reqs[r].pc)
    requires r in Run(s, events).value.reqs && IsUser(Run(s, events).value.reqs[r].pc)
    requires s.reqs[r].session in s.root
    ensures var x, t := s.reqs[r].session, Run(s, events).value;
            x in t.root && s.root[x].jobs <= t.root[x].jobs
    decreases |events|
  {
    if events != [] {
      var t := Step(s, events[0]).value;
      StepKeeps(s, limit, events[0], t);
      UserStep(s, limit, events[0], t, r);
      if t.reqs[r].pc.Freed? {
        LeftForGood(t, limit, events[1..], r);
      } else {
        assert ReqOk(t.reqs[r], r, t.sh.locks, t.sh.draining, t.holder);
        JobsKept(s, events[0], t, s.reqs[r].session);
        UserKeepsJobs(t, limit, events[1..], r);
      }
    }
  }

  predicate Released(events: seq<Event>) {
    exists i :: 0 <= i < |events| && events[i].Release?
  }

  /** With nobody inside: the limits hold once a request has been released; before that nothing has changed. */
  ghost predicate IdleOk(users: map<SessionId, nat>, now: Root, start: Root, released: bool) {
    users == map[] ==> if released then Limits(now) else now == start
  }

  lemma {:induction false} IdleStep(s: State, limit: nat, e: Event, t: State, start: Root, released: bool)
    requires Inv(s, limit) && Step(s, e) == Some(t) && IdleOk(s.sh.users, s.root, start, released)
    ensures IdleOk(t.sh.users, t.root, start, released || e.Release?)
  {
    RootMoves(s, e, t);
    if e.Release? {
      AllIdleWithinLimits(s.root);
      assert t.sh.users == map[] ==> t.sh.users.Keys == {};
    } else if e.NewJob? {
      assert ReqOk(s.reqs[e.r], e.r, s.sh.locks, s.sh.draining, s.holder);
      assert s.reqs[e.r].session in t.sh.users;
    } else {
      UsersMove(s, e, t);
    }
  }

  lemma {:induction false} UsersMove(s: State, e: Event, t: State)
    requires Step(s, e) == Some(t) && !e.Release?
    ensures t.sh.users == s.sh.users || t.sh.users != map[]
  {
    if e.Register? {
      assert t.sh.users == s.sh.users || s.reqs[e.r].session in t.sh.users;
    }
  }

  lemma {:induction false} IdleRun(s: State, limit: nat, events: seq<Event>, start: Root, released: bool)
    requires Inv(s, limit) && Run(s, events).Some? && IdleOk(s.sh.users, s.root, start, released)
    ensures var t := Run(s, events).value; IdleOk(t.sh.users, t.root, start, released || Released(events))
    decreases |events|
  {
    if events != [] {
      var t := Step(s, events[0]).value;
      IdleStep(s, limit, events[0], t, start, released);
      StepKeeps(s, limit, events[0], t);
      IdleRun(t, limit, events[1..], start, released || events[0].Release?);
      assert Released(events) <==> events[0].Release? || Released(events[1..]) by {
        if i :| 0 <= i < |events| && events[i].Release? {
          assert i > 0 ==> events[1..][i - 1].Release?;
        }
        if i :| 0 <= i < |events[1..]| && events[1..][i].Release? {
          assert events[i + 1].Release?;
        }
      }
    }
  }

  /** From any root: whenever nobody is inside any session, all retention limits hold if any request has ever
      been released, and otherwise the root is as the server found it. */
  lemma {:induction false} IdleWithinLimits(limit: nat, root: Root, events: seq<Event>)
    requires Run(Initial(limit, root), events).Some? && Run(Initial(limit, root), events).value.sh.users == map[]
    ensures var now := Run(Initial(limit, root), events).value.root;
            if Released(events) then Limits(now) else now == root
  {
    ReachableInv(limit, root, []);
    IdleRun(Initial(limit, root), limit, events, root, false);
  }

  /** Nothing a request waits for after its work is anything but its own workers: as soon as the next
      one has exited it can go on, then release, then free its slot. */
  lemma {:induction false} DrainingAdvances(s: State, limit: nat, r: ReqId)
    requires Inv(s, limit) && r in s.reqs
    ensures var q := s.reqs[r];
            && (q.pc.Draining? && q.pc.index < |q.workers| ==> (Step(s, NextWorker(r)).Some? <==> q.workers[q.pc.index]))
            && (q.pc.Draining? && q.pc.index == |q.workers| ==> Step(s, Release(r)).Some?)
            && (q.pc.Freed? ==> Step(s, FreeSlot(r)).Some?)
            && (q.pc.Refusing? ==> Step(s, Refuse(r)).Some?)
            && (q.pc.Waiting? ==> (Step(s, TakeLock(r)).Some? <==> q.pc.lock !in s.holder))
  {
    assert ReqOk(s.reqs[r], r, s.sh.locks, s.sh.draining, s.holder);
  }
}
