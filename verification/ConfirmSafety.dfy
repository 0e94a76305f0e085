/** What every interleaving on one session keeps (gateway/app.py, _acquire_confirm_turn to
    api_resume_team_b): one Team B run at a time, no plan run to completion twice, stored results
    replayed unchanged, bounded waiting, and exactly which cancels are final. */
module ConfirmSafety {
  import opened Wrappers
  import opened ConfirmGate

  predicate HoldsLock(pc: Pc) {
    pc.Woken? || pc.Holding? || pc.HasState? || pc.Passed? || pc.Running? || pc.Returned? || pc.Raised?
    || pc.Discarding? || pc.Storing? || pc.Restoring? || pc.Releasing?
  }

  predicate Counted(pc: Pc) {
    pc.Waiting? || pc.Woken? || pc.TimedOut?
  }

  predicate InTeamB(pc: Pc) {
    pc.Running? || pc.Returned? || pc.Raised?
  }

  ghost function CountedIn(reqs: map<ReqId, Request>): set<ReqId> {
    set r | r in reqs && Counted(reqs[r].pc)
  }

  predicate Finished(st: Session) {
    st.phase.Done? || st.phase.NeedRevision?
  }

  /** A waiting plan has no completed run; a finished one carries what its run returned. */
  predicate StateOk(st: Session, results: map<nat, nat>, nextPlan: nat) {
    && st.plan < nextPlan
    && (st.phase.AwaitConfirm? ==> st.plan !in results)
    && (Finished(st) ==> st.plan in results && results[st.plan] == st.result)
  }

  predicate AnswerOk(a: Answer, results: map<nat, nat>) {
    match a
    case Replayed(p, x) => p in results && results[p] == x
    case Completed(p, x) => p in results && results[p] == x
    case _ => true
  }

  /** The table: every key is the session or a run_id alias of it. */
  ghost predicate TableOk(s: State) {
    && s.sid != NO_KEY && s.sid in s.sessions
    && (forall k :: k in s.sessions ==> s.sessions[k].owner == s.sid && (k == s.sid || s.sessions[k].run == k))
    && StateOk(s.sessions[s.sid], s.results, s.nextPlan)
  }

  ghost predicate LedgerOk(s: State) {
    && (forall i, j :: 0 <= i < j < |s.returned| ==> s.returned[i] != s.returned[j])
    && (forall p :: p in s.results <==> p in s.returned)
    && (forall p :: p in s.results ==> p < s.nextPlan)
  }

  ghost predicate LocksOk(s: State) {
    && s.locks.Keys <= {s.sid}
    && (s.sid in s.locks ==>
          var l := s.locks[s.sid];
          && l.id < s.nextLock && l.waiters == |CountedIn(s.reqs)| && l.waiters <= MAX_WAITERS
          && (l.holder.Some? ==> l.holder.value in s.reqs && HoldsLock(s.reqs[l.holder.value].pc)))
  }

  /** While Team B runs for `before`, the table says team_b_running, or cancelled once a cancel was written. */
  predicate WaitsUnder(before: Session, hit: bool, phase: Phase, nextPlan: nat) {
    before.phase.AwaitConfirm? && before.plan < nextPlan && phase == if hit then Cancelled else TeamBRunning
  }

  /** What a request has read or decided, against the current phase of the session and the results so far. */
  predicate DataOk(pc: Pc, sid: Key, phase: Phase, results: map<nat, nat>, nextPlan: nat) {
    match pc
    case CancelHas(seen) => seen.owner == sid && seen.plan < nextPlan
    case CancelNoting(seen) => seen.owner == sid && seen.plan < nextPlan && seen.phase.Cancelled?
    case HasState(_, b) => b.owner == sid && StateOk(b, results, nextPlan)
    case Passed(_, b) => b.owner == sid && StateOk(b, results, nextPlan) && b.phase.AwaitConfirm?
    case Running(_, b, hit) => b.owner == sid && WaitsUnder(b, hit, phase, nextPlan) && b.plan !in results
    case Raised(_, b, hit) => b.owner == sid && WaitsUnder(b, hit, phase, nextPlan) && b.plan !in results
    case Returned(_, b, hit, o) =>
      b.owner == sid && o.owner == sid && WaitsUnder(b, hit, phase, nextPlan) && o.plan == b.plan
      && StateOk(o, results, nextPlan) && Finished(o)
    case Discarding(_, x) => x.owner == sid && x.plan < nextPlan && x.phase.Cancelled?
    case Storing(_, o) => o.owner == sid && StateOk(o, results, nextPlan) && Finished(o)
    case Restoring(_, b) => b.owner == sid && StateOk(b, results, nextPlan) && b.phase.AwaitConfirm?
    case Releasing(_, a) => AnswerOk(a, results)
    case Answered(a) => AnswerOk(a, results)
    case _ => true
  }

  /** A request refers to the one lock of the session, and the lock names its holder. */
  predicate Linked(q: Request, r: ReqId, sid: Key, locks: map<Key, Lock>) {
    && (!q.pc.Arrived? ==> q.key == sid)
    && (LockOf(q.pc).Some? ==> sid in locks && locks[sid].id == LockOf(q.pc).value)
    && (HoldsLock(q.pc) ==> sid in locks && locks[sid].holder == Some(r))
  }

  ghost predicate DataAll(s: State)
    requires s.sid in s.sessions
  {
    forall r :: r in s.reqs ==> DataOk(s.reqs[r].pc, s.sid, s.sessions[s.sid].phase, s.results, s.nextPlan)
  }

  ghost predicate LinkAll(s: State) {
    forall r :: r in s.reqs ==> Linked(s.reqs[r], r, s.sid, s.locks) && s.reqs[r].asked in s.sessions
  }

  ghost predicate Inv(s: State) {
    TableOk(s) && LedgerOk(s) && LocksOk(s) && LinkAll(s) && DataAll(s)
  }

  // ---------------------------------------------------------------- every step keeps the invariant

  /** The run_id alias and the session id resolve to the same session. */
  lemma {:induction false} AliasResolves(s: State, asked: Key)
    requires TableOk(s) && asked in s.sessions
    ensures Canonical(s.sessions, asked) == s.sid
  {
  }

  lemma {:induction false} CountedAfter(reqs: map<ReqId, Request>, r: ReqId, q: Request)
    ensures CountedIn(reqs[r := q]) == if Counted(q.pc) then CountedIn(reqs) + {r} else CountedIn(reqs) - {r}
  {
  }

  lemma {:induction false} CountedAfterHit(reqs: map<ReqId, Request>)
    ensures CountedIn(MarkHit(reqs)) == CountedIn(reqs)
  {
    assert forall r :: r in reqs ==> (Counted(Hit(reqs[r].pc)) <==> Counted(reqs[r].pc));
  }

  /** What a request knows survives steps of others: a request outside the lock is untouched by results,
      one outside Team B by the phase. */
  lemma {:induction false} DataFrame(pc: Pc, sid: Key, phase: Phase, results: map<nat, nat>, nextPlan: nat,
                                     phase': Phase, results': map<nat, nat>, nextPlan': nat)
    requires DataOk(pc, sid, phase, results, nextPlan) && nextPlan <= nextPlan'
    requires phase' == phase || !InTeamB(pc)
    requires results' == results || !HoldsLock(pc) || pc.Releasing?
    requires forall p :: p in results ==> p in results' && results'[p] == results[p]
    ensures DataOk(pc, sid, phase', results', nextPlan')
  {
  }

  lemma {:induction false} DataHit(pc: Pc, sid: Key, phase: Phase, results: map<nat, nat>, nextPlan: nat)
    requires DataOk(pc, sid, phase, results, nextPlan)
    ensures DataOk(Hit(pc), sid, Cancelled, results, nextPlan)
  {
  }

  /** A step of request r that changes only r's own record, and shared state only as its holder. */
  ghost predicate StepBy(s: State, t: State, r: ReqId) {
    && r in t.reqs && t.reqs == s.reqs[r := t.reqs[r]]
    && t.sid == s.sid && s.sid in s.sessions && t.sid in t.sessions && s.sessions.Keys <= t.sessions.Keys
    && s.nextPlan <= t.nextPlan
    && (forall p :: p in s.results ==> p in t.results && t.results[p] == s.results[p])
    && (HeldBy(s, r) || (t.results == s.results && t.sessions[t.sid].phase == s.sessions[s.sid].phase))
    && (s.sid in s.locks ==>
          && s.sid in t.locks && t.locks[s.sid].id == s.locks[s.sid].id
          && (t.locks[s.sid].holder == s.locks[s.sid].holder || s.locks[s.sid].holder.None? || HeldBy(s, r)))
  }

  predicate HeldBy(s: State, r: ReqId) {
    s.sid in s.locks && s.locks[s.sid].holder == Some(r)
  }

  /** What request r itself relies on. */
  ghost predicate Own(s: State, r: ReqId) {
    && r in s.reqs && TableOk(s) && LedgerOk(s)
    && Linked(s.reqs[r], r, s.sid, s.locks) && s.reqs[r].asked in s.sessions
    && DataOk(s.reqs[r].pc, s.sid, s.sessions[s.sid].phase, s.results, s.nextPlan)
  }

  lemma {:induction false} InvOwn(s: State, r: ReqId)
    requires Inv(s) && r in s.reqs
    ensures Own(s, r)
  {
  }

  lemma {:induction false} OthersLinked(s: State, t: State, r: ReqId)
    requires StepBy(s, t, r) && LinkAll(s)
    requires Linked(t.reqs[r], r, t.sid, t.locks) && t.reqs[r].asked in t.sessions
    ensures LinkAll(t)
  {
    forall x | x in t.reqs ensures Linked(t.reqs[x], x, t.sid, t.locks) && t.reqs[x].asked in t.sessions {
      assert x != r ==> t.reqs[x] == s.reqs[x] && Linked(s.reqs[x], x, s.sid, s.locks);
    }
  }

  lemma {:induction false} OthersKnow(s: State, t: State, r: ReqId)
    requires StepBy(s, t, r) && LinkAll(s) && DataAll(s)
    requires DataOk(t.reqs[r].pc, t.sid, t.sessions[t.sid].phase, t.results, t.nextPlan)
    ensures DataAll(t)
  {
    forall x | x in t.reqs ensures DataOk(t.reqs[x].pc, t.sid, t.sessions[t.sid].phase, t.results, t.nextPlan) {
      if x != r {
        assert Linked(s.reqs[x], x, s.sid, s.locks);
        DataFrame(s.reqs[x].pc, s.sid, s.sessions[s.sid].phase, s.results, s.nextPlan,
                  t.sessions[t.sid].phase, t.results, t.nextPlan);
      }
    }
  }

  /** A step of r that changes only r and keeps r's own facts keeps the invariant. */
  lemma {:induction false} OwnSuffices(s: State, t: State, r: ReqId)
    requires LinkAll(s) && s.sid in s.sessions && DataAll(s) && StepBy(s, t, r) && Own(t, r) && LocksOk(t)
    ensures Inv(t)
  {
    OthersLinked(s, t, r);
    OthersKnow(s, t, r);
  }

  /** Requests that do not count as waiting keep the count. */
  lemma {:induction false} UncountedLocks(s: State, t: State, r: ReqId)
    requires LocksOk(s) && r in t.reqs && t.reqs == s.reqs[r := t.reqs[r]] && t.sid == s.sid
    requires t.locks == s.locks && t.nextLock == s.nextLock
    requires r in s.reqs ==> !Counted(s.reqs[r].pc) && (HoldsLock(s.reqs[r].pc) ==> HoldsLock(t.reqs[r].pc))
    requires !Counted(t.reqs[r].pc)
    ensures LocksOk(t)
  {
    CountedAfter(s.reqs, r, t.reqs[r]);
    assert CountedIn(t.reqs) == CountedIn(s.reqs);
  }

  // ---- arrival

  lemma {:induction false} ArriveStepBy(s: State, r: ReqId)
    requires Own(s, r) && s.reqs[r].pc.Arrived?
    ensures StepBy(s, ArriveStep(s, r), r)
  {
    AliasResolves(s, s.reqs[r].asked);
  }

  lemma {:induction false} ArriveOwn(s: State, r: ReqId)
    requires Own(s, r) && s.reqs[r].pc.Arrived?
    ensures Own(ArriveStep(s, r), r)
  {
    AliasResolves(s, s.reqs[r].asked);
  }

  lemma {:induction false} ArriveLocks(s: State, r: ReqId)
    requires Own(s, r) && LocksOk(s) && LinkAll(s) && s.reqs[r].pc.Arrived?
    ensures LocksOk(ArriveStep(s, r))
  {
    var t := ArriveStep(s, r);
    AliasResolves(s, s.reqs[r].asked);
    if t.locks == s.locks {
      UncountedLocks(s, t, r);
    } else {
      CountedAfter(s.reqs, r, t.reqs[r]);
      NoLockNoWaiters(s);
      assert CountedIn(t.reqs) == {};
    }
  }

  lemma {:induction false} NoLockNoWaiters(s: State)
    requires LinkAll(s) && s.sid !in s.locks
    ensures CountedIn(s.reqs) == {}
  {
    assert forall x :: x in s.reqs ==> Linked(s.reqs[x], x, s.sid, s.locks);
  }

  // ---- cancel

  lemma {:induction false} HitAll(s: State, t: State, reqs: map<ReqId, Request>)
    requires t.reqs == MarkHit(reqs) && t.sid == s.sid && t.sid in t.sessions && t.sessions[t.sid].phase.Cancelled?
    requires t.locks == s.locks && t.results == s.results && t.nextPlan == s.nextPlan && t.nextLock == s.nextLock
    requires s.sid in s.sessions && s.sessions.Keys <= t.sessions.Keys
    requires LinkAll(s.(reqs := reqs)) && DataAll(s.(reqs := reqs)) && LocksOk(s.(reqs := reqs))
    ensures LinkAll(t) && DataAll(t) && LocksOk(t)
  {
    CountedAfterHit(reqs);
    forall x | x in t.reqs
      ensures Linked(t.reqs[x], x, t.sid, t.locks) && t.reqs[x].asked in t.sessions
      ensures DataOk(t.reqs[x].pc, t.sid, t.sessions[t.sid].phase, t.results, t.nextPlan)
    {
      assert Linked(reqs[x], x, s.sid, s.locks);
      DataHit(reqs[x].pc, s.sid, s.sessions[s.sid].phase, s.results, s.nextPlan);
    }
  }

  /** The request part of a cancel step, before its write is seen by the others. */
  function CancelPc(pc: Pc): Pc
    requires IsCancelling(pc)
  {
    if pc.CancelHas? then CancelNoting(pc.seen.(phase := Cancelled)) else Answered(CancelDone)
  }

  lemma {:induction false} CancelOwn(s: State, r: ReqId)
    requires Own(s, r) && IsCancelling(s.reqs[r].pc)
    ensures Own(At(s, r, CancelPc(s.reqs[r].pc)), r) && StepBy(s, At(s, r, CancelPc(s.reqs[r].pc)), r)
  {
  }

  lemma {:induction false} CancelWrites(s: State, r: ReqId, c: Choice)
    requires Own(s, r) && IsCancelling(s.reqs[r].pc)
    ensures CancelStep(s, r, c).Some?
    ensures var t, m := CancelStep(s, r, c).value, At(s, r, CancelPc(s.reqs[r].pc));
            && TableOk(t) && LedgerOk(t) && s.sessions.Keys <= t.sessions.Keys
            && (t == m || (t == m.(sessions := t.sessions, reqs := MarkHit(m.reqs)) && t.sessions[t.sid].phase.Cancelled?))
  {
  }

  lemma {:induction false} CancelKeeps(s: State, r: ReqId, c: Choice)
    requires Inv(s) && r in s.reqs && IsCancelling(s.reqs[r].pc)
    ensures CancelStep(s, r, c).Some? && Inv(CancelStep(s, r, c).value)
  {
    var m := At(s, r, CancelPc(s.reqs[r].pc));
    InvOwn(s, r);
    CancelOwn(s, r);
    UncountedLocks(s, m, r);
    OwnSuffices(s, m, r);
    CancelWrites(s, r, c);
    var t := CancelStep(s, r, c).value;
    if t != m {
      HitAll(m, t, m.reqs);
    }
  }

  // ---- the queue

  ghost predicate OwnStep(s: State, t: State, r: ReqId) {
    Own(t, r) && StepBy(s, t, r)
  }

  lemma {:induction false} TryingOwn(s: State, r: ReqId, c: Choice)
    requires Own(s, r) && s.reqs[r].pc.Trying? && QueueStep(s, r, c).Some?
    ensures OwnStep(s, QueueStep(s, r, c).value, r)
  {
  }

  lemma {:induction false} QueueingOwn(s: State, r: ReqId, c: Choice)
    requires Own(s, r) && s.reqs[r].pc.Queueing? && QueueStep(s, r, c).Some?
    ensures OwnStep(s, QueueStep(s, r, c).value, r)
  {
  }

  lemma {:induction false} WaitingOwn(s: State, r: ReqId, c: Choice)
    requires Own(s, r) && s.reqs[r].pc.Waiting? && QueueStep(s, r, c).Some?
    ensures OwnStep(s, QueueStep(s, r, c).value, r)
  {
  }

  lemma {:induction false} WokenOwn(s: State, r: ReqId, c: Choice)
    requires Own(s, r) && (s.reqs[r].pc.Woken? || s.reqs[r].pc.TimedOut?) && QueueStep(s, r, c).Some?
    ensures OwnStep(s, QueueStep(s, r, c).value, r)
  {
  }

  lemma {:induction false} ReleasingOwn(s: State, r: ReqId, c: Choice)
    requires Own(s, r) && s.reqs[r].pc.Releasing? && QueueStep(s, r, c).Some?
    ensures OwnStep(s, QueueStep(s, r, c).value, r)
  {
  }

  lemma {:induction false} TryingLocks(s: State, r: ReqId, c: Choice)
    requires Own(s, r) && LocksOk(s) && s.reqs[r].pc.Trying? && QueueStep(s, r, c).Some?
    ensures LocksOk(QueueStep(s, r, c).value)
  {
    CountedAfter(s.reqs, r, QueueStep(s, r, c).value.reqs[r]);
    assert CountedIn(QueueStep(s, r, c).value.reqs) == CountedIn(s.reqs);
  }

  lemma {:induction false} QueueingLocks(s: State, r: ReqId, c: Choice)
    requires Own(s, r) && LocksOk(s) && s.reqs[r].pc.Queueing? && QueueStep(s, r, c).Some?
    ensures LocksOk(QueueStep(s, r, c).value)
  {
    CountedAfter(s.reqs, r, QueueStep(s, r, c).value.reqs[r]);
  }

  lemma {:induction false} WaitingLocks(s: State, r: ReqId, c: Choice)
    requires Own(s, r) && LocksOk(s) && s.reqs[r].pc.Waiting? && QueueStep(s, r, c).Some?
    ensures LocksOk(QueueStep(s, r, c).value)
  {
    CountedAfter(s.reqs, r, QueueStep(s, r, c).value.reqs[r]);
    assert CountedIn(QueueStep(s, r, c).value.reqs) == CountedIn(s.reqs);
  }

  lemma {:induction false} WokenLocks(s: State, r: ReqId, c: Choice)
    requires Own(s, r) && LocksOk(s) && (s.reqs[r].pc.Woken? || s.reqs[r].pc.TimedOut?) && QueueStep(s, r, c).Some?
    ensures LocksOk(QueueStep(s, r, c).value)
  {
    CountedAfter(s.reqs, r, QueueStep(s, r, c).value.reqs[r]);
  }

  lemma {:induction false} ReleasingLocks(s: State, r: ReqId, c: Choice)
    requires Own(s, r) && LocksOk(s) && s.reqs[r].pc.Releasing? && QueueStep(s, r, c).Some?
    ensures LocksOk(QueueStep(s, r, c).value)
  {
    CountedAfter(s.reqs, r, QueueStep(s, r, c).value.reqs[r]);
    assert CountedIn(QueueStep(s, r, c).value.reqs) == CountedIn(s.reqs);
  }

  lemma {:induction false} QueueKeeps(s: State, r: ReqId, c: Choice)
    requires Inv(s) && r in s.reqs && IsQueueing(s.reqs[r].pc) && QueueStep(s, r, c).Some?
    ensures Inv(QueueStep(s, r, c).value)
  {
    InvOwn(s, r);
    var pc := s.reqs[r].pc;
    if pc.Trying? {
      TryingOwn(s, r, c);
      TryingLocks(s, r, c);
    } else if pc.Queueing? {
      QueueingOwn(s, r, c);
      QueueingLocks(s, r, c);
    } else if pc.Waiting? {
      WaitingOwn(s, r, c);
      WaitingLocks(s, r, c);
    } else if pc.Releasing? {
      ReleasingOwn(s, r, c);
      ReleasingLocks(s, r, c);
    } else {
      WokenOwn(s, r, c);
      WokenLocks(s, r, c);
    }
    OwnSuffices(s, QueueStep(s, r, c).value, r);
  }

  // ---- the holder

  /** A step of the holder leaves the lock alone. */
  ghost predicate HolderOk(s: State, t: State, r: ReqId) {
    && r in s.reqs && Own(t, r) && StepBy(s, t, r) && t.locks == s.locks && t.nextLock == s.nextLock
    && HoldsLock(t.reqs[r].pc) && !Counted(s.reqs[r].pc) && !Counted(t.reqs[r].pc)
  }

  lemma {:induction false} ReadsState(s: State, r: ReqId, c: Choice)
    requires Own(s, r) && s.reqs[r].pc.Holding? && HolderStep(s, r, c).Some?
    ensures HolderOk(s, HolderStep(s, r, c).value, r)
  {
  }

  lemma {:induction false} Revises(s: State, r: ReqId, c: Choice)
    requires Own(s, r) && s.reqs[r].pc.HasState? && s.reqs[r].action.Revise? && HolderStep(s, r, c).Some?
    ensures HolderOk(s, HolderStep(s, r, c).value, r)
  {
  }

  lemma {:induction false} PassesGate(s: State, r: ReqId, c: Choice)
    requires Own(s, r) && s.reqs[r].pc.HasState? && !s.reqs[r].action.Revise? && HolderStep(s, r, c).Some?
    ensures HolderOk(s, HolderStep(s, r, c).value, r)
  {
    var pc := HolderStep(s, r, c).value.reqs[r].pc;
    assert HolderStep(s, r, c).value == At(s, r, pc);
    GateKnows(s, r, c);
    MovesOwn(s, r, pc);
  }

  lemma {:induction false} GateKnows(s: State, r: ReqId, c: Choice)
    requires Own(s, r) && s.reqs[r].pc.HasState? && !s.reqs[r].action.Revise? && HolderStep(s, r, c).Some?
    ensures var pc := HolderStep(s, r, c).value.reqs[r].pc;
            && DataOk(pc, s.sid, s.sessions[s.sid].phase, s.results, s.nextPlan)
            && (pc.Passed? || pc.Releasing?) && pc.lock == s.reqs[r].pc.lock
  {
  }

  /** A step that only moves r inside the lock. */
  lemma {:induction false} MovesOwn(s: State, r: ReqId, pc: Pc)
    requires Own(s, r) && HoldsLock(s.reqs[r].pc) && HoldsLock(pc) && LockOf(pc) == LockOf(s.reqs[r].pc)
    requires !Counted(s.reqs[r].pc) && !Counted(pc)
    requires DataOk(pc, s.sid, s.sessions[s.sid].phase, s.results, s.nextPlan)
    ensures HolderOk(s, At(s, r, pc), r)
  {
  }

  lemma {:induction false} MarksRunning(s: State, r: ReqId, c: Choice)
    requires Own(s, r) && s.reqs[r].pc.Passed? && HolderStep(s, r, c).Some?
    ensures HolderOk(s, HolderStep(s, r, c).value, r)
  {
  }

  lemma {:induction false} TeamBReturnsOk(s: State, r: ReqId, result: nat, clean: bool)
    requires Own(s, r) && s.reqs[r].pc.Running?
    ensures HolderOk(s, HolderStep(s, r, TeamBReturns(result, clean)).value, r)
  {
    var p := s.reqs[r].pc.before.plan;
    assert p !in s.returned;
  }

  lemma {:induction false} TeamBEnds(s: State, r: ReqId, c: Choice)
    requires Own(s, r) && s.reqs[r].pc.Running? && HolderStep(s, r, c).Some?
    ensures HolderOk(s, HolderStep(s, r, c).value, r)
  {
    if c.TeamBReturns? {
      TeamBReturnsOk(s, r, c.result, c.clean);
    } else {
      MovesOwn(s, r, Raised(s.reqs[r].pc.lock, s.reqs[r].pc.before, s.reqs[r].pc.hit));
    }
  }

  lemma {:induction false} ChecksAfterResult(s: State, r: ReqId, c: Choice)
    requires Own(s, r) && s.reqs[r].pc.Returned? && HolderStep(s, r, c).Some?
    ensures HolderOk(s, HolderStep(s, r, c).value, r)
  {
    var pc := HolderStep(s, r, c).value.reqs[r].pc;
    assert HolderStep(s, r, c).value == At(s, r, pc);
    MovesOwn(s, r, pc);
  }

  lemma {:induction false} ChecksAfterFailure(s: State, r: ReqId, c: Choice)
    requires Own(s, r) && s.reqs[r].pc.Raised? && HolderStep(s, r, c).Some?
    ensures HolderOk(s, HolderStep(s, r, c).value, r)
  {
    var pc := HolderStep(s, r, c).value.reqs[r].pc;
    assert HolderStep(s, r, c).value == At(s, r, pc);
    MovesOwn(s, r, pc);
  }

  lemma {:induction false} Discards(s: State, r: ReqId, c: Choice)
    requires Own(s, r) && s.reqs[r].pc.Discarding? && HolderStep(s, r, c).Some?
    ensures HolderOk(s, HolderStep(s, r, c).value, r)
  {
  }

  lemma {:induction false} StoresResult(s: State, r: ReqId, c: Choice)
    requires Own(s, r) && s.reqs[r].pc.Storing? && HolderStep(s, r, c).Some?
    ensures HolderOk(s, HolderStep(s, r, c).value, r)
  {
  }

  lemma {:induction false} RestoresWaiting(s: State, r: ReqId, c: Choice)
    requires Own(s, r) && s.reqs[r].pc.Restoring? && HolderStep(s, r, c).Some?
    ensures HolderOk(s, HolderStep(s, r, c).value, r)
  {
  }

  lemma {:induction false} HolderGood(s: State, r: ReqId, c: Choice)
    requires Own(s, r) && HolderStep(s, r, c).Some?
    ensures HolderOk(s, HolderStep(s, r, c).value, r)
  {
    match s.reqs[r].pc {
      case Holding(_) => ReadsState(s, r, c);
      case HasState(_, _) => if s.reqs[r].action.Revise? { Revises(s, r, c); } else { PassesGate(s, r, c); }
      case Passed(_, _) => MarksRunning(s, r, c);
      case Running(_, _, _) => TeamBEnds(s, r, c);
      case Returned(_, _, _, _) => ChecksAfterResult(s, r, c);
      case Raised(_, _, _) => ChecksAfterFailure(s, r, c);
      case Discarding(_, _) => Discards(s, r, c);
      case Storing(_, _) => StoresResult(s, r, c);
      case Restoring(_, _) => RestoresWaiting(s, r, c);
    }
  }

  lemma {:induction false} HolderKeeps(s: State, r: ReqId, c: Choice)
    requires Inv(s) && r in s.reqs && HolderStep(s, r, c).Some?
    ensures Inv(HolderStep(s, r, c).value)
  {
    InvOwn(s, r);
    HolderGood(s, r, c);
    UncountedLocks(s, HolderStep(s, r, c).value, r);
    OwnSuffices(s, HolderStep(s, r, c).value, r);
  }

  // ---- all steps

  lemma {:induction false} NewRequestKeeps(s: State, r: ReqId, action: Action, asked: Key)
    requires Inv(s) && r !in s.reqs && asked in s.sessions
    ensures Inv(s.(reqs := s.reqs[r := Request(action, asked, asked, Arrived)]))
  {
    var t := s.(reqs := s.reqs[r := Request(action, asked, asked, Arrived)]);
    UncountedLocks(s, t, r);
    OwnSuffices(s, t, r);
  }

  lemma {:induction false} CollectKeeps(s: State)
    requires Inv(s) && forall r :: r in s.reqs ==> LockOf(s.reqs[r].pc).None?
    ensures Inv(s.(locks := map[]))
  {
    var t := s.(locks := map[]);
    forall x | x in t.reqs ensures Linked(t.reqs[x], x, t.sid, t.locks) {
      assert Linked(s.reqs[x], x, s.sid, s.locks);
    }
  }

  lemma {:induction false} StepKeeps(s: State, e: Event)
    requires Inv(s) && Step(s, e).Some?
    ensures Inv(Step(s, e).value)
  {
    match e
    case Arrive(r, action, asked) => NewRequestKeeps(s, r, action, asked);
    case Collect => CollectKeeps(s);
    case Do(r, c) =>
      var pc := s.reqs[r].pc;
      InvOwn(s, r);
      if pc.Arrived? {
        ArriveOwn(s, r);
        ArriveStepBy(s, r);
        ArriveLocks(s, r);
        OwnSuffices(s, ArriveStep(s, r), r);
      } else if IsCancelling(pc) {
        CancelKeeps(s, r, c);
      } else if IsQueueing(pc) {
        QueueKeeps(s, r, c);
      } else {
        HolderKeeps(s, r, c);
      }
  }

  lemma {:induction false} RunKeeps(s: State, events: seq<Event>)
    requires Inv(s) && Run(s, events).Some?
    ensures Inv(Run(s, events).value)
    decreases |events|
  {
    if events != [] {
      StepKeeps(s, events[0]);
      RunKeeps(Step(s, events[0]).value, events[1..]);
    }
  }
}
