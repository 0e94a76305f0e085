/** Confirm, resume, revise and cancel on one session (gateway/app.py), as interleaved atomic
    steps of any number of requests. Every read and every write of the session table is a step of
    its own, so a cancel may land between any two of them. */
module ConfirmGate {
  import opened Wrappers

  /** Session ids and run_id aliases; NO_KEY stands for the empty string. */
  type Key = nat
  type ReqId = nat

  const NO_KEY: Key := 0

  /** requests allowed to wait behind a running confirm */
  const MAX_WAITERS: nat := 2

  datatype Phase = AwaitConfirm | TeamBRunning | Done | NeedRevision | Cancelled | Interrupted | OtherPhase

  /** A stored session state: who owns it, its run_id alias, the Team A plan it carries, and the Team B
      result (meaningful when the phase is Done or NeedRevision). */
  datatype Session = Session(phase: Phase, owner: Key, run: Key, plan: nat, result: nat)

  datatype Lock = Lock(id: nat, holder: Option<ReqId>, waiters: nat)

  datatype Action = Confirm | Resume | Revise | Cancel

  datatype Answer =
    | Busy
    | NotAllowed
    | Replayed(plan: nat, result: nat)
    | Completed(plan: nat, result: nat)
    | CancelledDuringTeamB
    | TeamBFailed
    | RevisedTo(plan: nat)
    | RevisionFailed
    | CancelDone

  /** Where a request is. `before` is the state it read under the lock; `hit` records whether a cancel
      was written since this request marked the session team_b_running. */
  datatype Pc =
    | Arrived
    | CancelHas(seen: Session)
    | CancelNoting(seen: Session)
    | Trying(lock: nat)
    | Queueing(lock: nat)
    | Waiting(lock: nat)
    | Woken(lock: nat)
    | TimedOut(lock: nat)
    | Holding(lock: nat)
    | HasState(lock: nat, before: Session)
    | Passed(lock: nat, before: Session)
    | Running(lock: nat, before: Session, hit: bool)
    | Returned(lock: nat, before: Session, hit: bool, outcome: Session)
    | Raised(lock: nat, before: Session, hit: bool)
    | Discarding(lock: nat, current: Session)
    | Storing(lock: nat, outcome: Session)
    | Restoring(lock: nat, before: Session)
    | Releasing(lock: nat, answer: Answer)
    | Answered(answer: Answer)

  /** `asked` is the key the caller named, `key` the session it resolved to. */
  datatype Request = Request(action: Action, asked: Key, key: Key, pc: Pc)

  /** `returned` lists the plans whose Team B run returned, oldest first; `results` what each returned. */
  datatype State = State(sid: Key, sessions: map<Key, Session>, locks: map<Key, Lock>, reqs: map<ReqId, Request>,
                         nextLock: nat, nextPlan: nat, returned: seq<nat>, results: map<nat, nat>)

  datatype Choice =
    | Go
    | Timeout
    | ChecksRefuse
    | TeamAReturns(run: Key)
    | TeamARaises
    | TeamBReturns(result: nat, clean: bool)
    | TeamBRaises
    | NoCheckpoint

  datatype Event = Arrive(r: ReqId, action: Action, asked: Key) | Do(r: ReqId, choice: Choice) | Collect

  // ---------------------------------------------------------------- the session table and the lock

  /** _store_session: under the session id and, when it differs, under the run_id alias. */
  function Stored(sessions: map<Key, Session>, sid: Key, st: Session): map<Key, Session> {
    if st.run != NO_KEY && st.run != sid then sessions[sid := st][st.run := st] else sessions[sid := st]
  }

  /** _canonical_session_id: a run_id alias names the session that owns the state filed under it. */
  function Canonical(sessions: map<Key, Session>, asked: Key): Key {
    if asked in sessions && sessions[asked].owner != NO_KEY && sessions[asked].owner != asked && sessions[asked].run == asked
    then sessions[asked].owner else asked
  }

  function TryAcquired(l: Lock, r: ReqId): Lock {
    if l.holder.None? then l.(holder := Some(r)) else l
  }

  function Enqueued(l: Lock): Lock {
    if l.waiters >= MAX_WAITERS then l else l.(waiters := l.waiters + 1)
  }

  function Dequeued(l: Lock): Lock {
    l.(waiters := if l.waiters > 0 then l.waiters - 1 else 0)
  }

  /** _SessionLock and the counter updates of _acquire_confirm_turn; every method runs under the guard. */
  class SessionLock {
    var state: Lock

    constructor (id: nat)
      ensures state == Lock(id, None, 0)
    {
      state := Lock(id, None, 0);
    }

    method TryAcquire(r: ReqId) returns (got: bool)
      modifies this
      ensures got <==> old(state).holder.None?
      ensures state == TryAcquired(old(state), r)
    {
      got := state.holder.None?;
      if got {
        state := state.(holder := Some(r));
      }
    }

    method Enqueue() returns (allowed: bool)
      modifies this
      ensures allowed <==> old(state).waiters < MAX_WAITERS
      ensures state == Enqueued(old(state))
    {
      allowed := state.waiters < MAX_WAITERS;
      if allowed {
        state := state.(waiters := state.waiters + 1);
      }
    }

    method Dequeue()
      requires state.waiters > 0
      modifies this
      ensures state == Dequeued(old(state)) && state.waiters == old(state).waiters - 1
    {
      state := state.(waiters := state.waiters - 1);
    }

    method Release()
      modifies this
      ensures state == old(state).(holder := None)
    {
      state := state.(holder := None);
    }
  }

  /** The _SESSIONS table. */
  class SessionTable {
    var sessions: map<Key, Session>

    method Store(sid: Key, st: Session)
      modifies this
      ensures sessions == Stored(old(sessions), sid, st)
      ensures sessions[sid] == st && (st.run != NO_KEY ==> st.run in sessions && sessions[st.run] == st)
    {
      sessions := sessions[sid := st];
      if st.run != NO_KEY && st.run != sid {
        sessions := sessions[st.run := st];
      }
    }
  }

  // ---------------------------------------------------------------- the step function

  function At(s: State, r: ReqId, pc: Pc): State
    requires r in s.reqs
  {
    s.(reqs := s.reqs[r := s.reqs[r].(pc := pc)])
  }

  /** Every request in progress is told that a cancel was written. */
  function MarkHit(reqs: map<ReqId, Request>): map<ReqId, Request> {
    map r | r in reqs :: reqs[r].(pc := Hit(reqs[r].pc))
  }

  function Hit(pc: Pc): Pc {
    match pc
    case Running(l, b, _) => Running(l, b, true)
    case Returned(l, b, _, o) => Returned(l, b, true, o)
    case Raised(l, b, _) => Raised(l, b, true)
    case _ => pc
  }

  function Gate(st: Session): Option<Answer> {
    match st.phase
    case AwaitConfirm => None
    case Done => Some(Replayed(st.plan, st.result))
    case NeedRevision => Some(Replayed(st.plan, st.result))
    case _ => Some(NotAllowed)
  }

  function Resolved(s: State, r: ReqId, key: Key, pc: Pc): State
    requires r in s.reqs
  {
    s.(reqs := s.reqs[r := s.reqs[r].(key := key, pc := pc)])
  }

  /** A request arrives: it resolves the key it was asked with and, unless it cancels, finds the lock. */
  function ArriveStep(s: State, r: ReqId): State
    requires r in s.reqs
  {
    var key := Canonical(s.sessions, s.reqs[r].asked);
    if s.reqs[r].action.Cancel? then
      if key in s.sessions then Resolved(s, r, key, CancelHas(s.sessions[key]))
      else Resolved(s, r, key, Answered(NotAllowed))
    else if key in s.locks then Resolved(s, r, key, Trying(s.locks[key].id))
    else Resolved(s, r, key, Trying(s.nextLock)).(
           locks := s.locks[key := Lock(s.nextLock, None, 0)], nextLock := s.nextLock + 1)
  }

  /** A cancel writes without the lock. */
  function CancelStep(s: State, r: ReqId, c: Choice): Option<State>
    requires r in s.reqs
  {
    var key := s.reqs[r].key;
    match s.reqs[r].pc
    case CancelHas(seen) =>
      var st := seen.(phase := Cancelled);
      var t := At(s, r, CancelNoting(st));
      Some(t.(sessions := Stored(s.sessions, key, st), reqs := MarkHit(t.reqs)))
    case CancelNoting(seen) =>
      var t := At(s, r, Answered(CancelDone));
      if c.NoCheckpoint? then Some(t)
      else Some(t.(sessions := s.sessions[key := seen], reqs := MarkHit(t.reqs)))
    case _ => None
  }

  /** The lock and its waiters. */
  function QueueStep(s: State, r: ReqId, c: Choice): Option<State>
    requires r in s.reqs
  {
    var key := s.reqs[r].key;
    if key !in s.locks then None
    else
      var lock := s.locks[key];
      match s.reqs[r].pc
      case Trying(l) =>
        if lock.holder.None? then Some(At(s, r, Holding(l)).(locks := s.locks[key := TryAcquired(lock, r)]))
        else Some(At(s, r, Queueing(l)))
      case Queueing(l) =>
        if lock.waiters >= MAX_WAITERS then Some(At(s, r, Answered(Busy)))
        else Some(At(s, r, Waiting(l)).(locks := s.locks[key := Enqueued(lock)]))
      case Waiting(l) =>
        if c.Timeout? then Some(At(s, r, TimedOut(l)))
        else if lock.holder.None? then Some(At(s, r, Woken(l)).(locks := s.locks[key := TryAcquired(lock, r)]))
        else None
      case Woken(l) => Some(At(s, r, Holding(l)).(locks := s.locks[key := Dequeued(lock)]))
      case TimedOut(l) => Some(At(s, r, Answered(Busy)).(locks := s.locks[key := Dequeued(lock)]))
      case Releasing(l, answer) => Some(At(s, r, Answered(answer)).(locks := s.locks[key := lock.(holder := None)]))
      case _ => None
  }

  /** What the lock holder does. */
  function HolderStep(s: State, r: ReqId, c: Choice): Option<State>
    requires r in s.reqs
  {
    var q, key := s.reqs[r], s.reqs[r].key;
    match q.pc
    case Holding(l) =>
      if key in s.sessions then Some(At(s, r, HasState(l, s.sessions[key])))
      else Some(At(s, r, Releasing(l, NotAllowed)))
    case HasState(l, before) =>
      if q.action.Revise? then
        (match c
         case TeamAReturns(run) =>
           if run == NO_KEY || run in s.sessions then None
           else Some(At(s, r, Releasing(l, RevisedTo(s.nextPlan))).(
                       sessions := Stored(s.sessions, key, Session(AwaitConfirm, key, run, s.nextPlan, 0)),
                       nextPlan := s.nextPlan + 1))
         case TeamARaises => Some(At(s, r, Releasing(l, RevisionFailed)))
         case _ => None)
      else
        (match Gate(before)
         case Some(answer) => Some(At(s, r, Releasing(l, answer)))
         case None =>
           if c.ChecksRefuse? && q.action.Confirm? then Some(At(s, r, Releasing(l, NotAllowed)))
           else Some(At(s, r, Passed(l, before))))
    case Passed(l, before) =>
      Some(At(s, r, Running(l, before, false)).(sessions := s.sessions[key := before.(phase := TeamBRunning)]))
    case Running(l, before, hit) =>
      (match c
       case TeamBReturns(result, clean) =>
         var outcome := before.(phase := if clean then Done else NeedRevision, result := result);
         Some(At(s, r, Returned(l, before, hit, outcome)).(
                returned := s.returned + [before.plan], results := s.results[before.plan := result]))
       case TeamBRaises => Some(At(s, r, Raised(l, before, hit)))
       case _ => None)
    case Returned(l, before, hit, outcome) =>
      if key in s.sessions && s.sessions[key].phase.Cancelled? then Some(At(s, r, Discarding(l, s.sessions[key])))
      else Some(At(s, r, Storing(l, outcome)))
    case Raised(l, before, hit) =>
      if key in s.sessions && s.sessions[key].phase.Cancelled? then Some(At(s, r, Discarding(l, s.sessions[key])))
      else if key in s.sessions && s.sessions[key].phase.TeamBRunning? then Some(At(s, r, Restoring(l, before)))
      else Some(At(s, r, Releasing(l, TeamBFailed)))
    case Discarding(l, current) =>
      Some(At(s, r, Releasing(l, CancelledDuringTeamB)).(sessions := Stored(s.sessions, key, current)))
    case Storing(l, outcome) =>
      Some(At(s, r, Releasing(l, Completed(outcome.plan, outcome.result))).(
             sessions := Stored(s.sessions, key, outcome)))
    case Restoring(l, before) =>
      Some(At(s, r, Releasing(l, TeamBFailed)).(sessions := Stored(s.sessions, key, before)))
    case _ => None
  }

  predicate IsCancelling(pc: Pc) {
    pc.CancelHas? || pc.CancelNoting?
  }

  predicate IsQueueing(pc: Pc) {
    pc.Trying? || pc.Queueing? || pc.Waiting? || pc.Woken? || pc.TimedOut? || pc.Releasing?
  }

  /** One atomic step of request r; None when it cannot take this step now. */
  function StepOf(s: State, r: ReqId, c: Choice): Option<State>
    requires r in s.reqs
  {
    var pc := s.reqs[r].pc;
    if pc.Arrived? then Some(ArriveStep(s, r))
    else if IsCancelling(pc) then CancelStep(s, r, c)
    else if IsQueueing(pc) then QueueStep(s, r, c)
    else HolderStep(s, r, c)
  }

  /** The lock object a request keeps alive. */
  function LockOf(pc: Pc): Option<nat> {
    match pc
    case Arrived => None
    case CancelHas(_) => None
    case CancelNoting(_) => None
    case Answered(_) => None
    case _ => Some(pc.lock)
  }

  function Step(s: State, e: Event): Option<State> {
    match e
    case Arrive(r, action, asked) =>
      if r in s.reqs || asked !in s.sessions then None
      else Some(s.(reqs := s.reqs[r := Request(action, asked, asked, Arrived)]))
    case Do(r, c) => if r in s.reqs then StepOf(s, r, c) else None
    case Collect =>
      // the lock map holds its locks weakly: an unused one may go at any time
      if forall r | r in s.reqs :: LockOf(s.reqs[r].pc).None? then Some(s.(locks := map[])) else None
  }

  /** The state after a sequence of steps, each of which must be possible. */
  function Run(s: State, events: seq<Event>): Option<State>
    decreases |events|
  {
    if events == [] then Some(s)
    else
      var t := Step(s, events[0]);
      if t.None? then None else Run(t.value, events[1..])
  }
}
