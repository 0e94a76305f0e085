/** One chat turn per session (demo/turn_control.py, demo/chat_service.py): a lease, its cooperative
    cancellation, and the finalizer of the producer, as interleaved atomic steps. */
module Turns {
  import opened Wrappers

  type SessionId = nat
  type LeaseId = nat
  type CancelId = nat

  datatype Phase = Running | Cancelling | Done | Failed | Cancelled

  predicate Terminal(p: Phase) {
    p.Done? || p.Failed? || p.Cancelled?
  }

  // ---------------------------------------------------------------- one turn's control

  /** state and event of a TurnControl */
  datatype Turn = Turn(phase: Phase, event: bool)

  function Requested(t: Turn): Turn {
    if Terminal(t.phase) then t else Turn(Cancelling, true)
  }

  /** seal raises, changing nothing, when a result other than cancelled is claimed after a cancel. */
  predicate SealRaises(t: Turn, p: Phase) {
    !p.Cancelled? && t.event
  }

  function Sealed(t: Turn, p: Phase): Turn {
    if SealRaises(t, p) then t else t.(phase := p)
  }

  /** TurnControl; each method runs under the control's own lock. */
  class TurnControl {
    var turn: Turn
    var reason: string
    var closers: seq<nat>

    constructor ()
      ensures turn == Turn(Running, false) && reason == "" && closers == []
    {
      turn := Turn(Running, false);
      reason := "";
      closers := [];
    }

    /** Refuse on a terminal turn; otherwise set the event, keep the first reason, and hand out the
        closers newest first. */
    method RequestCancel(why: string) returns (accepted: bool, toClose: seq<nat>)
      modifies this
      ensures accepted <==> !Terminal(old(turn).phase)
      ensures turn == Requested(old(turn)) && closers == old(closers)
      ensures reason == if accepted && !old(turn).event then why else old(reason)
      ensures |toClose| == if accepted then |closers| else 0
      ensures forall i :: 0 <= i < |toClose| ==> toClose[i] == closers[|closers| - 1 - i]
    {
      if Terminal(turn.phase) {
        return false, [];
      }
      if !turn.event {
        reason := why;
      }
      turn := Turn(Cancelling, true);
      accepted := true;
      toClose := seq(|closers|, i requires 0 <= i < |closers| reads this => closers[|closers| - 1 - i]);
    }

    method Seal(p: Phase) returns (raised: bool)
      requires Terminal(p)
      modifies this`turn
      ensures raised <==> SealRaises(old(turn), p)
      ensures turn == Sealed(old(turn), p)
    {
      raised := !p.Cancelled? && turn.event;
      if !raised {
        turn := turn.(phase := p);
      }
    }
  }

  // ---------------------------------------------------------------- leases and their producer

  datatype Pc =
    | NotStarted
    | Working
    | Stopped
    | Leaving
    | ReadEvent
    | FinalSeal(want: Phase)
    | Finishing
    | ReleasingOwn
    | Over

  datatype Lease = Lease(session: SessionId, turn: Turn, running: bool, released: bool, pc: Pc)

  /** A cancel that has looked the session up; `accepted` once it has been answered. */
  datatype Cancel = Cancel(target: Option<LeaseId>, accepted: Option<bool>)

  /** _ACTIVE, _TURNS, what release recorded for each lease, and all leases and cancels so far. */
  datatype State = State(active: set<SessionId>, turns: map<SessionId, LeaseId>, labels: map<LeaseId, Phase>,
                         leases: map<LeaseId, Lease>, cancels: map<CancelId, Cancel>)

  datatype Choice = SealDone | SealFailed | Check | Break

  datatype Event =
    | NewLease(l: LeaseId, session: SessionId)
    | Start(l: LeaseId)
    | Produce(l: LeaseId, choice: Choice)
    | TearDown(l: LeaseId)
    | LookUp(c: CancelId, session: SessionId)
    | Request(c: CancelId)
    | DetachedTimeout(l: LeaseId)

  function With(s: State, l: LeaseId, lease: Lease): State {
    s.(leases := s.leases[l := lease])
  }

  /** SessionLease.release: nothing while the turn runs; otherwise give the session back, once. */
  function Released(s: State, l: LeaseId): State
    requires l in s.leases
  {
    var lease := s.leases[l];
    if lease.released || lease.running then s
    else
      var final := if Terminal(lease.turn.phase) then lease.turn.phase else Done;
      var t := With(s, l, lease.(released := true)).(active := s.active - {lease.session});
      if lease.session in s.turns && s.turns[lease.session] == l
      then t.(turns := s.turns - {lease.session}, labels := s.labels[l := final]) else t
  }

  /** One step of the producer thread, its finalizer included, up to the release that ends it. */
  function Advance(lease: Lease, c: Choice): Option<Lease> {
    var turn := lease.turn;
    match lease.pc
    case Working =>
      (match c
       case Check => if turn.event then Some(lease.(pc := Stopped)) else None
       case Break => Some(lease.(pc := Leaving))
       case SealDone => Some(lease.(turn := Sealed(turn, Done), pc := if SealRaises(turn, Done) then Stopped else Leaving))
       case SealFailed => Some(lease.(turn := Sealed(turn, Failed), pc := if SealRaises(turn, Failed) then Stopped else Leaving)))
    case Stopped => Some(lease.(turn := Sealed(turn, Cancelled), pc := Leaving))
    case Leaving => Some(lease.(pc := if Terminal(turn.phase) then FinalSeal(turn.phase) else ReadEvent))
    case ReadEvent => Some(lease.(pc := FinalSeal(if turn.event then Cancelled else Failed)))
    case FinalSeal(want) =>
      if SealRaises(turn, want) then Some(lease.(pc := FinalSeal(Cancelled)))
      else Some(lease.(turn := Sealed(turn, want), pc := Finishing))
    case Finishing =>
      // finish: the fallback label is for a turn that was never sealed
      var t := if lease.running && !Terminal(turn.phase)
               then turn.(phase := if turn.event then Cancelled else Failed) else turn;
      Some(lease.(turn := t, running := false, pc := ReleasingOwn))
    case _ => None
  }

  function ProduceStep(s: State, l: LeaseId, c: Choice): Option<State>
    requires l in s.leases
  {
    if s.leases[l].pc.ReleasingOwn? then
      var r := Released(s, l);
      Some(With(r, l, r.leases[l].(pc := Over)))
    else
      var next := Advance(s.leases[l], c);
      if next.None? then None else Some(With(s, l, next.value))
  }

  function Step(s: State, e: Event): Option<State> {
    match e
    case NewLease(l, session) =>
      if l in s.leases || session in s.active || session in s.turns then None
      else Some(With(s, l, Lease(session, Turn(Running, false), false, false, NotStarted)).(
                  active := s.active + {session}, turns := s.turns[session := l]))
    case Start(l) =>
      if l !in s.leases || s.leases[l].released || !s.leases[l].pc.NotStarted? then None
      else Some(With(s, l, s.leases[l].(running := true, pc := Working)))
    case Produce(l, c) => if l in s.leases then ProduceStep(s, l, c) else None
    case TearDown(l) => if l in s.leases then Some(Released(s, l)) else None
    case LookUp(c, session) =>
      if c in s.cancels then None
      else
        var target := if session in s.turns then Some(s.turns[session]) else None;
        Some(s.(cancels := s.cancels[c := Cancel(target, if target.None? then Some(false) else None)]))
    case Request(c) =>
      if c !in s.cancels || s.cancels[c].accepted.Some? || s.cancels[c].target.None?
         || s.cancels[c].target.value !in s.leases then None
      else
        var l := s.cancels[c].target.value;
        var turn := s.leases[l].turn;
        Some(With(s, l, s.leases[l].(turn := Requested(turn))).(
               cancels := s.cancels[c := s.cancels[c].(accepted := Some(!Terminal(turn.phase)))]))
    case DetachedTimeout(l) =>
      if l !in s.leases || s.leases[l].pc.NotStarted? then None
      else Some(With(s, l, s.leases[l].(turn := Requested(s.leases[l].turn))))
  }

  function Run(s: State, events: seq<Event>): Option<State>
    decreases |events|
  {
    if events == [] then Some(s)
    else
      var t := Step(s, events[0]);
      if t.None? then None else Run(t.value, events[1..])
  }

  // ---------------------------------------------------------------- the objects behind the steps

  /** _ACTIVE and _TURNS under their locks, with what release recorded. */
  class Registry {
    var active: set<SessionId>
    var turns: map<SessionId, LeaseId>
    var labels: map<LeaseId, Phase>

    ghost predicate Agrees(s: State)
      reads this
    {
      active == s.active && turns == s.turns && labels == s.labels
    }

    /** The constructor of SessionLease: busy when either registry knows the session. */
    method Acquire(l: LeaseId, session: SessionId, ghost s: State) returns (lease: Option<SessionLease>)
      requires Agrees(s) && l !in s.leases
      modifies this`active, this`turns
      ensures lease.Some? <==> Step(s, NewLease(l, session)).Some?
      ensures lease.None? ==> Agrees(s)
      ensures lease.Some? ==>
                var t := Step(s, NewLease(l, session)).value;
                fresh(lease.value) && fresh(lease.value.control) && Agrees(t) && lease.value.Is(t)
    {
      if session in active {
        return None;
      }
      if session in turns {
        return None;
      }
      var made := new SessionLease(l, session);
      turns := turns[session := l];
      active := active + {session};
      lease := Some(made);
    }
  }

  class SessionLease {
    const id: LeaseId
    const session: SessionId
    const control: TurnControl
    var running: bool
    var released: bool

    /** The object is lease `id` of the state. */
    ghost predicate Is(s: State)
      reads this, control
    {
      && id in s.leases
      && s.leases[id].session == session && s.leases[id].turn == control.turn
      && s.leases[id].running == running && s.leases[id].released == released
    }

    constructor (id: LeaseId, session: SessionId)
      ensures this.id == id && this.session == session && !running && !released
      ensures fresh(control) && control.turn == Turn(Running, false)
    {
      this.id := id;
      this.session := session;
      control := new TurnControl();
      running := false;
      released := false;
    }

    method Begin(ghost s: State) returns (raised: bool)
      requires Is(s) && s.leases[id].pc.NotStarted?
      modifies this`running
      ensures raised <==> Step(s, Start(id)).None?
      ensures Is(if raised then s else Step(s, Start(id)).value)
    {
      if released {
        return true;
      }
      running := true;
      raised := false;
    }

    method Release(registry: Registry, ghost s: State)
      requires Is(s) && registry.Agrees(s)
      modifies this`released, registry
      ensures Is(Released(s, id)) && registry.Agrees(Released(s, id))
    {
      if !released && !running {
        registry.active := registry.active - {session};
        released := true;
        // turn_control.release
        if session in registry.turns && registry.turns[session] == id {
          registry.turns := registry.turns - {session};
          registry.labels := registry.labels[id := if Terminal(control.turn.phase) then control.turn.phase else Done];
        }
      }
    }

    /** finish is the last two steps of the producer, Finishing and ReleasingOwn. */
    method Finish(registry: Registry, ghost s: State, ghost c: Choice)
      requires Is(s) && registry.Agrees(s) && s.leases[id].pc.Finishing?
      modifies this`running, this`released, control`turn, registry
      ensures var t := ProduceStep(ProduceStep(s, id, c).value, id, c).value;
              Is(t) && registry.Agrees(t) && t.leases[id].pc.Over?
    {
      if running && !Terminal(control.turn.phase) {
        control.turn := control.turn.(phase := if control.turn.event then Cancelled else Failed);
      }
      running := false;
      ghost var mid := FinishSteps(s, id, c);
      Release(registry, mid);
    }
  }

  /** The two steps of finish: stop running under a terminal state, then release and be over. */
  lemma {:induction false} FinishSteps(s: State, l: LeaseId, c: Choice) returns (mid: State)
    requires l in s.leases && s.leases[l].pc.Finishing?
    ensures ProduceStep(s, l, c) == Some(mid) && ProduceStep(mid, l, c).Some?
    ensures var lease, turn := s.leases[l], s.leases[l].turn;
            mid == With(s, l, lease.(turn := if lease.running && !Terminal(turn.phase)
                                             then turn.(phase := if turn.event then Cancelled else Failed) else turn,
                                     running := false, pc := ReleasingOwn))
    ensures ProduceStep(mid, l, c).value == With(Released(mid, l), l, Released(mid, l).leases[l].(pc := Over))
  {
    mid := ProduceStep(s, l, c).value;
  }

  // ---------------------------------------------------------------- the invariant

  /** The event is set exactly when the turn is being or was cancelled; never under done or failed. */
  predicate TurnOk(t: Turn) {
    t.event <==> t.phase.Cancelling? || t.phase.Cancelled?
  }

  predicate Started(lease: Lease) {
    !lease.pc.NotStarted?
  }

  predicate LeaseOk(lease: Lease) {
    && TurnOk(lease.turn)
    && (lease.running <==> Started(lease) && !lease.pc.ReleasingOwn? && !lease.pc.Over?)
    && (lease.running ==> !lease.released)
    && (lease.pc.NotStarted? ==> !Terminal(lease.turn.phase))
    && (lease.pc.Stopped? ==> lease.turn.event && !Terminal(lease.turn.phase))
    && (lease.pc.Working? ==> !Terminal(lease.turn.phase))
    && (lease.pc.Finishing? || lease.pc.ReleasingOwn? || lease.pc.Over? ==> Terminal(lease.turn.phase))
    && (lease.pc.Over? ==> lease.released)
    && (lease.pc.ReadEvent? ==> !Terminal(lease.turn.phase))
    && (lease.pc.FinalSeal? ==>
          && Terminal(lease.pc.want)
          && (Terminal(lease.turn.phase) ==> lease.pc.want == lease.turn.phase)
          && (lease.pc.want.Cancelled? ==> lease.turn.event))
  }

  /** The label release records: the sealed state of a started turn, "done" for one never started. */
  predicate LabelOk(lease: Lease, l: LeaseId, labels: map<LeaseId, Phase>) {
    && (lease.released <==> l in labels)
    && (l in labels ==> labels[l] == if Started(lease) then lease.turn.phase else Done)
    && (lease.released && Started(lease) ==> Terminal(lease.turn.phase))
  }

  /** A lease owns its session from its creation to its release, and nobody else does. */
  predicate OwnsOk(lease: Lease, l: LeaseId, turns: map<SessionId, LeaseId>) {
    !lease.released <==> lease.session in turns && turns[lease.session] == l
  }

  predicate CancelOk(c: Cancel, leases: map<LeaseId, Lease>) {
    && (c.target.Some? ==> c.target.value in leases)
    && (c.accepted == Some(true) ==> c.target.Some? && leases[c.target.value].turn.event)
    && (c.accepted == Some(false) && c.target.Some? ==> Terminal(leases[c.target.value].turn.phase))
  }

  ghost predicate Inv(s: State) {
    && s.active == s.turns.Keys
    && (forall session :: session in s.turns ==> s.turns[session] in s.leases && s.leases[s.turns[session]].session == session)
    && (forall l :: l in s.leases ==> LeaseOk(s.leases[l]) && LabelOk(s.leases[l], l, s.labels) && OwnsOk(s.leases[l], l, s.turns))
    && (forall l :: l in s.labels ==> l in s.leases)
    && (forall c :: c in s.cancels ==> CancelOk(s.cancels[c], s.leases))
  }

  /** What may happen to a turn: nothing, or a move that respects the event and never leaves a terminal state. */
  predicate TurnMoves(a: Turn, b: Turn) {
    (a.event ==> b.event) && (Terminal(a.phase) ==> b == a)
  }

  /** Steps the producer still has to take once its work is over. */
  function FinalRank(lease: Lease): nat {
    match lease.pc
    case Working => 8
    case Stopped => 7
    case Leaving => 6
    case ReadEvent => 5
    case FinalSeal(want) => if want.Cancelled? then 3 else 4
    case Finishing => 2
    case ReleasingOwn => 1
    case _ => 0
  }

  predicate Finalizing(lease: Lease) {
    !lease.pc.NotStarted? && !lease.pc.Working?
  }

  /** What any step may do to one lease: a running one is not released, and stops running only inside
      finish, which leaves the sealed state alone. */
  predicate LeaseMoves(a: Lease, b: Lease) {
    && b.session == a.session
    && TurnMoves(a.turn, b.turn)
    && (a.released ==> b.released && Started(b) == Started(a))
    && (Started(a) ==> Started(b))
    && (a.running ==> !b.released)
    && (a.running && !b.running ==> a.pc.Finishing? && Terminal(a.turn.phase) && b.turn == a.turn)
    && (Finalizing(a) ==> Finalizing(b))
    && (Started(a) ==> FinalRank(b) <= FinalRank(a))
  }

  /** A step that only changes the turn and the pc of one unreleased or unlabelled lease. */
  lemma {:induction false} LeaseStepKeeps(s: State, l: LeaseId, lease: Lease)
    requires Inv(s) && l in s.leases && LeaseOk(lease)
    requires lease.session == s.leases[l].session && lease.released == s.leases[l].released
    requires TurnMoves(s.leases[l].turn, lease.turn)
    requires s.leases[l].released ==> Started(lease) == Started(s.leases[l])
    requires s.leases[l].released && Started(lease) ==> lease.turn == s.leases[l].turn
    ensures Inv(With(s, l, lease))
  {
    var t := With(s, l, lease);
    forall c | c in t.cancels ensures CancelOk(t.cancels[c], t.leases) {
      assert CancelOk(s.cancels[c], s.leases);
    }
  }

  lemma {:induction false} ReleasedKeeps(s: State, l: LeaseId)
    requires Inv(s) && l in s.leases
    ensures Inv(Released(s, l))
  {
    var t := Released(s, l);
    if !s.leases[l].released && !s.leases[l].running {
      assert OwnsOk(s.leases[l], l, s.turns) && LabelOk(s.leases[l], l, s.labels) && LeaseOk(s.leases[l]);
      forall x | x in t.leases
        ensures LeaseOk(t.leases[x]) && LabelOk(t.leases[x], x, t.labels) && OwnsOk(t.leases[x], x, t.turns)
      {
        assert LeaseOk(s.leases[x]) && LabelOk(s.leases[x], x, s.labels) && OwnsOk(s.leases[x], x, s.turns);
      }
      forall c | c in t.cancels ensures CancelOk(t.cancels[c], t.leases) {
        assert CancelOk(s.cancels[c], s.leases);
      }
    }
  }

  lemma {:induction false} AdvanceMoves(lease: Lease, c: Choice)
    requires LeaseOk(lease) && Advance(lease, c).Some?
    ensures var next := Advance(lease, c).value;
            LeaseOk(next) && LeaseMoves(lease, next) && next.released == lease.released && FinalRank(next) < FinalRank(lease)
  {
  }

  lemma {:induction false} ProduceKeeps(s: State, l: LeaseId, c: Choice)
    requires Inv(s) && l in s.leases && ProduceStep(s, l, c).Some?
    ensures Inv(ProduceStep(s, l, c).value)
  {
    assert LeaseOk(s.leases[l]) && LabelOk(s.leases[l], l, s.labels);
    if s.leases[l].pc.ReleasingOwn? {
      ReleaseOwnKeeps(s, l);
    } else {
      AdvanceMoves(s.leases[l], c);
      LeaseStepKeeps(s, l, Advance(s.leases[l], c).value);
    }
  }

  /** finish ends with a release that does happen: the turn no longer runs. */
  lemma {:induction false} ReleaseOwnKeeps(s: State, l: LeaseId)
    requires Inv(s) && l in s.leases && s.leases[l].pc.ReleasingOwn?
    ensures Inv(With(Released(s, l), l, Released(s, l).leases[l].(pc := Over)))
  {
    var r := Released(s, l);
    assert LeaseOk(s.leases[l]);
    ReleasedKeeps(s, l);
    assert LeaseOk(r.leases[l]) && r.leases[l].released;
    LeaseStepKeeps(r, l, r.leases[l].(pc := Over));
  }

  lemma {:induction false} RequestKeeps(s: State, c: CancelId)
    requires Inv(s) && Step(s, Request(c)).Some?
    ensures Inv(Step(s, Request(c)).value)
  {
    var l := s.cancels[c].target.value;
    var t := Step(s, Request(c)).value;
    assert LeaseOk(s.leases[l]) && LabelOk(s.leases[l], l, s.labels) && CancelOk(s.cancels[c], s.leases);
    TurnChangeKeeps(s, l);
    var m := With(s, l, s.leases[l].(turn := Requested(s.leases[l].turn)));
    assert t == m.(cancels := t.cancels);
    forall x | x in t.cancels ensures CancelOk(t.cancels[x], t.leases) {
      assert CancelOk(m.cancels[x], m.leases);
    }
  }

  lemma {:induction false} TurnChangeKeeps(s: State, l: LeaseId)
    requires Inv(s) && l in s.leases
    ensures Inv(With(s, l, s.leases[l].(turn := Requested(s.leases[l].turn))))
  {
    var next := s.leases[l].(turn := Requested(s.leases[l].turn));
    assert LeaseOk(s.leases[l]) && LabelOk(s.leases[l], l, s.labels);
    LeaseStepKeeps(s, l, next);
  }

  lemma {:induction false} NewLeaseKeeps(s: State, l: LeaseId, session: SessionId)
    requires Inv(s) && Step(s, NewLease(l, session)).Some?
    ensures Inv(Step(s, NewLease(l, session)).value)
  {
    var t := Step(s, NewLease(l, session)).value;
    forall x | x in t.leases
      ensures LeaseOk(t.leases[x]) && LabelOk(t.leases[x], x, t.labels) && OwnsOk(t.leases[x], x, t.turns)
    {
      if x != l {
        assert LeaseOk(s.leases[x]) && LabelOk(s.leases[x], x, s.labels) && OwnsOk(s.leases[x], x, s.turns);
      }
    }
    forall c | c in t.cancels ensures CancelOk(t.cancels[c], t.leases) {
      assert CancelOk(s.cancels[c], s.leases);
    }
  }

  lemma {:induction false} StepKeeps(s: State, e: Event)
    requires Inv(s) && Step(s, e).Some?
    ensures Inv(Step(s, e).value)
  {
    match e
    case NewLease(l, session) => NewLeaseKeeps(s, l, session);
    case Start(l) => LeaseStepKeeps(s, l, s.leases[l].(running := true, pc := Working));
    case Produce(l, c) => ProduceKeeps(s, l, c);
    case TearDown(l) => ReleasedKeeps(s, l);
    case LookUp(c, session) =>
      var t := Step(s, e).value;
      forall x | x in t.cancels ensures CancelOk(t.cancels[x], t.leases) {
        assert x != c ==> CancelOk(s.cancels[x], s.leases);
      }
    case Request(c) => RequestKeeps(s, c);
    case DetachedTimeout(l) => TurnChangeKeeps(s, l);
  }

  lemma {:induction false} RunKeeps(s: State, events: seq<Event>)
    requires Inv(s) && Run(s, events).Some?
    ensures Inv(Run(s, events).value)
    decreases |events|
  {
    if events != [] {
      StepKeeps(s, events[0]);
      RunKeeps(Step(s, events[0]).value, events[1..]);
    }
  }

  // ---------------------------------------------------------------- what a run shows

  const INITIAL := State({}, map[], map[], map[], map[])

  lemma {:induction false} ReachableInv(events: seq<Event>)
    requires Run(INITIAL, events).Some?
    ensures Inv(Run(INITIAL, events).value)
  {
    RunKeeps(INITIAL, events);
  }

  lemma {:induction false} ReleaseMoves(s: State, l: LeaseId, x: LeaseId)
    requires Inv(s) && l in s.leases && x in s.leases
    ensures var t := Released(s, l);
            && x in t.leases && LeaseMoves(s.leases[x], t.leases[x])
            && t.leases[x] == s.leases[x].(released := t.leases[x].released)
            && (x == l && s.leases[x].pc.ReleasingOwn? ==> t.leases[x].released)
  {
    assert LeaseOk(s.leases[x]);
  }

  lemma {:induction false} ProduceMoves(s: State, l: LeaseId, c: Choice, x: LeaseId)
    requires Inv(s) && l in s.leases && x in s.leases && ProduceStep(s, l, c).Some?
    ensures var t := ProduceStep(s, l, c).value;
            && x in t.leases && LeaseMoves(s.leases[x], t.leases[x])
            && (x == l ==> FinalRank(t.leases[x]) < FinalRank(s.leases[x]))
            && (x != l ==> t.leases[x] == s.leases[x])
  {
    assert LeaseOk(s.leases[x]);
    if s.leases[l].pc.ReleasingOwn? {
      ReleaseMoves(s, l, x);
    } else if x == l {
      AdvanceMoves(s.leases[l], c);
    }
  }

  /** Every step moves every lease as LeaseMoves says; only the producer's own steps change its pc. */
  lemma {:induction false} StepMoves(s: State, e: Event, l: LeaseId)
    requires Inv(s) && l in s.leases && Step(s, e).Some?
    ensures var t := Step(s, e).value;
            && l in t.leases && LeaseMoves(s.leases[l], t.leases[l])
            && (e.Produce? && e.l == l ==> FinalRank(t.leases[l]) < FinalRank(s.leases[l]))
            && (!(e.Produce? && e.l == l) && Started(s.leases[l]) ==>
                  t.leases[l].pc == s.leases[l].pc && t.leases[l].running == s.leases[l].running)
  {
    if e.Produce? {
      ProduceMoves(s, e.l, e.choice, l);
    } else if e.TearDown? {
      ReleaseMoves(s, e.l, l);
    } else {
      assert LeaseOk(s.leases[l]);
    }
  }

  lemma {:induction false} LabelsStay(s: State, e: Event, l: LeaseId)
    requires Inv(s) && l in s.labels && Step(s, e).Some?
    ensures l in Step(s, e).value.labels && Step(s, e).value.labels[l] == s.labels[l]
  {
    assert l in s.leases && LabelOk(s.leases[l], l, s.labels);
  }

  lemma {:induction false} CancelsStay(s: State, e: Event, c: CancelId)
    requires Inv(s) && c in s.cancels && Step(s, e).Some?
    ensures var t := Step(s, e).value;
            && c in t.cancels && t.cancels[c].target == s.cancels[c].target
            && (s.cancels[c].accepted.Some? ==> t.cancels[c].accepted == s.cancels[c].accepted)
  {
  }

  /** Nothing is forgotten: leases, their terminal states, recorded labels and given answers all stay. */
  ghost predicate Extends(s: State, t: State) {
    && (forall l :: l in s.leases ==>
          && l in t.leases
          && t.leases[l].session == s.leases[l].session
          && TurnMoves(s.leases[l].turn, t.leases[l].turn)
          && (s.leases[l].released ==> t.leases[l].released)
          && (s.leases[l].released ==> Started(t.leases[l]) == Started(s.leases[l])))
    && (forall l :: l in s.labels ==> l in t.labels && t.labels[l] == s.labels[l])
    && (forall c :: c in s.cancels ==>
          && c in t.cancels
          && t.cancels[c].target == s.cancels[c].target
          && (s.cancels[c].accepted.Some? ==> t.cancels[c].accepted == s.cancels[c].accepted))
  }

  lemma {:induction false} StepExtends(s: State, e: Event, t: State)
    requires Inv(s) && Step(s, e) == Some(t)
    ensures Extends(s, t)
  {
    forall l | l in s.leases
      ensures l in t.leases && LeaseMoves(s.leases[l], t.leases[l])
    {
      StepMoves(s, e, l);
    }
    forall l | l in s.labels ensures l in t.labels && t.labels[l] == s.labels[l] {
      LabelsStay(s, e, l);
    }
    forall c | c in s.cancels
      ensures && c in t.cancels && t.cancels[c].target == s.cancels[c].target
              && (s.cancels[c].accepted.Some? ==> t.cancels[c].accepted == s.cancels[c].accepted)
    {
      CancelsStay(s, e, c);
    }
  }

  lemma {:induction false} RunExtends(s: State, events: seq<Event>)
    requires Inv(s) && Run(s, events).Some?
    ensures Extends(s, Run(s, events).value)
    decreases |events|
  {
    if events != [] {
      StepKeeps(s, events[0]);
      StepExtends(s, events[0], Step(s, events[0]).value);
      RunExtends(Step(s, events[0]).value, events[1..]);
    }
  }

  /** Once a turn has a terminal state it keeps that one, and once it is released its label is that
      state, in every later run. */
  lemma {:induction false} OneTerminalState(before: seq<Event>, s: State, after: seq<Event>, l: LeaseId)
    requires Run(INITIAL, before) == Some(s) && Run(s, after).Some?
    requires l in s.leases && Terminal(s.leases[l].turn.phase)
    ensures var t := Run(s, after).value;
            && l in t.leases && t.leases[l].turn == s.leases[l].turn
            && (l in t.labels ==> t.labels[l] == s.leases[l].turn.phase)
  {
    ReachableInv(before);
    RunExtends(s, after);
    RunKeeps(s, after);
    var t := Run(s, after).value;
    assert LeaseOk(t.leases[l]) && LabelOk(t.leases[l], l, t.labels);
  }

  /** An accepted cancel is binding from then on: whatever runs later, the turn never becomes done or
      failed, and if it ends as a started turn it ends, and is recorded, as cancelled. */
  lemma {:induction false} AcceptedCancelIsFinal(before: seq<Event>, s: State, after: seq<Event>, c: CancelId)
    requires Run(INITIAL, before) == Some(s) && Run(s, after).Some?
    requires c in s.cancels && s.cancels[c].accepted == Some(true)
    ensures var t := Run(s, after).value;
            && s.cancels[c].target.Some? && s.cancels[c].target.value in t.leases
            && var l := s.cancels[c].target.value;
               && !t.leases[l].turn.phase.Done? && !t.leases[l].turn.phase.Failed?
               && (t.leases[l].pc.Over? ==> t.leases[l].turn.phase == Cancelled)
               && (l in t.labels ==> (t.labels[l] == Cancelled <==> Started(t.leases[l])))
  {
    ReachableInv(before);
    RunExtends(s, after);
    RunKeeps(s, after);
    var t := Run(s, after).value;
    assert CancelOk(t.cancels[c], t.leases);
    var l := s.cancels[c].target.value;
    assert LeaseOk(t.leases[l]) && LabelOk(t.leases[l], l, t.labels);
  }

  /** The label on a released lease, exactly: cancelled for a started turn whose event was set, and
      never cancelled for a lease that was torn down before it started. */
  lemma {:induction false} LabelExactly(events: seq<Event>, l: LeaseId)
    requires Run(INITIAL, events).Some? && l in Run(INITIAL, events).value.labels
    ensures var s := Run(INITIAL, events).value;
            && l in s.leases
            && (s.labels[l] == Cancelled <==> Started(s.leases[l]) && s.leases[l].turn.event)
            && (Started(s.leases[l]) ==> s.labels[l] == s.leases[l].turn.phase)
  {
    ReachableInv(events);
    var s := Run(INITIAL, events).value;
    assert l in s.leases;
    assert LeaseOk(s.leases[l]) && LabelOk(s.leases[l], l, s.labels);
  }

  /** Whatever a producer has sealed without a cancel is what its turn is recorded as, in every later run. */
  lemma {:induction false} SealedIsRecorded(before: seq<Event>, s: State, l: LeaseId, c: Choice, t: State, after: seq<Event>)
    requires Run(INITIAL, before) == Some(s) && l in s.leases && s.leases[l].pc.Working? && !s.leases[l].turn.event
    requires c in {SealDone, SealFailed} && Step(s, Produce(l, c)) == Some(t) && Run(t, after).Some?
    ensures var u, sealed := Run(t, after).value, if c == SealDone then Done else Failed;
            && l in u.leases && u.leases[l].turn.phase == sealed
            && (l in u.labels ==> u.labels[l] == sealed)
  {
    ReachableInv(before);
    StepKeeps(s, Produce(l, c));
    RunExtends(t, after);
    RunKeeps(t, after);
    var u := Run(t, after).value;
    assert LeaseOk(t.leases[l]) && LabelOk(u.leases[l], l, u.labels);
  }

  /** Past its work, not done, and not about to be. */
  predicate BrokenOff(lease: Lease) {
    && !lease.turn.phase.Done? && Finalizing(lease) && !lease.pc.Stopped?
    && (lease.pc.FinalSeal? ==> !lease.pc.want.Done?)
  }

  lemma {:induction false} BrokenOffStays(s: State, events: seq<Event>, l: LeaseId)
    requires Inv(s) && l in s.leases && BrokenOff(s.leases[l]) && Run(s, events).Some?
    ensures l in Run(s, events).value.leases && BrokenOff(Run(s, events).value.leases[l])
    decreases |events|
  {
    if events != [] {
      StepKeeps(s, events[0]);
      StepMoves(s, events[0], l);
      BrokenOffStep(s, events[0], l);
      BrokenOffStays(Step(s, events[0]).value, events[1..], l);
    }
  }

  lemma {:induction false} BrokenOffStep(s: State, e: Event, l: LeaseId)
    requires Inv(s) && l in s.leases && BrokenOff(s.leases[l]) && Step(s, e).Some?
    ensures l in Step(s, e).value.leases && BrokenOff(Step(s, e).value.leases[l])
  {
    assert LeaseOk(s.leases[l]);
    if e.Produce? && e.l == l {
      if s.leases[l].pc.ReleasingOwn? {
        ReleaseMoves(s, l, l);
      }
    } else if e.Produce? {
      ProduceMoves(s, e.l, e.choice, l);
    } else if e.TearDown? {
      ReleaseMoves(s, e.l, l);
    }
  }

  /** A producer that breaks off with nothing sealed is recorded as failed, or as cancelled if its event
      was set by then, and never as done. */
  lemma {:induction false} BreakEndsFailed(before: seq<Event>, s: State, l: LeaseId, t: State, after: seq<Event>)
    requires Run(INITIAL, before) == Some(s) && l in s.leases && s.leases[l].pc.Working?
    requires Step(s, Produce(l, Break)) == Some(t) && Run(t, after).Some?
    ensures var u := Run(t, after).value;
            && l in u.leases
            && (u.leases[l].pc.Over? ==> u.leases[l].turn.phase == if u.leases[l].turn.event then Cancelled else Failed)
            && (l in u.labels ==> u.labels[l] == if u.leases[l].turn.event then Cancelled else Failed)
  {
    ReachableInv(before);
    assert LeaseOk(s.leases[l]);
    StepKeeps(s, Produce(l, Break));
    BrokenOffStays(t, after, l);
    RunKeeps(t, after);
    var u := Run(t, after).value;
    assert LeaseOk(u.leases[l]) && LabelOk(u.leases[l], l, u.labels);
  }

  /** The run in which an accepted cancel is reported as done: the lease is created, cancelled, and
      released by the request handler before its producer ever starts. */
  lemma {:induction false} CancelBeforeStartEndsDone(session: SessionId, l: LeaseId, c: CancelId)
    returns (events: seq<Event>, s: State)
    ensures Run(INITIAL, events) == Some(s)
    ensures c in s.cancels && s.cancels[c] == Cancel(Some(l), Some(true))
    ensures l in s.labels && s.labels[l] == Done && session !in s.active
  {
    var e0, e1, e2, e3 := NewLease(l, session), LookUp(c, session), Request(c), TearDown(l);
    events := [e0, e1, e2, e3];
    var s0 := Step(INITIAL, e0).value;
    var s1 := Step(s0, e1).value;
    var s2 := Step(s1, e2).value;
    s := Step(s2, e3).value;
    assert Run(s, []) == Some(s);
    assert [e3][1..] == [] && Run(s2, [e3]) == Some(s);
    assert [e2, e3][1..] == [e3] && Run(s1, [e2, e3]) == Some(s);
    assert [e1, e2, e3][1..] == [e2, e3] && Run(s0, [e1, e2, e3]) == Some(s);
    assert events[1..] == [e1, e2, e3];
  }

  /** A request is accepted exactly when the turn has not ended; a refused one changes nothing else. */
  lemma {:induction false} RefusedChangesNothing(s: State, c: CancelId)
    requires Inv(s) && Step(s, Request(c)).Some?
    ensures var t := Step(s, Request(c)).value;
            var l := s.cancels[c].target.value;
            && (t.cancels[c].accepted == Some(false) <==> Terminal(s.leases[l].turn.phase))
            && (t.cancels[c].accepted == Some(false) ==> t == s.(cancels := t.cancels))
            && (t.cancels[c].accepted == Some(true) ==> t.leases[l].turn == Turn(Cancelling, true))
  {
    var l := s.cancels[c].target.value;
    assert s.leases[l := s.leases[l]] == s.leases;
  }

  /** done and failed mean the event was never set: no cancel of that turn was ever accepted. */
  lemma {:induction false} DoneWasNeverCancelled(events: seq<Event>, l: LeaseId, c: CancelId)
    requires Run(INITIAL, events).Some?
    requires l in Run(INITIAL, events).value.leases && c in Run(INITIAL, events).value.cancels
    requires Run(INITIAL, events).value.cancels[c].target == Some(l)
    ensures var s := Run(INITIAL, events).value;
            s.leases[l].turn.phase.Done? || s.leases[l].turn.phase.Failed? ==>
              !s.leases[l].turn.event && s.cancels[c].accepted != Some(true)
  {
    ReachableInv(events);
    var s := Run(INITIAL, events).value;
    assert LeaseOk(s.leases[l]) && CancelOk(s.cancels[c], s.leases);
  }

  lemma {:induction false} AdvanceKeepsEvent(s: State, l: LeaseId, c: Choice, x: LeaseId)
    requires Inv(s) && l in s.leases && x in s.leases && ProduceStep(s, l, c).Some?
    ensures x in ProduceStep(s, l, c).value.leases
    ensures ProduceStep(s, l, c).value.leases[x].turn.event == s.leases[x].turn.event
  {
  }

  /** The event of a turn is set only by an accepted request or by the limit on a detached turn. */
  lemma {:induction false} EventOnlyByRequest(s: State, e: Event, l: LeaseId)
    requires Inv(s) && Step(s, e).Some? && l in s.leases
    requires !s.leases[l].turn.event && Step(s, e).value.leases[l].turn.event
    ensures e == DetachedTimeout(l) || (e.Request? && s.cancels[e.c].target == Some(l)
                                        && Step(s, e).value.cancels[e.c].accepted == Some(true))
  {
    if e.Produce? {
      AdvanceKeepsEvent(s, e.l, e.choice, l);
    }
  }

  /** The two registries agree, and two leases never hold one session at once. */
  lemma {:induction false} OneLeasePerSession(events: seq<Event>, a: LeaseId, b: LeaseId)
    requires Run(INITIAL, events).Some?
    requires a in Run(INITIAL, events).value.leases && b in Run(INITIAL, events).value.leases
    ensures var s := Run(INITIAL, events).value;
            && s.active == s.turns.Keys
            && (!s.leases[a].released <==> s.leases[a].session in s.turns && s.turns[s.leases[a].session] == a)
            && (!s.leases[a].released && !s.leases[b].released && s.leases[a].session == s.leases[b].session ==> a == b)
  {
    ReachableInv(events);
    var s := Run(INITIAL, events).value;
    assert OwnsOk(s.leases[a], a, s.turns) && OwnsOk(s.leases[b], b, s.turns);
  }

  /** While a turn runs, tearing its request down does nothing, its session accepts no other turn, and
      only the step inside finish ends the running; that step finds the state already sealed. */
  lemma {:induction false} OnlyFinishEndsARun(s: State, e: Event, l: LeaseId, other: LeaseId)
    requires Inv(s) && l in s.leases && s.leases[l].running && Step(s, e).Some?
    ensures Step(s, TearDown(l)) == Some(s)
    ensures Step(s, NewLease(other, s.leases[l].session)).None?
    ensures var t := Step(s, e).value;
            && l in t.leases && !t.leases[l].released && s.leases[l].session in t.active
            && (!t.leases[l].running ==>
                  && e.Produce? && e.l == l && s.leases[l].pc.Finishing?
                  && Terminal(s.leases[l].turn.phase) && t.leases[l].turn == s.leases[l].turn)
  {
    assert LeaseOk(s.leases[l]) && OwnsOk(s.leases[l], l, s.turns);
    StepMoves(s, e, l);
    StepKeeps(s, e);
    var t := Step(s, e).value;
    assert OwnsOk(t.leases[l], l, t.turns);
  }

  /** The finalizer is never blocked: whatever others do, it takes at most seven steps of its own to
      reach the end, and there the session has been given back under a terminal label. */
  lemma {:induction false} FinalizerEnds(s: State, e: Event, l: LeaseId, c: Choice)
    requires Inv(s) && l in s.leases && Finalizing(s.leases[l]) && Step(s, e).Some?
    ensures FinalRank(s.leases[l]) <= 7
    ensures ProduceStep(s, l, c).Some? <==> FinalRank(s.leases[l]) > 0
    ensures var t := Step(s, e).value;
            && l in t.leases && Finalizing(t.leases[l])
            && FinalRank(t.leases[l]) <= FinalRank(s.leases[l])
            && (e.Produce? && e.l == l ==> FinalRank(t.leases[l]) < FinalRank(s.leases[l]))
    ensures s.leases[l].pc.Stopped? ==> ProduceStep(s, l, c).value.leases[l].turn.phase == Cancelled
    ensures FinalRank(s.leases[l]) == 0 ==>
              s.leases[l].released && l in s.labels && s.labels[l] == s.leases[l].turn.phase && Terminal(s.labels[l])
  {
    assert LeaseOk(s.leases[l]) && LabelOk(s.leases[l], l, s.labels);
    StepMoves(s, e, l);
  }
}
