/** The promises of the confirm gate over whole runs (gateway/app.py). */
module ConfirmResults {
  import opened Wrappers
  import opened ConfirmGate
  import opened ConfirmSafety

  /** A session with one waiting plan and nobody asking yet. */
  ghost predicate Initial(s: State) {
    && TableOk(s) && s.sessions[s.sid].phase.AwaitConfirm?
    && s.locks == map[] && s.reqs == map[] && s.returned == [] && s.results == map[]
  }

  /** At most one Team B run of the session is in progress, whatever the interleaving. */
  lemma {:induction false} OneTeamBAtATime(s: State, events: seq<Event>, r: ReqId, x: ReqId)
    requires Initial(s) && Run(s, events).Some?
    requires var t := Run(s, events).value;
             r in t.reqs && x in t.reqs && InTeamB(t.reqs[r].pc) && InTeamB(t.reqs[x].pc)
    ensures r == x
  {
    RunKeeps(s, events);
    var t := Run(s, events).value;
    assert Linked(t.reqs[r], r, t.sid, t.locks) && Linked(t.reqs[x], x, t.sid, t.locks);
  }

  /** No plan is run to completion twice, so completed Team B runs never outnumber Team A plans. */
  lemma {:induction false} EachPlanOnce(s: State, events: seq<Event>)
    requires Initial(s) && Run(s, events).Some?
    ensures var t := Run(s, events).value;
            && (forall i, j :: 0 <= i < j < |t.returned| ==> t.returned[i] != t.returned[j])
            && |t.returned| <= t.nextPlan
  {
    RunKeeps(s, events);
    var t := Run(s, events).value;
    assert forall i :: 0 <= i < |t.returned| ==> t.returned[i] in t.results;
    DistinctBelow(t.returned, t.nextPlan);
  }

  lemma {:induction false} DistinctBelow(xs: seq<nat>, n: nat)
    requires forall i, j :: 0 <= i < j < |xs| ==> xs[i] != xs[j]
    requires forall i :: 0 <= i < |xs| ==> xs[i] < n
    ensures |xs| <= n
  {
    if xs != [] {
      if n - 1 in xs {
        var k :| 0 <= k < |xs| && xs[k] == n - 1;
        var ys := xs[..k] + xs[k + 1..];
        forall i, j | 0 <= i < j < |ys| ensures ys[i] != ys[j] {
          var i', j' := if i < k then i else i + 1, if j < k then j else j + 1;
          assert ys[i] == xs[i'] && ys[j] == xs[j'];
        }
        forall i | 0 <= i < |ys| ensures ys[i] < n - 1 {
          var i' := if i < k then i else i + 1;
          assert ys[i] == xs[i'] && xs[i'] != xs[k];
        }
        DistinctBelow(ys, n - 1);
      } else {
        DistinctBelow(xs, n - 1);
      }
    }
  }

  /** At most MAX_WAITERS requests wait behind the holder. */
  lemma {:induction false} FewWait(s: State, events: seq<Event>)
    requires Initial(s) && Run(s, events).Some?
    ensures |CountedIn(Run(s, events).value.reqs)| <= MAX_WAITERS
  {
    RunKeeps(s, events);
    var t := Run(s, events).value;
    if t.sid !in t.locks {
      NoLockNoWaiters(t);
    }
  }

  /** Whoever is told a result, by a first confirm or a repeat, is told what the plan's one run returned. */
  lemma {:induction false} AnswersAgree(s: State, events: seq<Event>, r: ReqId)
    requires Initial(s) && Run(s, events).Some?
    requires r in Run(s, events).value.reqs && Run(s, events).value.reqs[r].pc.Answered?
    ensures var t := Run(s, events).value;
            match t.reqs[r].pc.answer
            case Replayed(p, x) => p in t.results && t.results[p] == x
            case Completed(p, x) => p in t.results && t.results[p] == x
            case _ => true
  {
    RunKeeps(s, events);
    var t := Run(s, events).value;
    assert DataOk(t.reqs[r].pc, t.sid, t.sessions[t.sid].phase, t.results, t.nextPlan);
  }

  /** Where a confirm or resume is that has read the finished state b: it answers with b's result and does
      nothing else. */
  predicate Repeats(q: Request, b: Session) {
    && (q.action.Confirm? || q.action.Resume?)
    && match q.pc
       case HasState(_, before) => before == b
       case Releasing(_, answer) => answer == Replayed(b.plan, b.result)
       case Answered(answer) => answer == Replayed(b.plan, b.result)
       case _ => false
  }

  lemma {:induction false} RepeatAnswers(s: State, r: ReqId, c: Choice, b: Session)
    requires r in s.reqs && Repeats(s.reqs[r], b) && Finished(b) && s.reqs[r].pc.HasState?
    ensures HolderStep(s, r, c) == Some(At(s, r, Releasing(s.reqs[r].pc.lock, Replayed(b.plan, b.result))))
  {
  }

  lemma {:induction false} RepeatReleases(s: State, r: ReqId, c: Choice, b: Session)
    requires r in s.reqs && s.reqs[r].pc.Releasing? && QueueStep(s, r, c).Some?
    ensures QueueStep(s, r, c).value == At(s, r, Answered(s.reqs[r].pc.answer)).(locks := QueueStep(s, r, c).value.locks)
  {
  }

  lemma {:induction false} RepeatOwnStep(s: State, r: ReqId, c: Choice, b: Session)
    requires r in s.reqs && Repeats(s.reqs[r], b) && Finished(b) && StepOf(s, r, c).Some?
    ensures var t := StepOf(s, r, c).value;
            && r in t.reqs && Repeats(t.reqs[r], b)
            && t.sessions == s.sessions && t.returned == s.returned && t.results == s.results
  {
    if s.reqs[r].pc.HasState? {
      RepeatAnswers(s, r, c, b);
    } else if s.reqs[r].pc.Releasing? {
      RepeatReleases(s, r, c, b);
    }
  }

  /** The steps of x leave request r alone, except that a cancel marks the runs it hits. */
  ghost predicate Leaves(s: State, t: State, r: ReqId)
    requires r in s.reqs
  {
    r in t.reqs && (t.reqs[r] == s.reqs[r] || t.reqs[r] == s.reqs[r].(pc := Hit(s.reqs[r].pc)))
  }

  lemma {:induction false} QueueLeaves(s: State, x: ReqId, c: Choice, r: ReqId)
    requires x in s.reqs && r in s.reqs && x != r && QueueStep(s, x, c).Some?
    ensures Leaves(s, QueueStep(s, x, c).value, r)
  {
  }

  lemma {:induction false} HolderLeaves(s: State, x: ReqId, c: Choice, r: ReqId)
    requires x in s.reqs && r in s.reqs && x != r && HolderStep(s, x, c).Some?
    ensures Leaves(s, HolderStep(s, x, c).value, r)
  {
  }

  lemma {:induction false} CancelLeaves(s: State, x: ReqId, c: Choice, r: ReqId)
    requires x in s.reqs && r in s.reqs && x != r && CancelStep(s, x, c).Some?
    ensures Leaves(s, CancelStep(s, x, c).value, r)
  {
  }

  lemma {:induction false} OthersLeave(s: State, x: ReqId, c: Choice, r: ReqId)
    requires x in s.reqs && r in s.reqs && x != r && StepOf(s, x, c).Some?
    ensures Leaves(s, StepOf(s, x, c).value, r)
  {
    var pc := s.reqs[x].pc;
    if pc.Arrived? {
    } else if IsCancelling(pc) {
      CancelLeaves(s, x, c, r);
    } else if IsQueueing(pc) {
      QueueLeaves(s, x, c, r);
    } else {
      HolderLeaves(s, x, c, r);
    }
  }

  /** A repeat runs nothing: once a confirm or resume has read a finished state, its own steps change neither the
      sessions nor the runs, whatever else happens, and the only answer it can give is the stored result. */
  lemma {:induction false} RepeatRunsNothing(s: State, events: seq<Event>, r: ReqId, b: Session)
    requires r in s.reqs && Repeats(s.reqs[r], b) && Finished(b) && Run(s, events).Some?
    ensures var t := Run(s, events).value;
            && r in t.reqs && Repeats(t.reqs[r], b)
            && forall c :: StepOf(t, r, c).Some? ==>
                 var u := StepOf(t, r, c).value;
                 u.sessions == t.sessions && u.returned == t.returned && u.results == t.results
    decreases |events|
  {
    if events == [] {
      forall c | StepOf(s, r, c).Some?
        ensures var u := StepOf(s, r, c).value; u.sessions == s.sessions && u.returned == s.returned && u.results == s.results
      {
        RepeatOwnStep(s, r, c, b);
      }
    } else {
      var e := events[0];
      if e.Do? {
        if e.r == r {
          RepeatOwnStep(s, r, e.choice, b);
        } else {
          OthersLeave(s, e.r, e.choice, r);
        }
      }
      RepeatRunsNothing(Step(s, e).value, events[1..], r, b);
    }
  }

  // ---------------------------------------------------------------- when a cancel is final

  /** The request has decided on a state it read earlier and will write without looking again. */
  predicate Late(q: Request) {
    || q.pc.Passed? || q.pc.Storing? || q.pc.Restoring?
    || (q.pc.HasState? && !q.action.Revise? && q.pc.before.phase.AwaitConfirm?)
  }

  ghost predicate NobodyLate(s: State) {
    forall r :: r in s.reqs ==> !Late(s.reqs[r])
  }

  predicate IsRevision(e: Event) {
    e.Do? && e.choice.TeamAReturns?
  }

  ghost predicate NoRevision(events: seq<Event>) {
    forall e :: e in events ==> !IsRevision(e)
  }

  ghost predicate IsCancelled(s: State) {
    s.sid in s.sessions && s.sessions[s.sid].phase.Cancelled?
  }

  /** Cancelled or finished: nothing is awaited or running. */
  ghost predicate Settled(s: State) {
    s.sid in s.sessions && (s.sessions[s.sid].phase.Cancelled? || Finished(s.sessions[s.sid]))
  }

  /** The session is as it was, or has been cancelled. */
  ghost predicate Stands(s: State, t: State)
    requires s.sid in s.sessions
  {
    && t.sid == s.sid && t.sid in t.sessions
    && (IsCancelled(t) || (t.sessions[t.sid] == s.sessions[s.sid] && !IsCancelled(s)))
  }

  lemma {:induction false} ArriveSettled(s: State, r: ReqId)
    requires Own(s, r) && Settled(s) && NobodyLate(s) && s.reqs[r].pc.Arrived?
    ensures Stands(s, ArriveStep(s, r)) && NobodyLate(ArriveStep(s, r))
  {
    ArriveStepBy(s, r);
  }

  lemma {:induction false} HolderSettled(s: State, r: ReqId, c: Choice)
    requires Own(s, r) && Settled(s) && !Late(s.reqs[r]) && !c.TeamAReturns? && HolderStep(s, r, c).Some?
    ensures Stands(s, HolderStep(s, r, c).value) && !Late(HolderStep(s, r, c).value.reqs[r])
  {
  }

  lemma {:induction false} CancelSettled(s: State, r: ReqId, c: Choice)
    requires Own(s, r) && Settled(s) && NobodyLate(s) && CancelStep(s, r, c).Some?
    ensures Stands(s, CancelStep(s, r, c).value) && NobodyLate(CancelStep(s, r, c).value)
  {
  }

  lemma {:induction false} QueueSettled(s: State, r: ReqId, c: Choice)
    requires Settled(s) && NobodyLate(s) && r in s.reqs && QueueStep(s, r, c).Some?
    ensures Stands(s, QueueStep(s, r, c).value) && NobodyLate(QueueStep(s, r, c).value)
  {
  }

  /** A holder's step touches no other request, so nobody else becomes late. */
  lemma {:induction false} HolderKeepsNobodyLate(s: State, t: State, r: ReqId)
    requires NobodyLate(s) && StepBy(s, t, r) && !Late(t.reqs[r])
    ensures NobodyLate(t)
  {
  }

  lemma {:induction false} StaysSettled(s: State, e: Event)
    requires Inv(s) && Settled(s) && NobodyLate(s) && !IsRevision(e) && Step(s, e).Some?
    ensures Stands(s, Step(s, e).value) && NobodyLate(Step(s, e).value)
  {
    if e.Do? {
      InvOwn(s, e.r);
      var pc := s.reqs[e.r].pc;
      if pc.Arrived? {
        ArriveSettled(s, e.r);
      } else if IsCancelling(pc) {
        CancelSettled(s, e.r, e.choice);
      } else if IsQueueing(pc) {
        QueueSettled(s, e.r, e.choice);
      } else {
        HolderSettled(s, e.r, e.choice);
        HolderGood(s, e.r, e.choice);
        HolderKeepsNobodyLate(s, Step(s, e).value, e.r);
      }
    }
  }

  /** A settled session that nobody is about to overwrite keeps its state until a cancel, and a cancel for good. */
  lemma {:induction false} SettledForGood(s: State, events: seq<Event>)
    requires Inv(s) && Settled(s) && NobodyLate(s) && NoRevision(events) && Run(s, events).Some?
    ensures Stands(s, Run(s, events).value)
    decreases |events|
  {
    if events != [] {
      assert events[0] in events;
      StaysSettled(s, events[0]);
      StepKeeps(s, events[0]);
      SettledForGood(Step(s, events[0]).value, events[1..]);
    }
  }

  /** The steps with which a late request overwrites a cancel. */
  function LateSteps(s: State, r: ReqId): seq<Event>
    requires r in s.reqs
  {
    if s.reqs[r].pc.HasState? then [Do(r, Go), Do(r, Go)] else [Do(r, Go)]
  }

  lemma {:induction false} LateLosesCancel(s: State, r: ReqId)
    requires Inv(s) && r in s.reqs && Late(s.reqs[r])
    ensures Run(s, LateSteps(s, r)).Some? && !IsCancelled(Run(s, LateSteps(s, r)).value)
    ensures NoRevision(LateSteps(s, r))
  {
    InvOwn(s, r);
    if s.reqs[r].pc.HasState? {
      var t := Step(s, Do(r, Go)).value;
      StepKeeps(s, Do(r, Go));
      InvOwn(t, r);
      assert LateSteps(s, r)[1..] == [Do(r, Go)];
      assert Run(t, [Do(r, Go)]) == Run(Step(t, Do(r, Go)).value, []);
    } else {
      assert LateSteps(s, r)[1..] == [];
    }
  }

  /** A cancelled session stays cancelled against every continuation without a revision exactly when no
      request is between its last look at the state and the write it decided on. */
  lemma {:induction false} CancelFinalExactly(s: State)
    requires Inv(s) && IsCancelled(s)
    ensures NobodyLate(s) <==>
              forall events :: NoRevision(events) && Run(s, events).Some? ==> IsCancelled(Run(s, events).value)
  {
    if NobodyLate(s) {
      forall events | NoRevision(events) && Run(s, events).Some? ensures IsCancelled(Run(s, events).value) {
        SettledForGood(s, events);
      }
    } else {
      var r :| r in s.reqs && Late(s.reqs[r]);
      LateLosesCancel(s, r);
    }
  }

  /** A cancel written while Team B runs, anywhere from the running mark to the check behind the run, is
      final, and the run's request will see it. */
  lemma {:induction false} CancelDuringTeamB(s: State, r: ReqId, x: ReqId)
    requires Inv(s) && r in s.reqs && InTeamB(s.reqs[r].pc) && x in s.reqs && s.reqs[x].pc.CancelHas?
    ensures var t := CancelStep(s, x, Go).value;
            && CancelStep(s, x, Go).Some? && IsCancelled(t) && NobodyLate(t)
            && InTeamB(t.reqs[r].pc) && t.reqs[r].pc.hit
  {
    InvOwn(s, r);
    InvOwn(s, x);
    var t := CancelStep(s, x, Go).value;
    forall y | y in t.reqs ensures !Late(t.reqs[y]) {
      assert Linked(s.reqs[y], y, s.sid, s.locks);
    }
  }

  /** The run's outcome is decided by that flag alone: adopted exactly when no cancel was written between the
      mark and the check. */
  lemma {:induction false} CheckSeesTheCancel(s: State, r: ReqId, c: Choice)
    requires Inv(s) && r in s.reqs && s.reqs[r].pc.Returned?
    ensures Step(s, Do(r, c)).Some?
    ensures var pc := Step(s, Do(r, c)).value.reqs[r].pc;
            if s.reqs[r].pc.hit then pc.Discarding? && pc.current.phase.Cancelled?
            else pc == Storing(s.reqs[r].pc.lock, s.reqs[r].pc.outcome)
  {
    InvOwn(s, r);
  }

  /** A Team B exception without a cancel puts the session back to waiting with the same plan, which can
      still be confirmed. */
  lemma {:induction false} ExceptionRestoresWaiting(s: State, r: ReqId)
    requires Inv(s) && r in s.reqs && s.reqs[r].pc.Raised? && !s.reqs[r].pc.hit
    ensures var before := s.reqs[r].pc.before;
            && Step(s, Do(r, Go)) == Some(At(s, r, Restoring(s.reqs[r].pc.lock, before)))
            && var t := Step(At(s, r, Restoring(s.reqs[r].pc.lock, before)), Do(r, Go));
               t.Some? && t.value.sessions[s.sid] == before && Gate(before).None? && before.plan !in t.value.results
  {
    InvOwn(s, r);
    StepKeeps(s, Do(r, Go));
    InvOwn(Step(s, Do(r, Go)).value, r);
  }

  /** The stored result stands: once a run's request has stored it, every confirm or resume of every
      continuation without a revision is answered with it, until a cancel. */
  lemma {:induction false} ResultStands(s: State, r: ReqId, c: Choice, events: seq<Event>)
    requires Inv(s) && r in s.reqs && s.reqs[r].pc.Storing? && NoRevision(events)
    ensures Step(s, Do(r, c)).Some?
    ensures var o, t := s.reqs[r].pc.outcome, Step(s, Do(r, c)).value;
            Run(t, events).Some? ==>
              var u := Run(t, events).value;
              IsCancelled(u) || (u.sid in u.sessions && u.sessions[u.sid] == o && Gate(o) == Some(Replayed(o.plan, o.result)))
  {
    InvOwn(s, r);
    StepKeeps(s, Do(r, c));
    var t := Step(s, Do(r, c)).value;
    forall y | y in t.reqs ensures !Late(t.reqs[y]) {
      assert Linked(s.reqs[y], y, s.sid, s.locks);
    }
    if Run(t, events).Some? {
      SettledForGood(t, events);
    }
  }

  /** A revision does not look at the phase it replaces: even a cancelled or finished session awaits
      confirmation again afterwards, for a new plan that has not run. */
  lemma {:induction false} RevisionReopens(s: State, r: ReqId, run: Key)
    requires Inv(s) && r in s.reqs && s.reqs[r].pc.HasState? && s.reqs[r].action.Revise?
    requires run != NO_KEY && run !in s.sessions
    ensures Step(s, Do(r, TeamAReturns(run))).Some?
    ensures var t := Step(s, Do(r, TeamAReturns(run))).value;
            && t.sid == s.sid && t.sid in t.sessions && Gate(t.sessions[t.sid]).None?
            && t.sessions[t.sid].plan !in t.results && Canonical(t.sessions, run) == t.sid
  {
    InvOwn(s, r);
    StepKeeps(s, Do(r, TeamAReturns(run)));
    AliasResolves(Step(s, Do(r, TeamAReturns(run))).value, run);
  }

  // ---------------------------------------------------------------- what the answers mean

  /** What an answer tells about the session when it is decided: `read` is what the request read of the
      session, `now` the session after the step, and `refused` whether the checks of a confirm refuse. */
  predicate Means(answer: Answer, read: Session, now: Session, refused: bool) {
    match answer
    case NotAllowed => refused || !(read.phase.AwaitConfirm? || read.phase.Done? || read.phase.NeedRevision?)
    case Replayed(plan, result) => (read.phase.Done? || read.phase.NeedRevision?) && plan == read.plan && result == read.result
    case Completed(plan, result) => (now.phase.Done? || now.phase.NeedRevision?) && plan == now.plan && result == now.result
    case CancelledDuringTeamB => now.phase.Cancelled?
    case TeamBFailed => now.phase.AwaitConfirm?
    case RevisedTo(plan) => now.phase.AwaitConfirm? && plan == now.plan
    case RevisionFailed => true
    case _ => false
  }

  lemma {:induction false} ReadMeans(s: State, r: ReqId, c: Choice, t: State)
    requires Own(s, r) && s.reqs[r].pc.HasState? && HolderStep(s, r, c) == Some(t) && r in t.reqs && t.reqs[r].pc.Releasing? && s.sid in t.sessions
    ensures Means(t.reqs[r].pc.answer, s.reqs[r].pc.before, t.sessions[s.sid], c.ChecksRefuse? && s.reqs[r].action.Confirm?)
  {
  }

  lemma {:induction false} WriteMeans(s: State, r: ReqId, c: Choice, t: State)
    requires Own(s, r) && !s.reqs[r].pc.HasState? && HolderStep(s, r, c) == Some(t) && r in t.reqs && t.reqs[r].pc.Releasing? && s.sid in t.sessions
    ensures Means(t.reqs[r].pc.answer, t.sessions[s.sid], t.sessions[s.sid], false)
  {
    var pc := s.reqs[r].pc;
    assert pc.Discarding? || pc.Storing? || pc.Restoring?;
  }

  /** Whoever decides an answer under the lock says by it how the session stands. */
  lemma {:induction false} AnswersMean(s: State, r: ReqId, c: Choice, t: State)
    requires Inv(s) && r in s.reqs && HoldsLock(s.reqs[r].pc) && !IsQueueing(s.reqs[r].pc)
    requires Step(s, Do(r, c)) == Some(t) && r in t.reqs && t.reqs[r].pc.Releasing?
    ensures s.sid in t.sessions
    ensures s.reqs[r].pc.HasState? ==> Means(t.reqs[r].pc.answer, s.reqs[r].pc.before, t.sessions[s.sid], c.ChecksRefuse? && s.reqs[r].action.Confirm?)
    ensures !s.reqs[r].pc.HasState? ==> Means(t.reqs[r].pc.answer, t.sessions[s.sid], t.sessions[s.sid], false)
  {
    InvOwn(s, r);
    HolderTakes(s, r, c, t);
    if s.reqs[r].pc.HasState? {
      ReadMeans(s, r, c, t);
    } else {
      WriteMeans(s, r, c, t);
    }
  }

  lemma {:induction false} HolderTakes(s: State, r: ReqId, c: Choice, t: State)
    requires r in s.reqs && HoldsLock(s.reqs[r].pc) && !IsQueueing(s.reqs[r].pc) && Step(s, Do(r, c)) == Some(t)
    requires s.sid in s.sessions
    ensures HolderStep(s, r, c) == Some(t) && s.sid in t.sessions
  {
  }

  /** A request that does not get the lock is told so at once iff two others wait, and waits otherwise. */
  lemma {:induction false} BusyExactly(s: State, r: ReqId, c: Choice)
    requires Inv(s) && r in s.reqs && s.reqs[r].pc.Queueing?
    ensures StepOf(s, r, c).Some?
    ensures StepOf(s, r, c).value.reqs[r].pc == if |CountedIn(s.reqs)| == 2 then Answered(Busy) else Waiting(s.reqs[r].pc.lock)
  {
    InvOwn(s, r);
  }

  /** A request that waits gets the lock once it is free, and is told busy if its time is over before. */
  lemma {:induction false} WaitEnds(s: State, r: ReqId, c: Choice, a: State, t: State)
    requires Inv(s) && r in s.reqs && s.reqs[r].pc.Waiting? && Step(s, Do(r, c)) == Some(a) && Step(a, Do(r, Go)) == Some(t)
    ensures r in t.reqs && t.reqs[r].pc == if c.Timeout? then Answered(Busy) else Holding(s.reqs[r].pc.lock)
    ensures !c.Timeout? ==> s.sid in s.locks && s.locks[s.sid].holder.None?
  {
    InvOwn(s, r);
  }

  /** From the running mark on, with nobody in between: the session is done if the run was clean and needs a
      revision if not, the plan's result is stored and answered, and the run is the only one. */
  lemma {:induction false} RunCompletes(s: State, r: ReqId, result: nat, clean: bool, a: State, b: State, t: State)
    requires Inv(s) && r in s.reqs && s.reqs[r].pc.Running? && !s.reqs[r].pc.hit
    requires Step(s, Do(r, TeamBReturns(result, clean))) == Some(a) && Step(a, Do(r, Go)) == Some(b) && Step(b, Do(r, Go)) == Some(t)
    ensures var before := s.reqs[r].pc.before;
            && s.sid in t.sessions && t.sessions[s.sid].phase == (if clean then Done else NeedRevision)
            && t.sessions[s.sid].plan == before.plan && t.sessions[s.sid].result == result
            && r in t.reqs && t.reqs[r].pc == Releasing(s.reqs[r].pc.lock, Completed(before.plan, result))
            && t.returned == s.returned + [before.plan]
  {
    InvOwn(s, r);
    RunReturns(s, r, result, clean, a);
    StepKeeps(s, Do(r, TeamBReturns(result, clean)));
    CheckSeesTheCancel(a, r, Go);
    ResultChecked(a, r, b);
    ResultStored(b, r, t);
  }

  lemma {:induction false} RunReturns(s: State, r: ReqId, result: nat, clean: bool, a: State)
    requires Own(s, r) && s.reqs[r].pc.Running? && Step(s, Do(r, TeamBReturns(result, clean))) == Some(a)
    ensures var pc := s.reqs[r].pc;
            && r in a.reqs && a.sid == s.sid && a.reqs[r].key == s.sid && a.returned == s.returned + [pc.before.plan]
            && a.reqs[r].pc == Returned(pc.lock, pc.before, pc.hit, pc.before.(phase := if clean then Done else NeedRevision, result := result))
  {
  }

  lemma {:induction false} ResultChecked(a: State, r: ReqId, b: State)
    requires r in a.reqs && a.reqs[r].pc.Returned? && Step(a, Do(r, Go)) == Some(b)
    ensures r in b.reqs && b.sid == a.sid && b.reqs[r].key == a.reqs[r].key && b.returned == a.returned
  {
  }

  lemma {:induction false} ResultStored(b: State, r: ReqId, t: State)
    requires r in b.reqs && b.reqs[r].pc.Storing? && Step(b, Do(r, Go)) == Some(t) && b.reqs[r].key == b.sid
    ensures var o := b.reqs[r].pc.outcome;
            && b.sid in t.sessions && (t.sessions[b.sid] == o) && t.returned == b.returned
            && r in t.reqs && t.reqs[r].pc == Releasing(b.reqs[r].pc.lock, Completed(o.plan, o.result))
  {
  }

  /** A confirm that reads a waiting session passes and is marked as running unless its checks refuse. */
  lemma {:induction false} WaitingPasses(s: State, r: ReqId, c: Choice, a: State, t: State)
    requires Inv(s) && r in s.reqs && s.reqs[r].pc.HasState? && s.reqs[r].pc.before.phase.AwaitConfirm? && !s.reqs[r].action.Revise?
    requires Step(s, Do(r, c)) == Some(a) && (s.reqs[r].action.Confirm? ==> !c.ChecksRefuse?) && Step(a, Do(r, Go)) == Some(t)
    ensures r in t.reqs && t.reqs[r].pc == Running(s.reqs[r].pc.lock, s.reqs[r].pc.before, false)
    ensures s.sid in t.sessions && t.sessions[s.sid] == s.reqs[r].pc.before.(phase := TeamBRunning)
  {
    InvOwn(s, r);
  }

  // ---------------------------------------------------------------- a cancel that is lost

  /** A confirm (request 1) reads the waiting state under the lock. */
  function ConfirmReads(): seq<Event> {
    [Arrive(1, Confirm, 7), Do(1, Go), Do(1, Go), Do(1, Go)]
  }

  /** Then a cancel (request 2) reads, writes and is acknowledged. */
  function CancelWritesNow(): seq<Event> {
    [Arrive(2, Cancel, 7), Do(2, Go), Do(2, Go), Do(2, NoCheckpoint)]
  }

  function WaitingSession(): State {
    State(7, map[7 := Session(AwaitConfirm, 7, 9, 0, 0)], map[], map[], 0, 1, [], map[])
  }

  lemma {:induction false} RunTwice(s: State, a: seq<Event>, b: seq<Event>)
    requires Run(s, a).Some?
    ensures Run(s, a + b) == Run(Run(s, a).value, b)
    decreases |a|
  {
    if a == [] {
      assert a + b == b;
    } else {
      assert (a + b)[0] == a[0] && (a + b)[1..] == a[1..] + b;
      RunTwice(Step(s, a[0]).value, a[1..], b);
    }
  }

  lemma {:induction false} RunFour(s: State, es: seq<Event>, a: State, b: State, c: State, d: State)
    requires |es| == 4
    requires Step(s, es[0]) == Some(a) && Step(a, es[1]) == Some(b) && Step(b, es[2]) == Some(c) && Step(c, es[3]) == Some(d)
    ensures Run(s, es) == Some(d)
  {
    assert es[1..][1..] == es[2..] && es[2..][1..] == es[3..] && es[3..][1..] == [];
    assert Run(d, []) == Some(d);
    assert Run(c, es[3..]) == Run(d, []);
    assert Run(b, es[2..]) == Run(c, es[3..]);
    assert Run(a, es[1..]) == Run(b, es[2..]);
  }

  lemma {:induction false} ConfirmHasRead(s: State) returns (x: seq<Event>, t: State)
    requires s == WaitingSession()
    ensures Run(s, x) == Some(t) && forall e :: e in x ==> !IsRevision(e)
    ensures t.sid == 7 && t.sessions == s.sessions && t.reqs.Keys == {1}
    ensures t.reqs[1].pc == HasState(0, t.sessions[7]) && t.reqs[1].action.Confirm?
  {
    x := ConfirmReads();
    var a := Step(s, Arrive(1, Confirm, 7)).value;
    var b := ArriveStep(a, 1);
    assert b.reqs[1].pc == Trying(0) && b.locks == map[7 := Lock(0, None, 0)];
    var c := QueueStep(b, 1, Go).value;
    assert c.reqs[1].pc == Holding(0);
    t := HolderStep(c, 1, Go).value;
    RunFour(s, x, a, b, c, t);
  }

  lemma {:induction false} CancelHasWritten(s: State) returns (y: seq<Event>, t: State)
    requires s.sid == 7 && s.reqs.Keys == {1} && s.sessions == map[7 := Session(AwaitConfirm, 7, 9, 0, 0)]
    requires s.reqs[1].pc == HasState(0, s.sessions[7]) && s.reqs[1].action.Confirm?
    ensures Run(s, y) == Some(t) && forall e :: e in y ==> !IsRevision(e)
    ensures IsCancelled(t) && t.reqs.Keys == {1, 2} && t.reqs[2].pc == Answered(CancelDone) && t.reqs[2].action.Cancel? && t.reqs[1] == s.reqs[1]
  {
    y := CancelWritesNow();
    var a := Step(s, Arrive(2, Cancel, 7)).value;
    var b := ArriveStep(a, 2);
    assert b.reqs[2].pc == CancelHas(s.sessions[7]);
    var c := CancelStep(b, 2, Go).value;
    assert c.reqs[2].pc.CancelNoting? && c.reqs[1] == s.reqs[1];
    t := CancelStep(c, 2, NoCheckpoint).value;
    RunFour(s, y, a, b, c, t);
  }

  lemma {:induction false} LateRuns(t: State) returns (z: seq<Event>, u: State)
    requires Own(t, 1) && t.reqs.Keys == {1, 2} && Late(t.reqs[1]) && t.reqs[2].pc == Answered(CancelDone)
    requires t.reqs[1].pc.HasState?
    ensures Run(t, z) == Some(u) && forall e :: e in z ==> !IsRevision(e)
    ensures u.reqs.Keys == {1, 2} && u.reqs[2] == t.reqs[2] && u.reqs[1].pc.Running? && !u.reqs[1].pc.hit && !IsCancelled(u)
  {
    var v := At(t, 1, Passed(t.reqs[1].pc.lock, t.reqs[1].pc.before));
    u := HolderStep(v, 1, Go).value;
    z := [Do(1, Go), Do(1, Go)];
    assert z[1..] == [Do(1, Go)] && z[1..][1..] == [];
    assert Run(u, []) == Some(u);
    assert Run(v, z[1..]) == Run(u, z[1..][1..]);
  }

  lemma {:induction false} Chained(s: State, x: seq<Event>, a: State, y: seq<Event>, b: State, z: seq<Event>, c: State)
    requires Run(s, x) == Some(a) && Run(a, y) == Some(b) && Run(b, z) == Some(c)
    ensures Run(s, x + y + z) == Some(c)
  {
    RunTwice(s, x, y);
    RunTwice(s, x + y, z);
  }

  /** A cancel that was acknowledged while a confirm sits between its gate and its running mark is
      overwritten: the confirm goes on and Team B runs for the cancelled session. */
  lemma {:induction false} AcknowledgedCancelLost() returns (s: State, events: seq<Event>, t: State)
    ensures Initial(s) && Run(s, events) == Some(t) && forall e :: e in events ==> !IsRevision(e)
    ensures 2 in t.reqs && t.reqs[2].action.Cancel? && t.reqs[2].pc == Answered(CancelDone)
    ensures 1 in t.reqs && t.reqs[1].pc.Running? && !t.reqs[1].pc.hit && !IsCancelled(t)
  {
    s := WaitingSession();
    assert Initial(s);
    var x, a := ConfirmHasRead(s);
    var y, b := CancelHasWritten(a);
    LostIsInv(s, x, a, y, b);
    var z, c := LateRuns(b);
    Chained(s, x, a, y, b, z, c);
    events, t := x + y + z, c;
  }

  lemma {:induction false} LostIsInv(s: State, x: seq<Event>, a: State, y: seq<Event>, b: State)
    requires Initial(s) && Run(s, x) == Some(a) && Run(a, y) == Some(b) && 1 in b.reqs
    ensures Own(b, 1)
  {
    RunKeeps(s, x);
    RunKeeps(a, y);
    InvOwn(b, 1);
  }
}
