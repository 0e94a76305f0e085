/** Single-flight local speech recognition (demo/asr_service.py): one child process at a time, cancelled
    and reaped before its slot is free, and request ids that are not run twice. Steps are what runs
    between two awaits of the event loop. */
module AsrService {
  import opened Wrappers

  type RequestId = nat
  type JobId = nat
  type CancelId = nat

  const SEEN_LIMIT: nat := 256
  const SEEN_SECONDS: nat := 600

  // ---------------------------------------------------------------- remembered ids

  datatype Status = Running | Completed | Cancelled | Failed
  datatype Seen = Seen(id: RequestId, at: nat, status: Status)

  function Without(seen: seq<Seen>, id: RequestId): (r: seq<Seen>)
    ensures |r| <= |seen|
  {
    if seen == [] then []
    else Without(seen[..|seen| - 1], id) + if seen[|seen| - 1].id == id then [] else [seen[|seen| - 1]]
  }

  function Newest(seen: seq<Seen>): seq<Seen> {
    if |seen| > SEEN_LIMIT then seen[|seen| - SEEN_LIMIT..] else seen
  }

  function Remembered(seen: seq<Seen>, x: Seen): seq<Seen> {
    Newest(Without(seen, x.id) + [x])
  }

  function Find(seen: seq<Seen>, id: RequestId): Option<Seen> {
    if seen == [] then None
    else if seen[|seen| - 1].id == id then Some(seen[|seen| - 1])
    else Find(seen[..|seen| - 1], id)
  }

  /** prior: the status of an id remembered less than 600 seconds ago. */
  function Prior(seen: seq<Seen>, id: RequestId, now: nat): Option<Status> {
    var found := Find(seen, id);
    if found.Some? && now < found.value.at + SEEN_SECONDS then Some(found.value.status) else None
  }

  // ---------------------------------------------------------------- jobs and cancels

  datatype Pc = Receiving | Spawning | Talking | Reaping | Joining | Over

  /** `process` once spawn has returned it; `alive` until it has exited; `delivered` when transcribe is
      going to return a result; `started` and `at` are the log length and the time at its start. */
  datatype Job = Job(id: RequestId, pc: Pc, process: bool, alive: bool, cancelled: bool, delivered: bool,
                     started: nat, at: nat)

  /** A cancel call: waiting for the process it saw, then for the job to finish, then answered. */
  datatype CancelPc = Reaps(j: JobId, process: bool) | Waits(j: JobId) | Answered(target: Option<JobId>)

  /** `called` is the log length when the call was made; `late` if the job it stopped was already
      delivering its result. */
  datatype Cancel = Cancel(id: RequestId, called: nat, late: bool, pc: CancelPc)

  /** `log` lists every call of remember, oldest first. */
  datatype State = State(active: Option<JobId>, seen: seq<Seen>, log: seq<Seen>, jobs: map<JobId, Job>,
                         cancels: map<CancelId, Cancel>, now: nat)

  /** What the code at an await of transcribe finds. */
  datatype Choice = Good | Bad | Gone

  datatype Event =
    | Start(j: JobId, id: RequestId)
    | Go(j: JobId, choice: Choice)
    | Exit(j: JobId)
    | Call(c: CancelId, id: RequestId)
    | Resume(c: CancelId)
    | Tick(d: nat)

  function Note(s: State, id: RequestId, status: Status): State {
    var x := Seen(id, s.now, status);
    s.(seen := Remembered(s.seen, x), log := s.log + [x])
  }

  function With(s: State, j: JobId, job: Job): State {
    s.(jobs := s.jobs[j := job])
  }

  /** The checks of transcribe and its registration, up to the first await of the upload. */
  function StartStep(s: State, j: JobId, id: RequestId): Option<State> {
    if Prior(s.seen, id, s.now).Some? || s.active.Some? || j in s.jobs then None
    else Some(Note(With(s, j, Job(id, Receiving, false, false, false, false, |s.log|, s.now)).(active := Some(j)), id, Running))
  }

  function ToFinally(job: Job, cancelled: bool): Job {
    job.(pc := Reaping, cancelled := job.cancelled || cancelled)
  }

  /** One resumption of a transcribe call, as far as its own job goes. */
  function Advance(job: Job, c: Choice): Option<Job> {
    match job.pc
    case Receiving =>
      // upload complete, upload refused or timed out, client gone
      if c.Gone? then Some(ToFinally(job, true))
      else if c.Bad? || job.cancelled then Some(ToFinally(job, false))
      else Some(job.(pc := Spawning))
    case Spawning =>
      if c.Bad? then Some(ToFinally(job, false))
      else
        var started := job.(process := true, alive := true);
        Some(if job.cancelled then ToFinally(started, false) else started.(pc := Talking))
    case Talking =>
      // disconnected, or time out / bad answer, or a good answer from an exited process
      if c.Gone? then Some(ToFinally(job, true))
      else if c.Bad? || job.cancelled then Some(ToFinally(job, false))
      else if job.alive then None
      else Some(ToFinally(job, false).(delivered := true))
    case Reaping =>
      if job.process && job.alive then None else Some(job.(pc := Joining))
    case Joining => Some(job.(pc := Over))
    case Over => None
  }

  /** What it remembers: a completed result, or in the end the fate of an id still marked running. */
  function Says(job: Job, next: Job, prior: Option<Status>): Option<Status> {
    if next.delivered && !job.delivered then Some(Completed)
    else if next.pc.Over? && prior == Some(Running) then Some(if job.cancelled then Cancelled else Failed)
    else None
  }

  function GoStep(s: State, j: JobId, c: Choice): Option<State>
    requires j in s.jobs
  {
    var next := Advance(s.jobs[j], c);
    if next.None? then None
    else
      var says := Says(s.jobs[j], next.value, Prior(s.seen, s.jobs[j].id, s.now));
      var t := if says.Some? then Note(s, s.jobs[j].id, says.value) else s;
      Some(With(t, j, next.value).(active := if next.value.pc.Over? && s.active == Some(j) then None else s.active))
  }

  function Step(s: State, e: Event): Option<State> {
    match e
    case Start(j, id) => StartStep(s, j, id)
    case Go(j, c) => if j in s.jobs then GoStep(s, j, c) else None
    case Exit(j) =>
      if j !in s.jobs || !s.jobs[j].alive then None else Some(With(s, j, s.jobs[j].(alive := false)))
    case Call(c, id) =>
      if c in s.cancels then None
      else if s.active.Some? && s.active.value in s.jobs && s.jobs[s.active.value].id == id then
        var j := s.active.value;
        Some(Note(With(s, j, s.jobs[j].(cancelled := true)), id, Cancelled).(
               cancels := s.cancels[c := Cancel(id, |s.log| + 1, s.jobs[j].delivered, Reaps(j, s.jobs[j].process))]))
      else
        var t := if Prior(s.seen, id, s.now).Some? then s else Note(s, id, Cancelled);
        Some(t.(cancels := s.cancels[c := Cancel(id, |t.log|, false, Answered(None))]))
    case Resume(c) =>
      if c !in s.cancels then None
      else
        (match s.cancels[c].pc
         case Reaps(j, process) =>
           if j !in s.jobs || (process && s.jobs[j].alive) then None
           else Some(s.(cancels := s.cancels[c := s.cancels[c].(pc := Waits(j))]))
         case Waits(j) =>
           if j !in s.jobs || !s.jobs[j].pc.Over? then None
           else Some(s.(cancels := s.cancels[c := s.cancels[c].(pc := Answered(Some(j)))]))
         case Answered(_) => None)
    case Tick(d) => Some(s.(now := s.now + d))
  }

  function Run(s: State, events: seq<Event>): Option<State>
    decreases |events|
  {
    if events == [] then Some(s)
    else
      var t := Step(s, events[0]);
      if t.None? then None else Run(t.value, events[1..])
  }

  const INITIAL := State(None, [], [], map[], map[], 0)

  // ---------------------------------------------------------------- the object behind the steps

  class SpeechTable {
    var active: Option<JobId>
    var seen: seq<Seen>

    /** remember: the id moves to the end; the oldest ids leave while there are more than 256. */
    method Remember(id: RequestId, at: nat, status: Status)
      modifies this`seen
      ensures seen == Remembered(old(seen), Seen(id, at, status))
    {
      ghost var all := Without(seen, id) + [Seen(id, at, status)];
      seen := Without(seen, id) + [Seen(id, at, status)];
      while |seen| > SEEN_LIMIT
        invariant |seen| <= |all| && seen == all[|all| - |seen|..]
        invariant |seen| < SEEN_LIMIT ==> seen == all
      {
        seen := seen[1..];
      }
    }

    /** The part of transcribe that decides whether a request may run. */
    method Claim(j: JobId, id: RequestId, now: nat) returns (ok: bool)
      modifies this
      ensures ok <==> Prior(old(seen), id, now).None? && old(active).None?
      ensures ok ==> active == Some(j) && seen == Remembered(old(seen), Seen(id, now, Running))
      ensures !ok ==> active == old(active) && seen == old(seen)
    {
      if Prior(seen, id, now).Some? {
        return false;
      }
      if active.Some? {
        return false;
      }
      active := Some(j);
      Remember(id, now, Running);
      ok := true;
    }

    /** The end of transcribe, once its process has been reaped. */
    method Free(j: JobId, id: RequestId, now: nat, cancelled: bool)
      modifies this
      ensures active == if old(active) == Some(j) then None else old(active)
      ensures seen == if Prior(old(seen), id, now) == Some(Running)
                      then Remembered(old(seen), Seen(id, now, if cancelled then Cancelled else Failed)) else old(seen)
    {
      if Prior(seen, id, now) == Some(Running) {
        Remember(id, now, if cancelled then Cancelled else Failed);
      }
      if active == Some(j) {
        active := None;
      }
    }
  }

  // ---------------------------------------------------------------- the invariant

  predicate JobOk(job: Job) {
    && (job.alive ==> job.process)
    && (job.process ==> job.pc.Talking? || job.pc.Reaping? || job.pc.Joining? || job.pc.Over?)
    && (job.pc.Joining? || job.pc.Over? ==> !job.alive)
    && (job.delivered ==> job.pc.Reaping? || job.pc.Joining? || job.pc.Over?)
    && (job.delivered ==> !job.alive)
  }

  /** Every unfinished job is the active one. */
  predicate ActiveOk(active: Option<JobId>, jobs: map<JobId, Job>) {
    && (active.Some? ==> active.value in jobs && !jobs[active.value].pc.Over?)
    && (forall j :: j in jobs ==> JobOk(jobs[j]) && (jobs[j].pc.Over? || active == Some(j)))
  }

  function Target(c: Cancel): Option<JobId> {
    match c.pc
    case Reaps(j, _) => Some(j)
    case Waits(j) => Some(j)
    case Answered(target) => target
  }

  /** A job of the cancelled id that began before the call is over, or is the one being waited for. */
  predicate EarlierOver(c: Cancel, k: JobId, job: Job) {
    job.id == c.id && job.started < c.called ==> job.pc.Over? || (!c.pc.Answered? && Target(c) == Some(k))
  }

  predicate CancelOk(c: Cancel, jobs: map<JobId, Job>) {
    && (Target(c).Some? ==>
          var j := Target(c).value;
          && j in jobs && jobs[j].id == c.id && jobs[j].cancelled && (jobs[j].delivered <==> c.late)
          && (c.pc.Answered? ==> jobs[j].pc.Over?))
    && (Target(c).None? ==> c.pc.Answered? && !c.late)
    && (forall k :: k in jobs ==> EarlierOver(c, k, jobs[k]))
  }

  predicate CancelsOk(cancels: map<CancelId, Cancel>, jobs: map<JobId, Job>, n: nat) {
    forall c :: c in cancels ==> cancels[c].called <= n && CancelOk(cancels[c], jobs)
  }

  /** When it started, nothing was remembered of its id. */
  ghost predicate BeganFresh(job: Job, log: seq<Seen>) {
    job.started < |log| && Prior(Newest(Latest(log[..job.started])), job.id, job.at).None?
  }

  ghost predicate AllBeganFresh(jobs: map<JobId, Job>, log: seq<Seen>) {
    forall j :: j in jobs ==> BeganFresh(jobs[j], log)
  }

  ghost predicate SeenOk(seen: seq<Seen>, log: seq<Seen>) {
    seen == Newest(Latest(log))
  }

  /** The last entry of every id, in the order of those entries. */
  function Latest(log: seq<Seen>): seq<Seen> {
    if log == [] then [] else Without(Latest(log[..|log| - 1]), log[|log| - 1].id) + [log[|log| - 1]]
  }

  ghost predicate Inv(s: State) {
    && ActiveOk(s.active, s.jobs)
    && CancelsOk(s.cancels, s.jobs, |s.log|)
    && SeenOk(s.seen, s.log)
    && AllBeganFresh(s.jobs, s.log)
    && AllReserved(s.cancels, s.log)
  }

  /** When the call was answered or began to wait, its id was among the remembered ones. */
  ghost predicate Reserved(c: Cancel, log: seq<Seen>) {
    c.called <= |log| && Find(log[..c.called], c.id).Some?
  }

  ghost predicate AllReserved(cancels: map<CancelId, Cancel>, log: seq<Seen>) {
    forall c :: c in cancels ==> Reserved(cancels[c], log)
  }

  // ---------------------------------------------------------------- the remembered ids refine the log

  predicate Distinct(seen: seq<Seen>) {
    forall i, j :: 0 <= i < j < |seen| ==> seen[i].id != seen[j].id
  }

  lemma {:induction false} WithoutAppend(seen: seq<Seen>, more: seq<Seen>, id: RequestId)
    ensures Without(seen + more, id) == Without(seen, id) + Without(more, id)
    decreases |more|
  {
    if more == [] {
      assert seen + more == seen;
    } else {
      var all, n := seen + more, |more| - 1;
      WithoutAppend(seen, more[..n], id);
      assert all[..|all| - 1] == seen + more[..n] && all[|all| - 1] == more[n];
    }
  }

  lemma {:induction false} WithoutMembers(seen: seq<Seen>, id: RequestId)
    ensures forall x :: x in Without(seen, id) <==> x in seen && x.id != id
    ensures Find(seen, id).None? ==> Without(seen, id) == seen
    ensures Find(seen, id).None? <==> forall x :: x in seen ==> x.id != id
    decreases |seen|
  {
    if seen != [] {
      var front, last := seen[..|seen| - 1], seen[|seen| - 1];
      WithoutMembers(front, id);
      assert seen == front + [last];
      assert forall x :: x in seen <==> x in front || x == last;
    }
  }

  lemma {:induction false} DistinctAppend(front: seq<Seen>, last: Seen)
    ensures Distinct(front + [last]) <==> Distinct(front) && forall x :: x in front ==> x.id != last.id
  {
    var all := front + [last];
    assert forall k :: 0 <= k < |front| ==> all[k] == front[k];
    assert all[|front|] == last;
  }

  /** Removing an id from a list without repeats keeps it so and removes at most one entry. */
  lemma {:induction false} WithoutDistinct(seen: seq<Seen>, id: RequestId)
    requires Distinct(seen)
    ensures Distinct(Without(seen, id)) && |Without(seen, id)| >= |seen| - 1
    decreases |seen|
  {
    if seen != [] {
      var front, last := seen[..|seen| - 1], seen[|seen| - 1];
      assert seen == front + [last];
      DistinctAppend(front, last);
      if last.id == id {
        WithoutMembers(front, id);
      } else {
        WithoutDistinct(front, id);
        WithoutMembers(front, id);
        DistinctAppend(Without(front, id), last);
      }
    }
  }

  lemma {:induction false} LatestDistinct(log: seq<Seen>)
    ensures Distinct(Latest(log))
    decreases |log|
  {
    if log != [] {
      var front, last := log[..|log| - 1], log[|log| - 1];
      LatestDistinct(front);
      WithoutDistinct(Latest(front), last.id);
      WithoutMembers(Latest(front), last.id);
      DistinctAppend(Without(Latest(front), last.id), last);
    }
  }

  lemma {:induction false} NewestOfAppend(older: seq<Seen>, rest: seq<Seen>)
    requires |rest| >= SEEN_LIMIT
    ensures Newest(older + rest) == Newest(rest) == rest[|rest| - SEEN_LIMIT..]
  {
    var all := older + rest;
    assert all[|all| - SEEN_LIMIT..] == rest[|rest| - SEEN_LIMIT..];
  }

  /** Forgetting the oldest entries before or after remembering makes no difference. */
  lemma {:induction false} RememberedNewest(all: seq<Seen>, x: Seen)
    requires Distinct(all)
    ensures Remembered(Newest(all), x) == Newest(Without(all, x.id) + [x])
  {
    if |all| > SEEN_LIMIT {
      var k := |all| - SEEN_LIMIT;
      AppendRemembered(all[..k], all[k..], x);
      assert all == all[..k] + all[k..];
    }
  }

  lemma {:induction false} AppendRemembered(older: seq<Seen>, newer: seq<Seen>, x: Seen)
    requires Distinct(newer) && |newer| == SEEN_LIMIT
    ensures Remembered(newer, x) == Newest(Without(older + newer, x.id) + [x])
  {
    WithoutAppend(older, newer, x.id);
    WithoutDistinct(newer, x.id);
    var rest := Without(newer, x.id) + [x];
    assert Without(older + newer, x.id) + [x] == Without(older, x.id) + rest;
    NewestOfAppend(Without(older, x.id), rest);
  }

  lemma {:induction false} NoteKeepsSeen(seen: seq<Seen>, log: seq<Seen>, x: Seen)
    requires SeenOk(seen, log)
    ensures SeenOk(Remembered(seen, x), log + [x])
  {
    LatestDistinct(log);
    RememberedNewest(Latest(log), x);
    assert (log + [x])[..|log + [x]| - 1] == log;
  }

  // ---------------------------------------------------------------- steps keep the invariant

  /** What may happen to a job. */
  predicate JobMoves(a: Job, b: Job) {
    && b.id == a.id && b.started == a.started && b.at == a.at
    && (a.pc.Over? ==> b == a)
    && (a.cancelled ==> b.cancelled && b.delivered == a.delivered)
    && (a.delivered ==> b.delivered)
    && (b.pc.Over? && !a.pc.Over? ==> a.pc.Joining? && !a.alive)
  }

  lemma {:induction false} CancelsStable(cancels: map<CancelId, Cancel>, jobs: map<JobId, Job>, n: nat, m: nat, j: JobId, job: Job)
    requires CancelsOk(cancels, jobs, n) && n <= m
    requires if j in jobs then JobMoves(jobs[j], job) else job.started >= n
    ensures CancelsOk(cancels, jobs[j := job], m)
  {
    forall c | c in cancels ensures CancelOk(cancels[c], jobs[j := job]) {
    }
  }

  lemma {:induction false} FreshStable(jobs: map<JobId, Job>, log: seq<Seen>, more: seq<Seen>)
    requires AllBeganFresh(jobs, log) && log <= more
    ensures AllBeganFresh(jobs, more)
  {
    forall j | j in jobs ensures BeganFresh(jobs[j], more) {
      assert BeganFresh(jobs[j], log);
      assert more[..jobs[j].started] == log[..jobs[j].started];
    }
  }

  lemma {:induction false} ReservedStable(cancels: map<CancelId, Cancel>, log: seq<Seen>, more: seq<Seen>)
    requires AllReserved(cancels, log) && log <= more
    ensures AllReserved(cancels, more)
  {
    forall c | c in cancels ensures Reserved(cancels[c], more) {
      assert Reserved(cancels[c], log);
      assert more[..cancels[c].called] == log[..cancels[c].called];
    }
  }

  lemma {:induction false} NewReserved(cancels: map<CancelId, Cancel>, log: seq<Seen>, c: CancelId, after: Cancel)
    requires AllReserved(cancels, log) && after.called == |log| && Find(log, after.id).Some?
    ensures AllReserved(cancels[c := after], log)
  {
    assert log[..|log|] == log;
  }

  /** Remembering something, or nothing. */
  predicate Notes(seen: seq<Seen>, log: seq<Seen>, moreSeen: seq<Seen>, moreLog: seq<Seen>) {
    || (moreSeen == seen && moreLog == log)
    || (|moreLog| == |log| + 1 && moreLog[..|log|] == log && moreSeen == Remembered(seen, moreLog[|log|]))
  }

  lemma {:induction false} NotesKeep(seen: seq<Seen>, log: seq<Seen>, moreSeen: seq<Seen>, moreLog: seq<Seen>)
    requires SeenOk(seen, log) && Notes(seen, log, moreSeen, moreLog)
    ensures SeenOk(moreSeen, moreLog) && log <= moreLog
  {
    if moreLog != log {
      NoteKeepsSeen(seen, log, moreLog[|log|]);
      assert moreLog == log + [moreLog[|log|]];
    }
  }

  lemma {:induction false} ActiveMove(active: Option<JobId>, jobs: map<JobId, Job>, j: JobId, job: Job, next: Option<JobId>)
    requires ActiveOk(active, jobs) && j in jobs && JobMoves(jobs[j], job) && JobOk(job)
    requires if job.pc.Over? && active == Some(j) then next == None else next == active
    ensures ActiveOk(next, jobs[j := job])
  {
    forall k | k in jobs[j := job] ensures JobOk(jobs[j := job][k]) && (jobs[j := job][k].pc.Over? || next == Some(k)) {
      assert JobOk(jobs[k]) && (jobs[k].pc.Over? || active == Some(k));
    }
  }

  /** A step that moves one job, remembers at most one id, and may free the slot of a finished job. */
  lemma {:induction false} MoveKeeps(s: State, j: JobId, job: Job, active: Option<JobId>, seen: seq<Seen>, log: seq<Seen>)
    requires Inv(s) && j in s.jobs && JobMoves(s.jobs[j], job) && JobOk(job) && Notes(s.seen, s.log, seen, log)
    requires if job.pc.Over? && s.active == Some(j) then active == None else active == s.active
    ensures Inv(State(active, seen, log, s.jobs[j := job], s.cancels, s.now))
  {
    ActiveMove(s.active, s.jobs, j, job, active);
    NotesKeep(s.seen, s.log, seen, log);
    CancelsStable(s.cancels, s.jobs, |s.log|, |log|, j, job);
    FreshStable(s.jobs, s.log, log);
    ReservedStable(s.cancels, s.log, log);
  }

  lemma {:induction false} AdvanceMoves(job: Job, c: Choice)
    requires JobOk(job) && Advance(job, c).Some?
    ensures JobMoves(job, Advance(job, c).value) && JobOk(Advance(job, c).value)
  {
  }

  lemma {:induction false} GoShape(s: State, j: JobId, c: Choice, t: State) returns (job: Job)
    requires j in s.jobs && GoStep(s, j, c) == Some(t)
    ensures Advance(s.jobs[j], c) == Some(job)
    ensures t == State(t.active, t.seen, t.log, s.jobs[j := job], s.cancels, s.now)
    ensures t.active == if job.pc.Over? && s.active == Some(j) then None else s.active
    ensures Notes(s.seen, s.log, t.seen, t.log)
  {
    job := Advance(s.jobs[j], c).value;
  }

  lemma {:induction false} GoKeeps(s: State, j: JobId, c: Choice, t: State)
    requires Inv(s) && j in s.jobs && GoStep(s, j, c) == Some(t)
    ensures Inv(t)
  {
    var job := GoShape(s, j, c, t);
    AdvanceMoves(s.jobs[j], c);
    MoveKeeps(s, j, job, t.active, t.seen, t.log);
  }

  lemma {:induction false} StartShape(s: State, j: JobId, id: RequestId, t: State) returns (job: Job, x: Seen)
    requires StartStep(s, j, id) == Some(t)
    ensures x == Seen(id, s.now, Running) && job == Job(id, Receiving, false, false, false, false, |s.log|, s.now)
    ensures t == State(Some(j), Remembered(s.seen, x), s.log + [x], s.jobs[j := job], s.cancels, s.now)
    ensures j !in s.jobs && s.active.None? && Prior(s.seen, id, s.now).None?
  {
    job, x := Job(id, Receiving, false, false, false, false, |s.log|, s.now), Seen(id, s.now, Running);
  }

  lemma {:induction false} StartKeeps(s: State, j: JobId, id: RequestId, t: State)
    requires Inv(s) && StartStep(s, j, id) == Some(t)
    ensures Inv(t)
  {
    var job, x := StartShape(s, j, id, t);
    CancelsStable(s.cancels, s.jobs, |s.log|, |t.log|, j, job);
    FreshStable(s.jobs, s.log, t.log);
    ReservedStable(s.cancels, s.log, t.log);
    NoteKeepsSeen(s.seen, s.log, x);
  }

  lemma {:induction false} CallIdleOk(active: Option<JobId>, jobs: map<JobId, Job>, after: Cancel)
    requires ActiveOk(active, jobs) && (active.Some? ==> jobs[active.value].id != after.id)
    requires after.pc == Answered(None) && !after.late
    ensures CancelOk(after, jobs)
  {
    forall k | k in jobs ensures EarlierOver(after, k, jobs[k]) {
      assert jobs[k].pc.Over? || active == Some(k);
    }
  }

  lemma {:induction false} CallShape(s: State, c: CancelId, id: RequestId, t: State) returns (j: JobId, job: Job, x: Seen, after: Cancel)
    requires Step(s, Call(c, id)) == Some(t) && s.active.Some? && s.active.value in s.jobs && s.jobs[s.active.value].id == id
    ensures j == s.active.value && job == s.jobs[j].(cancelled := true) && x == Seen(id, s.now, Cancelled)
    ensures after == Cancel(id, |s.log| + 1, job.delivered, Reaps(j, job.process))
    ensures t == State(s.active, Remembered(s.seen, x), s.log + [x], s.jobs[j := job], s.cancels[c := after], s.now)
  {
    j, x := s.active.value, Seen(id, s.now, Cancelled);
    job := s.jobs[j].(cancelled := true);
    after := Cancel(id, |s.log| + 1, job.delivered, Reaps(j, job.process));
  }

  lemma {:induction false} CancelMoves(jobs: map<JobId, Job>, active: Option<JobId>, j: JobId)
    requires ActiveOk(active, jobs) && active == Some(j)
    ensures JobMoves(jobs[j], jobs[j].(cancelled := true)) && JobOk(jobs[j].(cancelled := true))
  {
  }

  lemma {:induction false} CallActive(s: State, c: CancelId, id: RequestId, t: State)
    requires Inv(s) && Step(s, Call(c, id)) == Some(t) && s.active.Some? && s.jobs[s.active.value].id == id
    ensures Inv(t)
  {
    var j, job, x, after := CallShape(s, c, id, t);
    CancelMoves(s.jobs, s.active, j);
    assert t.log[..|s.log|] == s.log;
    MoveKeeps(s, j, job, s.active, t.seen, t.log);
    CallOk(s.active, s.jobs, j, after);
    FindAppend(s.log, x, id);
    CancelMade(State(s.active, t.seen, t.log, t.jobs, s.cancels, s.now), c, after);
  }

  lemma {:induction false} CancelMade(s: State, c: CancelId, after: Cancel)
    requires Inv(s) && CancelOk(after, s.jobs) && after.called == |s.log| && Find(s.log, after.id).Some?
    ensures Inv(s.(cancels := s.cancels[c := after]))
  {
    NewReserved(s.cancels, s.log, c, after);
  }

  lemma {:induction false} CallOk(active: Option<JobId>, jobs: map<JobId, Job>, j: JobId, after: Cancel)
    requires ActiveOk(active, jobs) && active == Some(j)
    requires after.id == jobs[j].id && after.pc.Reaps? && after.pc.j == j && after.late == jobs[j].delivered
    ensures CancelOk(after, jobs[j := jobs[j].(cancelled := true)])
  {
    var next := jobs[j := jobs[j].(cancelled := true)];
    forall k | k in next ensures EarlierOver(after, k, next[k]) {
      assert jobs[k].pc.Over? || active == Some(k);
    }
  }

  lemma {:induction false} CallIdle(s: State, c: CancelId, id: RequestId, t: State)
    requires Inv(s) && Step(s, Call(c, id)) == Some(t) && !(s.active.Some? && s.jobs[s.active.value].id == id)
    ensures Inv(t)
  {
    var after := Cancel(id, |t.log|, false, Answered(None));
    assert t == State(s.active, t.seen, t.log, s.jobs, s.cancels[c := after], s.now);
    NotesKeep(s.seen, s.log, t.seen, t.log);
    FreshStable(s.jobs, s.log, t.log);
    CallIdleOk(s.active, s.jobs, after);
    ReservedStable(s.cancels, s.log, t.log);
    PriorExactly(s.seen, s.log, id, s.now);
    FindAppend(s.log, Seen(id, s.now, Cancelled), id);
    NewReserved(s.cancels, t.log, c, after);
  }

  lemma {:induction false} ResumeShape(s: State, c: CancelId, t: State) returns (after: Cancel)
    requires Step(s, Resume(c)) == Some(t)
    ensures c in s.cancels && t == s.(cancels := s.cancels[c := after])
    ensures after.id == s.cancels[c].id && after.called == s.cancels[c].called && after.late == s.cancels[c].late
    ensures Target(after).Some? && Target(after) == Target(s.cancels[c]) && Target(after).value in s.jobs
    ensures after.pc.Answered? ==> s.jobs[Target(after).value].pc.Over?
    ensures !s.cancels[c].pc.Answered?
  {
    after := t.cancels[c];
  }

  lemma {:induction false} ResumeKeeps(s: State, c: CancelId, t: State)
    requires Inv(s) && Step(s, Resume(c)) == Some(t)
    ensures Inv(t)
  {
    var after := ResumeShape(s, c, t);
    var before := s.cancels[c];
    assert CancelOk(before, s.jobs);
    forall k | k in s.jobs ensures EarlierOver(after, k, s.jobs[k]) {
      assert EarlierOver(before, k, s.jobs[k]);
    }
    assert Reserved(before, s.log);
  }

  lemma {:induction false} StepKeeps(s: State, e: Event, t: State)
    requires Inv(s) && Step(s, e) == Some(t)
    ensures Inv(t)
  {
    match e
    case Start(j, id) => StartKeeps(s, j, id, t);
    case Go(j, c) => GoKeeps(s, j, c, t);
    case Exit(j) =>
      assert JobOk(s.jobs[j]);
      MoveKeeps(s, j, t.jobs[j], s.active, s.seen, s.log);
    case Call(c, id) =>
      if s.active.Some? && s.jobs[s.active.value].id == id { CallActive(s, c, id, t); } else { CallIdle(s, c, id, t); }
    case Resume(c) => ResumeKeeps(s, c, t);
    case Tick(d) =>
  }

  lemma {:induction false} RunKeeps(s: State, events: seq<Event>)
    requires Inv(s) && Run(s, events).Some?
    ensures Inv(Run(s, events).value)
    decreases |events|
  {
    if events != [] {
      StepKeeps(s, events[0], Step(s, events[0]).value);
      RunKeeps(Step(s, events[0]).value, events[1..]);
    }
  }

  // ---------------------------------------------------------------- what a run shows

  lemma {:induction false} ReachableInv(events: seq<Event>)
    requires Run(INITIAL, events).Some?
    ensures Inv(Run(INITIAL, events).value)
  {
    RunKeeps(INITIAL, events);
  }

  /** Whether a job has, or is about to get, a live process. */
  predicate HasProcess(job: Job) {
    job.pc.Spawning? || job.alive
  }

  /** At most one job is unfinished, and every process belongs to it. */
  lemma {:induction false} SingleFlight(events: seq<Event>, a: JobId, b: JobId)
    requires Run(INITIAL, events).Some?
    requires a in Run(INITIAL, events).value.jobs && b in Run(INITIAL, events).value.jobs
    ensures var s := Run(INITIAL, events).value;
            && (!s.jobs[a].pc.Over? && !s.jobs[b].pc.Over? ==> a == b)
            && (HasProcess(s.jobs[a]) ==> s.active == Some(a))
  {
    ReachableInv(events);
    var s := Run(INITIAL, events).value;
    assert JobOk(s.jobs[a]) && JobOk(s.jobs[b]);
  }

  /** The slot changes hands only empty: it is freed by the last step of its own job, after the process
      has been reaped, and taken only when free. */
  lemma {:induction false} SlotFreedAfterReap(s: State, e: Event, t: State)
    requires Inv(s) && Step(s, e) == Some(t) && t.active != s.active
    ensures s.active.None? || t.active.None?
    ensures s.active.Some? ==>
              var j := s.active.value;
              && e.Go? && e.j == j && s.jobs[j].pc.Joining? && !HasProcess(s.jobs[j])
              && j in t.jobs && t.jobs[j].pc.Over?
    ensures s.active.None? ==> e.Start? && t.active == Some(e.j)
  {
    if e.Go? {
      var job := GoShape(s, e.j, e.choice, t);
      assert JobOk(s.jobs[e.j]);
      AdvanceMoves(s.jobs[e.j], e.choice);
    } else if e.Start? {
      var job, x := StartShape(s, e.j, e.id, t);
    }
  }

  /** The ids remembered after the last time `id` was. */
  function Since(log: seq<Seen>, id: RequestId): set<RequestId> {
    if log == [] || log[|log| - 1].id == id then {} else Since(log[..|log| - 1], id) + {log[|log| - 1].id}
  }

  lemma {:induction false} FindAppend(seen: seq<Seen>, x: Seen, id: RequestId)
    ensures Find(seen + [x], id) == if x.id == id then Some(x) else Find(seen, id)
  {
    assert (seen + [x])[..|seen + [x]| - 1] == seen;
  }

  lemma {:induction false} FindWithout(seen: seq<Seen>, other: RequestId, id: RequestId)
    requires other != id
    ensures Find(Without(seen, other), id) == Find(seen, id)
    decreases |seen|
  {
    if seen != [] {
      var front, last := seen[..|seen| - 1], seen[|seen| - 1];
      FindWithout(front, other, id);
      if last.id != other {
        FindAppend(Without(front, other), last, id);
      } else {
        assert Without(seen, other) == Without(front, other);
      }
    }
  }

  lemma {:induction false} FindLatest(log: seq<Seen>, id: RequestId)
    ensures Find(Latest(log), id) == Find(log, id)
    decreases |log|
  {
    if log != [] {
      var front, last := log[..|log| - 1], log[|log| - 1];
      FindLatest(front, id);
      FindAppend(Without(Latest(front), last.id), last, id);
      if last.id != id {
        FindWithout(Latest(front), last.id, id);
      }
    }
  }

  /** The ids after the last occurrence of `id` in a list. */
  function Tail(seen: seq<Seen>, id: RequestId): seq<Seen> {
    if seen == [] || seen[|seen| - 1].id == id then [] else Tail(seen[..|seen| - 1], id) + [seen[|seen| - 1]]
  }

  function Ids(seen: seq<Seen>): set<RequestId> {
    set x | x in seen :: x.id
  }

  lemma {:induction false} TailWithout(seen: seq<Seen>, other: RequestId, id: RequestId)
    requires other != id
    ensures Tail(Without(seen, other), id) == Without(Tail(seen, id), other)
    decreases |seen|
  {
    if seen != [] {
      var front, last := seen[..|seen| - 1], seen[|seen| - 1];
      TailWithout(front, other, id);
      var rest := Without(front, other);
      if last.id == id {
        assert (rest + [last])[|rest|] == last;
        assert Tail(rest + [last], id) == [];
      } else {
        var tail := Tail(front, id);
        assert (tail + [last])[..|tail|] == tail;
        if last.id == other {
          assert rest + [] == rest && Without(tail, other) + [] == Without(tail, other);
        } else {
          assert (rest + [last])[..|rest|] == rest;
        }
      }
    }
  }

  lemma {:induction false} TailAppend(seen: seq<Seen>, x: Seen, id: RequestId)
    ensures Tail(seen + [x], id) == if x.id == id then [] else Tail(seen, id) + [x]
  {
    assert (seen + [x])[..|seen + [x]| - 1] == seen;
  }

  lemma {:induction false} IdsAppend(seen: seq<Seen>, x: Seen)
    ensures Ids(Without(seen, x.id) + [x]) == Ids(seen) + {x.id}
  {
    WithoutMembers(seen, x.id);
    forall y | y in seen && y.id != x.id ensures y.id in Ids(Without(seen, x.id) + [x]) {
      assert y in Without(seen, x.id) + [x];
    }
    assert x in Without(seen, x.id) + [x];
  }

  lemma {:induction false} TailSince(log: seq<Seen>, id: RequestId)
    ensures Ids(Tail(Latest(log), id)) == Since(log, id)
    decreases |log|
  {
    if log != [] {
      var front, last := log[..|log| - 1], log[|log| - 1];
      TailAppend(Without(Latest(front), last.id), last, id);
      if last.id != id {
        TailSince(front, id);
        TailWithout(Latest(front), last.id, id);
        IdsAppend(Tail(Latest(front), id), last);
      }
    }
  }

  lemma {:induction false} TailCount(log: seq<Seen>, id: RequestId)
    ensures |Tail(Latest(log), id)| == |Since(log, id)|
  {
    TailSince(log, id);
    LatestDistinct(log);
    TailDistinct(Latest(log), id);
    DistinctIds(Tail(Latest(log), id));
  }

  lemma {:induction false} DistinctIds(seen: seq<Seen>)
    requires Distinct(seen)
    ensures |Ids(seen)| == |seen|
    decreases |seen|
  {
    if seen != [] {
      var front, last := seen[..|seen| - 1], seen[|seen| - 1];
      assert seen == front + [last];
      DistinctAppend(front, last);
      DistinctIds(front);
      assert Ids(seen) == Ids(front) + {last.id};
      assert last.id !in Ids(front);
    }
  }

  /** An id in a list without repeats stands right before its tail; it is among the newest n exactly
      when fewer than n entries follow it. */
  lemma {:induction false} FindPlace(seen: seq<Seen>, id: RequestId)
    requires Find(seen, id).Some?
    ensures |Tail(seen, id)| < |seen| && seen[|seen| - 1 - |Tail(seen, id)|] == Find(seen, id).value
    ensures Find(seen, id).value.id == id
    ensures Tail(seen, id) == seen[|seen| - |Tail(seen, id)|..]
    decreases |seen|
  {
    var front, last := seen[..|seen| - 1], seen[|seen| - 1];
    if last.id != id {
      FindPlace(front, id);
      assert seen == front + [last];
    }
  }

  lemma {:induction false} FindInSuffix(seen: seq<Seen>, k: nat, id: RequestId)
    requires k <= |seen|
    ensures Find(seen[k..], id) == if Find(seen, id).Some? && |Tail(seen, id)| < |seen| - k then Find(seen, id) else None
    decreases |seen|
  {
    if k < |seen| {
      var front, last := seen[..|seen| - 1], seen[|seen| - 1];
      FindInSuffix(front, k, id);
      assert seen[k..] == front[k..] + [last];
      FindAppend(front[k..], last, id);
    }
  }

  lemma {:induction false} FindNewest(all: seq<Seen>, id: RequestId)
    ensures Find(Newest(all), id) == if Find(all, id).Some? && |Tail(all, id)| < SEEN_LIMIT then Find(all, id) else None
  {
    if Find(all, id).Some? {
      FindPlace(all, id);
    }
    if |all| > SEEN_LIMIT {
      FindInSuffix(all, |all| - SEEN_LIMIT, id);
    }
  }

  lemma {:induction false} TailDistinct(seen: seq<Seen>, id: RequestId)
    requires Distinct(seen)
    ensures Distinct(Tail(seen, id))
  {
    TailIsSuffix(seen, id);
  }

  lemma {:induction false} TailIsSuffix(seen: seq<Seen>, id: RequestId)
    ensures |Tail(seen, id)| <= |seen| && Tail(seen, id) == seen[|seen| - |Tail(seen, id)|..]
    decreases |seen|
  {
    if seen != [] && seen[|seen| - 1].id != id {
      TailIsSuffix(seen[..|seen| - 1], id);
    }
  }

  /** What prior knows, exactly: an id is known iff it was remembered, the last time less than 600
      seconds ago, and at most 255 other ids have been remembered since. */
  lemma {:induction false} PriorExactly(seen: seq<Seen>, log: seq<Seen>, id: RequestId, now: nat)
    requires SeenOk(seen, log)
    ensures Prior(seen, id, now).Some? <==>
            Find(log, id).Some? && now < Find(log, id).value.at + SEEN_SECONDS && |Since(log, id)| < SEEN_LIMIT
    ensures Prior(seen, id, now).Some? ==> Prior(seen, id, now).value == Find(log, id).value.status
  {
    FindLatest(log, id);
    TailCount(log, id);
    FindNewest(Latest(log), id);
  }

  lemma {:induction false} FindInMore(log: seq<Seen>, n: nat, id: RequestId)
    requires n <= |log| && Find(log[..n], id).Some?
    ensures Find(log, id).Some?
    decreases |log|
  {
    if n == |log| {
      assert log[..n] == log;
    } else {
      assert log[..|log| - 1][..n] == log[..n];
      FindInMore(log[..|log| - 1], n, id);
    }
  }

  /** An answered cancel is obeyed: no job of that id that began before the call is still running or has
      a process, and every one that began later, running or not, could begin only because the id, remembered
      at the latest by the call, had been forgotten by then: 600 seconds or 256 other ids after it was last
      remembered. */
  lemma {:induction false} CancelIsObeyed(events: seq<Event>, c: CancelId, j: JobId)
    requires Run(INITIAL, events).Some?
    requires c in Run(INITIAL, events).value.cancels && Run(INITIAL, events).value.cancels[c].pc.Answered?
    requires j in Run(INITIAL, events).value.jobs && Run(INITIAL, events).value.jobs[j].id == Run(INITIAL, events).value.cancels[c].id
    ensures var s := Run(INITIAL, events).value;
            var job := s.jobs[j];
            && job.started < |s.log|
            && (job.started < s.cancels[c].called ==> job.pc.Over? && !HasProcess(job))
            && (s.cancels[c].called <= job.started ==>
                  var before := s.log[..job.started];
                  && Find(before, job.id).Some?
                  && (Find(before, job.id).value.at + SEEN_SECONDS <= job.at || |Since(before, job.id)| >= SEEN_LIMIT))
  {
    ReachableInv(events);
    var s := Run(INITIAL, events).value;
    var job := s.jobs[j];
    assert JobOk(job) && BeganFresh(job, s.log);
    assert CancelOk(s.cancels[c], s.jobs) && EarlierOver(s.cancels[c], j, job);
    var before, called := s.log[..job.started], s.cancels[c].called;
    PriorExactly(Newest(Latest(before)), before, job.id, job.at);
    if called <= job.started {
      assert Reserved(s.cancels[c], s.log);
      assert before[..called] == s.log[..called];
      FindInMore(before, called, job.id);
    }
  }

  /** Whether a cancelled job still delivers its result: exactly if the cancel came after the job's last
      look at its flag. */
  lemma {:induction false} DeliveredExactlyIfLate(events: seq<Event>, c: CancelId)
    requires Run(INITIAL, events).Some?
    requires c in Run(INITIAL, events).value.cancels && Target(Run(INITIAL, events).value.cancels[c]).Some?
    ensures var s := Run(INITIAL, events).value;
            && Target(s.cancels[c]).value in s.jobs
            && var job := s.jobs[Target(s.cancels[c]).value];
               job.cancelled && (job.delivered <==> s.cancels[c].late)
  {
    ReachableInv(events);
    assert CancelOk(Run(INITIAL, events).value.cancels[c], Run(INITIAL, events).value.jobs);
  }

  // ---------------------------------------------------------------- how a job is remembered

  /** Neither a new job nor a cancel of this id. */
  predicate LeavesAlone(e: Event, id: RequestId) {
    !(e.Start? && e.id == id) && !(e.Call? && e.id == id)
  }

  /** Job j has delivered, any other of its id is over, and the last thing noted of the id is that. */
  ghost predicate NotedCompleted(jobs: map<JobId, Job>, log: seq<Seen>, j: JobId, id: RequestId, at: nat) {
    && j in jobs && jobs[j].id == id && jobs[j].delivered
    && (forall k :: k in jobs && jobs[k].id == id ==> k == j || jobs[k].pc.Over?)
    && Find(log, id) == Some(Seen(id, at, Completed))
  }

  /** Nothing more is noted of the id, and job k, new or not, changes without being of it or ending anything. */
  lemma {:induction false} CompletedKept(jobs: map<JobId, Job>, log: seq<Seen>, j: JobId, id: RequestId, at: nat,
                                         k: JobId, job: Job, more: seq<Seen>)
    requires NotedCompleted(jobs, log, j, id, at)
    requires k in jobs ==> job.id == jobs[k].id && (jobs[k].delivered ==> job.delivered) && (jobs[k].pc.Over? ==> job.pc.Over?)
    requires k !in jobs ==> job.id != id
    requires more == log || (|more| == |log| + 1 && more == log + [more[|log|]] && more[|log|].id != id)
    ensures NotedCompleted(jobs[k := job], more, j, id, at)
  {
    if more != log {
      FindAppend(log, more[|log|], id);
    }
  }

  lemma {:induction false} CompletedGo(s: State, j: JobId, id: RequestId, at: nat, k: JobId, c: Choice, t: State)
    requires Inv(s) && NotedCompleted(s.jobs, s.log, j, id, at) && k in s.jobs && GoStep(s, k, c) == Some(t)
    ensures NotedCompleted(t.jobs, t.log, j, id, at)
  {
    var job := GoShape(s, k, c, t);
    AdvanceMoves(s.jobs[k], c);
    PriorExactly(s.seen, s.log, id, s.now);
    CompletedKept(s.jobs, s.log, j, id, at, k, job, t.log);
  }

  lemma {:induction false} CompletedCall(s: State, j: JobId, id: RequestId, at: nat, c: CancelId, other: RequestId, t: State)
    requires Inv(s) && NotedCompleted(s.jobs, s.log, j, id, at) && Step(s, Call(c, other)) == Some(t) && other != id
    ensures NotedCompleted(t.jobs, t.log, j, id, at)
  {
    if s.active.Some? && s.jobs[s.active.value].id == other {
      var k, job, x, after := CallShape(s, c, other, t);
      CompletedKept(s.jobs, s.log, j, id, at, k, job, t.log);
    } else {
      IdleCallLog(s, c, other, t);
      CompletedKept(s.jobs, s.log, j, id, at, j, s.jobs[j], t.log);
      assert s.jobs[j := s.jobs[j]] == s.jobs;
    }
  }

  lemma {:induction false} IdleCallLog(s: State, c: CancelId, id: RequestId, t: State)
    requires Step(s, Call(c, id)) == Some(t)
    requires !(s.active.Some? && s.active.value in s.jobs && s.jobs[s.active.value].id == id)
    ensures t.jobs == s.jobs && (t.log == s.log || t.log == s.log + [Seen(id, s.now, Cancelled)])
  {
  }

  lemma {:induction false} CompletedStep(s: State, j: JobId, id: RequestId, at: nat, e: Event, t: State)
    requires Inv(s) && NotedCompleted(s.jobs, s.log, j, id, at) && LeavesAlone(e, id) && Step(s, e) == Some(t)
    ensures NotedCompleted(t.jobs, t.log, j, id, at)
  {
    match e
    case Start(k, other) =>
      var job, x := StartShape(s, k, other, t);
      CompletedKept(s.jobs, s.log, j, id, at, k, job, t.log);
    case Go(k, c) => CompletedGo(s, j, id, at, k, c, t);
    case Exit(k) => CompletedKept(s.jobs, s.log, j, id, at, k, s.jobs[k].(alive := false), s.log);
    case Call(c, other) => CompletedCall(s, j, id, at, c, other, t);
    case Resume(c) => var after := ResumeShape(s, c, t);
    case Tick(d) =>
  }

  lemma {:induction false} CompletedStays(s: State, j: JobId, id: RequestId, at: nat, events: seq<Event>, t: State)
    requires Inv(s) && NotedCompleted(s.jobs, s.log, j, id, at) && Run(s, events) == Some(t)
    requires forall e :: e in events ==> LeavesAlone(e, id)
    ensures Inv(t) && NotedCompleted(t.jobs, t.log, j, id, at)
    decreases |events|
  {
    if events != [] {
      var next := Step(s, events[0]).value;
      StepKeeps(s, events[0], next);
      CompletedStep(s, j, id, at, events[0], next);
      CompletedStays(next, j, id, at, events[1..], t);
    }
  }

  /** The step that delivers a result notes it. */
  lemma {:induction false} DeliveryLog(s: State, j: JobId, c: Choice, t: State)
    requires j in s.jobs && !s.jobs[j].delivered && GoStep(s, j, c) == Some(t) && t.jobs[j].delivered
    ensures t.jobs == s.jobs[j := t.jobs[j]] && t.jobs[j].id == s.jobs[j].id && s.jobs[j].pc.Talking?
    ensures t.log == s.log + [Seen(s.jobs[j].id, s.now, Completed)]
  {
  }

  lemma {:induction false} DeliveryNoted(s: State, j: JobId, c: Choice, t: State)
    requires ActiveOk(s.active, s.jobs) && j in s.jobs && !s.jobs[j].delivered && GoStep(s, j, c) == Some(t) && t.jobs[j].delivered
    ensures NotedCompleted(t.jobs, t.log, j, s.jobs[j].id, s.now)
  {
    DeliveryLog(s, j, c, t);
    FindAppend(s.log, Seen(s.jobs[j].id, s.now, Completed), s.jobs[j].id);
  }

  /** A result that is delivered is remembered as completed, from the step that delivers it on, for 600
      seconds and until 256 other ids have followed, unless its id is cancelled or used again. */
  lemma {:induction false} DeliveredIsRemembered(before: seq<Event>, s: State, j: JobId, c: Choice, t: State,
                                                 after: seq<Event>, u: State)
    requires Run(INITIAL, before) == Some(s) && j in s.jobs && !s.jobs[j].delivered
    requires Step(s, Go(j, c)) == Some(t) && j in t.jobs && t.jobs[j].delivered
    requires Run(t, after) == Some(u) && forall e :: e in after ==> LeavesAlone(e, s.jobs[j].id)
    ensures Prior(u.seen, s.jobs[j].id, u.now) ==
            if u.now < s.now + 600 && |Since(u.log, s.jobs[j].id)| < 256 then Some(Completed) else None
  {
    ReachableInv(before);
    StepKeeps(s, Go(j, c), t);
    DeliveryNoted(s, j, c, t);
    CompletedStays(t, j, s.jobs[j].id, s.now, after, u);
    PriorExactly(u.seen, u.log, s.jobs[j].id, u.now);
  }

  /** A job that ends with its id still remembered as running has no result, and is remembered as cancelled
      if it was cancelled and as failed if not. */
  lemma {:induction false} UndeliveredIsRemembered(s: State, j: JobId, c: Choice, t: State)
    requires j in s.jobs && Step(s, Go(j, c)) == Some(t) && t.jobs[j].pc.Over?
    requires Prior(s.seen, s.jobs[j].id, s.now) == Some(Running)
    ensures Prior(t.seen, s.jobs[j].id, t.now) == Some(if s.jobs[j].cancelled then Cancelled else Failed)
  {
    NewestNoted(s.seen, Seen(s.jobs[j].id, s.now, if s.jobs[j].cancelled then Cancelled else Failed));
  }

  lemma {:induction false} NewestNoted(seen: seq<Seen>, x: Seen)
    ensures Find(Remembered(seen, x), x.id) == Some(x)
  {
    var rest := Without(seen, x.id);
    FindAppend(rest, x, x.id);
    FindNewest(rest + [x], x.id);
    TailAppend(rest, x, x.id);
  }

  /** A job that is cancelled, or whose client is gone, before it has its answer goes straight to its end
      without delivering, and stays marked as cancelled. */
  lemma {:induction false} CancelledStops(s: State, j: JobId, c: Choice, t: State)
    requires Inv(s) && j in s.jobs && Step(s, Go(j, c)) == Some(t)
    requires s.jobs[j].pc.Receiving? || s.jobs[j].pc.Spawning? || s.jobs[j].pc.Talking?
    requires s.jobs[j].cancelled || (c.Gone? && !s.jobs[j].pc.Spawning?)
    ensures j in t.jobs && t.jobs[j].pc.Reaping? && t.jobs[j].cancelled && !t.jobs[j].delivered
  {
    assert JobOk(s.jobs[j]);
  }

  /** Cancelling an id that is remembered and not running changes nothing of what is remembered. */
  lemma {:induction false} IdleCancelForgetsNothing(s: State, c: CancelId, id: RequestId, t: State)
    requires Inv(s) && Step(s, Call(c, id)) == Some(t) && Prior(s.seen, id, s.now).Some?
    requires forall j :: j in s.jobs && s.jobs[j].id == id ==> s.jobs[j].pc.Over?
    ensures t.seen == s.seen && t.log == s.log && t.jobs == s.jobs && t.active == s.active
    ensures c in t.cancels && t.cancels[c].pc == Answered(None)
  {
  }

  lemma {:induction false} RunAppend(s: State, events: seq<Event>, e: Event)
    requires Run(s, events).Some?
    ensures Run(s, events + [e]) == Step(Run(s, events).value, e)
    decreases |events|
  {
    if events == [] {
      assert events + [e] == [e] && [e][1..] == [];
    } else {
      RunAppend(Step(s, events[0]).value, events[1..], e);
      assert (events + [e])[1..] == events[1..] + [e];
    }
  }

  /** A run in which a cancel is answered "cancelled" and the result is delivered all the same: the
      cancel comes while transcribe, its answer decoded, waits for the last of its process. */
  lemma {:induction false} LateCancelDelivers(j: JobId, id: RequestId, c: CancelId) returns (events: seq<Event>, s: State)
    ensures Run(INITIAL, events) == Some(s)
    ensures c in s.cancels && s.cancels[c].id == id && s.cancels[c].pc == Answered(Some(j))
    ensures j in s.jobs && s.jobs[j].delivered && s.jobs[j].cancelled
  {
    events, s := Delivering(INITIAL, j, id);
    events, s := Extend(events, s, Call(c, id));
    events, s := Extend(events, s, Resume(c));
    events, s := Extend(events, s, Go(j, Good));
    events, s := Extend(events, s, Resume(c));
  }

  lemma {:induction false} Extend(events: seq<Event>, s: State, e: Event) returns (more: seq<Event>, t: State)
    requires Run(INITIAL, events) == Some(s) && Step(s, e).Some?
    ensures Run(INITIAL, more) == Some(t) && Step(s, e) == Some(t)
  {
    RunAppend(INITIAL, events, e);
    more, t := events + [e], Step(s, e).value;
  }

  lemma {:induction false} StartRun(start: State, j: JobId, id: RequestId) returns (events: seq<Event>, s: State)
    requires start == INITIAL
    ensures Run(INITIAL, events) == Some(s)
    ensures s.active == Some(j) && s.cancels == map[]
    ensures j in s.jobs && s.jobs[j] == Job(id, Receiving, false, false, false, false, 0, 0)
  {
    assert Prior(start.seen, id, start.now).None?;
    events, s := Extend([], start, Start(j, id));
  }

  lemma {:induction false} TalkingRun(start: State, j: JobId, id: RequestId) returns (events: seq<Event>, s: State)
    requires start == INITIAL
    ensures Run(INITIAL, events) == Some(s)
    ensures s.active == Some(j) && s.cancels == map[]
    ensures j in s.jobs && s.jobs[j] == Job(id, Talking, true, true, false, false, 0, 0)
  {
    events, s := StartRun(start, j, id);
    events, s := Extend(events, s, Go(j, Good));
    events, s := Extend(events, s, Go(j, Good));
  }

  lemma {:induction false} Delivering(start: State, j: JobId, id: RequestId) returns (events: seq<Event>, s: State)
    requires start == INITIAL
    ensures Run(INITIAL, events) == Some(s)
    ensures s.active == Some(j) && s.cancels == map[]
    ensures j in s.jobs && s.jobs[j] == Job(id, Joining, true, false, false, true, 0, 0)
  {
    events, s := TalkingRun(start, j, id);
    events, s := Extend(events, s, Exit(j));
    events, s := Extend(events, s, Go(j, Good));
    events, s := Extend(events, s, Go(j, Good));
  }
}
