/** Retention of job folders in the tender link (gateway/web_link.py): 10 jobs per session, 200 jobs in
    all, the 5 latest demo sessions, and nothing of a session that is in use. */
module WebRetention {
  type SessionId = nat
  type JobId = nat

  const KEEP_JOBS_PER_SESSION: nat := 10
  const KEEP_JOBS_TOTAL: nat := 200
  const KEEP_DEMO_SESSIONS: nat := 5

  /** A session folder; job ids sort in run order. */
  datatype Folder = Folder(demo: bool, mtime: nat, jobs: set<JobId>)
  type Root = map<SessionId, Folder>

  // ---------------------------------------------------------------- the newest n of a set

  /** Sorted by rank (a job id, or a folder's mtime); equal ranks in listing order. */
  datatype Key = Key(rank: nat, session: SessionId)

  predicate Later(a: Key, b: Key) {
    a.rank > b.rank || (a.rank == b.rank && a.session > b.session)
  }

  function Newer(all: set<Key>, k: Key): set<Key> {
    set x | x in all && Later(x, k)
  }

  /** What `sorted(all)[-n:]` leaves. */
  function Newest(all: set<Key>, n: nat): set<Key> {
    set k | k in all && |Newer(all, k)| < n
  }

  lemma {:induction false} SubsetSize(a: set<Key>, b: set<Key>)
    requires a <= b
    ensures |a| <= |b|
    decreases b
  {
    if a != {} {
      var x :| x in a;
      SubsetSize(a - {x}, b - {x});
    }
  }

  lemma {:induction false} Oldest(all: set<Key>) returns (k: Key)
    requires all != {}
    ensures k in all && forall x :: x in all && x != k ==> Later(x, k)
    decreases all
  {
    var e :| e in all;
    if all == {e} {
      k := e;
    } else {
      var o := Oldest(all - {e});
      k := if Later(e, o) then o else e;
      assert forall x :: x in all && x != e ==> x in all - {e};
    }
  }

  /** There are min(n, |all|) newest ones. */
  lemma {:induction false} NewestSize(all: set<Key>, n: nat)
    ensures |Newest(all, n)| == if |all| <= n then |all| else n
    decreases |all|
  {
    if all == {} {
      assert Newest(all, n) == {};
    } else {
      var o := Oldest(all);
      var rest := all - {o};
      NewestSize(rest, n);
      forall k | k in rest ensures Newer(all, k) == Newer(rest, k) {
      }
      assert Newer(all, o) == rest;
      if |all| <= n {
        assert Newest(all, n) == Newest(rest, n) + {o};
      } else {
        assert Newest(all, n) == Newest(rest, n);
      }
    }
  }

  /** Whatever is later than a kept one is kept. */
  lemma {:induction false} NewestUp(all: set<Key>, n: nat, k: Key, x: Key)
    requires k in Newest(all, n) && x in all && Later(x, k)
    ensures x in Newest(all, n)
  {
    SubsetSize(Newer(all, x), Newer(all, k));
  }

  lemma {:induction false} NewestAll(all: set<Key>, n: nat)
    requires |all| <= n
    ensures Newest(all, n) == all
  {
    forall k | k in all ensures |Newer(all, k)| < n {
      SubsetSize(Newer(all, k), all - {k});
    }
  }

  // ---------------------------------------------------------------- pruning

  function Demos(root: Root): set<Key> {
    set s | s in root && root[s].demo :: Key(root[s].mtime, s)
  }

  function JobKeys(s: SessionId, jobs: set<JobId>): set<Key> {
    set j | j in jobs :: Key(j, s)
  }

  function Everything(root: Root): set<Key> {
    set s, j | s in root && j in root[s].jobs :: Key(j, s)
  }

  function KeepJobs(s: SessionId, folder: Folder, kept: set<Key>): Folder {
    folder.(jobs := set j | j in folder.jobs && Key(j, s) in kept)
  }

  function WithoutOldDemos(root: Root, protected: set<SessionId>): Root {
    map s | s in root && (root[s].demo && s !in protected ==> Key(root[s].mtime, s) in Newest(Demos(root), KEEP_DEMO_SESSIONS)) :: root[s]
  }

  function SessionLimit(s: SessionId, folder: Folder, protected: set<SessionId>): Folder {
    if s in protected then folder else KeepJobs(s, folder, Newest(JobKeys(s, folder.jobs), KEEP_JOBS_PER_SESSION))
  }

  function WithSessionLimit(root: Root, protected: set<SessionId>): Root {
    map s | s in root :: SessionLimit(s, root[s], protected)
  }

  function WithTotalLimit(root: Root, protected: set<SessionId>): Root {
    map s | s in root :: LimitedTo(s, root[s], Newest(Everything(root), KEEP_JOBS_TOTAL), protected)
  }

  function LimitedTo(s: SessionId, folder: Folder, kept: set<Key>, protected: set<SessionId>): Folder {
    if s in protected then folder else KeepJobs(s, folder, kept)
  }

  ghost predicate IsLimited(root: Root, was: Root, kept: set<Key>, protected: set<SessionId>) {
    root.Keys == was.Keys && forall s :: s in root ==> root[s] == LimitedTo(s, was[s], kept, protected)
  }

  function WithoutJob(root: Root, gone: Key, protected: set<SessionId>): Root
    requires gone.session in root
  {
    if gone.session in protected then root
    else root[gone.session := root[gone.session].(jobs := root[gone.session].jobs - {gone.rank})]
  }

  lemma {:induction false} LimitStep(root: Root, was: Root, kept: set<Key>, gone: Key, protected: set<SessionId>)
    requires IsLimited(root, was, kept, protected) && gone in kept && kept <= Everything(was)
    ensures gone.session in root
    ensures IsLimited(WithoutJob(root, gone, protected), was, kept - {gone}, protected)
  {
    forall s | s in root
      ensures LimitedTo(s, was[s], kept - {gone}, protected) ==
              if s != gone.session || s in protected then root[s] else root[s].(jobs := root[s].jobs - {gone.rank})
    {
    }
  }

  lemma {:induction false} KeepAll(root: Root)
    ensures forall s :: s in root ==> KeepJobs(s, root[s], Everything(root)) == root[s]
  {
  }

  predicate EmptyUpload(s: SessionId, folder: Folder, protected: set<SessionId>) {
    s !in protected && !folder.demo && folder.jobs == {}
  }

  function WithoutEmpty(root: Root, protected: set<SessionId>): Root {
    map s | s in root && !EmptyUpload(s, root[s], protected) :: root[s]
  }

  /** _prune_idle */
  function Pruned(root: Root, protected: set<SessionId>): Root {
    WithoutEmpty(WithTotalLimit(WithSessionLimit(WithoutOldDemos(root, protected), protected), protected), protected)
  }

  /** The web-link root on disk. */
  class LinkFolders {
    var root: Root

    method RemoveOldDemos(protected: set<SessionId>)
      modifies this
      ensures root == WithoutOldDemos(old(root), protected)
    {
      ghost var was := root;
      var todo := Demos(root) - Newest(Demos(root), KEEP_DEMO_SESSIONS);
      ghost var all := todo;
      while todo != {}
        invariant todo <= all
        invariant root == map s | s in was && (Key(was[s].mtime, s) in all - todo && was[s].demo ==> s in protected) :: was[s]
        decreases |todo|
      {
        var gone :| gone in todo;
        if gone.session !in protected {
          root := root - {gone.session};
        }
        todo := todo - {gone};
      }
    }

    method LimitSessions(protected: set<SessionId>) returns (everything: set<Key>)
      modifies this
      ensures root == WithSessionLimit(old(root), protected)
      ensures everything == Everything(root)
    {
      ghost var was := root;
      var todo := root.Keys;
      everything := {};
      while todo != {}
        invariant todo <= was.Keys
        invariant root == map s | s in was :: if s in todo then was[s] else SessionLimit(s, was[s], protected)
        invariant everything == set s, j | s in was && s !in todo && j in SessionLimit(s, was[s], protected).jobs :: Key(j, s)
        decreases |todo|
      {
        var session :| session in todo;
        if session in protected {
          everything := everything + JobKeys(session, root[session].jobs);
        } else {
          var keep := Newest(JobKeys(session, root[session].jobs), KEEP_JOBS_PER_SESSION);
          root := root[session := KeepJobs(session, root[session], keep)];
          everything := everything + keep;
          assert keep == JobKeys(session, root[session].jobs);
        }
        todo := todo - {session};
      }
    }

    method RemoveJob(gone: Key, protected: set<SessionId>)
      requires gone.session in root
      modifies this
      ensures root == WithoutJob(old(root), gone, protected)
    {
      if gone.session !in protected {
        root := root[gone.session := root[gone.session].(jobs := root[gone.session].jobs - {gone.rank})];
      }
    }

    method RemoveJobs(todo: set<Key>, ghost kept: set<Key>, protected: set<SessionId>)
      requires IsLimited(root, root, kept + todo, protected) && kept !! todo && kept + todo <= Everything(root)
      modifies this
      ensures IsLimited(root, old(root), kept, protected)
    {
      var rest := todo;
      ghost var left := kept + todo;
      while rest != {}
        invariant left == kept + rest && kept !! rest && left <= Everything(old(root))
        invariant IsLimited(root, old(root), left, protected)
        decreases |rest|
      {
        var gone :| gone in rest;
        LimitStep(root, old(root), left, gone, protected);
        RemoveJob(gone, protected);
        rest := rest - {gone};
        left := left - {gone};
      }
      assert left == kept;
    }

    method LimitTotal(everything: set<Key>, protected: set<SessionId>)
      requires everything == Everything(root)
      modifies this
      ensures root == WithTotalLimit(old(root), protected)
    {
      var keep := Newest(everything, KEEP_JOBS_TOTAL);
      KeepAll(root);
      assert keep + (everything - keep) == everything;
      RemoveJobs(everything - keep, keep, protected);
    }

    method RemoveEmpty(protected: set<SessionId>)
      modifies this
      ensures root == WithoutEmpty(old(root), protected)
    {
      ghost var was := root;
      var todo := root.Keys;
      while todo != {}
        invariant todo <= was.Keys
        invariant root == map s | s in was && (s !in todo ==> !EmptyUpload(s, was[s], protected)) :: was[s]
        decreases |todo|
      {
        var session :| session in todo;
        if EmptyUpload(session, root[session], protected) {
          root := root - {session};
        }
        todo := todo - {session};
      }
    }

    /** Caller holds the guard; `protected` are the sessions with users. */
    method PruneIdle(protected: set<SessionId>)
      modifies this
      ensures root == Pruned(old(root), protected)
    {
      RemoveOldDemos(protected);
      var everything := LimitSessions(protected);
      LimitTotal(everything, protected);
      RemoveEmpty(protected);
    }
  }

  // ---------------------------------------------------------------- what pruning guarantees

  ghost predicate Limits(root: Root) {
    && |Demos(root)| <= 5
    && |Everything(root)| <= 200
    && (forall s :: s in root ==> |JobKeys(s, root[s].jobs)| <= 10 && !EmptyUpload(s, root[s], {}))
  }

  /** Nothing of a protected session is touched, however far over the limits it is. */
  lemma {:induction false} ProtectedKept(root: Root, protected: set<SessionId>, s: SessionId)
    requires s in protected
    ensures s in root <==> s in Pruned(root, protected)
    ensures s in root ==> Pruned(root, protected)[s] == root[s]
  {
  }

  /** The four stages, for the lemmas below. */
  lemma {:induction false} Stages(root: Root, protected: set<SessionId>) returns (a: Root, b: Root, c: Root)
    ensures a == WithoutOldDemos(root, protected) && b == WithSessionLimit(a, protected)
    ensures c == WithTotalLimit(b, protected) && Pruned(root, protected) == WithoutEmpty(c, protected)
  {
    a := WithoutOldDemos(root, protected);
    b := WithSessionLimit(a, protected);
    c := WithTotalLimit(b, protected);
  }

  /** A session that is not in use never keeps more than its ten newest jobs. */
  lemma {:induction false} IdleSessionWithinLimit(root: Root, protected: set<SessionId>, s: SessionId)
    requires s in Pruned(root, protected) && s !in protected
    ensures |JobKeys(s, Pruned(root, protected)[s].jobs)| <= 10
    ensures !EmptyUpload(s, Pruned(root, protected)[s], {})
  {
    var a, b, c := Stages(root, protected);
    var keep := Newest(JobKeys(s, a[s].jobs), KEEP_JOBS_PER_SESSION);
    NewestSize(JobKeys(s, a[s].jobs), KEEP_JOBS_PER_SESSION);
    SubsetSize(JobKeys(s, c[s].jobs), keep);
  }

  lemma {:induction false} TotalWithinLimit(b: Root)
    ensures Everything(WithoutEmpty(WithTotalLimit(b, {}), {})) == Newest(Everything(b), KEEP_JOBS_TOTAL)
  {
    var c := WithTotalLimit(b, {});
    var keep := Newest(Everything(b), KEEP_JOBS_TOTAL);
    forall k | k in keep ensures k in Everything(WithoutEmpty(c, {})) {
      assert k.session in b && k.rank in b[k.session].jobs;
      assert k.rank in c[k.session].jobs;
    }
  }

  /** With nobody in a session every limit holds. */
  lemma {:induction false} AllIdleWithinLimits(root: Root)
    ensures Limits(Pruned(root, {}))
  {
    var a, b, c := Stages(root, {});
    var p := Pruned(root, {});
    forall s | s in p ensures |JobKeys(s, p[s].jobs)| <= KEEP_JOBS_PER_SESSION && !EmptyUpload(s, p[s], {}) {
      IdleSessionWithinLimit(root, {}, s);
    }
    TotalWithinLimit(b);
    NewestSize(Everything(b), KEEP_JOBS_TOTAL);
    DemosKept(root);
    NewestSize(Demos(root), KEEP_DEMO_SESSIONS);
    SubsetSize(Demos(p), Newest(Demos(root), KEEP_DEMO_SESSIONS));
  }

  lemma {:induction false} DemosKept(root: Root)
    ensures Demos(Pruned(root, {})) <= Newest(Demos(root), KEEP_DEMO_SESSIONS)
  {
    var p := Pruned(root, {});
    forall s | s in p && p[s].demo ensures Key(p[s].mtime, s) in Newest(Demos(root), KEEP_DEMO_SESSIONS) {
      assert p[s].mtime == root[s].mtime && p[s].demo == root[s].demo;
    }
  }

  /** The newest jobs survive: when a job of an idle session is kept, so is every later job of that
      session, and every later job, of any idle session whose folder stays, that is among its own
      session's ten newest. */
  lemma {:induction false} NewestSurvive(root: Root, protected: set<SessionId>, s: SessionId, j: JobId, t: SessionId, i: JobId)
    requires s in Pruned(root, protected) && j in Pruned(root, protected)[s].jobs && s !in protected
    requires t in WithoutOldDemos(root, protected) && i in root[t].jobs && t !in protected && Later(Key(i, t), Key(j, s))
    requires t == s || Key(i, t) in Newest(JobKeys(t, root[t].jobs), KEEP_JOBS_PER_SESSION)
    ensures t in Pruned(root, protected) && i in Pruned(root, protected)[t].jobs
  {
    var a, b, c := Stages(root, protected);
    assert Key(j, s) in Newest(JobKeys(s, a[s].jobs), KEEP_JOBS_PER_SESSION);
    if t == s {
      NewestUp(JobKeys(s, a[s].jobs), KEEP_JOBS_PER_SESSION, Key(j, s), Key(i, t));
    }
    assert i in b[t].jobs && j in b[s].jobs;
    assert Key(i, t) in Everything(b);
    NewestUp(Everything(b), KEEP_JOBS_TOTAL, Key(j, s), Key(i, t));
    assert i in c[t].jobs;
  }

  /** Within the limits nothing is removed; so pruning an idle root twice is pruning it once. */
  lemma {:induction false} PruneIdempotent(root: Root)
    ensures Limits(root) ==> Pruned(root, {}) == root
    ensures Pruned(Pruned(root, {}), {}) == Pruned(root, {})
  {
    AllIdleWithinLimits(root);
    WithinLimitsStays(Pruned(root, {}));
    if Limits(root) {
      WithinLimitsStays(root);
    }
  }

  lemma {:induction false} WithinLimitsStays(root: Root)
    requires Limits(root)
    ensures Pruned(root, {}) == root
  {
    NewestAll(Demos(root), KEEP_DEMO_SESSIONS);
    assert WithoutOldDemos(root, {}) == root;
    assert WithSessionLimit(root, {}) == root by {
      forall s | s in root ensures SessionLimit(s, root[s], {}) == root[s] {
        NewestAll(JobKeys(s, root[s].jobs), KEEP_JOBS_PER_SESSION);
      }
    }
    assert WithTotalLimit(root, {}) == root by {
      NewestAll(Everything(root), KEEP_JOBS_TOTAL);
      KeepAll(root);
    }
    assert WithoutEmpty(root, {}) == root;
  }

  // ---------------------------------------------------------------- which jobs and sessions stay, in numbers

  /** Demo sessions changed later than this one. */
  function LaterDemos(root: Root, mtime: nat): set<SessionId> {
    set t | t in root && root[t].demo && root[t].mtime > mtime
  }

  /** Other demo sessions changed at the same time or later. */
  function OtherLateDemos(root: Root, s: SessionId): set<SessionId>
    requires s in root
  {
    set t | t in root && t != s && root[t].demo && root[t].mtime >= root[s].mtime
  }

  function LaterJobs(jobs: set<JobId>, j: JobId): set<JobId> {
    set i | i in jobs && i > j
  }

  lemma {:induction false} ImageSize(ids: set<SessionId>, root: Root)
    requires forall t :: t in ids ==> t in root
    ensures |set t | t in ids :: Key(root[t].mtime, t)| == |ids|
    decreases |ids|
  {
    var keys := set t | t in ids :: Key(root[t].mtime, t);
    if ids == {} {
      assert keys == {};
    } else {
      var x :| x in ids;
      ImageSize(ids - {x}, root);
      assert keys == (set t | t in ids - {x} :: Key(root[t].mtime, t)) + {Key(root[x].mtime, x)};
    }
  }

  lemma {:induction false} JobKeysSize(s: SessionId, jobs: set<JobId>)
    ensures |JobKeys(s, jobs)| == |jobs|
    decreases |jobs|
  {
    if jobs == {} {
      assert JobKeys(s, jobs) == {};
    } else {
      var x :| x in jobs;
      JobKeysSize(s, jobs - {x});
      assert JobKeys(s, jobs) == JobKeys(s, jobs - {x}) + {Key(x, s)};
    }
  }

  /** Of one folder, the ten with the largest ids. */
  lemma {:induction false} OwnTen(s: SessionId, jobs: set<JobId>, j: JobId)
    requires j in jobs
    ensures Key(j, s) in Newest(JobKeys(s, jobs), KEEP_JOBS_PER_SESSION) <==> |LaterJobs(jobs, j)| < 10
  {
    assert Newer(JobKeys(s, jobs), Key(j, s)) == JobKeys(s, LaterJobs(jobs, j));
    JobKeysSize(s, LaterJobs(jobs, j));
  }

  /** A demo session of which five demo sessions are later is removed; one with fewer than five that are as late or
      later stays. */
  lemma {:induction false} DemosByTime(root: Root, protected: set<SessionId>, s: SessionId)
    requires s in root && s !in protected && root[s].demo
    ensures |LaterDemos(root, root[s].mtime)| >= 5 ==> s !in Pruned(root, protected)
    ensures |OtherLateDemos(root, s)| < 5 ==> s in Pruned(root, protected)
  {
    var k := Key(root[s].mtime, s);
    var later, atLeast := LaterDemos(root, root[s].mtime), OtherLateDemos(root, s);
    ImageSize(later, root);
    ImageSize(atLeast, root);
    var l, m := set t | t in later :: Key(root[t].mtime, t), set t | t in atLeast :: Key(root[t].mtime, t);
    assert l <= Newer(Demos(root), k) <= m;
    SubsetSize(l, Newer(Demos(root), k));
    SubsetSize(Newer(Demos(root), k), m);
    DemoStage(root, protected, s);
  }

  lemma {:induction false} DemoStage(root: Root, protected: set<SessionId>, s: SessionId)
    requires s in root && s !in protected && root[s].demo
    ensures s in Pruned(root, protected) <==> Key(root[s].mtime, s) in Newest(Demos(root), KEEP_DEMO_SESSIONS)
  {
    var a, b, c := Stages(root, protected);
    assert Key(root[s].mtime, s) in Demos(root);
  }

  /** If a demo session stays, so does every demo session changed later. */
  lemma {:induction false} LaterDemoStays(root: Root, protected: set<SessionId>, s: SessionId, t: SessionId)
    requires s in root && root[s].demo && s !in protected && s in Pruned(root, protected)
    requires t in root && root[t].demo && root[t].mtime > root[s].mtime
    ensures t in Pruned(root, protected)
  {
    if t in protected {
      ProtectedKept(root, protected, t);
    } else {
      DemoStage(root, protected, s);
      DemoStage(root, protected, t);
      assert Key(root[t].mtime, t) in Demos(root);
      NewestUp(Demos(root), KEEP_DEMO_SESSIONS, Key(root[s].mtime, s), Key(root[t].mtime, t));
    }
  }

  /** If a job of a session that is not in use stays, so does every later job of the session. */
  lemma {:induction false} LaterJobStays(root: Root, protected: set<SessionId>, s: SessionId, j: JobId, i: JobId)
    requires s !in protected && s in Pruned(root, protected) && j in Pruned(root, protected)[s].jobs
    requires s in root && i in root[s].jobs && i > j
    ensures i in Pruned(root, protected)[s].jobs
  {
    var a, b, c := Stages(root, protected);
    NewestSurvive(root, protected, s, j, s, i);
  }

  /** And so does every later job, of any other such session that survives the demo limit, which is among its own
      session's ten latest. */
  lemma {:induction false} LaterJobElsewhereStays(root: Root, protected: set<SessionId>, s: SessionId, j: JobId, t: SessionId, i: JobId)
    requires s !in protected && s in Pruned(root, protected) && j in Pruned(root, protected)[s].jobs
    requires t !in protected && t in root && i in root[t].jobs && i > j && |LaterJobs(root[t].jobs, i)| < 10
    requires root[t].demo ==> t in Pruned(root, protected)
    ensures t in Pruned(root, protected) && i in Pruned(root, protected)[t].jobs
  {
    OwnTen(t, root[t].jobs, i);
    if root[t].demo {
      DemoStage(root, protected, t);
    }
    NewestSurvive(root, protected, s, j, t, i);
  }

  /** Jobs of the whole root, with their sessions, that are not earlier than j. */
  function LateEverywhere(root: Root, j: JobId): set<Key> {
    set k | k in Everything(root) && k.rank >= j
  }

  /** What is removed has a reason: a job of an unprotected session that survives the demo limit stays, and its
      folder with it, unless ten jobs of its folder are later or more than 200 of the root are not earlier; and with
      ten later ones in its folder it goes. */
  lemma {:induction false} StaysUnlessOld(root: Root, protected: set<SessionId>, s: SessionId, j: JobId)
    requires s in root && s !in protected && j in root[s].jobs && (root[s].demo ==> s in Pruned(root, protected))
    ensures |LaterJobs(root[s].jobs, j)| < 10 && |LateEverywhere(root, j)| <= 200 ==>
              s in Pruned(root, protected) && j in Pruned(root, protected)[s].jobs
    ensures |LaterJobs(root[s].jobs, j)| >= 10 ==>
              s in Pruned(root, protected) ==> j !in Pruned(root, protected)[s].jobs
  {
    var a, b, c := Stages(root, protected);
    OwnTen(s, root[s].jobs, j);
    if root[s].demo {
      DemoStage(root, protected, s);
    }
    if |LaterJobs(root[s].jobs, j)| < KEEP_JOBS_PER_SESSION && |LateEverywhere(root, j)| <= KEEP_JOBS_TOTAL {
      var k, late := Key(j, s), LateEverywhere(root, j);
      assert k in Everything(b);
      assert Newer(Everything(b), k) <= late - {k} && k in late;
      SubsetSize(Newer(Everything(b), k), late - {k});
      assert j in c[s].jobs;
    }
  }
}
