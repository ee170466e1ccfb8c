/**
 * A whole run of the two-snapshot plugin driven through its hooks, with
 * `keepOnlyFailedTestsArtifacts` on: a failing test, then a passing one. Because
 * dispatching never empties a pool, the failing test's "afterEach" snapshot is
 * still pooled when the passing test ends, so the same handle is first scheduled
 * for saving and later for discarding, and the session snapshot is scheduled for
 * saving at every flush once a test has failed.
 */
module SnapshotScenarios {
  import opened Wrappers
  import opened Plugin
  import opened TwoSnapshots

  const SessionArtifact := "session"

  /** The outer keys and the snapshot names of the run are pairwise distinct. */
  lemma NamesDistinct()
    ensures FromTest != FromSession
    ensures BeforeEachSnapshot != AfterEachSnapshot && BeforeEachSnapshot != SessionArtifact && AfterEachSnapshot != SessionArtifact
    ensures BeforeEachSnapshot !in {FromTest, FromSession} && AfterEachSnapshot !in {FromTest, FromSession}
    ensures SessionArtifact !in {FromTest, FromSession}
  {
    assert FromTest[4] != FromSession[4];
    assert |BeforeEachSnapshot| != |AfterEachSnapshot| && |BeforeEachSnapshot| != |SessionArtifact|;
    assert AfterEachSnapshot[0] != SessionArtifact[0];
    assert BeforeEachSnapshot[0] != FromTest[0] && BeforeEachSnapshot[0] != FromSession[0];
    assert AfterEachSnapshot[0] != FromTest[0] && AfterEachSnapshot[0] != FromSession[0];
    assert SessionArtifact[0] != FromTest[0] && SessionArtifact[0] != FromSession[0];
  }

  /** A pool with no snapshot named after an outer key loses nothing when dispatched. */
  lemma DrainedKeepsAll(s: Pools, where: string)
    requires where in s
    requires forall n :: n in s[where] ==> n !in s
    ensures Drained(s, where) == s
  {
  }

  /** A dispatch of a one-entry pool queues exactly that entry's task. */
  lemma {:induction false} DispatchOfOne(added: seq<Task>, pool: Pool, d: Disposition, a: string)
    requires Dispatches(added, pool, d) && pool.Keys == {a}
    ensures added == [TaskFor(d, a, pool[a])]
  {
    assert |added| == 1;
    assert added[0].name in {a};
  }

  /** A dispatch of a two-entry pool queues exactly those entries' tasks, in some order. */
  lemma {:induction false} DispatchOfTwo(added: seq<Task>, pool: Pool, d: Disposition, a: string, b: string)
    requires Dispatches(added, pool, d) && pool.Keys == {a, b} && a != b
    ensures multiset(added) == multiset{TaskFor(d, a, pool[a]), TaskFor(d, b, pool[b])}
  {
    DispatchCoversPool(added, pool, d);
    assert |{a, b}| == 2;
    assert |added| == 2;
    assert added[0].name in {a, b} && added[1].name in {a, b} && added[0].name != added[1].name;
    assert added == [added[0], added[1]];
    if added[0].name == a {
      assert added == [TaskFor(d, a, pool[a]), TaskFor(d, b, pool[b])];
    } else {
      assert added == [TaskFor(d, b, pool[b]), TaskFor(d, a, pool[a])];
    }
  }

  /** The tasks that one flush of a session pool holding only `session := h` queues after `q`. */
  lemma {:induction false} SessionFlushOfOne(s: Pools, q: seq<Task>, s': Pools, q': seq<Task>, h: Handle)
    requires FromSession in s && s[FromSession] == map[SessionArtifact := h] && SessionArtifact !in s
    requires Flushed(Keep, None, s, q, s', q')
    ensures s' == s && q' == q + [Save(SessionArtifact, h, None)]
  {
    DrainedKeepsAll(s, FromSession);
    DispatchOfOne(q'[|q|..], s[FromSession], Saving(None), SessionArtifact);
    assert q' == q'[..|q|] + q'[|q|..];
  }

  /** The session pool of the run: the external "session" artifact, handle 0. */
  function SessionPool(): Pool
  {
    map[SessionArtifact := Handle(0)]
  }

  function TestAndSession(test: Pool): Pools
  {
    map[FromTest := test, FromSession := SessionPool()]
  }

  /** Registering into the test pool of a run's pools changes only the test pool. */
  lemma RegisteredInTest(test: Pool, name: string, h: Handle)
    ensures Registered(TestAndSession(test), FromTest, name, h) == TestAndSession(test[name := h])
  {
    NamesDistinct();
  }

  /** Dispatching either pool of a run's pools removes nothing when no snapshot is named after a pool. */
  lemma DrainedRun(test: Pool, where: string)
    requires where == FromTest || where == FromSession
    requires FromTest !in test && FromSession !in test
    ensures Drained(TestAndSession(test), where) == TestAndSession(test)
  {
    NamesDistinct();
    DrainedKeepsAll(TestAndSession(test), where);
  }

  /** A test pool holding the two automatic snapshots. */
  lemma BothSnapshots(b: Handle, a: Handle)
    ensures var test := map[BeforeEachSnapshot := b, AfterEachSnapshot := a];
            test.Keys == {BeforeEachSnapshot, AfterEachSnapshot} && |test.Keys| == 2
            && FromTest !in test && FromSession !in test
  {
    NamesDistinct();
  }

  const SessionSave := Save(SessionArtifact, Handle(0), None)

  /** The run's settings, which no hook of the run changes. */
  ghost predicate Running(p: TwoSnapshotsPerTestPlugin)
    reads p, p.base
  {
    && p.Valid() && p.base.enabled && p.base.keepOnlyFailedTestsArtifacts
    && !p.base.terminated && p.shouldTakeAutomaticSnapshots
  }

  /** After a failure the session snapshot is saved again, then "beforeEach" `h` replaces the test pool's entry. */
  lemma {:induction false} BegunAfterFailure(s0: Pools, b: Handle, a: Handle, h: Handle,
                                             q0: seq<Task>, t0: set<Handle>,
                                             s: Pools, q: seq<Task>, t: set<Handle>, r: Outcome<HookError>)
    requires s0 == TestAndSession(map[BeforeEachSnapshot := b, AfterEachSnapshot := a])
    requires !FlushFails(Keep, s0) ==>
               && Flushed(Keep, None, s0, q0, AfterFlush(Keep, s0), q)
               && AutoSnapshotResult(true, AfterFlush(Keep, s0), t0, FromTest, BeforeEachSnapshot, h, s, t, r)
    ensures s == TestAndSession(map[BeforeEachSnapshot := h, AfterEachSnapshot := a]) && q == q0 + [SessionSave]
  {
    var test := map[BeforeEachSnapshot := b, AfterEachSnapshot := a];
    NamesDistinct();
    BothSnapshots(b, a);
    DrainedRun(test, FromSession);
    SessionFlushOfOne(TestAndSession(test), q0, AfterFlush(Keep, TestAndSession(test)), q, Handle(0));
    RegisteredInTest(test, BeforeEachSnapshot, h);
    assert test[BeforeEachSnapshot := h] == map[BeforeEachSnapshot := h, AfterEachSnapshot := a];
  }

  /** The run ends after a failure: the session snapshot is saved once more and the pools stay. */
  lemma {:induction false} RunEnded(b: Handle, a: Handle, q0: seq<Task>, s: Pools, q: seq<Task>, r: Outcome<HookError>)
    requires FlushOutcome(Keep, None, TestAndSession(map[BeforeEachSnapshot := b, AfterEachSnapshot := a]), q0, s, q, r)
    ensures r == Pass && s == TestAndSession(map[BeforeEachSnapshot := b, AfterEachSnapshot := a])
    ensures q == q0 + [SessionSave]
  {
    var test := map[BeforeEachSnapshot := b, AfterEachSnapshot := a];
    NamesDistinct();
    BothSnapshots(b, a);
    DrainedRun(test, FromSession);
    SessionFlushOfOne(TestAndSession(test), q0, s, q, Handle(0));
  }

  /**
   * A test of the run ends with the decision Keep: the test pool (after an
   * "afterEach" snapshot `h` if the test is kept) is dispatched, then the session
   * snapshot is saved; the pools lose nothing.
   */
  lemma {:induction false} TestEndedInRun(s: TestSummary, h: Handle, keep: bool, test: Pool, q0: seq<Task>, t0: set<Handle>,
                                          mid: Pools, mq: seq<Task>, s3: Pools, q3: seq<Task>, t3: set<Handle>,
                                          r: Outcome<HookError>)
    requires FromTest !in test && FromSession !in test
    requires TestSettled(s, h, keep, keep, TestAndSession(test), q0, t0, mid, mq, t3)
    requires FlushOutcome(Keep, None, mid, mq, s3, q3, r)
    ensures var test' := if keep then test[AfterEachSnapshot := h] else test;
            && r == Pass && s3 == TestAndSession(test') && q3 == mq + [SessionSave]
            && |mq| == |q0| + |test'.Keys| && mq == q0 + mq[|q0|..]
            && Dispatches(mq[|q0|..], test', if keep then Saving(Some(s)) else Discarding)
  {
    NamesDistinct();
    var test' := if keep then test[AfterEachSnapshot := h] else test;
    if keep {
      RegisteredInTest(test, AfterEachSnapshot, h);
    }
    DrainedRun(test', FromTest);
    SessionFlushOfOne(mid, mq, s3, q3, Handle(0));
    assert mq == mq[..|q0|] + mq[|q0|..];
  }

  /**
   * A kept test ends with the decision Keep: "afterEach" `h` joins the test pool,
   * both snapshots are saved with the test's summary, and the session snapshot is saved.
   */
  lemma {:induction false} KeptTestEnded(s: TestSummary, b: Handle, h: Handle, q0: seq<Task>, t0: set<Handle>,
                                         mid: Pools, mq: seq<Task>, s3: Pools, q3: seq<Task>, t3: set<Handle>,
                                         r: Outcome<HookError>)
    requires TestSettled(s, h, true, true, TestAndSession(map[BeforeEachSnapshot := b]), q0, t0, mid, mq, t3)
    requires FlushOutcome(Keep, None, mid, mq, s3, q3, r)
    ensures r == Pass && s3 == TestAndSession(map[BeforeEachSnapshot := b, AfterEachSnapshot := h])
    ensures |q3| == |q0| + 3
    ensures multiset(q3) == multiset(q0) + multiset{Save(BeforeEachSnapshot, b, Some(s)), Save(AfterEachSnapshot, h, Some(s)), SessionSave}
  {
    NamesDistinct();
    TestEndedInRun(s, h, true, map[BeforeEachSnapshot := b], q0, t0, mid, mq, s3, q3, t3, r);
    BothSnapshots(b, h);
    DispatchOfTwo(mq[|q0|..], map[BeforeEachSnapshot := b, AfterEachSnapshot := h], Saving(Some(s)),
                  BeforeEachSnapshot, AfterEachSnapshot);
  }

  /**
   * A test that is not kept ends with the decision Keep: every test-pool entry is
   * discarded and the session snapshot is saved; the pools stay as they were.
   */
  lemma {:induction false} DroppedTestEnded(s: TestSummary, b: Handle, a: Handle, h: Handle, q0: seq<Task>, t0: set<Handle>,
                                            mid: Pools, mq: seq<Task>, s3: Pools, q3: seq<Task>, t3: set<Handle>,
                                            r: Outcome<HookError>)
    requires TestSettled(s, h, false, false, TestAndSession(map[BeforeEachSnapshot := b, AfterEachSnapshot := a]),
                         q0, t0, mid, mq, t3)
    requires FlushOutcome(Keep, None, mid, mq, s3, q3, r)
    ensures r == Pass && s3 == TestAndSession(map[BeforeEachSnapshot := b, AfterEachSnapshot := a])
    ensures |q3| == |q0| + 3
    ensures multiset(q3) == multiset(q0) + multiset{Task.Discard(BeforeEachSnapshot, b), Task.Discard(AfterEachSnapshot, a), SessionSave}
  {
    BothSnapshots(b, a);
    TestEndedInRun(s, h, false, map[BeforeEachSnapshot := b, AfterEachSnapshot := a], q0, t0, mid, mq, s3, q3, t3, r);
    DispatchOfTwo(mq[|q0|..], map[BeforeEachSnapshot := b, AfterEachSnapshot := a], Discarding,
                  BeforeEachSnapshot, AfterEachSnapshot);
  }

  /** A test starts before any test failed: the session flush is deferred, "beforeEach" goes to the test pool. */
  method BeginFirstTest(p: TwoSnapshotsPerTestPlugin, t: TestSummary, h: Handle)
    requires Running(p) && !p.base.hasFailingTests && !p.base.finishedTests
    requires p.snapshots == TestAndSession(map[])
    modifies p`snapshots, p`pending, p`everTracked, p.base`context
    ensures Running(p) && p.pending == old(p.pending)
    ensures p.snapshots == TestAndSession(map[BeforeEachSnapshot := h])
  {
    var r := p.OnBeforeEach(t, h);
    RegisteredInTest(map[], BeforeEachSnapshot, h);
  }

  /** The end of a failing test, as `KeptTestEnded` describes it. */
  method EndFailingTest(p: TwoSnapshotsPerTestPlugin, t: TestSummary, b: Handle, h: Handle)
    requires Running(p) && t.status == FailedStatus
    requires p.snapshots == TestAndSession(map[BeforeEachSnapshot := b])
    modifies p`snapshots, p`pending, p`everTracked, p.base`context, p.base`hasFailingTests
    ensures Running(p) && p.base.hasFailingTests
    ensures p.snapshots == TestAndSession(map[BeforeEachSnapshot := b, AfterEachSnapshot := h])
    ensures |p.pending| == |old(p.pending)| + 3
    ensures multiset(p.pending) == multiset(old(p.pending))
              + multiset{Save(BeforeEachSnapshot, b, Some(t)), Save(AfterEachSnapshot, h, Some(t)), SessionSave}
  {
    var r, mid, mq := p.OnAfterEach(t, h);
    KeptTestEnded(t, b, h, old(p.pending), old(p.everTracked), mid, mq, p.snapshots, p.pending, p.everTracked, r);
  }

  /** The start of a test after a failure, as `BegunAfterFailure` describes it. */
  method BeginTestAfterFailure(p: TwoSnapshotsPerTestPlugin, t: TestSummary, b: Handle, a: Handle, h: Handle)
    requires Running(p) && p.base.hasFailingTests
    requires p.snapshots == TestAndSession(map[BeforeEachSnapshot := b, AfterEachSnapshot := a])
    modifies p`snapshots, p`pending, p`everTracked, p.base`context
    ensures Running(p)
    ensures p.snapshots == TestAndSession(map[BeforeEachSnapshot := h, AfterEachSnapshot := a])
    ensures p.pending == old(p.pending) + [SessionSave]
  {
    var r := p.OnBeforeEach(t, h);
    BegunAfterFailure(old(p.snapshots), b, a, h, old(p.pending), old(p.everTracked), p.snapshots, p.pending, p.everTracked, r);
  }

  /** The end of a passing test after a failure, as `DroppedTestEnded` describes it. */
  method EndPassingTestAfterFailure(p: TwoSnapshotsPerTestPlugin, t: TestSummary, b: Handle, a: Handle, h: Handle)
    requires Running(p) && p.base.hasFailingTests && t.status != FailedStatus
    requires p.snapshots == TestAndSession(map[BeforeEachSnapshot := b, AfterEachSnapshot := a])
    modifies p`snapshots, p`pending, p`everTracked, p.base`context, p.base`hasFailingTests
    ensures Running(p) && p.base.hasFailingTests
    ensures p.snapshots == old(p.snapshots)
    ensures |p.pending| == |old(p.pending)| + 3
    ensures multiset(p.pending) == multiset(old(p.pending))
              + multiset{Task.Discard(BeforeEachSnapshot, b), Task.Discard(AfterEachSnapshot, a), SessionSave}
  {
    var r, mid, mq := p.OnAfterEach(t, h);
    DroppedTestEnded(t, b, a, h, old(p.pending), old(p.everTracked), mid, mq, p.snapshots, p.pending, p.everTracked, r);
  }

  /** The run ends after a failure: the session snapshot is saved once more. */
  method EndRunAfterFailure(p: TwoSnapshotsPerTestPlugin, b: Handle, a: Handle)
    requires Running(p) && p.base.hasFailingTests
    requires p.snapshots == TestAndSession(map[BeforeEachSnapshot := b, AfterEachSnapshot := a])
    modifies p`snapshots, p`pending, p.base`context, p.base`finishedTests, p.base`warnings
    ensures Running(p)
    ensures p.snapshots == old(p.snapshots) && p.pending == old(p.pending) + [SessionSave]
  {
    var r := p.OnAfterAll();
    RunEnded(b, a, old(p.pending), p.snapshots, p.pending, r);
  }

  /**
   * A new plugin, enabled and keeping only failed tests' artifacts, after the run
   * started and an external "session" artifact (handle 0) went to the session pool.
   */
  method StartRun() returns (p: TwoSnapshotsPerTestPlugin)
    ensures fresh(p) && fresh(p.base)
    ensures Running(p) && !p.base.hasFailingTests && !p.base.finishedTests
    ensures p.snapshots == TestAndSession(map[]) && p.pending == []
  {
    p := new TwoSnapshotsPerTestPlugin();
    p.base.enabled := true;
    p.base.keepOnlyFailedTestsArtifacts := true;
    p.base.OnBeforeAll();
    var r := p.OnCreateExternalArtifact(ExternalArtifactEvent(SessionArtifact, Some(Handle(0))));
    NamesDistinct();
    assert p.snapshots == TestAndSession(map[]);
  }

  /**
   * With the plugin enabled and keeping only failed tests' artifacts: an external
   * "session" artifact (handle 0), a failing test (handles 1 and 2 for its two
   * snapshots), a passing test (handles 3 and 4), then the end of the run.
   */
  method FailingThenPassingRun() returns (tasks: seq<Task>, pools: Pools)
    ensures |tasks| == 8
    ensures var failed := Some(TestSummary("first", FailedStatus));
            multiset(tasks) == multiset{
              Save(BeforeEachSnapshot, Handle(1), failed), Save(AfterEachSnapshot, Handle(2), failed),
              Task.Discard(BeforeEachSnapshot, Handle(3)), Task.Discard(AfterEachSnapshot, Handle(2)),
              SessionSave, SessionSave, SessionSave, SessionSave}
    ensures Save(AfterEachSnapshot, Handle(2), Some(TestSummary("first", FailedStatus))) in tasks
    ensures Task.Discard(AfterEachSnapshot, Handle(2)) in tasks
    ensures pools == TestAndSession(map[BeforeEachSnapshot := Handle(3), AfterEachSnapshot := Handle(2)])
  {
    var h1, h2, h3 := Handle(1), Handle(2), Handle(3);
    var p := StartRun();
    BeginFirstTest(p, TestSummary("first", "running"), h1);
    EndFailingTest(p, TestSummary("first", FailedStatus), h1, h2);
    BeginTestAfterFailure(p, TestSummary("second", "running"), h1, h2, h3);
    EndPassingTestAfterFailure(p, TestSummary("second", "passed"), h3, h2, Handle(4));
    EndRunAfterFailure(p, h3, h2);
    tasks, pools := p.pending, p.snapshots;
  }
}
