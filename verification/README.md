# Detox artifact plugins: lifecycle and two-snapshot retention

Detox records artifacts of an end-to-end test run: logs, screenshots, videos and
similar. Each kind of artifact is handled by a plugin. This project models the
lifecycle core that every plugin shares, the "two snapshots per test" plugin
template, and the way the default artifacts root directory of a run is named.

- `artifact_plugin.dfy` (module `Plugin`): the base `ArtifactPlugin` class.
  - Its lifecycle hooks merge event fields into the plugin's `context`.
  - It latches whether any test failed and whether the run finished.
  - It answers the two retention questions. `ShouldKeepArtifactOfSession` is
    three-valued: `Keep`, `Discard` or `Deferred` (JavaScript's `true`, `false`
    and `undefined`). `ShouldKeepArtifactOfTest` answers keep or not.
  - `disable` turns the plugin off and logs a warning.
  - `onTerminate` disables the plugin and turns most hooks into no-ops. The
    model expresses this as a `terminated` flag that those hooks check.
- `two_snapshots_per_test_plugin.dfy` (module `TwoSnapshots`): the
  `TwoSnapshotsPerTestPlugin` class. It wraps a base plugin (`base`) and keeps
  the `snapshots` object, which has two pools, `fromTest` and `fromSession`.
  - When the plugin is enabled and automatic snapshots are on, it takes a
    "beforeEach" snapshot when a test starts. When the test ends it takes an
    "afterEach" snapshot if, in addition, the test's artifacts are kept.
  - It hands the pooled snapshots to the idle-task scheduler to be saved or
    discarded. The model records each callback it hands over as a `Task`,
    appended to the `pending` sequence. The handles passed to `trackArtifact` are
    the ghost set `everTracked`. It only grows, because the idle callbacks that
    untrack handles are not run. `Valid()` says every pooled handle was passed to
    `trackArtifact` at some time.
  - A hook that throws is a `Fail` outcome.
- `artifacts_root_dirpath.dfy` (module `ArtifactsRoot`): builds the default
  artifacts root. A location that ends with a separator is used as it is.
  Otherwise the root is `<location>/<configuration>.<timestamp>`.
- `snapshot_scenarios.dfy` (module `SnapshotScenarios`): one whole run of the
  two-snapshot plugin, driven through its hooks: a failing test, then a passing
  test, with `keepOnlyFailedTestsArtifacts` on. Its contract lists every task the
  run schedules and the pools the run leaves behind.
- `wrappers.dfy` (module `Wrappers`): `Option` and `Outcome`.

## Model

| member | source | states |
|---|---|---|
| Plugin.ArtifactPlugin.constructor | detox/src/artifacts/templates/plugin/ArtifactPlugin.js:12-21 | A new plugin is disabled and keeps all tests' artifacts. Its priority is 16, its disable reason empty, no test has failed, the run has not finished, the context is empty and no warning has been logged. |
| Plugin.ArtifactPlugin.Disable | detox/src/artifacts/templates/plugin/ArtifactPlugin.js:27-35 | Afterwards the plugin is disabled. On an already disabled plugin it keeps the first reason and logs nothing. On an enabled plugin it records the new reason and logs exactly one warning, or none when the reason is empty. |
| Plugin.ArtifactPlugin.OnBeforeLaunchApp | detox/src/artifacts/templates/plugin/ArtifactPlugin.js:49-56 | Sets bundleId, deviceId and launchArgs from the event and clears pid (NaN). Every other context field is kept. After termination it does nothing. |
| Plugin.ArtifactPlugin.OnLaunchApp | detox/src/artifacts/templates/plugin/ArtifactPlugin.js:72-79 | Sets bundleId, deviceId, launchArgs and pid from the event and keeps the rest of the context. After termination it does nothing. |
| Plugin.ArtifactPlugin.OnBootDevice | detox/src/artifacts/templates/plugin/ArtifactPlugin.js:91-97 | Sets deviceId, sets bundleId to the empty string and clears pid. Launch args and test summary are kept. After termination it does nothing. |
| Plugin.ArtifactPlugin.OnBeforeTerminateApp | detox/src/artifacts/templates/plugin/ArtifactPlugin.js:109-114 | Sets deviceId and bundleId and keeps the rest of the context. After termination it does nothing. |
| Plugin.ArtifactPlugin.OnBeforeUninstallApp | detox/src/artifacts/templates/plugin/ArtifactPlugin.js:126-131 | Sets deviceId and bundleId and keeps the rest of the context. `onTerminate` does not replace this hook, so it does this even after termination. |
| Plugin.ArtifactPlugin.OnBeforeShutdownDevice | detox/src/artifacts/templates/plugin/ArtifactPlugin.js:142-146 | Sets only deviceId. After termination it does nothing. |
| Plugin.ArtifactPlugin.OnShutdownDevice | detox/src/artifacts/templates/plugin/ArtifactPlugin.js:157-163 | Sets deviceId, sets bundleId to the empty string and clears pid. After termination it does nothing. |
| Plugin.ArtifactPlugin.OnCreateExternalArtifact | detox/src/artifacts/templates/plugin/ArtifactPlugin.js:176 | The base hook ignores the event and changes nothing in the plugin. |
| Plugin.ArtifactPlugin.OnBeforeAll | detox/src/artifacts/templates/plugin/ArtifactPlugin.js:185-189 | Clears the test summary and resets the failure and finished flags. Nothing else in the context changes. After termination it does nothing. |
| Plugin.ArtifactPlugin.OnBeforeEach | detox/src/artifacts/templates/plugin/ArtifactPlugin.js:199-201 | Makes the given test the current test summary. After termination it does nothing. |
| Plugin.ArtifactPlugin.OnAfterEach | detox/src/artifacts/templates/plugin/ArtifactPlugin.js:209-215 | Makes the finished test current. The failure flag becomes "was set, or this test failed", so once set it is never cleared. After termination it does nothing. |
| Plugin.ArtifactPlugin.OnAfterAll | detox/src/artifacts/templates/plugin/ArtifactPlugin.js:224-228 | Clears the test summary, marks the run finished and logs the disable warning if one is due. Afterwards the session decision is never Deferred. After termination it does nothing. |
| Plugin.ArtifactPlugin.OnTerminate | detox/src/artifacts/templates/plugin/ArtifactPlugin.js:237-252 | The first call disables the plugin with the termination reason, logging a warning if it was enabled. Every session decision is then Discard and no test is kept. A second call changes nothing. |
| Plugin.ArtifactPlugin.LogDisableWarning | detox/src/artifacts/templates/plugin/ArtifactPlugin.js:254-258 | Logs one warning carrying the reason exactly when the plugin is disabled and the reason is non-empty. |
| Plugin.ArtifactPlugin.ShouldKeepArtifactOfSession | detox/src/artifacts/templates/plugin/ArtifactPlugin.js:260-278 | Keep if and only if the plugin is enabled and either keeps all artifacts or has seen a failure. Deferred if and only if it is enabled, keeps only failures, has seen none, and the run is not finished. A disabled plugin discards. |
| Plugin.ArtifactPlugin.ShouldKeepArtifactOfTest | detox/src/artifacts/templates/plugin/ArtifactPlugin.js:280-290 | Keep if and only if the plugin is enabled and either keeps all artifacts or the test's status is "failed". |
| TwoSnapshots.PoolFor | detox/src/artifacts/templates/plugin/TwoSnapshotsPerTestPlugin.js:83-85 | A snapshot goes to the test pool exactly when a test summary is current, and to the session pool exactly when none is. |
| TwoSnapshots.Registered | detox/src/artifacts/templates/plugin/TwoSnapshotsPerTestPlugin.js:87 | Registering maps the name to the new handle, replacing any earlier entry. The pool's other entries and every other pool are unchanged. |
| TwoSnapshots.Drained | detox/src/artifacts/templates/plugin/TwoSnapshotsPerTestPlugin.js:95-96 | Dispatching a pool removes exactly those outer keys that equal one of its snapshot names. Everything else is unchanged. In particular the pool itself survives with all its entries, unless one of its snapshots is named after it. |
| TwoSnapshots.DispatchOneMore | detox/src/artifacts/templates/plugin/TwoSnapshotsPerTestPlugin.js:95-103 | One loop iteration, deleting one key and queueing that entry's task, keeps the dispatch invariant. The invariant says the tasks queued so far are one per visited entry and nothing else. |
| TwoSnapshots.DispatchFinish | detox/src/artifacts/templates/plugin/TwoSnapshotsPerTestPlugin.js:91-104 | When the loop ends, the queue has gained exactly one task per pool entry, the outer mapping is the drained one, and every handle still pooled was passed to `trackArtifact` at some time. |
| TwoSnapshots.DispatchCoversPool | detox/src/artifacts/templates/plugin/TwoSnapshotsPerTestPlugin.js:95-103 | A dispatch queues the task of every entry of the pool, and no two of its tasks are for the same snapshot name. |
| TwoSnapshots.AsWrittenDispatchTwice | detox/src/artifacts/templates/plugin/TwoSnapshotsPerTestPlugin.js:93-110 | Take a pool with no snapshot named after a pool. As written, dispatching it leaves the outer mapping unchanged, so a second dispatch queues a task for every entry again. Each handle is handed over twice. |
| TwoSnapshots.DrainedIntended | detox/src/artifacts/templates/plugin/TwoSnapshotsPerTestPlugin.js:93-96 | With the evidently intended `delete snapshots[name]`, dispatching empties the pool and leaves every other pool unchanged. |
| TwoSnapshots.IntendedDispatchOnce | detox/src/artifacts/templates/plugin/TwoSnapshotsPerTestPlugin.js:93-110 | With the intended delete, dispatching the same pool a second time queues nothing and changes nothing, so no handle is dispatched twice. |
| TwoSnapshots.TwoSnapshotsPerTestPlugin.constructor | detox/src/artifacts/templates/plugin/TwoSnapshotsPerTestPlugin.js:7-15 | The wrapped base plugin starts in its initial state. Automatic snapshots are on, both pools exist and are empty, and nothing is queued or has been tracked. |
| TwoSnapshots.TwoSnapshotsPerTestPlugin.RegisterSnapshot | detox/src/artifacts/templates/plugin/TwoSnapshotsPerTestPlugin.js:82-89 | If the pool of the current scope exists, the handle is registered there and passed to `trackArtifact`. Otherwise the hook fails with a TypeError and nothing changes. |
| TwoSnapshots.TwoSnapshotsPerTestPlugin.TakeSnapshot | detox/src/artifacts/templates/plugin/TwoSnapshotsPerTestPlugin.js:74-80 | The fresh handle is registered under the name, as RegisterSnapshot states. |
| TwoSnapshots.TwoSnapshotsPerTestPlugin.TakeAutomaticSnapshot | detox/src/artifacts/templates/plugin/TwoSnapshotsPerTestPlugin.js:68-72 | Takes the snapshot only when the plugin is enabled and automatic snapshots are on. Otherwise it passes and changes nothing. |
| TwoSnapshots.TwoSnapshotsPerTestPlugin.StartSavingSnapshots | detox/src/artifacts/templates/plugin/TwoSnapshotsPerTestPlugin.js:91-104 | If the pool is missing, it fails and changes nothing. Otherwise it appends exactly one save task per pool entry, each carrying the current test summary, and removes the matching outer keys. The pools themselves keep their entries. |
| TwoSnapshots.TwoSnapshotsPerTestPlugin.StartDiscardingSnapshots | detox/src/artifacts/templates/plugin/TwoSnapshotsPerTestPlugin.js:106-117 | Like StartSavingSnapshots, but it appends one discard task per pool entry. |
| TwoSnapshots.TwoSnapshotsPerTestPlugin.FlushSessionSnapshots | detox/src/artifacts/templates/plugin/TwoSnapshotsPerTestPlugin.js:119-127 | Keep saves the session pool, Discard discards it, and Deferred changes nothing. It fails, changing nothing, exactly when the decision is not Deferred and the session pool is missing. |
| TwoSnapshots.TwoSnapshotsPerTestPlugin.OnBeforeEach | detox/src/artifacts/templates/plugin/TwoSnapshotsPerTestPlugin.js:17-23 | First it flushes the session pool with no test current. If that fails, the summary stays cleared. Otherwise the test becomes current. Then, when the plugin is enabled and automatic snapshots are on, the "beforeEach" snapshot goes to the test pool. After termination it does nothing. |
| TwoSnapshots.TwoSnapshotsPerTestPlugin.OnAfterEach | detox/src/artifacts/templates/plugin/TwoSnapshotsPerTestPlugin.js:25-37 | It latches the failure flag; when the plugin is enabled, a failed test makes the session decision Keep. If the test pool is missing, it fails with the test still current. Otherwise it settles the test pool, clears the summary and flushes the session pool. After termination it does nothing. |
| TwoSnapshots.TwoSnapshotsPerTestPlugin.SettleTestSnapshots | detox/src/artifacts/templates/plugin/TwoSnapshotsPerTestPlugin.js:28-33 | A kept test gets the "afterEach" snapshot, when automatic snapshots are on, and then every test-pool entry is saved with the test's summary. Otherwise every test-pool entry is discarded. It fails exactly when the test pool is missing. |
| TwoSnapshots.TwoSnapshotsPerTestPlugin.OnAfterAll | detox/src/artifacts/templates/plugin/TwoSnapshotsPerTestPlugin.js:39-42 | Concludes the run as the base hook does, then flushes the session pool under a decision that is now Keep or Discard, never Deferred. After termination it does nothing. |
| TwoSnapshots.TwoSnapshotsPerTestPlugin.OnCreateExternalArtifact | detox/src/artifacts/templates/plugin/TwoSnapshotsPerTestPlugin.js:44-50 | An event without an artifact is rejected and nothing changes. Otherwise the artifact is registered into the pool of the current scope. This hook stays live after termination. |
| SnapshotScenarios.DrainedKeepsAll | detox/src/artifacts/templates/plugin/TwoSnapshotsPerTestPlugin.js:96 | A pool that has no snapshot named after an outer key leaves the outer mapping unchanged when it is dispatched. |
| SnapshotScenarios.DispatchOfTwo | detox/src/artifacts/templates/plugin/TwoSnapshotsPerTestPlugin.js:95-103 | Dispatching a two-entry pool queues exactly those two entries' tasks, in some order. |
| SnapshotScenarios.SessionFlushOfOne | detox/src/artifacts/templates/plugin/TwoSnapshotsPerTestPlugin.js:119-122 | A saving flush of a one-entry session pool queues exactly that save, which carries no summary, and leaves the pools unchanged. |
| SnapshotScenarios.BegunAfterFailure | detox/src/artifacts/templates/plugin/TwoSnapshotsPerTestPlugin.js:17-23 | After a failure, a test start saves the session snapshot again and replaces the "beforeEach" entry. The earlier test's "afterEach" entry stays in the test pool. |
| SnapshotScenarios.TestEndedInRun | detox/src/artifacts/templates/plugin/TwoSnapshotsPerTestPlugin.js:25-37 | When the session decision is Keep, a test end dispatches the test pool, which includes "afterEach" if the test is kept, and then saves the session snapshot. No pool loses an entry. |
| SnapshotScenarios.KeptTestEnded | detox/src/artifacts/templates/plugin/TwoSnapshotsPerTestPlugin.js:25-37 | A kept test's end queues saves of both of its snapshots, with its summary, plus one session save. |
| SnapshotScenarios.DroppedTestEnded | detox/src/artifacts/templates/plugin/TwoSnapshotsPerTestPlugin.js:25-37 | The end of a test that is not kept queues discards of both test-pool entries plus one session save. The pools are unchanged. |
| SnapshotScenarios.RunEnded | detox/src/artifacts/templates/plugin/TwoSnapshotsPerTestPlugin.js:39-42 | After a failure, the end of the run saves the session snapshot once more and leaves the pools unchanged. |
| SnapshotScenarios.BeginFirstTest | detox/src/artifacts/templates/plugin/TwoSnapshotsPerTestPlugin.js:17-23 | Before any failure the session flush is deferred, so nothing is queued. The "beforeEach" snapshot goes to the test pool. |
| SnapshotScenarios.EndFailingTest | detox/src/artifacts/templates/plugin/TwoSnapshotsPerTestPlugin.js:25-37 | A failing test's end latches the failure. It saves both snapshots with the failed summary and saves the session snapshot. |
| SnapshotScenarios.BeginTestAfterFailure | detox/src/artifacts/templates/plugin/TwoSnapshotsPerTestPlugin.js:17-23 | A test start after a failure queues exactly one session save. |
| SnapshotScenarios.EndPassingTestAfterFailure | detox/src/artifacts/templates/plugin/TwoSnapshotsPerTestPlugin.js:25-37 | A passing test's end after a failure discards both test-pool entries, including the failed test's "afterEach" handle, and saves the session snapshot. |
| SnapshotScenarios.EndRunAfterFailure | detox/src/artifacts/templates/plugin/TwoSnapshotsPerTestPlugin.js:39-42 | After a failure, the end of the run queues one more session save. |
| SnapshotScenarios.FailingThenPassingRun | detox/src/artifacts/templates/plugin/TwoSnapshotsPerTestPlugin.js:17-42 | The run covers a session artifact, a failing test and a passing test. It queues exactly eight tasks: two saves of the failed test's snapshots, two discards and four session saves. Handle 2 is both saved and later discarded, and both pools keep their entries. |
| ArtifactsRoot.Subdir | detox/src/artifacts/utils/buildDefaultArtifactsRootDirpath.js:10 | The subdirectory is the configuration name, a '.', then the timestamp. |
| ArtifactsRoot.Join | detox/src/artifacts/utils/buildDefaultArtifactsRootDirpath.js:11 | Joining onto an empty directory gives the name. Otherwise the result is the directory, one '/', then the name. |
| ArtifactsRoot.BuildDefaultRootForArtifactsRootDirpath | detox/src/artifacts/utils/buildDefaultArtifactsRootDirpath.js:4-12 | A location ending in '/' or '\\' is returned verbatim. Any other location gives a different root: the location, '/', then the subdirectory. An empty location gives the subdirectory alone. |
| ArtifactsRoot.RootDecomposes | detox/src/artifacts/utils/buildDefaultArtifactsRootDirpath.js:10-11 | The location, the configuration and the timestamp can be read back from a root that was built. That root ends with a separator exactly when the timestamp does. |
| ArtifactsRoot.DefaultLocationExample | detox/src/configuration.test.js:38-46 | The default location "artifacts" with configuration "abracadabra" gives "artifacts/abracadabra.<timestamp>". |
| ArtifactsRoot.OtherPlaceExample | detox/src/configuration.test.js:87-103 | The location "otherPlace" gives "otherPlace/abracadabra.<timestamp>". |
| ArtifactsRoot.TrailingSlashExample | detox/src/configuration.test.js:169-181 | The location ".artifacts/" is used verbatim whatever the configuration and the timestamp. |

## Notes on the code as written

The model follows the code in each of these points.

- **Dispatching does not empty the pool.** `_startSavingSnapshots` and
  `_startDiscardingSnapshots` bind the pool as `snapshots` at the start
  (TwoSnapshotsPerTestPlugin.js:93 and 107). The loop then deletes
  `this.snapshots[name]` (:96 and :110). That is a key of the outer `snapshots`
  object, not of the pool, so the evident intent was `delete snapshots[name]`.
  - As written (`TwoSnapshots.Drained`), pools keep their entries. A snapshot
    named `fromTest` or `fromSession` removes that pool, and later hooks that
    use that pool then fail (`HookError.UndefinedPool`). A deferred session flush does not
    use the pool, so it does not fail.
  - `TwoSnapshots.AsWrittenDispatchTwice` proves that dispatching an intact pool
    twice hands every handle over twice. `SnapshotScenarios.FailingThenPassingRun`
    shows a concrete case: the failed test's "afterEach" handle is saved and later
    discarded, and the session snapshot is saved at every flush after the failure.
  - The intended behaviour is `TwoSnapshots.DrainedIntended`, which empties the
    pool. `TwoSnapshots.IntendedDispatchOnce` proves that a second dispatch then
    queues nothing. The plugin class itself keeps the code's behaviour.
- **After a failure, every session flush saves while the plugin stays
  enabled.** `_hasFailingTests` is set on a failed test (ArtifactPlugin.js:212-214) and is reset only by `onBeforeAll`
  (:187). From the first failure until the next `onBeforeAll`, the session
  decision is Keep while the plugin stays enabled. A disabled plugin's decision is
  Discard whatever the flag holds (:261-262).
- **No warning for an empty reason.** `disable` logs its warning only when the
  reason is non-empty (ArtifactPlugin.js:255).
- **The disable warning is logged twice.** It is logged once by `disable` (:34)
  and again by `onAfterAll` (:227) if the plugin is still disabled then. The
  exception is a run in which `onTerminate` runs before `onAfterAll`: it turns
  `onAfterAll` into a no-op (:251), so only `disable` logs the warning. The contracts of `Disable` and
  `OnAfterAll` each append it to `warnings`.

## Left out

- Logging is not modelled as output. The disable warnings are only recorded in
  the ghost sequence `warnings`.
- Running the idle callbacks is not modelled: path preparation, `save`,
  `discard` and `untrackArtifact`. The model only records which callbacks were
  scheduled (`pending`), so `everTracked` holds every handle ever tracked rather
  than the handles tracked now.
- `preparePathForSnapshot` and `createTestArtifact` are abstract hooks of
  subclasses. The fresh handle is a parameter of the hooks that take snapshots.
- The artifact's own `start()` and `stop()` calls in `_takeSnapshot` are not
  modelled, and neither are the failures they might raise.
- `onUserAction` is not modelled. It is a hook of subclasses that `onTerminate`
  replaces with a no-op.
- The `name` getter and the `api` object are not modelled. The `api` object
  appears only through `pending` and `everTracked`.
- Hooks are modelled as running one after another. Interleavings of their
  `await` points with other asynchronous work are not modelled.
- `onTerminate` replaces hook methods on the instance with no-ops. The model does
  not replace methods. Instead each replaced hook checks a `terminated` flag and
  returns early.
- Launch args are stored as a value, whereas the source stores the mutable object
  it was given. Aliasing is not modelled.
- `pid: NaN` and an absent pid are the same `None`.
- The `coldBoot` field of the boot event is not modelled, because no hook reads
  it.
- TwoSnapshots.TwoSnapshotsPerTestPlugin.StartSavingSnapshots: queues the tasks in
  some order of the pool's entries, not in `Object.entries` insertion order.
- TwoSnapshots.TwoSnapshotsPerTestPlugin.StartDiscardingSnapshots: queues the
  tasks in some order of the pool's entries, not in `Object.entries` insertion
  order.
- ArtifactsRoot.BuildDefaultRootForArtifactsRootDirpath: the timestamp is a
  parameter. It is not read from `DETOX_START_TIMESTAMP` or the clock, and the
  formatting done by `getTimeStampString` is not part of this model.
- ArtifactsRoot.Join: models `path.join` for plain segments with POSIX
  separators only. Normalisation of `.`, `..`, doubled separators and Windows
  separators is not modelled.
- The configuration composer (`composeArtifactsConfig`, `validateSession`) is
  not part of this model. Only its use of the root builder, as shown in
  `configuration.test.js`, is modelled.
