/**
 * The base artifact plugin: the lifecycle state machine every artifact plugin
 * inherits. Hooks merge event fields into the plugin's context, track whether a
 * test has failed and whether the run has finished, and answer the two retention
 * questions (keep the artifacts of the session? of this test?).
 */
module Plugin {
  import opened Wrappers

  /** An artifact handle, as an opaque id. */
  datatype Handle = Handle(id: nat)

  /** Launch arguments, a key-value mapping. */
  type LaunchArgs = map<string, string>

  /** What a hook learns about a test; only `status` is ever inspected. */
  datatype TestSummary = TestSummary(title: string, status: string)

  /**
   * The plugin's context record. `None` stands for a key that was never written,
   * for `null`, and (for `pid`) for `NaN`.
   */
  datatype Context = Context(
    deviceId: Option<string>,
    bundleId: Option<string>,
    launchArgs: Option<LaunchArgs>,
    pid: Option<int>,
    testSummary: Option<TestSummary>)

  const EmptyContext := Context(None, None, None, None, None)

  datatype DeviceEvent = DeviceEvent(deviceId: string)
  datatype AppEvent = AppEvent(deviceId: string, bundleId: string)
  datatype BeforeLaunchAppEvent = BeforeLaunchAppEvent(deviceId: string, bundleId: string, launchArgs: LaunchArgs)
  datatype LaunchAppEvent = LaunchAppEvent(deviceId: string, bundleId: string, launchArgs: LaunchArgs, pid: int)
  datatype ExternalArtifactEvent = ExternalArtifactEvent(name: string, artifact: Option<Handle>)

  /** The three answers of `shouldKeepArtifactOfSession`: true, false, undefined. */
  datatype SessionDecision = Keep | Discard | Deferred

  const DefaultPriority := 16
  const FailedStatus := "failed"
  const TerminationReason := "it was terminated by SIGINT or SIGTERM"

  class ArtifactPlugin {
    var enabled: bool
    var keepOnlyFailedTestsArtifacts: bool
    var priority: int
    var disableReason: string
    var hasFailingTests: bool
    var finishedTests: bool
    var context: Context
    /** Set by `OnTerminate`; stands for the hooks it replaces with no-ops. */
    var terminated: bool
    /** The disable warnings logged so far, one reason per warning. */
    ghost var warnings: seq<string>

    constructor ()
      ensures !enabled && !keepOnlyFailedTestsArtifacts && priority == DefaultPriority
      ensures disableReason == "" && !hasFailingTests && !finishedTests
      ensures context == EmptyContext && !terminated && warnings == []
    {
      enabled := false;
      keepOnlyFailedTestsArtifacts := false;
      priority := DefaultPriority;
      disableReason := "";
      hasFailingTests := false;
      finishedTests := false;
      context := EmptyContext;
      terminated := false;
      warnings := [];
    }

    /** A warning is due when the plugin is disabled for a non-empty reason. */
    predicate WarningDue()
      reads this`enabled, this`disableReason
    {
      !enabled && disableReason != ""
    }

    method Disable(reason: string)
      modifies this`enabled, this`disableReason, this`warnings
      ensures !enabled
      ensures !old(enabled) ==> disableReason == old(disableReason) && warnings == old(warnings)
      ensures old(enabled) ==> disableReason == reason
      ensures old(enabled) ==> warnings == old(warnings) + if reason != "" then [reason] else []
    {
      if !enabled {
        return;
      }
      enabled := false;
      disableReason := reason;
      LogDisableWarning();
    }

    method OnBeforeLaunchApp(e: BeforeLaunchAppEvent)
      modifies this`context
      ensures terminated ==> context == old(context)
      ensures !terminated ==> context == old(context).(bundleId := Some(e.bundleId), deviceId := Some(e.deviceId),
                                                        launchArgs := Some(e.launchArgs), pid := None)
    {
      if terminated {
        return;
      }
      context := context.(bundleId := Some(e.bundleId), deviceId := Some(e.deviceId),
                          launchArgs := Some(e.launchArgs), pid := None);
    }

    method OnLaunchApp(e: LaunchAppEvent)
      modifies this`context
      ensures terminated ==> context == old(context)
      ensures !terminated ==> context == old(context).(bundleId := Some(e.bundleId), deviceId := Some(e.deviceId),
                                                        launchArgs := Some(e.launchArgs), pid := Some(e.pid))
    {
      if terminated {
        return;
      }
      context := context.(bundleId := Some(e.bundleId), deviceId := Some(e.deviceId),
                          launchArgs := Some(e.launchArgs), pid := Some(e.pid));
    }

    method OnBootDevice(e: DeviceEvent)
      modifies this`context
      ensures terminated ==> context == old(context)
      ensures !terminated ==> context == old(context).(deviceId := Some(e.deviceId), bundleId := Some(""), pid := None)
    {
      if terminated {
        return;
      }
      context := context.(deviceId := Some(e.deviceId), bundleId := Some(""), pid := None);
    }

    method OnBeforeTerminateApp(e: AppEvent)
      modifies this`context
      ensures terminated ==> context == old(context)
      ensures !terminated ==> context == old(context).(deviceId := Some(e.deviceId), bundleId := Some(e.bundleId))
    {
      if terminated {
        return;
      }
      context := context.(deviceId := Some(e.deviceId), bundleId := Some(e.bundleId));
    }

    /** Not replaced by `OnTerminate`: it keeps updating the context afterwards. */
    method OnBeforeUninstallApp(e: AppEvent)
      modifies this`context
      ensures context == old(context).(deviceId := Some(e.deviceId), bundleId := Some(e.bundleId))
    {
      context := context.(deviceId := Some(e.deviceId), bundleId := Some(e.bundleId));
    }

    method OnBeforeShutdownDevice(e: DeviceEvent)
      modifies this`context
      ensures terminated ==> context == old(context)
      ensures !terminated ==> context == old(context).(deviceId := Some(e.deviceId))
    {
      if terminated {
        return;
      }
      context := context.(deviceId := Some(e.deviceId));
    }

    method OnShutdownDevice(e: DeviceEvent)
      modifies this`context
      ensures terminated ==> context == old(context)
      ensures !terminated ==> context == old(context).(deviceId := Some(e.deviceId), bundleId := Some(""), pid := None)
    {
      if terminated {
        return;
      }
      context := context.(deviceId := Some(e.deviceId), bundleId := Some(""), pid := None);
    }

    /** The base plugin ignores externally created artifacts (and changes nothing). */
    method OnCreateExternalArtifact(e: ExternalArtifactEvent)
      ensures unchanged(this)
    {
    }

    method OnBeforeAll()
      modifies this`context, this`hasFailingTests, this`finishedTests
      ensures terminated ==> context == old(context) && hasFailingTests == old(hasFailingTests)
                             && finishedTests == old(finishedTests)
      ensures !terminated ==> context == old(context).(testSummary := None) && !hasFailingTests && !finishedTests
    {
      if terminated {
        return;
      }
      context := context.(testSummary := None);
      hasFailingTests := false;
      finishedTests := false;
    }

    method OnBeforeEach(s: TestSummary)
      modifies this`context
      ensures terminated ==> context == old(context)
      ensures !terminated ==> context == old(context).(testSummary := Some(s))
    {
      if terminated {
        return;
      }
      context := context.(testSummary := Some(s));
    }

    /** Latches `hasFailingTests` on a failed test; never clears it. */
    method OnAfterEach(s: TestSummary)
      modifies this`context, this`hasFailingTests
      ensures old(hasFailingTests) ==> hasFailingTests
      ensures terminated ==> context == old(context) && hasFailingTests == old(hasFailingTests)
      ensures !terminated ==> context == old(context).(testSummary := Some(s))
      ensures !terminated ==> hasFailingTests == (old(hasFailingTests) || s.status == FailedStatus)
    {
      if terminated {
        return;
      }
      context := context.(testSummary := Some(s));
      if s.status == FailedStatus {
        hasFailingTests := true;
      }
    }

    /** Concludes the run: from here on the session decision is never `Deferred`. */
    method OnAfterAll()
      modifies this`context, this`finishedTests, this`warnings
      ensures terminated ==> context == old(context) && finishedTests == old(finishedTests) && warnings == old(warnings)
      ensures !terminated ==> context == old(context).(testSummary := None) && finishedTests
      ensures !terminated ==> warnings == old(warnings) + if WarningDue() then [disableReason] else []
      ensures !terminated ==> ShouldKeepArtifactOfSession() != Deferred
    {
      if terminated {
        return;
      }
      context := context.(testSummary := None);
      finishedTests := true;
      LogDisableWarning();
    }

    /**
     * The kill switch: disables the plugin and makes every hook except
     * `OnBeforeUninstallApp` and `OnCreateExternalArtifact` a no-op, itself included.
     */
    method OnTerminate()
      modifies this`enabled, this`disableReason, this`warnings, this`terminated
      ensures terminated
      ensures old(terminated) ==> enabled == old(enabled) && disableReason == old(disableReason) && warnings == old(warnings)
      ensures !old(terminated) ==> !enabled
      ensures !old(terminated) && old(enabled) ==>
                disableReason == TerminationReason && warnings == old(warnings) + [TerminationReason]
      ensures !old(terminated) && !old(enabled) ==> disableReason == old(disableReason) && warnings == old(warnings)
      ensures !old(terminated) ==> ShouldKeepArtifactOfSession() == Discard
      ensures !old(terminated) ==> forall s :: !ShouldKeepArtifactOfTest(s)
    {
      if terminated {
        return;
      }
      Disable(TerminationReason);
      terminated := true;
    }

    /** Records a warning exactly when one is due; the warning itself is I/O and is not modelled. */
    method LogDisableWarning()
      modifies this`warnings
      ensures warnings == old(warnings) + if WarningDue() then [disableReason] else []
    {
      if WarningDue() {
        warnings := warnings + [disableReason];
      }
    }

    /**
     * Whether the artifacts of the whole session are kept. `Deferred` (the source's
     * `undefined`) means the answer depends on tests that have not run yet.
     */
    function ShouldKeepArtifactOfSession(): (d: SessionDecision)
      reads this`enabled, this`keepOnlyFailedTestsArtifacts, this`hasFailingTests, this`finishedTests
      ensures !enabled ==> d == Discard
      ensures d == Keep <==> enabled && (!keepOnlyFailedTestsArtifacts || hasFailingTests)
      ensures d == Deferred <==> enabled && keepOnlyFailedTestsArtifacts && !hasFailingTests && !finishedTests
    {
      if !enabled then Discard
      else if !keepOnlyFailedTestsArtifacts then Keep
      else if hasFailingTests then Keep
      else if finishedTests then Discard
      else Deferred
    }

    /** Whether the artifacts of the test summarised by `s` are kept. */
    function ShouldKeepArtifactOfTest(s: TestSummary): (keep: bool)
      reads this`enabled, this`keepOnlyFailedTestsArtifacts
      ensures !enabled ==> !keep
      ensures keep <==> enabled && (!keepOnlyFailedTestsArtifacts || s.status == FailedStatus)
    {
      if !enabled then false
      else if keepOnlyFailedTestsArtifacts && s.status != FailedStatus then false
      else true
    }
  }
}
