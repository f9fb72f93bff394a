/** Runs of the mirror controller through its lifecycle, showing what the
    handlers' contracts imply for a caller: the latch, remounting, failed
    construction, late events, and the stored-versus-shown asymmetry. */
module Scenarios {
  import opened Wrappers
  import opened Beauty
  import opened Messages
  import opened Negotiation
  import opened Sdk
  import opened Mirror

  /** A second `initAR` within one mount constructs nothing: one session. */
  method DoubleInitWithinOneMount(credentials: Credentials, probe: Probe)
    returns (constructed: nat)
    requires CredentialsPresent(credentials)
    ensures constructed == 1
  {
    var m := new MirrorController();
    m.Mount(credentials, probe, Built);
    m.InitAR(credentials.appId.value, credentials.licenseKey.value,
             credentials.secretKey.value, probe, Built);
    constructed := |m.sessions|;
  }

  /** Mount, cleanup, mount again (the double-invoked effect of React's
      strict mode), each step run to completion: the cleanup clears the
      latch, so each mount constructs its own session and only the second
      is live. */
  method StrictModeRemount(credentials: Credentials, probe: Probe)
    returns (constructed: nat, live: Option<nat>)
    requires CredentialsPresent(credentials)
    ensures constructed == 2 && live == Some(1)
  {
    var m := new MirrorController();
    m.Mount(credentials, probe, Built);
    m.Teardown();
    m.Mount(credentials, probe, Built);
    constructed, live := |m.sessions|, m.arRef;
  }

  /** Missing credentials: the message is set and loading stops, with no
      negotiation, no session and the latch still clear. */
  method WithoutCredentials(credentials: Credentials, probe: Probe, outcome: Construction)
    returns (message: string, loading: bool, latched: bool, constructed: nat)
    requires !CredentialsPresent(credentials)
    ensures message == MissingCredentials && !loading && !latched && constructed == 0
  {
    var m := new MirrorController();
    m.Mount(credentials, probe, outcome);
    message, loading, latched, constructed := m.error, m.isLoading, m.initLatch, |m.sessions|;
  }

  /** A failed construction keeps the latch set, so a later `initAR` in the
      same mount does not retry. */
  method FailedConstructionIsNotRetried(credentials: Credentials, probe: Probe, err: Thrown)
    returns (message: string, constructed: nat)
    requires CredentialsPresent(credentials)
    ensures message == ConstructionErrorMessage(err) && constructed == 0
  {
    var m := new MirrorController();
    m.Mount(credentials, probe, Threw(err));
    m.InitAR(credentials.appId.value, credentials.licenseKey.value,
             credentials.secretKey.value, probe, Built);
    message, constructed := m.error, |m.sessions|;
  }

  /** The constructed session starts from the stored settings divided by
      100 and the negotiated camera, mirrored. */
  method FirstSessionConfig(credentials: Credentials, probe: Probe)
    returns (config: ArSdkConfig)
    requires CredentialsPresent(credentials)
    ensures config.beautify == Scale(Default()) && config.camera.mirror
    ensures Reported(probe) ==>
              config.camera.width == probe.settings.width.value
              && config.camera.height == probe.settings.height.value
    ensures !Reported(probe) ==> config.camera.width == 640 && config.camera.height == 480
  {
    var m := new MirrorController();
    m.Mount(credentials, probe, Built);
    config := m.sessions[0];
  }

  /** Both handlers may run: after an `error` event a `ready` event still
      clears loading and leaves the error message in place. */
  method ReadyAfterError(credentials: Credentials, probe: Probe, e: SdkError, userAgent: string)
    returns (loading: bool, message: string)
    requires CredentialsPresent(credentials)
    ensures !loading && message == SdkErrorMessage(e, userAgent)
  {
    var m := new MirrorController();
    m.Mount(credentials, probe, Built);
    m.OnError(Some(e), userAgent);
    m.OnReady();
    loading, message := m.isLoading, m.error;
  }

  /** Handlers carry no staleness check: an `error` event of a session
      whose mount was torn down still sets the message. Nothing is pushed
      after the teardown. */
  method LateErrorAfterTeardown(credentials: Credentials, probe: Probe, e: SdkError, userAgent: string)
    returns (message: string, pushesAfterTeardown: nat)
    requires CredentialsPresent(credentials)
    ensures message == SdkErrorMessage(e, userAgent) && pushesAfterTeardown == 0
  {
    var m := new MirrorController();
    m.Mount(credentials, probe, Built);
    m.Teardown();
    var before := |m.pushes|;
    m.OnError(Some(e), userAgent);
    var p1 := m.UpdateBeauty(Eye, 45);
    var p2 := m.HandleToggle();
    var p3 := m.HandleReset();
    message, pushesAfterTeardown := m.error, |m.pushes| - before;
  }

  /** Disabling shows zeros but keeps the store: a slider moved while
      disabled pushes nothing, and enabling again pushes the moved value. */
  method MoveWhileDisabled(credentials: Credentials, probe: Probe, key: Slider, value: int)
    returns (off: Option<BeautifyConfig>, moved: Option<BeautifyConfig>, on: Option<BeautifyConfig>)
    requires CredentialsPresent(credentials)
    ensures off == Some(Zeros()) && moved == None
    ensures on == Some(Scale(With(Default(), key, value)))
    ensures on.Some? && Get(on.value, key) == Hundredths(value)
  {
    var m := new MirrorController();
    m.Mount(credentials, probe, Built);
    off := m.HandleToggle();
    moved := m.UpdateBeauty(key, value);
    on := m.HandleToggle();
  }

  /** Reset while disabled restores the default store but pushes nothing:
      the live session keeps showing zeros until the switch is turned on. */
  method ResetWhileDisabled(credentials: Credentials, probe: Probe, key: Slider, value: int)
    returns (pushed: Option<BeautifyConfig>, stored: BeautySettings, shown: BeautifyConfig)
    requires CredentialsPresent(credentials)
    ensures pushed == None && stored == Default() && shown == Zeros()
  {
    var m := new MirrorController();
    m.Mount(credentials, probe, Built);
    var _ := m.UpdateBeauty(key, value);
    var _ := m.HandleToggle();
    pushed := m.HandleReset();
    stored := m.settings;
    shown := LastSent(m.pushes, 0, m.sessions[0].beautify);
  }
}
