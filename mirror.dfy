/** The controller of one mirror view: the refs `initRef` and `arRef`, the
    state `beautySettings`, `isEnabled`, `error` and `isLoading`, the
    mount effect that starts the AR session, its `ready` and `error`
    handlers, the teardown, and the three control-panel handlers. */
module Mirror {
  import opened Wrappers
  import opened Beauty
  import opened Messages
  import opened Negotiation
  import opened Sdk

  /** What `new ArSdk(config)` does: return a session, or throw. */
  datatype Construction = Built | Threw(err: Thrown)

  class MirrorController {
    /** `beautySettings`: slider positions. */
    var settings: BeautySettings
    /** `isEnabled`: the effects switch. */
    var isEnabled: bool
    /** `isLoading`: the spinner. */
    var isLoading: bool
    /** `error`: the message shown to the user, "" for none. */
    var error: string
    /** `initRef.current`: the re-entry latch of `initAR`. */
    var initLatch: bool
    /** `arRef.current`: the live session, as its index in `sessions`. */
    var arRef: Option<nat>
    /** The config of every `ArSdk` constructed, in order. */
    var sessions: seq<ArSdkConfig>
    /** Every `setBeautify` call made, in order. */
    var pushes: seq<Push>
    /** How many sessions existed when the current latch period began. */
    ghost var periodStart: nat

    /** At most one session is constructed per latch period, none while the
        latch is clear, and the session reference, when set, is the one
        constructed in the current period. Pushes go to sessions that exist. */
    ghost predicate Valid()
      reads this
    {
      periodStart <= |sessions| <= periodStart + 1
      && (!initLatch ==> |sessions| == periodStart)
      && (arRef.Some? ==> initLatch && arRef.value == periodStart && |sessions| == periodStart + 1)
      && (forall p :: p in pushes ==> p.session < |sessions|)
    }

    /** What the live session was last told to show. */
    ghost function SessionBeautify(): BeautifyConfig
      reads this
      requires Valid() && arRef.Some?
    {
      LastSent(pushes, arRef.value, sessions[arRef.value].beautify)
    }

    /** The live session shows the effective view of the store. */
    ghost predicate InSync()
      reads this
      requires Valid()
    {
      arRef.Some? ==> SessionBeautify() == Effective(settings, isEnabled)
    }

    /** The first render: default profile, enabled, loading, no error,
        latch clear, no session. */
    constructor ()
      ensures Valid() && InSync()
      ensures settings == Default() && isEnabled && isLoading && error == []
      ensures !initLatch && arRef == None && sessions == [] && pushes == []
    {
      settings := Default();
      isEnabled := true;
      isLoading := true;
      error := [];
      initLatch := false;
      arRef := None;
      sessions := [];
      pushes := [];
      periodStart := 0;
    }

    /** The outcome of `initAR` on the current state. A set latch makes it a
        no-op. Otherwise it sets the latch, negotiates, and either records
        the constructed session as the live one (built from the settings as
        they are now) or, when construction throws, shows the classified
        message and clears loading. It never pushes and never touches the
        store. */
    twostate predicate InitARPost(appId: string, licenseKey: string, secret: string,
                                  probe: Probe, outcome: Construction)
      reads this
    {
      settings == old(settings) && isEnabled == old(isEnabled) && pushes == old(pushes)
      && (old(initLatch) ==>
            initLatch && arRef == old(arRef) && sessions == old(sessions)
            && isLoading == old(isLoading) && error == old(error))
      && (!old(initLatch) ==>
            initLatch
            && match outcome
               case Built =>
                 |sessions| == |old(sessions)| + 1
                 && sessions[..|old(sessions)|] == old(sessions)
                 && BuiltFrom(sessions[|old(sessions)|], appId, licenseKey, secret, probe, old(settings))
                 && arRef == Some(|old(sessions)|)
                 && isLoading == old(isLoading) && error == old(error)
               case Threw(err) =>
                 sessions == old(sessions) && arRef == old(arRef)
                 && error == ConstructionErrorMessage(err) && !isLoading)
    }

    /** `initAR`: latch check, negotiation, construction and handler
        registration. `probe` is what the camera probe yields and `outcome`
        what the SDK constructor does. */
    method InitAR(appId: string, licenseKey: string, secret: string,
                  probe: Probe, outcome: Construction)
      requires Valid()
      modifies this
      ensures Valid()
      ensures InitARPost(appId, licenseKey, secret, probe, outcome)
      ensures old(isEnabled && InSync()) ==> InSync()
    {
      if initLatch {
        return;
      }
      initLatch := true;
      periodStart := |sessions|;

      var cameraWidth, cameraHeight := Negotiate(probe);

      match outcome {
        case Built =>
          var config := ArSdkConfig(
            AuthConfig(appId, licenseKey, secret),
            CameraConfig(cameraWidth, cameraHeight, true),
            LoadingConfig(true, 4),
            Scale(settings));
          sessions := sessions + [config];
          arRef := Some(|sessions| - 1);
          assert sessions[..|old(sessions)|] == old(sessions);
          assert forall p :: p in pushes ==> p.session < |old(sessions)|;
          LastSentOthers([], pushes, |old(sessions)|, config.beautify);
          assert pushes == [] + pushes;
        case Threw(err) =>
          error := ConstructionErrorMessage(err);
          isLoading := false;
      }
    }

    /** The mount effect: without all three credentials it shows the
        configuration message and stops loading, leaving latch, session and
        store untouched; with them it runs `initAR`. */
    method Mount(credentials: Credentials, probe: Probe, outcome: Construction)
      requires Valid()
      modifies this
      ensures Valid()
      ensures !CredentialsPresent(credentials) ==>
                error == MissingCredentials && !isLoading
                && settings == old(settings) && isEnabled == old(isEnabled)
                && initLatch == old(initLatch) && arRef == old(arRef)
                && sessions == old(sessions) && pushes == old(pushes)
      ensures CredentialsPresent(credentials) ==>
                InitARPost(credentials.appId.value, credentials.licenseKey.value,
                           credentials.secretKey.value, probe, outcome)
      ensures old(isEnabled && InSync()) ==> InSync()
    {
      if !CredentialsPresent(credentials) {
        error := MissingCredentials;
        isLoading := false;
        return;
      }
      InitAR(credentials.appId.value, credentials.licenseKey.value,
             credentials.secretKey.value, probe, outcome);
    }

    /** The `ready` handler of a constructed session: loading stops. It does
        not check that its session is still the live one. */
    method OnReady()
      requires Valid() && |sessions| > 0
      modifies this
      ensures Valid()
      ensures !isLoading
      ensures error == old(error) && settings == old(settings) && isEnabled == old(isEnabled)
      ensures initLatch == old(initLatch) && arRef == old(arRef)
      ensures sessions == old(sessions) && pushes == old(pushes)
      ensures old(InSync()) ==> InSync()
    {
      isLoading := false;
    }

    /** The `error` handler of a constructed session. With a payload it shows
        the SDK's message with the browser's user agent and stops loading;
        with none, reading `e.message` throws and nothing changes. */
    method OnError(payload: Option<SdkError>, userAgent: string)
      requires Valid() && |sessions| > 0
      modifies this
      ensures Valid()
      ensures payload.Some? ==> error == SdkErrorMessage(payload.value, userAgent) && !isLoading
      ensures payload.None? ==> error == old(error) && isLoading == old(isLoading)
      ensures settings == old(settings) && isEnabled == old(isEnabled)
      ensures initLatch == old(initLatch) && arRef == old(arRef)
      ensures sessions == old(sessions) && pushes == old(pushes)
      ensures old(InSync()) ==> InSync()
    {
      if payload.Some? {
        error := SdkErrorMessage(payload.value, userAgent);
        isLoading := false;
      }
    }

    /** The effect's cleanup: the latch is cleared and the session reference
        dropped; the session itself, the store and the messages stay. */
    method Teardown()
      requires Valid()
      modifies this
      ensures Valid() && InSync()
      ensures !initLatch && arRef == None
      ensures settings == old(settings) && isEnabled == old(isEnabled)
      ensures isLoading == old(isLoading) && error == old(error)
      ensures sessions == old(sessions) && pushes == old(pushes)
    {
      initLatch := false;
      arRef := None;
      periodStart := |sessions|;
    }

    /** `updateBeauty(key, value)`: exactly one slider changes. The new
        settings divided by 100 are pushed to the live session when there is
        one and the effects are enabled; otherwise nothing is pushed. */
    method UpdateBeauty(key: Slider, value: int) returns (pushed: Option<BeautifyConfig>)
      requires Valid()
      modifies this
      ensures Valid()
      ensures settings == With(old(settings), key, value)
      ensures Get(settings, key) == value
      ensures forall k :: k != key ==> Get(settings, k) == Get(old(settings), k)
      ensures pushed == if arRef.Some? && isEnabled then Some(Scale(settings)) else None
      ensures pushed.Some? ==> pushes == old(pushes) + [Push(arRef.value, pushed.value)]
      ensures pushed.None? ==> pushes == old(pushes)
      ensures pushed.Some? ==> pushed.value == Effective(settings, isEnabled)
      ensures isEnabled == old(isEnabled) && isLoading == old(isLoading) && error == old(error)
      ensures initLatch == old(initLatch) && arRef == old(arRef) && sessions == old(sessions)
      ensures old(InSync()) ==> InSync()
      ensures old(InRange(settings)) && 0 <= value <= 100 ==> InRange(settings)
    {
      ghost var before := settings;
      settings := With(settings, key, value);
      if arRef.Some? && isEnabled {
        pushed := Some(Scale(settings));
        Send(pushed.value);
      } else {
        pushed := None;
        if arRef.Some? {
          DisabledIgnoresStore(before, settings);
        }
      }
    }

    /** `handleToggle`: the switch flips and the store is kept. With a live
        session the stored settings divided by 100 are pushed when the switch
        turns on, fifteen zeros when it turns off; without one nothing is
        pushed. Either way the live session ends up showing the effective
        view. */
    method HandleToggle() returns (pushed: Option<BeautifyConfig>)
      requires Valid()
      modifies this
      ensures Valid() && InSync()
      ensures isEnabled == !old(isEnabled)
      ensures settings == old(settings)
      ensures pushed == if arRef.Some? then Some(if isEnabled then Scale(settings) else Zeros()) else None
      ensures pushed.Some? ==> pushes == old(pushes) + [Push(arRef.value, pushed.value)]
      ensures pushed.None? ==> pushes == old(pushes)
      ensures pushed.Some? ==> pushed.value == Effective(settings, isEnabled)
      ensures isLoading == old(isLoading) && error == old(error)
      ensures initLatch == old(initLatch) && arRef == old(arRef) && sessions == old(sessions)
    {
      var newState := !isEnabled;
      isEnabled := newState;
      if arRef.Some? {
        if newState {
          pushed := Some(Scale(settings));
        } else {
          pushed := Some(Zeros());
        }
        Send(pushed.value);
      } else {
        pushed := None;
      }
    }

    /** `handleReset`: the store returns to the default profile and the
        switch is kept. The literal default config (0.3, 0.5, zeros) is
        pushed only when there is a live session and the effects are
        enabled. */
    method HandleReset() returns (pushed: Option<BeautifyConfig>)
      requires Valid()
      modifies this
      ensures Valid()
      ensures settings == Default()
      ensures isEnabled == old(isEnabled)
      ensures pushed == if arRef.Some? && isEnabled then Some(ResetConfig()) else None
      ensures pushed.Some? ==> pushes == old(pushes) + [Push(arRef.value, pushed.value)]
      ensures pushed.None? ==> pushes == old(pushes)
      ensures pushed.Some? ==> pushed.value == Effective(settings, isEnabled)
      ensures isLoading == old(isLoading) && error == old(error)
      ensures initLatch == old(initLatch) && arRef == old(arRef) && sessions == old(sessions)
      ensures old(InSync()) ==> InSync()
    {
      ghost var before := settings;
      settings := Default();
      if arRef.Some? && isEnabled {
        pushed := Some(ResetConfig());
        ResetConfigIsScaledDefault();
        Send(pushed.value);
      } else {
        pushed := None;
        if arRef.Some? {
          DisabledIgnoresStore(before, settings);
        }
      }
    }

    /** `arRef.current.setBeautify(config)`: one push to the live session,
        which from then on shows `config`. */
    method Send(config: BeautifyConfig)
      requires Valid() && arRef.Some?
      modifies this`pushes
      ensures Valid()
      ensures pushes == old(pushes) + [Push(arRef.value, config)]
      ensures SessionBeautify() == config
    {
      LastSentAppend(pushes, Push(arRef.value, config), arRef.value, sessions[arRef.value].beautify);
      pushes := pushes + [Push(arRef.value, config)];
    }
  }
}
