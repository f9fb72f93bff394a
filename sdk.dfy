/** The AR SDK as the mirror view uses it: the configuration it is
    constructed with and the log of `setBeautify` calls made on sessions. */
module Sdk {
  import opened Beauty
  import opened Negotiation

  /** `auth`: the app id and license key, and the secret that the
      signature callback `getSignature(appId, secret)` is bound to. */
  datatype AuthConfig = AuthConfig(appId: string, licenseKey: string, secret: string)

  datatype CameraConfig = CameraConfig(width: int, height: int, mirror: bool)

  datatype LoadingConfig = LoadingConfig(enable: bool, lineWidth: int)

  /** The argument of `new ArSdk(...)`. */
  datatype ArSdkConfig = ArSdkConfig(
    auth: AuthConfig, camera: CameraConfig, loading: LoadingConfig, beautify: BeautifyConfig)

  /** The config `initAR` builds: the credentials, the negotiated camera
      profile mirrored, the loading indicator on with line width 4, and the
      stored settings divided by 100. */
  ghost predicate BuiltFrom(c: ArSdkConfig, appId: string, licenseKey: string, secret: string,
                            probe: Probe, settings: BeautySettings)
  {
    c.auth == AuthConfig(appId, licenseKey, secret)
    && Negotiated(probe, c.camera.width, c.camera.height)
    && c.camera.mirror
    && c.loading == LoadingConfig(true, 4)
    && c.beautify == Scale(settings)
  }

  /** One `setBeautify` call: the session it went to (its index among the
      sessions constructed so far) and the config it carried. */
  datatype Push = Push(session: nat, config: BeautifyConfig)

  /** The last config a session has received: its most recent push, or the
      initial config it was constructed with when it has had none. */
  function LastSent(pushes: seq<Push>, session: nat, initial: BeautifyConfig): BeautifyConfig
  {
    if pushes == [] then initial
    else if pushes[|pushes| - 1].session == session then pushes[|pushes| - 1].config
    else LastSent(pushes[..|pushes| - 1], session, initial)
  }

  /** A new push decides what its own session shows and leaves every other
      session's view as it was. */
  lemma LastSentAppend(pushes: seq<Push>, p: Push, session: nat, initial: BeautifyConfig)
    ensures LastSent(pushes + [p], session, initial)
         == if p.session == session then p.config else LastSent(pushes, session, initial)
  {
    assert (pushes + [p])[..|pushes|] == pushes;
  }

  /** Pushes that all go to other sessions leave this session's view as it was. */
  lemma {:induction false} LastSentOthers(pushes: seq<Push>, later: seq<Push>, session: nat, initial: BeautifyConfig)
    requires forall p :: p in later ==> p.session != session
    ensures LastSent(pushes + later, session, initial) == LastSent(pushes, session, initial)
  {
    if later == [] {
      assert pushes + later == pushes;
    } else {
      var front := later[..|later| - 1];
      var last := later[|later| - 1];
      assert later == front + [last];
      assert pushes + later == (pushes + front) + [last];
      LastSentAppend(pushes + front, last, session, initial);
      assert forall p :: p in front ==> p in later;
      LastSentOthers(pushes, front, session, initial);
    }
  }
}
