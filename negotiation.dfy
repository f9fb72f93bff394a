/** Camera-resolution negotiation: before the session is built, the view
    opens a probing stream with an ideal resolution of 1920x1080, reads the
    resolution the camera actually granted, and closes the probe again. */
module Negotiation {
  import opened Wrappers

  /** `videoTrack.getSettings()`: each dimension may be unreported. */
  datatype TrackSettings = TrackSettings(width: Option<int>, height: Option<int>)

  /** What probing yields: the granted track's settings, or an exception
      (permission denied, no device, device busy, no video track). */
  datatype Probe = ProbeThrew | Probed(settings: TrackSettings)

  /** The fallback resolution (VGA). */
  const FallbackWidth: int := 640
  const FallbackHeight: int := 480

  /** JavaScript truthiness of an optional number: undefined and 0 are false. */
  predicate NumberTruthy(v: Option<int>)
  {
    v.Some? && v.value != 0
  }

  /** The probe reported both dimensions, so they are adopted. */
  predicate Reported(probe: Probe)
  {
    probe.Probed? && NumberTruthy(probe.settings.width) && NumberTruthy(probe.settings.height)
  }

  /** The resolution negotiation settles on: the reported one when both
      dimensions are reported and nonzero, VGA in every other case. */
  ghost predicate Negotiated(probe: Probe, width: int, height: int)
  {
    (Reported(probe) ==>
       width == probe.settings.width.value && height == probe.settings.height.value)
    && (!Reported(probe) ==> width == FallbackWidth && height == FallbackHeight)
  }

  /** The negotiation steps of `initAR`: start from VGA, adopt the probe's
      resolution when it reports one, fall back to VGA when probing throws.
      Negotiation itself never fails. */
  method Negotiate(probe: Probe) returns (cameraWidth: int, cameraHeight: int)
    ensures Negotiated(probe, cameraWidth, cameraHeight)
    ensures Reported(probe) ==> cameraWidth != 0 && cameraHeight != 0
  {
    cameraWidth := FallbackWidth;
    cameraHeight := FallbackHeight;
    match probe {
      case Probed(settings) =>
        if NumberTruthy(settings.width) && NumberTruthy(settings.height) {
          cameraWidth := settings.width.value;
          cameraHeight := settings.height.value;
        }
      case ProbeThrew =>
        cameraWidth := FallbackWidth;
        cameraHeight := FallbackHeight;
    }
  }
}
