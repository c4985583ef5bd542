/**
 * The part of the PulseAudio client library that the daemon relies on:
 * volume constants, per-channel volume vectors, the two volume-stepping
 * helpers it calls, context states and subscription event bits.
 *
 * Only the documented behaviour of these library calls is modelled. The
 * proportional rescaling of the individual channels, done inside the library
 * by pa_cvolume_scale, is not: it is a parameter `scale` of type Rescale,
 * constrained by ScalesLoudestTo.
 */
module Pulse {

  /** pa_volume_t: a software volume level. */
  type Volume = nat

  /** pa_cvolume: one volume per channel; the channel count is the length. */
  type Cvolume = seq<Volume>

  const VolumeMuted: Volume := 0
  /** PA_VOLUME_NORM: unity gain, 100%. */
  const VolumeNorm: Volume := 0x10000
  /** PA_VOLUME_MAX: UINT32_MAX / 2, the largest valid volume. */
  const VolumeMax: Volume := 0x7FFF_FFFF
  /** PA_CHANNELS_MAX. */
  const ChannelsMax: nat := 32

  /** PA_VOLUME_IS_VALID. */
  predicate VolumeIsValid(v: Volume) {
    v <= VolumeMax
  }

  /** pa_cvolume_valid: between 1 and 32 channels, each a valid volume. */
  predicate CvolumeValid(cv: Cvolume) {
    0 < |cv| <= ChannelsMax && forall i :: 0 <= i < |cv| ==> VolumeIsValid(cv[i])
  }

  /** pa_cvolume_max: the volume of the loudest channel (muted for no channel). */
  function CvolumeMax(cv: Cvolume): (m: Volume)
    ensures forall i :: 0 <= i < |cv| ==> cv[i] <= m
    ensures cv == [] ==> m == VolumeMuted
    ensures cv != [] ==> m in cv
  {
    if cv == [] then VolumeMuted
    else
      var rest := CvolumeMax(cv[..|cv| - 1]);
      if cv[|cv| - 1] > rest then cv[|cv| - 1] else rest
  }

  /**
   * pa_cvolume_scale(v, max): rescales every channel so that the loudest one
   * becomes `max`, keeping the proportions. It lives inside the library, so
   * the model takes it as a parameter.
   */
  type Rescale = (Cvolume, Volume) -> Cvolume

  /** The documented contract of pa_cvolume_scale on valid arguments. */
  ghost predicate ScalesLoudestTo(scale: Rescale) {
    forall cv, m :: CvolumeValid(cv) && VolumeIsValid(m) ==>
      |scale(cv, m)| == |cv| && CvolumeMax(scale(cv, m)) == m
  }

  /**
   * pa_cvolume_dec: lowers the loudest channel by `dec`, stopping at muted,
   * and rescales the others with it. An invalid vector or step is left as it
   * is (the library returns NULL without touching it).
   */
  function CvolumeDec(cv: Cvolume, dec: Volume, scale: Rescale): (r: Cvolume)
    ensures !CvolumeValid(cv) ==> r == cv
    ensures ScalesLoudestTo(scale) && CvolumeValid(cv) && VolumeIsValid(dec) ==>
      CvolumeValid(r) && |r| == |cv| &&
      CvolumeMax(r) == (if CvolumeMax(cv) <= dec then 0 else CvolumeMax(cv) - dec)
  {
    if !CvolumeValid(cv) || !VolumeIsValid(dec) then cv
    else
      var m := CvolumeMax(cv);
      var target := if m > VolumeMuted + dec then m - dec else VolumeMuted;
      var r := scale(cv, target);
      assert ScalesLoudestTo(scale) ==> forall i :: 0 <= i < |r| ==> r[i] <= target;
      r
  }

  /**
   * pa_cvolume_inc_clamp: raises the loudest channel by `inc` but never above
   * `limit` (a vector already above the limit is brought down to it), and
   * rescales the others with it. An invalid vector is left as it is.
   */
  function CvolumeIncClamp(cv: Cvolume, inc: Volume, limit: Volume, scale: Rescale): (r: Cvolume)
    requires inc <= limit <= VolumeMax
    ensures !CvolumeValid(cv) ==> r == cv
    ensures ScalesLoudestTo(scale) && CvolumeValid(cv) ==>
      CvolumeValid(r) && |r| == |cv| && CvolumeMax(r) <= limit &&
      CvolumeMax(r) == (if CvolumeMax(cv) + inc < limit then CvolumeMax(cv) + inc else limit)
  {
    if !CvolumeValid(cv) then cv
    else
      var m := CvolumeMax(cv);
      var target := if m >= limit - inc then limit else m + inc;
      var r := scale(cv, target);
      assert ScalesLoudestTo(scale) ==> forall i :: 0 <= i < |r| ==> r[i] <= target;
      r
  }

  /** pa_context_state_t. */
  datatype ContextState = Unconnected | Connecting | Authorizing | SettingName | Ready | Failed | Terminated

  /** pa_subscription_event_type_t: a facility in the low nibble, a kind in bits 4-5. */
  type SubscriptionEventType = bv32

  const EventSink: bv32 := 0x0000
  const EventSinkInput: bv32 := 0x0002
  const EventServer: bv32 := 0x0007
  const EventFacilityMask: bv32 := 0x000F
  const EventChange: bv32 := 0x0010
  const EventRemove: bv32 := 0x0020
  const EventTypeMask: bv32 := 0x0030

  /** pa_subscription_mask_t bits: the mask bit of a facility is 1 << facility. */
  type SubscriptionMask = bv32

  const MaskSink: bv32 := 0x0001
  const MaskServer: bv32 := 0x0080

  /** The facility an event belongs to. */
  function Facility(t: SubscriptionEventType): bv32 {
    t & EventFacilityMask
  }

  /**
   * The server delivers an event to a subscriber exactly when the event is
   * well formed and the mask bit of its facility is set.
   */
  predicate Delivered(mask: SubscriptionMask, t: SubscriptionEventType) {
    t & !(EventFacilityMask | EventTypeMask) == 0 &&
    mask & ((1 as bv32) << (Facility(t) as int)) != 0
  }
}
