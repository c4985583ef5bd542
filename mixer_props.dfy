/**
 * Properties of the key dispatcher and of the subscription handling, stated
 * over the specification functions that the `UserData` methods follow.
 */
module MixerProps {
  import opened Util
  import opened Pulse
  import opened Xcb
  import opened Bindings
  import opened Mixer

  /** A press of the mute key flips the flag and sends the new value to the cached sink. */
  lemma MutePressToggles(c: Cache, e: Event, scale: Rescale)
    requires IsKeyPress(e) && e.detail == KeycodeMute
    ensures OnEvent(c, e, scale).0.mute == !c.mute
    ensures OnEvent(c, e, scale).0.cvol == c.cvol
    ensures OnEvent(c, e, scale).1 == [SetMute(c.sinkName, OnEvent(c, e, scale).0.mute)]
  {
  }

  /** Two presses of the mute key restore the cache and send both values in turn. */
  lemma MutePressTwiceRestores(c: Cache, e: Event, scale: Rescale)
    requires IsKeyPress(e) && e.detail == KeycodeMute
    ensures Drain(c, [e, e], scale).0 == c
    ensures Drain(c, [e, e], scale).1 == [SetMute(c.sinkName, !c.mute), SetMute(c.sinkName, c.mute)]
  {
    assert [e, e][..1] == [e];
    assert [e][..0] == [];
    assert Drain(c, [], scale) == (c, []);
    var one := Drain(c, [e], scale);
    assert one == (OnEvent(c, e, scale).0, [] + OnEvent(c, e, scale).1);
    assert Drain(c, [e, e], scale) == (OnEvent(one.0, e, scale).0, one.1 + OnEvent(one.0, e, scale).1);
  }

  /**
   * A press of volume-down lowers the loudest cached channel by one step,
   * never below 0, keeps the channel count, and sends the new vector to the
   * cached sink.
   */
  lemma VolumeDownPress(c: Cache, e: Event, scale: Rescale)
    requires ScalesLoudestTo(scale) && CvolumeValid(c.cvol)
    requires IsKeyPress(e) && e.detail == KeycodeVolDown
    ensures var r := OnEvent(c, e, scale);
      && r.0.mute == c.mute
      && CvolumeValid(r.0.cvol) && |r.0.cvol| == |c.cvol|
      && CvolumeMax(r.0.cvol) == (if CvolumeMax(c.cvol) <= VolumeStep then 0 else CvolumeMax(c.cvol) - VolumeStep)
      && r.1 == [SetVolume(c.sinkName, r.0.cvol)]
  {
  }

  /**
   * A press of volume-up raises the loudest cached channel by one step but
   * not past the limit, PA_VOLUME_MAX with SHIFT held and PA_VOLUME_NORM
   * otherwise, and sends the new vector to the cached sink.
   */
  lemma VolumeUpPress(c: Cache, e: Event, scale: Rescale)
    requires ScalesLoudestTo(scale) && CvolumeValid(c.cvol)
    requires IsKeyPress(e) && e.detail == KeycodeVolUp
    ensures var r := OnEvent(c, e, scale);
      var limit := UpLimit(e.state);
      && r.0.mute == c.mute
      && CvolumeValid(r.0.cvol) && |r.0.cvol| == |c.cvol|
      && CvolumeMax(r.0.cvol) <= limit
      && CvolumeMax(r.0.cvol) == (if CvolumeMax(c.cvol) + VolumeStep < limit then CvolumeMax(c.cvol) + VolumeStep else limit)
      && r.1 == [SetVolume(c.sinkName, r.0.cvol)]
  {
  }

  /**
   * Before the first sink record arrives the cached vector has no channel,
   * and the library refuses to step it: the volume keys leave it as it is,
   * though a command is still sent.
   */
  lemma VolumeKeysKeepInvalidVector(c: Cache, e: Event, scale: Rescale)
    requires !CvolumeValid(c.cvol) && IsKeyPress(e)
    requires e.detail == KeycodeVolDown || e.detail == KeycodeVolUp
    ensures OnEvent(c, e, scale).0 == c
    ensures OnEvent(c, e, scale).1 == [SetVolume(c.sinkName, c.cvol)]
  {
  }

  /** Events other than key presses, and other keycodes, change nothing and send nothing. */
  lemma UnboundEventIgnored(c: Cache, e: Event, scale: Rescale)
    requires !IsKeyPress(e) || e.detail !in Keys
    ensures OnEvent(c, e, scale) == (c, [])
  {
  }

  /** Draining two queues one after the other is draining their concatenation. */
  lemma {:induction false} DrainAppend(c: Cache, a: seq<Event>, b: seq<Event>, scale: Rescale)
    ensures var first := Drain(c, a, scale);
      var second := Drain(first.0, b, scale);
      Drain(c, a + b, scale) == (second.0, first.1 + second.1)
  {
    if b == [] {
      assert a + b == a;
      assert Drain(Drain(c, a, scale).0, b, scale) == (Drain(c, a, scale).0, []);
      assert Drain(c, a, scale).1 + [] == Drain(c, a, scale).1;
    } else {
      var b' := b[..|b| - 1];
      assert (a + b)[..|a + b| - 1] == a + b';
      assert (a + b)[|a + b| - 1] == b[|b| - 1];
      DrainAppend(c, a, b', scale);
      var first := Drain(c, a, scale);
      var mid := Drain(first.0, b', scale);
      var last := OnEvent(mid.0, b[|b| - 1], scale);
      assert Drain(first.0, b, scale) == (last.0, mid.1 + last.1);
      assert Drain(c, a + b, scale) == (last.0, (first.1 + mid.1) + last.1);
      assert (first.1 + mid.1) + last.1 == first.1 + (mid.1 + last.1);
    }
  }

  /** Every request sent while draining is a mute or volume command to the cached sink. */
  lemma {:induction false} DrainTargetsCachedSink(c: Cache, events: seq<Event>, scale: Rescale)
    ensures forall r :: r in Drain(c, events, scale).1 ==>
      (r.SetMute? || r.SetVolume?) && r.sink == c.sinkName
  {
    if events != [] {
      DrainTargetsCachedSink(c, events[..|events| - 1], scale);
    }
  }

  /**
   * Draining keeps a valid volume vector valid with the same channel count,
   * and leaves an invalid one untouched.
   */
  lemma {:induction false} DrainKeepsVolumeShape(c: Cache, events: seq<Event>, scale: Rescale)
    requires ScalesLoudestTo(scale)
    ensures CvolumeValid(c.cvol) ==>
      CvolumeValid(Drain(c, events, scale).0.cvol) && |Drain(c, events, scale).0.cvol| == |c.cvol|
    ensures !CvolumeValid(c.cvol) ==> Drain(c, events, scale).0.cvol == c.cvol
  {
    if events != [] {
      DrainKeepsVolumeShape(c, events[..|events| - 1], scale);
    }
  }

  /** `n` presses of the same key, with no server reply in between. */
  function Presses(e: Event, n: nat): (es: seq<Event>)
    ensures |es| == n && forall i :: 0 <= i < n ==> es[i] == e
  {
    seq(n, _ => e)
  }

  /**
   * Pressing volume-down `n` times in a row lowers the loudest channel by
   * `n` steps, stopping at 0, and sends `n` volume commands.
   */
  lemma {:induction false} RepeatedVolumeDown(c: Cache, e: Event, n: nat, scale: Rescale)
    requires ScalesLoudestTo(scale) && CvolumeValid(c.cvol)
    requires IsKeyPress(e) && e.detail == KeycodeVolDown
    ensures var r := Drain(c, Presses(e, n), scale);
      && CvolumeValid(r.0.cvol)
      && CvolumeMax(r.0.cvol) == (if CvolumeMax(c.cvol) <= n * VolumeStep then 0 else CvolumeMax(c.cvol) - n * VolumeStep)
      && |r.1| == n
  {
    if n > 0 {
      RepeatedVolumeDown(c, e, n - 1, scale);
      assert Presses(e, n)[..n - 1] == Presses(e, n - 1);
      var before := Drain(c, Presses(e, n - 1), scale);
      VolumeDownPress(before.0, e, scale);
      assert |Drain(c, Presses(e, n), scale).1| == |before.1| + 1;
    }
  }

  /**
   * Pressing volume-up `n` times in a row raises the loudest channel by `n`
   * steps but ends at the limit once the limit is reached (or, if it started
   * above the limit, at the limit after the first press).
   */
  lemma {:induction false} RepeatedVolumeUp(c: Cache, e: Event, n: nat, scale: Rescale)
    requires ScalesLoudestTo(scale) && CvolumeValid(c.cvol)
    requires IsKeyPress(e) && e.detail == KeycodeVolUp
    ensures var limit := UpLimit(e.state);
      var r := Drain(c, Presses(e, n), scale);
      && CvolumeValid(r.0.cvol)
      && CvolumeMax(r.0.cvol) ==
        (if n == 0 then CvolumeMax(c.cvol)
         else if CvolumeMax(c.cvol) + n * VolumeStep < limit then CvolumeMax(c.cvol) + n * VolumeStep
         else limit)
  {
    if n > 0 {
      RepeatedVolumeUp(c, e, n - 1, scale);
      assert Presses(e, n)[..n - 1] == Presses(e, n - 1);
      var before := Drain(c, Presses(e, n - 1), scale);
      VolumeUpPress(before.0, e, scale);
    }
  }

  /**
   * The step 0x10000 / 20 rounds 3276.8 down to 3276: twenty presses of
   * volume-up from silence reach 65520, just short of PA_VOLUME_NORM, and
   * the twenty-first press reaches it.
   */
  lemma TwentyStepsFromSilence(c: Cache, e: Event, scale: Rescale)
    requires ScalesLoudestTo(scale) && CvolumeValid(c.cvol) && CvolumeMax(c.cvol) == 0
    requires IsKeyPress(e) && e.detail == KeycodeVolUp && e.state & ModMaskShift == 0
    ensures CvolumeMax(Drain(c, Presses(e, 20), scale).0.cvol) == VolumeNorm - 16
    ensures CvolumeMax(Drain(c, Presses(e, 21), scale).0.cvol) == VolumeNorm
  {
    RepeatedVolumeUp(c, e, 20, scale);
    RepeatedVolumeUp(c, e, 21, scale);
  }

  /**
   * With the mask the daemon subscribes with, only sink and server events
   * arrive, and the SINK_INPUT bit that cb_subscription tests is set exactly
   * in the server events (facility 7 has that bit; facility 0 does not).
   */
  lemma SinkInputBitMeansServerEvent(t: SubscriptionEventType)
    requires Delivered(SubscribedFacilities, t)
    ensures Facility(t) == EventSink || Facility(t) == EventServer
    ensures (t & EventSinkInput != 0) <==> Facility(t) == EventServer
  {
  }
}
