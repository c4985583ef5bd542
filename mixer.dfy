/**
 * The mixer cache (`UserData`) and everything that updates it: the four
 * PulseAudio callbacks and the X event handler that turns key presses into
 * mute and volume commands.
 *
 * Requests to the audio server are not executed: each one is appended to the
 * ghost log `requests` in the order the daemon issues it.
 */
module Mixer {
  import opened Util
  import opened Pulse
  import opened Xcb
  import opened Bindings

  /** Size of the `default_sink_name` buffer, terminating NUL included. */
  const NameCapacity: nat := 256

  /** `0x10000U / 20`: one volume step, 1/20 of unity gain rounded down to 3276. */
  const VolumeStep: Volume := 3276

  /** The facilities the daemon subscribes to once the context is ready. */
  const SubscribedFacilities: SubscriptionMask := MaskSink | MaskServer

  /** A request to the audio server, as the daemon issues it. */
  datatype Request =
    | GetServerInfo
    | GetSinkInfo(sink: string)
    | Subscribe(mask: SubscriptionMask)
    | SetMute(sink: string, mute: bool)
    | SetVolume(sink: string, volume: Cvolume)

  /** The fields of pa_sink_info that the daemon reads. */
  datatype SinkInfo = SinkInfo(mute: bool, volume: Cvolume)

  /** The field of pa_server_info that the daemon reads. */
  datatype ServerInfo = ServerInfo(defaultSinkName: string)

  /** A snapshot of the cache fields of `UserData`. */
  datatype Cache = Cache(sinkName: string, mute: bool, cvol: Cvolume)

  /** A request that names a sink. */
  predicate Addressed(r: Request) {
    r.GetSinkInfo? || r.SetMute? || r.SetVolume?
  }

  /** The sink named by the most recent request that names one. */
  function LastTarget(log: seq<Request>): Option<string> {
    if log == [] then None
    else if Addressed(log[|log| - 1]) then Some(log[|log| - 1].sink)
    else LastTarget(log[..|log| - 1])
  }

  /** Logging one more request moves the last target only if that request names a sink. */
  lemma LastTargetAppend(log: seq<Request>, r: Request)
    ensures LastTarget(log + [r]) == if Addressed(r) then Some(r.sink) else LastTarget(log)
  {
  }

  /** An event the dispatcher acts on: a key press of one of the three keycodes. */
  predicate Bound(e: Event) {
    IsKeyPress(e) && e.detail in Keys
  }

  /** The volume-up limit: PA_VOLUME_MAX while SHIFT is held, PA_VOLUME_NORM otherwise. */
  function UpLimit(state: ModMask): (limit: Volume)
    ensures VolumeStep <= VolumeNorm <= limit <= VolumeMax
    ensures state & ModMaskShift != 0 ==> limit == VolumeMax
    ensures state & ModMaskShift == 0 ==> limit == VolumeNorm
  {
    if state & ModMaskShift != 0 then VolumeMax else VolumeNorm
  }

  /**
   * One pass of the dispatcher loop over event `e`: the new cache and the
   * requests sent. Only a bound key press sends anything (exactly one
   * command) or changes anything, and it never changes the sink name.
   */
  function OnEvent(c: Cache, e: Event, scale: Rescale): (r: (Cache, seq<Request>))
    ensures r.0.sinkName == c.sinkName
    ensures |r.1| == if Bound(e) then 1 else 0
    ensures !Bound(e) ==> r.0 == c
  {
    if !IsKeyPress(e) then (c, [])
    else if e.detail == KeycodeMute then
      var muted := !c.mute;
      (c.(mute := muted), [SetMute(c.sinkName, muted)])
    else if e.detail == KeycodeVolDown then
      var v := CvolumeDec(c.cvol, VolumeStep, scale);
      (c.(cvol := v), [SetVolume(c.sinkName, v)])
    else if e.detail == KeycodeVolUp then
      var v := CvolumeIncClamp(c.cvol, VolumeStep, UpLimit(e.state), scale);
      (c.(cvol := v), [SetVolume(c.sinkName, v)])
    else (c, [])
  }

  /** How many of `events` are bound key presses. */
  function BoundCount(events: seq<Event>): nat {
    if events == [] then 0
    else BoundCount(events[..|events| - 1]) + if Bound(events[|events| - 1]) then 1 else 0
  }

  /**
   * Draining a queue of events in order: the final cache and all requests
   * sent, one per bound key press, none of which changes the sink name.
   */
  function Drain(c: Cache, events: seq<Event>, scale: Rescale): (r: (Cache, seq<Request>))
    ensures r.0.sinkName == c.sinkName
    ensures |r.1| == BoundCount(events)
  {
    if events == [] then (c, [])
    else
      var before := Drain(c, events[..|events| - 1], scale);
      var step := OnEvent(before.0, events[|events| - 1], scale);
      (step.0, before.1 + step.1)
  }

  /** The daemon's shared state, zero-initialised at startup. */
  class UserData {
    var mute: bool
    var cvol: Cvolume
    var defaultSinkName: string
    /** The status `pa_mainloop_quit` was asked to stop the main loop with, if any. */
    var quit: Option<int>
    /** The requests issued to the audio server so far. */
    ghost var requests: seq<Request>

    /**
     * The name fits its buffer, and the latest request that names a sink
     * names the cached one: commands always go to the cached default sink.
     */
    ghost predicate Valid()
      reads this
    {
      |defaultSinkName| < NameCapacity &&
      (LastTarget(requests) == None || LastTarget(requests) == Some(defaultSinkName))
    }

    function Snapshot(): Cache
      reads this
    {
      Cache(defaultSinkName, mute, cvol)
    }

    /** `UserData ud = {0}`. */
    constructor ()
      ensures Valid()
      ensures Snapshot() == Cache("", false, []) && quit == None && requests == []
    {
      mute, cvol, defaultSinkName := false, [], "";
      quit := None;
      requests := [];
    }

    /**
     * cb_sink_info: a record overwrites the mute flag and the volume vector,
     * whichever sink it describes; the end-of-list call (no record) changes
     * nothing. Nothing is sent.
     */
    method SinkInfoCallback(info: Option<SinkInfo>, eol: int)
      requires Valid()
      modifies this
      ensures Valid()
      ensures info.Some? ==> mute == info.value.mute && cvol == info.value.volume
      ensures info.None? ==> mute == old(mute) && cvol == old(cvol)
      ensures defaultSinkName == old(defaultSinkName)
      ensures requests == old(requests) && quit == old(quit)
    {
      if info.Some? {
        mute := info.value.mute;
        cvol := info.value.volume;
      }
    }

    /**
     * cb_server_info: copies the server's default sink name into the cache,
     * then asks for that sink's record. The name must fit the 256-byte buffer.
     */
    method ServerInfoCallback(info: ServerInfo)
      requires Valid()
      requires |info.defaultSinkName| < NameCapacity
      modifies this
      ensures Valid()
      ensures defaultSinkName == info.defaultSinkName
      ensures requests == old(requests) + [GetSinkInfo(info.defaultSinkName)]
      ensures mute == old(mute) && cvol == old(cvol) && quit == old(quit)
    {
      defaultSinkName := info.defaultSinkName;
      requests := requests + [GetSinkInfo(defaultSinkName)];
      assert LastTarget(requests) == Some(defaultSinkName);
    }

    /**
     * cb_state: once the context is ready, asks for the server info and then
     * subscribes to sink and server events; in any other state does nothing.
     */
    method StateCallback(state: ContextState)
      requires Valid()
      modifies this
      ensures Valid()
      ensures requests == old(requests) +
        if state == Ready then [GetServerInfo, Subscribe(SubscribedFacilities)] else []
      ensures Snapshot() == old(Snapshot()) && quit == old(quit)
    {
      if state == Ready {
        requests := requests + [GetServerInfo];
        assert LastTarget(requests) == old(LastTarget(requests));
        requests := requests + [Subscribe(MaskSink | MaskServer)];
        assert LastTarget(requests) == old(LastTarget(requests));
      }
    }

    /**
     * cb_subscription: an event type with the SINK_INPUT bit set re-resolves
     * the default sink through the server info; any other event re-reads the
     * cached sink's record. Exactly one query; the cache is untouched.
     */
    method SubscriptionCallback(t: SubscriptionEventType, idx: nat)
      requires Valid()
      modifies this
      ensures Valid()
      ensures requests == old(requests) +
        [if t & EventSinkInput != 0 then GetServerInfo else GetSinkInfo(defaultSinkName)]
      ensures Snapshot() == old(Snapshot()) && quit == old(quit)
    {
      if t & EventSinkInput != 0 {
        requests := requests + [GetServerInfo];
        assert LastTarget(requests) == old(LastTarget(requests));
      } else {
        requests := requests + [GetSinkInfo(defaultSinkName)];
        assert LastTarget(requests) == Some(defaultSinkName);
      }
    }

    /**
     * One pass of the handle_xcb loop: a press of the mute key toggles the
     * cached flag and sends the new value, a press of volume-down or
     * volume-up steps the cached vector and sends it, anything else is
     * dropped. `scale` stands for the library's pa_cvolume_scale.
     */
    method HandleEvent(e: Event, scale: Rescale)
      requires Valid()
      modifies this
      ensures Valid()
      ensures Snapshot() == OnEvent(old(Snapshot()), e, scale).0
      ensures requests == old(requests) + OnEvent(old(Snapshot()), e, scale).1
      ensures quit == old(quit)
    {
      if ResponseType(e) == KeyPress {
        if e.detail == KeycodeMute {
          mute := !mute;
          LastTargetAppend(requests, SetMute(defaultSinkName, mute));
          requests := requests + [SetMute(defaultSinkName, mute)];
        } else if e.detail == KeycodeVolDown {
          cvol := CvolumeDec(cvol, VolumeStep, scale);
          LastTargetAppend(requests, SetVolume(defaultSinkName, cvol));
          requests := requests + [SetVolume(defaultSinkName, cvol)];
        } else if e.detail == KeycodeVolUp {
          cvol := CvolumeIncClamp(cvol, VolumeStep, UpLimit(e.state), scale);
          LastTargetAppend(requests, SetVolume(defaultSinkName, cvol));
          requests := requests + [SetVolume(defaultSinkName, cvol)];
        }
      }
    }

    /**
     * handle_xcb: drains every queued event in order, then, if the X
     * connection reports an error, asks the main loop to quit with status 1.
     * `hasError` is what xcb_connection_has_error reports after draining.
     */
    method HandleXcb(events: seq<Event>, hasError: bool, scale: Rescale)
      requires Valid()
      modifies this
      ensures Valid()
      ensures Snapshot() == Drain(old(Snapshot()), events, scale).0
      ensures requests == old(requests) + Drain(old(Snapshot()), events, scale).1
      ensures quit == if hasError then Some(1) else old(quit)
    {
      var i := 0;
      while i < |events|
        invariant 0 <= i <= |events|
        invariant Valid()
        invariant Snapshot() == Drain(old(Snapshot()), events[..i], scale).0
        invariant requests == old(requests) + Drain(old(Snapshot()), events[..i], scale).1
        invariant quit == old(quit)
      {
        assert events[..i + 1][..i] == events[..i];
        HandleEvent(events[i], scale);
        i := i + 1;
      }
      assert events[..i] == events;
      if hasError {
        quit := Some(1);
      }
    }
  }
}
