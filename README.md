# pahkd: hotkey daemon core, modelled in Dafny

pahkd is a background daemon that binds three global keys (mute, volume down,
volume up) to the default PulseAudio sink. It grabs the keys on the X root
window under every combination of three modifier bits. It keeps a small cache of
the default sink's name, mute flag and per-channel volume, kept fresh by
PulseAudio callbacks. It turns each key press into a mute or volume command
computed from that cache.

This project models the three pieces of logic in `pahkd.c` that carry the
behaviour:

- **The mixer cache and its callbacks** (`Mixer.UserData`). The cache is a class
  whose fields are those of the C `UserData` record: `mute`, `cvol` and
  `defaultSinkName`. A field `quit` stands for the main loop's quit request. A
  ghost log `requests` records every request sent to the audio server, in order.
  `cb_sink_info`, `cb_server_info`, `cb_state` and `cb_subscription` are methods.
  Each method's contract states the new cache fields and the requests appended.
  The class invariant `Valid` says two things. The sink name fits the 256-byte
  buffer. The most recent request that names a sink names the cached one, so
  commands always go to the cached default sink.
- **The key-press dispatcher** (`handle_xcb`). `UserData.HandleXcb` drains a
  sequence of events. `UserData.HandleEvent` is one pass of its loop. Both are
  proved against the specification functions `OnEvent` (one event) and `Drain`
  (a queue of events, in order). The lemmas in `MixerProps` state the key
  bindings' properties over those functions: what each key does, that other
  events are ignored, that commands go to the cached sink, and what repeated
  presses do.
- **The startup grab loop** (`main`, lines 115-128). `KeyGrab.GrabKeys` is the
  nested loop: 3 keycodes × 8 subset numbers, building each mask with `|=`.
  Whether the server refuses a grab is an oracle `fails`. The lemmas state the
  24-grab plan and its keycode-major order. They also state that the eight masks
  are exactly the ORs of the subsets of {SHIFT, LOCK, MOD_2}, and that the first
  refusal stops everything.

The modules are `Util` (Option), `Pulse` (the library's volume and subscription
rules that the daemon relies on), `Xcb` (events and modifier bits), `Bindings`
(the key and modifier tables), `KeyGrab`, `Mixer` and `MixerProps`.

The library calls `pa_cvolume_dec` and `pa_cvolume_inc_clamp` compute a new
loudest-channel volume and then call `pa_cvolume_scale`. That function
rescales every channel to the new loudest value. It is library code, so the
model takes it as a parameter `scale`. Its documented contract is the predicate
`ScalesLoudestTo`: the channel count stays the same and the loudest channel
becomes the target. The rest is modelled as libpulse documents it:

- an invalid vector is left untouched;
- volume down saturates at 0;
- volume up clamps to the limit, so a vector already above the limit comes down
  to it.

Notes on the code:

- `cb_state` asks for the server info first and subscribes second
  (pahkd.c:46-47).
- `cb_subscription` tests the `PA_SUBSCRIPTION_EVENT_SINK_INPUT` bit (value 2)
  of the event type. It does not compare the facility. The daemon subscribes only
  to sink (facility 0) and server (facility 7) events. Facility 7 has the bit of
  value 2 set and facility 0 does not. So the server-info branch runs exactly for server
  events. `MixerProps.SinkInputBitMeansServerEvent` proves this.
- The step `0x10000U / 20` is 3276, not 3276.8. Twenty presses from silence
  reach 65520, and a 21st press is needed to reach `PA_VOLUME_NORM`
  (`MixerProps.TwentyStepsFromSilence`). Without SHIFT, one press takes a
  loudest channel of 62259 to 65535; only from 62260 up does it reach
  `PA_VOLUME_NORM`.

## Model

| member | source | states |
|---|---|---|
| `Pulse.CvolumeDec` | pahkd.c:75 | volume down: the loudest channel drops by the step, stopping at 0; the vector stays valid with the same channels; an invalid vector is left as it is |
| `Pulse.CvolumeIncClamp` | pahkd.c:79 | volume up: the loudest channel becomes the smaller of itself plus the step and the limit, never above the limit; an invalid vector is left as it is |
| `Mixer.UpLimit` | pahkd.c:79 | the limit is PA_VOLUME_MAX when the SHIFT bit of the event state is set and PA_VOLUME_NORM when it is not |
| `Mixer.OnEvent` | pahkd.c:68-83 | one event sends exactly one command if it is a press of keycode 121, 122 or 123, and none otherwise; other events leave the cache unchanged; the sink name never changes |
| `Mixer.Drain` | pahkd.c:67-85 | draining a queue sends one command per bound key press and keeps the sink name |
| `Mixer.UserData.constructor` | pahkd.c:94 | the zero-initialised record: empty name, not muted, no channel, no request, no quit |
| `Mixer.UserData.SinkInfoCallback` | pahkd.c:25-33 | a record overwrites mute and volume only; no record changes nothing; the name is untouched and nothing is sent |
| `Mixer.UserData.ServerInfoCallback` | pahkd.c:35-41 | the cached name becomes the server's default sink name, then exactly one sink-info query for that name is sent |
| `Mixer.UserData.StateCallback` | pahkd.c:43-49 | on READY it sends a server-info query and then a subscribe with the SINK and SERVER mask; otherwise it sends nothing; the cache is unchanged |
| `Mixer.UserData.SubscriptionCallback` | pahkd.c:51-60 | exactly one query: server info if the event type has the SINK_INPUT bit, otherwise sink info for the cached name; the cache is unchanged |
| `Mixer.UserData.HandleEvent` | pahkd.c:68-83 | one pass of the drain loop updates the cache and log as OnEvent says and keeps the invariant |
| `Mixer.UserData.HandleXcb` | pahkd.c:62-90 | every queued event is handled in order (Drain); the loop is asked to quit with status 1 exactly when the connection has an error |
| `MixerProps.MutePressToggles` | pahkd.c:71-72 | a mute press flips the cached flag, keeps the volume, and sends one set-mute command with the new value to the cached sink |
| `MixerProps.MutePressTwiceRestores` | pahkd.c:71-72 | two mute presses restore the cache and send the inverted value and then the original |
| `MixerProps.VolumeDownPress` | pahkd.c:74-76 | a volume-down press lowers the loudest channel by 3276, never below 0, and sends one set-volume command with the new vector to the cached sink |
| `MixerProps.VolumeUpPress` | pahkd.c:78-80 | a volume-up press raises the loudest channel by 3276, never above the limit chosen by SHIFT, and sends one set-volume command with the new vector |
| `MixerProps.VolumeKeysKeepInvalidVector` | pahkd.c:74-80 | before any sink record the volume keys leave the zero-channel vector as it is, though they still send a command |
| `MixerProps.UnboundEventIgnored` | pahkd.c:69-83 | non-key-press events and other keycodes change nothing and send nothing |
| `MixerProps.DrainAppend` | pahkd.c:67-85 | draining two queues in turn equals draining their concatenation |
| `MixerProps.DrainTargetsCachedSink` | pahkd.c:72-80 | every request sent while draining is a mute or volume command to the cached sink |
| `MixerProps.DrainKeepsVolumeShape` | pahkd.c:74-80 | draining keeps a valid vector valid with the same channel count, and leaves an invalid one untouched |
| `MixerProps.RepeatedVolumeDown` | pahkd.c:74-76 | n volume-down presses lower the loudest channel by n × 3276, stopping at 0, and send n commands |
| `MixerProps.RepeatedVolumeUp` | pahkd.c:78-80 | n volume-up presses raise the loudest channel by n × 3276, ending at the limit |
| `MixerProps.TwentyStepsFromSilence` | pahkd.c:79 | from silence, 20 presses without SHIFT reach 65520 and 21 presses reach PA_VOLUME_NORM |
| `MixerProps.SinkInputBitMeansServerEvent` | pahkd.c:55 | for the events delivered under the SINK and SERVER mask, the SINK_INPUT bit is set exactly in the server events |
| `KeyGrab.SubsetMaskValue` | pahkd.c:116-122 | bits 0, 1 and 2 of the subset number select SHIFT, LOCK and MOD_2 |
| `KeyGrab.SubsetMaskBits` | pahkd.c:117-122 | the mask holds exactly the chosen modifier bits and no other bit; subset 0 gives mask 0 |
| `KeyGrab.SubsetMasksDistinct` | pahkd.c:116-122 | different subset numbers give different masks |
| `KeyGrab.SubsetMasksCoverModCombinations` | pahkd.c:116-122 | the eight masks are exactly the ORs of the subsets of {SHIFT, LOCK, MOD_2} |
| `KeyGrab.BuildMask` | pahkd.c:117-122 | the inner loop's `mod` has exactly the modifier bits that `modc` selects |
| `KeyGrab.AllGrabsAt` | pahkd.c:115-123 | grab number keyi × 8 + modc is keycode keyi under subset mask modc |
| `KeyGrab.AllGrabsLayout` | pahkd.c:115-123 | the full run is 3 × 8 = 24 grabs, keycode-major |
| `KeyGrab.AllGrabsOncePerPair` | pahkd.c:115-123 | every (keycode, modifier combination) pair is grabbed exactly once, and nothing else is |
| `KeyGrab.AttemptStopsAtFirstFailure` | pahkd.c:123-126 | the grabs sent are a prefix of the plan, all but the last succeeded, the last failed exactly when some grab fails, and the whole plan is sent when none fails |
| `KeyGrab.AttemptAfterSuccesses` | pahkd.c:123-126 | after successful grabs, a refused grab is the last one sent |
| `KeyGrab.AttemptPrefixBound` | pahkd.c:123-126 | when grab number k fails, nothing past it is sent |
| `KeyGrab.GrabKeys` | pahkd.c:115-128 | the loop sends exactly the plan up to and including the first refusal, and returns 1 (main exits with 1) exactly when some grab is refused, 0 (startup continues to the main loop) otherwise |
| `KeyGrab.VolUpShiftLockConflict` | pahkd.c:123-126 | if (volume up, SHIFT+LOCK) is refused, startup fails and at most the first 20 grabs are sent |

## Left out

- XCB connection setup, the screen lookup, event allocation and `free`, and registering the X file descriptor with the main loop (pahkd.c:103-113, 130). These are I/O plumbing. The event queue is a sequence, and `xcb_connection_has_error` is a boolean parameter.
- The PulseAudio main loop, the context's connection and state transitions, the network protocol and the order in which asynchronous replies arrive (pahkd.c:96-101, 132-134). Requests are logged, never executed. Each callback is a method that the caller invokes in whatever order the replies come.
- The per-channel rescaling done by `pa_cvolume_scale` inside libpulse. It is the parameter `scale`, known only through its documented contract (`ScalesLoudestTo`).
- Pulse.CvolumeIncClamp: requires `inc <= limit <= PA_VOLUME_MAX`. The library's unsigned wrap-around of `limit - inc` for other arguments is not modelled. pahkd always passes 3276 with PA_VOLUME_NORM or PA_VOLUME_MAX.
- Mixer.UserData.ServerInfoCallback: requires the server's default sink name to fit the 256-byte buffer, counting one character as one byte (names are treated as ASCII; a shorter name of multi-byte UTF-8 characters can still overflow). The overflow of the unchecked `strcpy` for a longer name is not modelled. Neither is the crash at pahkd.c:39 when the callback gets no record at all (libpulse passes a NULL record when the query fails or times out, and pahkd dereferences it unchecked). The crash on a NULL default sink name (no default sink) is not modelled either.
- The checks inside libpulse's by-name calls that refuse a command locally: a set-volume command with an invalid vector, any command or query issued before the context is READY (such as a key press before the connection is up), and a command to the empty name before the first server-info reply. The model logs every command as pahkd issues it.
- Error messages written to stderr (pahkd.c:105, 111, 124).
- The arguments pahkd ignores: `eol` of the sink-info callback, `idx` of the subscription callback, and the context handles. The sink-info and server-info records are reduced to the fields pahkd reads.
- The constant arguments of each grab (owner_events, the root window, the two grab modes). A grab is modelled as its keycode and modifier mask.
- Integer widths: `mute` is a C `int` that only ever holds 0 or 1, so it is modelled as a boolean. Volumes are unbounded naturals. They are kept within PA_VOLUME_MAX by the library's validity rules.
