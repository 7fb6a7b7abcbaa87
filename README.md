# gst-webrtcredux: a Dafny model of the media-bridge state

This project models three pieces of gst-webrtcredux, a GStreamer/WebRTC bridge
written in Rust, and proves properties of the model:

- **The sink element `WebRtcRedux`** (module `Sink`, with the codec registry in
  module `MediaTypes`). The element owns at most one "video" and one "audio"
  request pad. Each pad has a media-state slot. The slot becomes
  `NotConfigured` when the pad is requested and `Configured{media type}` on
  every caps event whose name parses. The element also keeps the ICE servers of its session
  configuration. All of this lives in one shared cell, `Option<State>`, which
  `stop` empties. The model writes the cell as the nullable field
  `WebRtcRedux.state`. Each operation has a function on the value of a
  present state (`Snapshot`), and the class method doing that operation in
  place is proved to agree with the function. The lemmas about the functions
  state the properties. The media type is parsed by matching the input
  against strum's alias table, ignoring ASCII case, in declaration order.
- **The receiver element `WebRtcReduxReceiver`** (module `Receiver`).
  `add_info` overwrites the four bound fields. `change_state` installs the
  system clock, with a periodic id of the bound duration, only on
  `PausedToPlaying` with a duration bound. It then returns what the parent
  returns. `fill` only hands the call to the parent.
- **The pad-routing closure of the interactive example** (module `Routing`).
  `src_0` goes to the video depayloader and `src_1` to the audio one. Any
  other name panics, as do a missing sink pad and a failed link.

The scenario methods `Sink.PadLifecycleScenario` and `Receiver.RebindScenario`
call the class methods in typical orders (request, caps, buffer, release,
request again; bind twice, then play) and assert the outcomes. They carry no contract of their own.

Opaque things are tokens or parameters:
- the remote track, the runtime handle and a depayloader's sink pad are tokens;
- whether a buffer maps readable is a boolean;
- what the parent class returns from `change_state` and `fill` is a function parameter;
- the outcome of `Pad::link` is a function parameter;
- the system clock is passed in, rather than obtained with `SystemClock::obtain`.

Panics are explicit outcomes in the routing closure and in the pad event
handler: `EventPanic` and `RoutingPanic`. The event handler is modelled on
the shared cell, which may be empty. It reads the event and parses the caps
name before it touches the cell, because Rust evaluates the right-hand side of
an assignment before its place. So with the cell emptied, a non-caps event
still returns true, and an unparsable caps name still panics on the parse. Only
storing a parsed type panics on the empty cell (`StateGone`). The other element
methods (`add_ice_servers`, `request_new_pad`, `release_pad`) `unwrap` the
state at their start, so they panic once `stop` has run. The model makes that a
`requires state != null` instead.

The model follows the code as written, including these behaviours:
- The chain handler accepts a readable buffer whether or not the pad is configured.
- Every caps event overwrites the slot. A slot is not configured "exactly once".
- A second `add_info` rebinds the receiver. It is not rejected.
- `add_ice_servers` has no guard against a peer connection that already
  exists. The element builds no peer connection in the modelled code.
- `start` does not rebuild the state that `stop` discarded. After a restart,
  `add_ice_servers`, `request_new_pad` and `release_pad` panic (here: their
  precondition fails), and a pad's event handler panics on every caps event.
- `release_pad` clears the audio slot for every pad not named "video".
- A parse failure is strum's `VariantNotFound`, which does not carry the offending string; neither does the `expect` that panics on it, nor the `unreachable!()` of the routing closure.
- `fill` pulls nothing from the track. It returns the parent's result.
- `change_state` requests a periodic id from the system clock and
  drops it. It does not wait on the id. It then sets the system clock itself
  as the element's clock.

## Model

| member | source | states |
|---|---|---|
| `MediaTypes.EqIgnoreAsciiCaseLowered` | src/webrtcredux/imp.rs:31-47 | the comparison `ascii_case_insensitive` uses holds exactly when the two strings are equal after ASCII lower-casing (`to_ascii_lowercase`) |
| `MediaTypes.CaseChangeIgnored` | src/webrtcredux/imp.rs:31-47 | lowering any one character of a string leaves it equal to the original ignoring ASCII case |
| `MediaTypes.LookupFirstMatch` | src/webrtcredux/imp.rs:31-47 | the contract of `Lookup`, the match strum derives: it fails exactly when no alias matches ignoring ASCII case, and otherwise returns the variant of the first alias that matches |
| `MediaTypes.LookupIgnoresCase` | src/webrtcredux/imp.rs:31-47 | lookup in any alias table gives the same result for two inputs that are equal ignoring ASCII case (`ascii_case_insensitive`) |
| `MediaTypes.FromStrAlias` | src/webrtcredux/imp.rs:31-47 | each of the eleven serialize strings parses to the variant it is declared on |
| `MediaTypes.FromStrIgnoresCase` | src/webrtcredux/imp.rs:31-47 | `from_str` is case insensitive: inputs equal up to ASCII case parse to the same result |
| `MediaTypes.FromStrComplete` | src/webrtcredux/imp.rs:31-47 | any input equal to an alias up to ASCII case parses to that alias's variant |
| `MediaTypes.FromStrSound` | src/webrtcredux/imp.rs:31-47 | with `FromStrFails` and `FromStrComplete`, the contract of `FromStr` (`MediaType::from_str`): a successful parse returns a variant one of whose aliases equals the input up to ASCII case |
| `MediaTypes.FromStrFails` | src/webrtcredux/imp.rs:31-47 | the parse fails if and only if the input matches no alias |
| `MediaTypes.AliasesDisjoint` | src/webrtcredux/imp.rs:31-47 | aliases of different variants never match each other, so the parse does not depend on the order of the arms |
| `MediaTypes.FromStrUpperCase` | src/webrtcredux/imp.rs:33 | "VIDEO/X-H264" parses to H264 |
| `MediaTypes.FromStrUnclassified` | src/webrtcredux/imp.rs:31-47 | an input that cannot match any alias by its length and three of its lower-cased characters fails with `VariantNotFound` |
| `MediaTypes.FromStrUnknown` | src/webrtcredux/imp.rs:31-47 | "video/x-vp8" matches no alias and fails with `VariantNotFound` |
| `Sink.RequestPad` | src/webrtcredux/imp.rs:161-246 | a pad is returned if and only if the template is "video" or "audio" and its slot is empty; then the pad has the template's name, that slot becomes `NotConfigured`, and the other slot and the ICE servers stay; otherwise nothing changes |
| `Sink.CapsMime` | src/webrtcredux/imp.rs:180-183 | an event without a structure panics (`NoStructure`); an event whose structure is not "GstEventCaps" yields no name; a caps event without a caps field panics (`NoCapsField`), one with empty caps panics (`EmptyCaps`), and any other caps event yields the name of its first caps structure; each if and only if |
| `Sink.OnEvent` | src/webrtcredux/imp.rs:180-188 | the handler returns true whenever it returns; a panic while reading the event is passed on with the state unchanged; a non-caps event changes nothing; a caps event whose name parses sets the pad's slot to `Configured` with the parsed type; an unparsable name panics with `VariantNotFound` and changes nothing |
| `Sink.OnEventCell` | src/webrtcredux/imp.rs:180-188 | on a present state the handler is `OnEvent`; on the cell `stop` emptied, the cell stays empty, the handler returns true exactly for a non-caps event, passes on the panics of reading and parsing, and panics with `StateGone` where it would store a parsed type |
| `Sink.CapsEventConfigures` | src/webrtcredux/imp.rs:183-184 | a caps event whose first caps structure name parses to `t` sets the pad's slot to `Configured(t)`, keeps everything else and returns true |
| `Sink.EventAfterStop` | src/webrtcredux/imp.rs:180-188 | on the emptied cell the handler panics with `StateGone` exactly where, on a present state, it would have stored a parsed type, and otherwise has the same outcome as on any present state |
| `Sink.Chain` | src/webrtcredux/imp.rs:190-196 | the chain handler returns `Ok` exactly when the buffer maps readable and `FlowError::Error` otherwise; it takes no media state |
| `Sink.Release` | src/webrtcredux/imp.rs:248-256 | the pad named "video" empties the video slot; any other name empties the audio slot; the other slot and the ICE servers are kept |
| `Sink.AddIce` | src/webrtcredux/imp.rs:71-78 | the ICE list becomes the old list followed by the new servers, in order; both slots are kept |
| `Sink.DuplicateRequestRejected` | src/webrtcredux/imp.rs:168-175 | after a successful request, a second request of the same kind returns no pad and leaves the state as it was |
| `Sink.UnknownTemplateRejected` | src/webrtcredux/imp.rs:241-244 | a template that is neither "video" nor "audio" returns no pad and changes nothing |
| `Sink.ReleaseThenRequest` | src/webrtcredux/imp.rs:248-256 | after the release, the slot check admits a new request of that kind, which sets the slot to `NotConfigured` (the pad itself is outside the model; see "## Left out") |
| `Sink.ReleaseUndoesRequest` | src/webrtcredux/imp.rs:200-202 | releasing the pad a successful request returned restores the slots and the ICE list from before the request |
| `Sink.LaterCapsEventWins` | src/webrtcredux/imp.rs:184 | of two caps events on a pad, the later one's media type is the slot's value; earlier configuration is overwritten |
| `Sink.EventTouchesOwnSlotOnly` | src/webrtcredux/imp.rs:221 | an event on one pad leaves the other pad's slot and the ICE servers unchanged |
| `Sink.AddIceAssociative` | src/webrtcredux/imp.rs:77 | appending two lists in two calls equals appending their concatenation in one |
| `Sink.TemplateCapsParse` | src/webrtcredux/imp.rs:121-159 | every caps name of the two pad templates parses to the codec it names, so, while the state is present, a caps event whose caps fit a template configures the slot instead of panicking |
| `Sink.State.constructor` | src/webrtcredux/imp.rs:96-101 | a fresh state has both slots absent and no ICE server |
| `Sink.WebRtcRedux.constructor` | src/webrtcredux/imp.rs:87-102 | `with_class` leaves the state present, with both slots absent and an empty ICE list |
| `Sink.WebRtcRedux.AddIceServers` | src/webrtcredux/imp.rs:71-78 | the state afterwards is `AddIce` of the state before |
| `Sink.WebRtcRedux.RequestNewPad` | src/webrtcredux/imp.rs:161-246 | the new state and the returned pad are those of `RequestPad` on the old state |
| `Sink.WebRtcRedux.HandleEvent` | src/webrtcredux/imp.rs:180-188 | with or without a state present, the cell afterwards and the handler's outcome are those of `OnEventCell` on the cell before; the cell itself is not replaced |
| `Sink.WebRtcRedux.ReleasePad` | src/webrtcredux/imp.rs:248-256 | the state afterwards is `Release` of the state before, by the pad's name |
| `Sink.WebRtcRedux.Start` | src/webrtcredux/imp.rs:266-269 | `start` succeeds and leaves the state cell as it was |
| `Sink.WebRtcRedux.Stop` | src/webrtcredux/imp.rs:271-276 | `stop` succeeds and leaves the state cell empty |
| `Receiver.FormatClock` | src/webrtcredux/receiver/imp.rs:117-122 | the system clock is asked for one periodic id whose start is its internal time and whose interval is the duration (recorded in its log of requests; the id itself is dropped); its time is unchanged; the same clock is returned |
| `Receiver.ClockInterval` | src/webrtcredux/receiver/imp.rs:84-88 | a clock is installed if and only if the transition is `PausedToPlaying` and a duration is bound, and its interval is that duration |
| `Receiver.State.constructor` | src/webrtcredux/receiver/imp.rs:22-28 | the default state has track, duration, handle and media type all absent |
| `Receiver.WebRtcReduxReceiver.constructor` | src/webrtcredux/receiver/imp.rs:30-33 | a default receiver has nothing bound and no clock set |
| `Receiver.WebRtcReduxReceiver.AddInfo` | src/webrtcredux/receiver/imp.rs:36-41 | track, handle and media type become `Some` of the arguments and the duration becomes exactly the argument, whatever was bound before |
| `Receiver.WebRtcReduxReceiver.ChangeState` | src/webrtcredux/receiver/imp.rs:83-91 | the result is the parent's result for the same transition; when `ClockInterval` gives an interval the element's clock becomes the system clock with one more periodic id of that interval, and otherwise neither the clock nor its ids change; the receiver state is not modified |
| `Receiver.WebRtcReduxReceiver.Fill` | src/webrtcredux/receiver/imp.rs:95-103 | the result is the parent's fill result for the same offset and length |
| `Routing.BranchFor` | examples/vp8-client/interactive-example/src/main.rs:164-174 | "src_0" selects the video depayloader, "src_1" the audio depayloader, and every other name panics (`unreachable!`) |
| `Routing.OnPadAdded` | examples/vp8-client/interactive-example/src/main.rs:161-180 | the handler links exactly when the name selects a branch, that depayloader has a sink pad and the link succeeds; the link joins the pad to that sink pad; an unknown name, a missing sink pad and a failed link each panic with their own reason |
| `Routing.BranchesDistinct` | examples/vp8-client/interactive-example/src/main.rs:164-170 | the two accepted names are routed to different branches |
| `Routing.RoutingDependsOnName` | examples/vp8-client/interactive-example/src/main.rs:162-177 | two pads of the same name reach the same branch and sink pad, and fail alike except in the link step |

## Left out

- Pad templates, caps construction and element metadata (src/webrtcredux/imp.rs:108-159, src/webrtcredux/receiver/imp.rs:45-81) are declarative library calls. Only the template caps names appear, in `Sink.TemplateCapsParse`.
- `provide_clock` (src/webrtcredux/imp.rs:258-260) only returns the system clock.
- Building the webrtc `API`, media engine and interceptor registry (src/webrtcredux/imp.rs:88-94) creates foreign library objects. The `RTCConfiguration` fields other than the ICE list are left out for the same reason.
- The inner `webrtc_state` cell (src/webrtcredux/imp.rs:62) is never emptied by the modelled code. The model therefore keeps its ICE list directly in `State`.
- Locks are not modelled: every operation is one atomic step. For example, `add_info` takes four separate locks.
- Pad creation and teardown (`Pad::from_template`, `add_pad`, `parent_release_pad`) belong to GStreamer. A pad is its name, and the element's pad list is not modelled.
- `Sink.RequestPad` / `Sink.WebRtcRedux.RequestNewPad`: `element.add_pad(&pad).unwrap()` (src/webrtcredux/imp.rs:198, 235) is assumed to succeed. It would panic if a pad of the same name were still on the element.
- `Sink.ReleaseThenRequest` / `Sink.ReleaseUndoesRequest`: `release_pad` (src/webrtcredux/imp.rs:248-256) clears only the slot and hands the pad to `parent_release_pad`. It does not itself call `remove_pad`. Whether the pad leaves the element is up to GStreamer. So these lemmas speak of the slots only: if the old pad stayed, the second request would panic in `add_pad`.
- `Sink.WebRtcRedux.AddIceServers`, `RequestNewPad`, `ReleasePad`: a call after `stop` panics in the source on its first `unwrap`, before anything else happens. The model states this as `requires state != null` and does not model the panic.
- Panic messages are not modelled. The branch carried by `NoSinkPad` and `LinkFailed` is an annotation of the model, not part of the message.
- Logging (`debug!`, `trace!`, `info!`) has no effect on state.
- Receiver: the contents of the buffer `fill` writes are the parent's business and are not modelled. Offset and length are kept as `u64` and `u32`.
- Receiver: the timing of a real clock is not modelled. Only the periodic id that is requested is recorded.
- `Receiver.FormatClock`: a zero duration is recorded like any other. Whether GStreamer's `new_periodic_id` refuses a zero interval is library behaviour outside the modelled code.
- src/webrtcredux/receiver/mod.rs is a thin wrapper with a forwarding `add_info`. It has nothing of its own.
- The rest of examples/vp8-client/interactive-example/src/main.rs is I/O and orchestration: stdin, clipboard, base64, SDP parsing, signals and asynchronous offer calls.
- examples/vp8-client/www/main.js is browser code.
