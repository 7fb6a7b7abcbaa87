/**
 * The sink element `WebRtcRedux`: at most one "video" and one "audio"
 * request pad, the media state each pad learns from its caps events, and
 * the ICE servers of the session configuration.
 *
 * The element keeps everything in one shared cell, `Option<State>`, that
 * `stop` empties. The value of a present `State` is `Snapshot`; the
 * functions below give the transition of each operation on that value and
 * the class `WebRtcRedux` performs the same operations in place, each
 * method proved to agree with its function. Every operation is one atomic
 * step: the locks of the source are not modelled.
 */
module Sink {
  import opened Wrappers
  import opened MediaTypes
  import opened Flow

  /** Whether the encoding carried by a sink pad has been learned yet. */
  datatype MediaState = NotConfigured | Configured(mediaType: MediaType)

  /** `RTCIceServer`: the URLs of one STUN or TURN server and its credentials. */
  datatype IceServer = IceServer(urls: seq<string>, username: string, credential: string)

  /** The two kinds of request pad, one pad template each. */
  datatype PadKind = VideoPad | AudioPad

  /** A sink pad, known by its name. */
  datatype Pad = Pad(name: string)

  /** Caps, reduced to the names of their structures in order. */
  datatype Caps = Caps(structureNames: seq<string>)

  /** The structure of an event: its name and the value of its "caps" field, if it has one of type caps. */
  datatype Structure = Structure(name: string, capsField: Option<Caps>)

  /** An event arriving on a sink pad; some events (end of stream, flushes) carry no structure. */
  datatype Event = Event(structure: Option<Structure>)

  /**
   * Why the event handler panics: one of the `unwrap`s on the event meets
   * `None`, the parse fails (the `expect` reports only the parse error), or
   * the shared state is gone when the parsed type is to be stored.
   */
  datatype EventPanic = NoStructure | NoCapsField | EmptyCaps | UnknownMediaType(error: ParseError) | StateGone

  /** What the event handler does: return its boolean, or panic. */
  datatype EventOutcome = Handled(handled: bool) | Panicked(reason: EventPanic)

  /** A buffer, reduced to whether mapping it readable succeeds. */
  datatype Buffer = Buffer(mapsReadable: bool)

  /** The value of a present `State`: the two pad slots and the ICE servers of the session configuration. */
  datatype Snapshot = Snapshot(video: Option<MediaState>, audio: Option<MediaState>, iceServers: seq<IceServer>)

  /** The state `with_class` builds: no pad requested, the default configuration with no ICE server. */
  const Initial: Snapshot := Snapshot(None, None, [])

  /** The name of the template, and of the pad, of each kind. */
  function PadName(kind: PadKind): (r: string)
    ensures r == "video" <==> kind == VideoPad
    ensures r == "audio" <==> kind == AudioPad
  {
    match kind
    case VideoPad => "video"
    case AudioPad => "audio"
  }

  /** The slot of one kind. */
  function Slot(s: Snapshot, kind: PadKind): Option<MediaState>
  {
    match kind
    case VideoPad => s.video
    case AudioPad => s.audio
  }

  /** `s` with the slot of `kind` replaced by `m` and all else kept. */
  function WithSlot(s: Snapshot, kind: PadKind, m: Option<MediaState>): (r: Snapshot)
    ensures Slot(r, kind) == m
    ensures forall k :: k != kind ==> Slot(r, k) == Slot(s, k)
    ensures r.iceServers == s.iceServers
  {
    match kind
    case VideoPad => s.(video := m)
    case AudioPad => s.(audio := m)
  }

  /** `request_new_pad` on the value: the new state and the pad returned. */
  function RequestPad(s: Snapshot, template: string): (r: (Snapshot, Option<Pad>))
    ensures r.1.Some? <==> exists k :: template == PadName(k) && Slot(s, k).None?
    ensures r.1.None? ==> r.0 == s
    ensures forall k :: template == PadName(k) && Slot(s, k).None? ==>
              r.1 == Some(Pad(template)) && r.0 == WithSlot(s, k, Some(NotConfigured))
  {
    match template
    case "video" =>
      assert PadName(VideoPad) == template;
      if s.video.Some? then (s, None) else (s.(video := Some(NotConfigured)), Some(Pad("video")))
    case "audio" =>
      assert PadName(AudioPad) == template;
      if s.audio.Some? then (s, None) else (s.(audio := Some(NotConfigured)), Some(Pad("audio")))
    case _ => (s, None)
  }

  /** The caps structure name a caps event carries, `None` for any other event, or the panic on the way. */
  function CapsMime(ev: Event): (r: Result<Option<string>, EventPanic>)
    ensures r.Ok? && r.value.Some? ==>
              ev.structure.Some? && ev.structure.value.name == "GstEventCaps" &&
              ev.structure.value.capsField.Some? &&
              |ev.structure.value.capsField.value.structureNames| > 0 &&
              r.value.value == ev.structure.value.capsField.value.structureNames[0]
    ensures r == Ok(None) <==> ev.structure.Some? && ev.structure.value.name != "GstEventCaps"
    ensures r == Err(NoStructure) <==> ev.structure.None?
    ensures r == Err(NoCapsField) <==>
              ev.structure.Some? && ev.structure.value.name == "GstEventCaps" && ev.structure.value.capsField.None?
    ensures r == Err(EmptyCaps) <==>
              ev.structure.Some? && ev.structure.value.name == "GstEventCaps" && ev.structure.value.capsField.Some? &&
              |ev.structure.value.capsField.value.structureNames| == 0
    ensures ev.structure.Some? && ev.structure.value.name == "GstEventCaps" && ev.structure.value.capsField.Some? &&
            |ev.structure.value.capsField.value.structureNames| > 0 ==>
              r == Ok(Some(ev.structure.value.capsField.value.structureNames[0]))
  {
    match ev.structure
    case None => Err(NoStructure)
    case Some(st) =>
      if st.name != "GstEventCaps" then Ok(None)
      else match st.capsField
        case None => Err(NoCapsField)
        case Some(caps) =>
          if |caps.structureNames| == 0 then Err(EmptyCaps) else Ok(Some(caps.structureNames[0]))
  }

  /** The event handler of the pad of `kind` on the value: the new state and what the handler does. */
  function OnEvent(s: Snapshot, kind: PadKind, ev: Event): (r: (Snapshot, EventOutcome))
    ensures r.1.Handled? ==> r.1.handled
    ensures r.1.Panicked? ==> r.0 == s
    ensures CapsMime(ev).Err? ==> r == (s, Panicked(CapsMime(ev).error))
    ensures CapsMime(ev) == Ok(None) ==> r == (s, Handled(true))
    ensures CapsMime(ev).Ok? && CapsMime(ev).value.Some? && FromStr(CapsMime(ev).value.value).Ok? ==>
              r == (WithSlot(s, kind, Some(Configured(FromStr(CapsMime(ev).value.value).value))), Handled(true))
    ensures CapsMime(ev).Ok? && CapsMime(ev).value.Some? && FromStr(CapsMime(ev).value.value).Err? ==>
              r == (s, Panicked(UnknownMediaType(FromStr(CapsMime(ev).value.value).error)))
  {
    match CapsMime(ev)
    case Err(p) => (s, Panicked(p))
    case Ok(None) => (s, Handled(true))
    case Ok(Some(mime)) =>
      match FromStr(mime)
      case Err(e) => (s, Panicked(UnknownMediaType(e)))
      case Ok(t) => (WithSlot(s, kind, Some(Configured(t))), Handled(true))
  }

  /**
   * The event handler on the shared cell, which `stop` may have emptied. The
   * handler touches the cell only to store a parsed caps type, after the
   * event has been read and the name parsed, so an emptied cell changes the
   * outcome only there: the store panics.
   */
  function OnEventCell(cell: Option<Snapshot>, kind: PadKind, ev: Event): (r: (Option<Snapshot>, EventOutcome))
    ensures cell.Some? ==> r == (Some(OnEvent(cell.value, kind, ev).0), OnEvent(cell.value, kind, ev).1)
    ensures cell.None? ==> r.0.None?
    ensures cell.None? ==> (r.1 == Handled(true) <==> CapsMime(ev) == Ok(None))
    ensures cell.None? && CapsMime(ev).Err? ==> r.1 == Panicked(CapsMime(ev).error)
    ensures cell.None? && CapsMime(ev).Ok? && CapsMime(ev).value.Some? ==>
              r.1 == if FromStr(CapsMime(ev).value.value).Ok? then Panicked(StateGone)
                     else Panicked(UnknownMediaType(FromStr(CapsMime(ev).value.value).error))
  {
    match cell
    case Some(s) =>
      var (s', outcome) := OnEvent(s, kind, ev);
      (Some(s'), outcome)
    case None =>
      match CapsMime(ev)
      case Err(p) => (None, Panicked(p))
      case Ok(None) => (None, Handled(true))
      case Ok(Some(mime)) =>
        match FromStr(mime)
        case Err(e) => (None, Panicked(UnknownMediaType(e)))
        case Ok(_) => (None, Panicked(StateGone))
  }

  /**
   * The chain handler of either pad: it maps the buffer and returns. It
   * takes no state, so it neither reads nor changes a media state.
   */
  function Chain(buffer: Buffer): (r: Result<FlowSuccess, FlowError>)
    ensures r == Ok(FlowOk) <==> buffer.mapsReadable
    ensures r == Err(Error) <==> !buffer.mapsReadable
  {
    if buffer.mapsReadable then Ok(FlowOk) else Err(Error)
  }

  /** `release_pad` on the value: the pad named "video" clears the video slot, every other pad the audio slot. */
  function Release(s: Snapshot, padName: string): (r: Snapshot)
    ensures r.iceServers == s.iceServers
    ensures padName == "video" ==> r.video.None? && r.audio == s.audio
    ensures padName != "video" ==> r.audio.None? && r.video == s.video
  {
    if padName == "video" then s.(video := None) else s.(audio := None)
  }

  /** `add_ice_servers` on the value. */
  function AddIce(s: Snapshot, servers: seq<IceServer>): (r: Snapshot)
    ensures r.video == s.video && r.audio == s.audio
    ensures |r.iceServers| == |s.iceServers| + |servers|
    ensures r.iceServers[..|s.iceServers|] == s.iceServers
    ensures r.iceServers[|s.iceServers|..] == servers
  {
    s.(iceServers := s.iceServers + servers)
  }

  /** A second request of a kind whose slot is taken returns no pad and changes nothing. */
  lemma {:induction false} DuplicateRequestRejected(s: Snapshot, kind: PadKind)
    requires RequestPad(s, PadName(kind)).1.Some?
    ensures var s1 := RequestPad(s, PadName(kind)).0;
            RequestPad(s1, PadName(kind)) == (s1, None)
  {
    var s1 := RequestPad(s, PadName(kind)).0;
    assert Slot(s1, kind) == Some(NotConfigured);
  }

  /** A template that is neither "video" nor "audio" gives no pad and changes nothing. */
  lemma {:induction false} UnknownTemplateRejected(s: Snapshot, template: string)
    requires template != "video" && template != "audio"
    ensures RequestPad(s, template) == (s, None)
  {
  }

  /** Releasing a pad frees its slot: a later request of the same kind succeeds. */
  lemma {:induction false} ReleaseThenRequest(s: Snapshot, kind: PadKind)
    ensures var s1 := Release(s, PadName(kind));
            RequestPad(s1, PadName(kind)) == (WithSlot(s1, kind, Some(NotConfigured)), Some(Pad(PadName(kind))))
  {
    assert Slot(Release(s, PadName(kind)), kind).None?;
  }

  /** Release undoes a successful request. */
  lemma {:induction false} ReleaseUndoesRequest(s: Snapshot, kind: PadKind)
    requires Slot(s, kind).None?
    ensures var r := RequestPad(s, PadName(kind));
            r.1 == Some(Pad(PadName(kind))) && Release(r.0, r.1.value.name) == s
  {
    assert RequestPad(s, PadName(kind)).0 == WithSlot(s, kind, Some(NotConfigured));
  }

  /** A caps event overwrites the slot: of two caps events the later decides, whatever the slot held. */
  lemma {:induction false} LaterCapsEventWins(s: Snapshot, kind: PadKind, ev1: Event, ev2: Event, t1: MediaType, t2: MediaType)
    requires CapsMime(ev1).Ok? && CapsMime(ev1).value.Some? && FromStr(CapsMime(ev1).value.value) == Ok(t1)
    requires CapsMime(ev2).Ok? && CapsMime(ev2).value.Some? && FromStr(CapsMime(ev2).value.value) == Ok(t2)
    ensures OnEvent(OnEvent(s, kind, ev1).0, kind, ev2).0 == WithSlot(s, kind, Some(Configured(t2)))
  {
    var s1 := OnEvent(s, kind, ev1).0;
    assert s1 == WithSlot(s, kind, Some(Configured(t1)));
    assert OnEvent(s1, kind, ev2).0 == WithSlot(s1, kind, Some(Configured(t2)));
  }

  /** A caps event whose first caps structure names a known type configures the pad's slot with it, whatever the slot held. */
  lemma {:induction false} CapsEventConfigures(s: Snapshot, kind: PadKind, names: seq<string>, t: MediaType)
    requires |names| > 0 && FromStr(names[0]) == Ok(t)
    ensures OnEvent(s, kind, Event(Some(Structure("GstEventCaps", Some(Caps(names)))))) ==
            (WithSlot(s, kind, Some(Configured(t))), Handled(true))
  {
    assert CapsMime(Event(Some(Structure("GstEventCaps", Some(Caps(names)))))) == Ok(Some(names[0]));
  }

  /**
   * With the cell emptied by `stop`, the handler panics where it would have
   * stored a parsed type, and otherwise does exactly what it does on any
   * present state.
   */
  lemma {:induction false} EventAfterStop(s: Snapshot, kind: PadKind, ev: Event)
    ensures OnEventCell(None, kind, ev).1 == Panicked(StateGone) <==>
              OnEvent(s, kind, ev).1 == Handled(true) && CapsMime(ev).Ok? && CapsMime(ev).value.Some?
    ensures OnEventCell(None, kind, ev).1 != Panicked(StateGone) ==> OnEventCell(None, kind, ev).1 == OnEvent(s, kind, ev).1
  {
    if CapsMime(ev).Ok? && CapsMime(ev).value.Some? {
      if FromStr(CapsMime(ev).value.value).Ok? {
        assert OnEvent(s, kind, ev).1 == Handled(true);
      }
    }
  }

  /** A caps event on one pad leaves the other pad's slot and the ICE servers alone. */
  lemma {:induction false} EventTouchesOwnSlotOnly(s: Snapshot, kind: PadKind, other: PadKind, ev: Event)
    requires other != kind
    ensures Slot(OnEvent(s, kind, ev).0, other) == Slot(s, other)
    ensures OnEvent(s, kind, ev).0.iceServers == s.iceServers
  {
  }

  /** Appending servers in two calls is appending them in one. */
  lemma {:induction false} AddIceAssociative(s: Snapshot, xs: seq<IceServer>, ys: seq<IceServer>)
    ensures AddIce(AddIce(s, xs), ys) == AddIce(s, xs + ys)
  {
    assert s.iceServers + xs + ys == s.iceServers + (xs + ys);
  }

  /** The caps names of the pad templates of each kind. */
  const VideoTemplateCaps: seq<string> := ["video/x-h264", "video/VP8", "video/VP9"]
  const AudioTemplateCaps: seq<string> := ["audio/x-opus", "audio/G722", "audio/x-mulaw", "audio/alaw"]

  /** Every caps name of the pad templates parses, each to the codec it names; so, while the state is present, a caps event whose caps fit a template configures the slot instead of panicking. */
  lemma TemplateCapsParse()
    ensures FromStr(VideoTemplateCaps[0]) == Ok(H264)
    ensures FromStr(VideoTemplateCaps[1]) == Ok(VP8)
    ensures FromStr(VideoTemplateCaps[2]) == Ok(VP9)
    ensures FromStr(AudioTemplateCaps[0]) == Ok(Opus)
    ensures FromStr(AudioTemplateCaps[1]) == Ok(G722)
    ensures FromStr(AudioTemplateCaps[2]) == Ok(Mulaw)
    ensures FromStr(AudioTemplateCaps[3]) == Ok(Alaw)
  {
    FromStrAlias(1);
    FromStrAlias(2);
    FromStrAlias(3);
    FromStrAlias(5);
    FromStrAlias(6);
    FromStrAlias(8);
    FromStrAlias(10);
  }

  /** The shared `State`, updated in place. */
  class State {
    var videoState: Option<MediaState>
    var audioState: Option<MediaState>
    /** `webrtc_state.config.ice_servers`; the inner `webrtc_state` is never emptied, so it is always present here. */
    var iceServers: seq<IceServer>

    constructor ()
      ensures View() == Initial
    {
      videoState, audioState, iceServers := None, None, [];
    }

    /** The value of this state. */
    function View(): Snapshot
      reads this
    {
      Snapshot(videoState, audioState, iceServers)
    }
  }

  /** The element; `state == null` is the emptied cell after `stop`. */
  class WebRtcRedux {
    var state: State?

    /** `with_class`: both slots absent, no ICE server. */
    constructor ()
      ensures state != null && fresh(state)
      ensures state.View() == Initial
    {
      state := new State();
    }

    /** Appends `servers` to the ICE servers of the configuration; the state must be present. */
    method AddIceServers(servers: seq<IceServer>)
      requires state != null
      modifies state
      ensures state.View() == AddIce(old(state.View()), servers)
    {
      state.iceServers := state.iceServers + servers;
    }

    /** Creates the pad of the requested template, unless its slot is taken or the template is unknown. */
    method RequestNewPad(template: string) returns (pad: Option<Pad>)
      requires state != null
      modifies state
      ensures (state.View(), pad) == RequestPad(old(state.View()), template)
    {
      match template
      case "video" =>
        if state.videoState.Some? {
          return None;
        }
        state.videoState := Some(NotConfigured);
        pad := Some(Pad("video"));
      case "audio" =>
        if state.audioState.Some? {
          return None;
        }
        state.audioState := Some(NotConfigured);
        pad := Some(Pad("audio"));
      case _ =>
        pad := None;
    }

    /** The event function installed on the pad of `kind`; it holds the shared cell, which may have been emptied. */
    method HandleEvent(kind: PadKind, ev: Event) returns (outcome: EventOutcome)
      modifies state
      ensures state == old(state)
      ensures state == null ==> OnEventCell(None, kind, ev) == (None, outcome)
      ensures state != null ==> OnEventCell(Some(old(state.View())), kind, ev) == (Some(state.View()), outcome)
    {
      var mime := CapsMime(ev);
      if mime.Err? {
        return Panicked(mime.error);
      }
      if mime.value.Some? {
        var parsed := FromStr(mime.value.value);
        if parsed.Err? {
          return Panicked(UnknownMediaType(parsed.error));
        }
        if state == null {
          return Panicked(StateGone);
        }
        match kind
        case VideoPad => state.videoState := Some(Configured(parsed.value));
        case AudioPad => state.audioState := Some(Configured(parsed.value));
      }
      outcome := Handled(true);
    }

    /** Clears the slot the pad's name selects: "video" the video slot, any other name the audio slot. */
    method ReleasePad(pad: Pad)
      requires state != null
      modifies state
      ensures state.View() == Release(old(state.View()), pad.name)
    {
      if pad.name == "video" {
        state.videoState := None;
      } else {
        state.audioState := None;
      }
    }

    /** `start` only reports success; in particular it does not rebuild a state `stop` discarded. */
    method Start() returns (ok: bool)
      ensures ok
      ensures state == old(state)
    {
      ok := true;
    }

    /** Discards the whole state. */
    method Stop() returns (ok: bool)
      modifies this
      ensures ok && state == null
    {
      state := null;
      ok := true;
    }
  }

  /** The scenario of a video pad learning VP8 and then accepting a buffer; and a second audio request. */
  method PadLifecycleScenario(element: WebRtcRedux)
    requires element.state != null && element.state.View() == Initial
    modifies element.state
  {
    var video := element.RequestNewPad("video");
    assert video == Some(Pad("video"));
    assert element.state.videoState == Some(NotConfigured);

    // A buffer before any caps: the chain handler does not look at the media state.
    assert Chain(Buffer(true)) == Ok(FlowOk);

    FromStrAlias(2);
    var caps := Event(Some(Structure("GstEventCaps", Some(Caps(["video/VP8"])))));
    var handled := element.HandleEvent(VideoPad, caps);
    assert handled == Handled(true);
    assert element.state.videoState == Some(Configured(VP8));

    var audio1 := element.RequestNewPad("audio");
    var audio2 := element.RequestNewPad("audio");
    assert audio1 == Some(Pad("audio")) && audio2 == None;

    element.ReleasePad(video.value);
    assert element.state.videoState == None && element.state.audioState == Some(NotConfigured);
    var again := element.RequestNewPad("video");
    assert again == Some(Pad("video"));
  }
}
