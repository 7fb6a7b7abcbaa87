/**
 * The receiver element `WebRtcReduxReceiver`, one per accepted remote
 * track: the information `add_info` binds to it, and the clock it installs
 * when it starts playing.
 *
 * The remote track and the runtime handle are opaque tokens, a clock time
 * is a `nat` of nanoseconds, and what the parent class (`BaseSrc`) does on a
 * state change or a fill is a parameter: this model sees only that the
 * element hands the call on and returns what the parent returns.
 */
module Receiver {
  import opened Wrappers
  import opened Flow

  /** The receiver's tag of the kind of track it carries. */
  datatype MediaType = Video | Audio

  /** `Arc<TrackRemote>`, as an opaque token. */
  datatype Track = Track(id: nat)

  /** The tokio runtime `Handle`, as an opaque token. */
  datatype Handle = Handle(id: nat)

  /** `gst::StateChange`: the transitions an element is asked to make. */
  datatype StateChange =
    | NullToReady | ReadyToPaused | PausedToPlaying | PlayingToPaused | PausedToReady | ReadyToNull
    | NullToNull | ReadyToReady | PausedToPaused | PlayingToPlaying

  /** The outcome of a state change. */
  datatype StateChangeSuccess = Success | Async | NoPreroll
  datatype StateChangeError = StateChangeError


  newtype u64 = x: int | 0 <= x < 0x1_0000_0000_0000_0000
  newtype u32 = x: int | 0 <= x < 0x1_0000_0000

  /** A periodic notification requested from a clock: its first time and its interval. */
  datatype PeriodicId = PeriodicId(startTime: nat, interval: nat)

  /** The system clock: its internal time and the periodic notifications requested from it. */
  class SystemClock {
    var internalTime: nat
    var periodicIds: seq<PeriodicId>

    constructor (now: nat)
      ensures internalTime == now && periodicIds == []
    {
      internalTime, periodicIds := now, [];
    }
  }

  /**
   * `format_clock`: asks the system clock for a notification every
   * `duration`, starting now, and returns that same clock. The source drops
   * the id it gets back without waiting on it.
   */
  method FormatClock(clock: SystemClock, duration: nat) returns (c: SystemClock)
    modifies clock
    ensures c == clock
    ensures clock.internalTime == old(clock.internalTime)
    ensures clock.periodicIds == old(clock.periodicIds) + [PeriodicId(old(clock.internalTime), duration)]
  {
    clock.periodicIds := clock.periodicIds + [PeriodicId(clock.internalTime, duration)];
    c := clock;
  }

  /** The interval of the clock `change_state` installs for a transition, given the bound duration; `None` for no clock. */
  function ClockInterval(transition: StateChange, duration: Option<nat>): (r: Option<nat>)
    ensures r.Some? <==> transition == PausedToPlaying && duration.Some?
    ensures r.Some? ==> r == duration
  {
    if transition == PausedToPlaying then duration else None
  }

  /** The receiver's `State`, updated field by field in place. */
  class State {
    var track: Option<Track>
    var duration: Option<nat>
    var handle: Option<Handle>
    var mediaType: Option<MediaType>

    /** `State::default()`: nothing bound. */
    constructor ()
      ensures track.None? && duration.None? && handle.None? && mediaType.None?
    {
      track, duration, handle, mediaType := None, None, None, None;
    }
  }

  class WebRtcReduxReceiver {
    /** The state behind the element's lock; the lock itself is never replaced. */
    const state: State
    /** The clock the element was given by `set_clock`, if any. */
    var clock: SystemClock?

    /** The default element: nothing bound and no clock set. */
    constructor ()
      ensures fresh(state) && clock == null
      ensures state.track.None? && state.duration.None? && state.handle.None? && state.mediaType.None?
    {
      state := new State();
      clock := null;
    }

    /**
     * `add_info`: binds the track, the handle, the kind and the optional
     * duration. Every field is overwritten, so a second call rebinds the
     * element; it never fails.
     */
    method AddInfo(track: Track, handle: Handle, mediaType: MediaType, duration: Option<nat>)
      modifies state
      ensures state.track == Some(track) && state.handle == Some(handle)
      ensures state.mediaType == Some(mediaType) && state.duration == duration
    {
      state.track := Some(track);
      state.handle := Some(handle);
      state.mediaType := Some(mediaType);
      state.duration := duration;
    }

    /**
     * `change_state`: on `PausedToPlaying` with a bound duration, sets the
     * element's clock to the system clock after asking it for a periodic
     * notification of that interval; then returns what the parent returns
     * for the same transition. The receiver's state is only read.
     */
    method ChangeState(transition: StateChange, systemClock: SystemClock,
                       parentChangeState: StateChange -> Result<StateChangeSuccess, StateChangeError>)
      returns (r: Result<StateChangeSuccess, StateChangeError>)
      modifies this`clock, systemClock
      ensures r == parentChangeState(transition)
      ensures systemClock.internalTime == old(systemClock.internalTime)
      ensures ClockInterval(transition, state.duration).Some? ==>
                clock == systemClock &&
                systemClock.periodicIds == old(systemClock.periodicIds) +
                  [PeriodicId(old(systemClock.internalTime), ClockInterval(transition, state.duration).value)]
      ensures ClockInterval(transition, state.duration).None? ==>
                clock == old(clock) && systemClock.periodicIds == old(systemClock.periodicIds)
    {
      if transition == PausedToPlaying {
        if state.duration.Some? {
          var c := FormatClock(systemClock, state.duration.value);
          clock := c;
        }
      }
      r := parentChangeState(transition);
    }

    /** `fill`: hands the request to the parent and returns its result; the state is neither read nor changed. */
    method Fill(offset: u64, length: u32, parentFill: (u64, u32) -> Result<FlowSuccess, FlowError>)
      returns (r: Result<FlowSuccess, FlowError>)
      ensures r == parentFill(offset, length)
    {
      r := parentFill(offset, length);
    }
  }

  /** A second `add_info` replaces every field of the first, the duration included, even by `None`. */
  method RebindScenario(receiver: WebRtcReduxReceiver, systemClock: SystemClock,
                        parentChangeState: StateChange -> Result<StateChangeSuccess, StateChangeError>)
    requires receiver.clock == null
    modifies receiver, receiver.state, systemClock
  {
    receiver.AddInfo(Track(1), Handle(1), Video, Some(20_000_000));
    receiver.AddInfo(Track(2), Handle(1), Audio, None);
    assert receiver.state.track == Some(Track(2)) && receiver.state.mediaType == Some(Audio);
    var r := receiver.ChangeState(PausedToPlaying, systemClock, parentChangeState);
    assert receiver.clock == null;
    receiver.AddInfo(Track(2), Handle(1), Audio, Some(20_000_000));
    var ids := systemClock.periodicIds;
    r := receiver.ChangeState(PausedToPlaying, systemClock, parentChangeState);
    assert receiver.clock == systemClock && systemClock.periodicIds[|ids|].interval == 20_000_000;
  }
}
