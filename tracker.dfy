/**
 * The per-iteration update of the tracker's main loop: two independent
 * refresh timers (position every 2 seconds, city every 10), last-known-good
 * data across failed fetches, and one network-error notification that is
 * cleared by the next good fetch or after 5 seconds.
 *
 * The module-level variables of the program become the fields of
 * `IssTracker`; `Step` is the function `IssTracker.Tick` is proved against.
 * The network calls are inputs: the outcome of `get_iss_location` as an
 * optional coordinate and the geocoding outcome as a `GeocodeResponse`.
 * Timestamps are real numbers of seconds.
 */
module Tracker {
  import opened Wrappers
  import opened City

  const UPDATE_INTERVAL: real := 2.0
  const CITY_UPDATE_INTERVAL: real := 10.0
  const NOTIFICATION_DURATION: real := 5.0

  const INITIAL_CITY: string := "..."
  const NETWORK_ERROR_TAG: string := "Network/API Error"
  const NETWORK_ERROR_MESSAGE: string := "Network/API Error: Unable to fetch ISS location"

  /** A position reported by the tracking API. */
  datatype Coord = Coord(latitude: real, longitude: real)

  /** A point on the screen; how it is computed from a `Coord` is not modelled. */
  datatype Pixel = Pixel(x: real, y: real)

  /** The program's state variables at one moment. */
  datatype Snapshot = Snapshot(
    position: Option<Coord>,          // latitude, longitude
    iss: Option<Pixel>,               // iss_x, iss_y
    closestCity: string,
    notificationMessage: Option<string>,
    notificationTimer: real,
    lastUpdateTime: real,
    lastCityUpdateTime: real,
    hasInitialData: bool)

  /** The inputs of one loop iteration: the clock, and what the two network calls would return. */
  datatype TickInput = TickInput(now: real, fetched: Option<Coord>, response: GeocodeResponse)

  /** The values the variables start with. */
  function Initial(): Snapshot
  {
    Snapshot(None, None, INITIAL_CITY, None, 0.0, 0.0, 0.0, false)
  }

  /** Python truthiness of the message: neither `None` nor the empty string. */
  predicate IsTruthy(message: Option<string>)
  {
    message.Some? && message.value != ""
  }

  /** `pattern` occurs in `text` starting at index `i`. */
  ghost predicate OccursAt(text: string, pattern: string, i: int)
  {
    0 <= i && i + |pattern| <= |text| && text[i..i + |pattern|] == pattern
  }

  /** Python's `pattern in text` for strings. */
  predicate Contains(text: string, pattern: string)
    decreases |text|
  {
    |pattern| <= |text| &&
    (text[..|pattern|] == pattern || (text != [] && Contains(text[1..], pattern)))
  }

  /** `Contains` is substring search: it holds exactly when some occurrence exists. */
  lemma {:induction false} ContainsIffOccurs(text: string, pattern: string)
    ensures Contains(text, pattern) <==> exists i :: OccursAt(text, pattern, i)
    decreases |text|
  {
    if |pattern| <= |text| {
      assert text[..|pattern|] == text[0..0 + |pattern|];
      if text[..|pattern|] == pattern {
        assert OccursAt(text, pattern, 0);
      } else if text != [] {
        ContainsIffOccurs(text[1..], pattern);
        if Contains(text[1..], pattern) {
          var i :| OccursAt(text[1..], pattern, i);
          assert text[i + 1..i + 1 + |pattern|] == text[1..][i..i + |pattern|];
          assert OccursAt(text, pattern, i + 1);
        }
        if i :| OccursAt(text, pattern, i) {
          assert i != 0;
          assert text[1..][i - 1..i - 1 + |pattern|] == text[i..i + |pattern|];
          assert OccursAt(text[1..], pattern, i - 1);
        }
      }
    }
  }

  /** The only notification the program ever shows is recognised as a network error. */
  lemma NetworkErrorMessageIsTagged()
    ensures Contains(NETWORK_ERROR_MESSAGE, NETWORK_ERROR_TAG)
  {
  }

  /** `current_time - last_update_time > update_interval` */
  predicate PositionDue(st: Snapshot, now: real)
  {
    now - st.lastUpdateTime > UPDATE_INTERVAL
  }

  /** The position block of the loop body. */
  function AfterPosition(project: Coord -> Pixel, st: Snapshot, now: real, fetched: Option<Coord>): Snapshot
  {
    if !PositionDue(st, now) then st
    else
      var attempted := st.(lastUpdateTime := now);
      match fetched
      case None =>
        if attempted.notificationMessage.None? then
          attempted.(notificationMessage := Some(NETWORK_ERROR_MESSAGE), notificationTimer := now)
        else attempted
      case Some(c) =>
        var message :=
          if IsTruthy(st.notificationMessage) && Contains(st.notificationMessage.value, NETWORK_ERROR_TAG)
          then None else st.notificationMessage;
        attempted.(notificationMessage := message, position := Some(c), iss := Some(project(c)),
                   hasInitialData := true)
  }

  /** A position is known and `current_time - last_city_update_time > city_update_interval`. */
  predicate CityDue(st: Snapshot, now: real)
  {
    st.position.Some? && now - st.lastCityUpdateTime > CITY_UPDATE_INTERVAL
  }

  /** The city block of the loop body. */
  function AfterCity(st: Snapshot, now: real, response: GeocodeResponse): Snapshot
  {
    if CityDue(st, now) then st.(closestCity := CityName(response), lastCityUpdateTime := now)
    else st
  }

  /** The expiry block of the loop body. */
  function AfterExpiry(st: Snapshot, now: real): Snapshot
  {
    if IsTruthy(st.notificationMessage) && now - st.notificationTimer > NOTIFICATION_DURATION
    then st.(notificationMessage := None)
    else st
  }

  /** One iteration of the main loop, from the state before it to the state after it. */
  function Step(project: Coord -> Pixel, st: Snapshot, now: real, fetched: Option<Coord>,
                response: GeocodeResponse): Snapshot
  {
    AfterExpiry(AfterCity(AfterPosition(project, st, now, fetched), now, response), now)
  }

  /** Whether one iteration calls the geocoding service. */
  predicate CityLookedUp(project: Coord -> Pixel, st: Snapshot, now: real, fetched: Option<Coord>)
  {
    CityDue(AfterPosition(project, st, now, fetched), now)
  }

  /** The iterations run in order. */
  function Run(project: Coord -> Pixel, st: Snapshot, inputs: seq<TickInput>): Snapshot
    decreases |inputs|
  {
    if inputs == [] then st
    else Run(project, Step(project, st, inputs[0].now, inputs[0].fetched, inputs[0].response), inputs[1..])
  }

  /** How many of the iterations call the tracking API. */
  function PositionFetchCount(project: Coord -> Pixel, st: Snapshot, inputs: seq<TickInput>): nat
    decreases |inputs|
  {
    if inputs == [] then 0
    else
      (if PositionDue(st, inputs[0].now) then 1 else 0) +
      PositionFetchCount(project, Step(project, st, inputs[0].now, inputs[0].fetched, inputs[0].response), inputs[1..])
  }

  /** How many of the iterations call the geocoding service. */
  function CityLookupCount(project: Coord -> Pixel, st: Snapshot, inputs: seq<TickInput>): nat
    decreases |inputs|
  {
    if inputs == [] then 0
    else
      (if CityLookedUp(project, st, inputs[0].now, inputs[0].fetched) then 1 else 0) +
      CityLookupCount(project, Step(project, st, inputs[0].now, inputs[0].fetched, inputs[0].response), inputs[1..])
  }

  /** Running one more iteration after a run is the run of the longer input. */
  lemma {:induction false} RunSnoc(project: Coord -> Pixel, st: Snapshot, inputs: seq<TickInput>, last: TickInput)
    ensures Run(project, st, inputs + [last]) == Step(project, Run(project, st, inputs), last.now, last.fetched, last.response)
    ensures PositionFetchCount(project, st, inputs + [last]) ==
      PositionFetchCount(project, st, inputs) + (if PositionDue(Run(project, st, inputs), last.now) then 1 else 0)
    ensures CityLookupCount(project, st, inputs + [last]) ==
      CityLookupCount(project, st, inputs) + (if CityLookedUp(project, Run(project, st, inputs), last.now, last.fetched) then 1 else 0)
    decreases |inputs|
  {
    if inputs != [] {
      var next := Step(project, st, inputs[0].now, inputs[0].fetched, inputs[0].response);
      assert (inputs + [last])[1..] == inputs[1..] + [last];
      RunSnoc(project, next, inputs[1..], last);
    } else {
      assert [] + [last] == [last];
    }
  }

  /**
   * What holds of the variables between iterations: a position is known
   * exactly when data was ever received, the screen point is the projection
   * of that position, and the only notification is the network error.
   */
  ghost predicate Consistent(project: Coord -> Pixel, st: Snapshot)
  {
    (st.hasInitialData <==> st.position.Some?) &&
    st.iss == (if st.position.Some? then Some(project(st.position.value)) else None) &&
    (st.notificationMessage.None? || st.notificationMessage == Some(NETWORK_ERROR_MESSAGE))
  }

  /** The program's state variables, updated in place by each loop iteration. */
  class IssTracker {
    const project: Coord -> Pixel    // lat_lon_to_pixels for the fixed screen size

    var position: Option<Coord>
    var iss: Option<Pixel>
    var closestCity: string
    var notificationMessage: Option<string>
    var notificationTimer: real
    var lastUpdateTime: real
    var lastCityUpdateTime: real
    var hasInitialData: bool

    ghost var positionFetches: nat   // calls of get_iss_location so far
    ghost var cityLookups: nat       // calls of get_closest_city so far

    function State(): Snapshot
      reads this
    {
      Snapshot(position, iss, closestCity, notificationMessage, notificationTimer,
               lastUpdateTime, lastCityUpdateTime, hasInitialData)
    }

    ghost predicate Valid()
      reads this
    {
      Consistent(project, State())
    }

    constructor (project: Coord -> Pixel)
      ensures Valid() && this.project == project
      ensures State() == Initial()
      ensures positionFetches == 0 && cityLookups == 0
    {
      this.project := project;
      position, iss := None, None;
      closestCity := INITIAL_CITY;
      notificationMessage, notificationTimer := None, 0.0;
      lastUpdateTime, lastCityUpdateTime := 0.0, 0.0;
      hasInitialData := false;
      positionFetches, cityLookups := 0, 0;
    }

    /** One iteration of the main loop at time `now`. */
    method Tick(now: real, fetched: Option<Coord>, response: GeocodeResponse)
      requires Valid()
      modifies this
      ensures Valid()
      ensures State() == Step(project, old(State()), now, fetched, response)
      ensures positionFetches == old(positionFetches) + (if PositionDue(old(State()), now) then 1 else 0)
      ensures cityLookups == old(cityLookups) + (if CityLookedUp(project, old(State()), now, fetched) then 1 else 0)
    {
      StepKeepsConsistent(project, State(), now, fetched, response);
      UpdatePosition(now, fetched);
      UpdateCity(now, response);
      ExpireNotification(now);
    }

    /** The position block: fetch when due, keep the old data on failure. */
    method UpdatePosition(now: real, fetched: Option<Coord>)
      modifies this
      ensures State() == AfterPosition(project, old(State()), now, fetched)
      ensures positionFetches == old(positionFetches) + (if PositionDue(old(State()), now) then 1 else 0)
      ensures cityLookups == old(cityLookups)
    {
      if now - lastUpdateTime > UPDATE_INTERVAL {
        positionFetches := positionFetches + 1;
        lastUpdateTime := now;
        if fetched.None? {
          if notificationMessage.None? {
            notificationMessage := Some(NETWORK_ERROR_MESSAGE);
            notificationTimer := now;
          }
        } else {
          if IsTruthy(notificationMessage) && Contains(notificationMessage.value, NETWORK_ERROR_TAG) {
            notificationMessage := None;
          }
          position := fetched;
          iss := Some(project(fetched.value));
          hasInitialData := true;
        }
      }
    }

    /** The city block: look the city up when a position is known and the lookup is due. */
    method UpdateCity(now: real, response: GeocodeResponse)
      modifies this
      ensures State() == AfterCity(old(State()), now, response)
      ensures cityLookups == old(cityLookups) + (if CityDue(old(State()), now) then 1 else 0)
      ensures positionFetches == old(positionFetches)
    {
      if position.Some? && now - lastCityUpdateTime > CITY_UPDATE_INTERVAL {
        cityLookups := cityLookups + 1;
        closestCity := CityName(response);
        lastCityUpdateTime := now;
      }
    }

    /** The expiry block: drop a notification that has been showing for too long. */
    method ExpireNotification(now: real)
      modifies this
      ensures State() == AfterExpiry(old(State()), now)
      ensures positionFetches == old(positionFetches) && cityLookups == old(cityLookups)
    {
      if IsTruthy(notificationMessage) && now - notificationTimer > NOTIFICATION_DURATION {
        notificationMessage := None;
      }
    }

    /** The main loop, run over the iterations before the window is closed. */
    method Loop(inputs: seq<TickInput>)
      requires Valid()
      modifies this
      ensures Valid()
      ensures State() == Run(project, old(State()), inputs)
      ensures positionFetches == old(positionFetches) + PositionFetchCount(project, old(State()), inputs)
      ensures cityLookups == old(cityLookups) + CityLookupCount(project, old(State()), inputs)
    {
      var i := 0;
      while i < |inputs|
        invariant 0 <= i <= |inputs|
        invariant Valid()
        invariant State() == Run(project, old(State()), inputs[..i])
        invariant positionFetches == old(positionFetches) + PositionFetchCount(project, old(State()), inputs[..i])
        invariant cityLookups == old(cityLookups) + CityLookupCount(project, old(State()), inputs[..i])
      {
        RunSnoc(project, old(State()), inputs[..i], inputs[i]);
        assert inputs[..i + 1] == inputs[..i] + [inputs[i]];
        Tick(inputs[i].now, inputs[i].fetched, inputs[i].response);
        i := i + 1;
      }
      assert inputs[..i] == inputs;
    }
  }

  /** Every iteration keeps the variables consistent. */
  lemma StepKeepsConsistent(project: Coord -> Pixel, st: Snapshot, now: real, fetched: Option<Coord>,
                            response: GeocodeResponse)
    requires Consistent(project, st)
    ensures Consistent(project, Step(project, st, now, fetched, response))
  {
  }
}
