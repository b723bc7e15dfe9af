/**
 * What one iteration of the main loop, and a run of iterations, guarantee
 * about the data shown and the error notification.
 */
module TrackerProperties {
  import opened Wrappers
  import opened City
  import opened Tracker

  // ---- Position refresh ----

  /** The tracking API is called exactly when more than 2 seconds have passed (strictly), and the timer restarts on every call. */
  lemma PositionFetchSchedule(project: Coord -> Pixel, st: Snapshot, now: real, fetched: Option<Coord>,
                              response: GeocodeResponse)
    ensures PositionFetchCount(project, st, [TickInput(now, fetched, response)]) ==
      (if now - st.lastUpdateTime > 2.0 then 1 else 0)
    ensures Step(project, st, now, fetched, response).lastUpdateTime ==
      (if now - st.lastUpdateTime > 2.0 then now else st.lastUpdateTime)
    ensures !PositionDue(st, now) ==> AfterPosition(project, st, now, fetched) == st
  {
  }

  /** Exactly 2 seconds since the last attempt is not enough. */
  lemma EqualElapsedDoesNotFetch(project: Coord -> Pixel, st: Snapshot, fetched: Option<Coord>)
    ensures AfterPosition(project, st, st.lastUpdateTime + 2.0, fetched) == st
  {
  }

  /** A failed fetch keeps the last known position, its screen point and the data flag. */
  lemma FailedFetchKeepsLastKnownData(project: Coord -> Pixel, st: Snapshot, now: real,
                                      response: GeocodeResponse)
    ensures var next := Step(project, st, now, None, response);
      next.position == st.position && next.iss == st.iss && next.hasInitialData == st.hasInitialData
  {
  }

  /** Once data has been received the flag never goes back to false. */
  lemma InitialDataNeverReset(project: Coord -> Pixel, st: Snapshot, now: real, fetched: Option<Coord>,
                              response: GeocodeResponse)
    requires st.hasInitialData
    ensures Step(project, st, now, fetched, response).hasInitialData
  {
  }

  /**
   * A due fetch that succeeds stores the position and its screen point, sets
   * the data flag, and clears a showing notification that mentions the
   * network error; any other notification is left alone.
   */
  lemma SuccessfulFetch(project: Coord -> Pixel, st: Snapshot, now: real, c: Coord)
    requires PositionDue(st, now)
    ensures var next := AfterPosition(project, st, now, Some(c));
      next.position == Some(c) && next.iss == Some(project(c)) && next.hasInitialData &&
      next.notificationTimer == st.notificationTimer &&
      (st.notificationMessage == Some(NETWORK_ERROR_MESSAGE) ==> next.notificationMessage == None) &&
      (st.notificationMessage.Some? && !Contains(st.notificationMessage.value, NETWORK_ERROR_TAG) ==>
         next.notificationMessage == st.notificationMessage)
  {
    NetworkErrorMessageIsTagged();
  }

  /** Between iterations the only notification is the network error, so a good fetch always clears it. */
  lemma SuccessfulFetchClearsNotification(project: Coord -> Pixel, st: Snapshot, now: real, c: Coord)
    requires Consistent(project, st) && PositionDue(st, now)
    ensures AfterPosition(project, st, now, Some(c)).notificationMessage == None
  {
    SuccessfulFetch(project, st, now, c);
  }

  // ---- Notification lifecycle ----

  /**
   * The notification timer is stamped with `now` exactly when a due fetch
   * fails while no notification is showing; otherwise it keeps its value.
   * From no notification, one appears exactly then, and it is still
   * showing at the end of that iteration.
   */
  lemma NotificationCreatedOnlyWhenIdle(project: Coord -> Pixel, st: Snapshot, now: real,
                                        fetched: Option<Coord>, response: GeocodeResponse)
    ensures var next := Step(project, st, now, fetched, response);
      var raised := PositionDue(st, now) && fetched.None? && st.notificationMessage.None?;
      next.notificationTimer == (if raised then now else st.notificationTimer) &&
      (raised ==> next.notificationMessage == Some(NETWORK_ERROR_MESSAGE)) &&
      (st.notificationMessage.None? ==> (next.notificationMessage.Some? <==> raised))
  {
  }

  /** A failure while a notification is showing touches neither the message nor its timer. */
  lemma FailureWhileShowingKeepsNotification(project: Coord -> Pixel, st: Snapshot, now: real)
    requires st.notificationMessage.Some?
    ensures var next := AfterPosition(project, st, now, None);
      next.notificationMessage == st.notificationMessage && next.notificationTimer == st.notificationTimer
  {
  }

  /** While a notification shows, an iteration either keeps it as it is or removes it: never a second one. */
  lemma NotificationNeverStacks(project: Coord -> Pixel, st: Snapshot, now: real, fetched: Option<Coord>,
                                response: GeocodeResponse)
    requires st.notificationMessage.Some?
    ensures var next := Step(project, st, now, fetched, response);
      (next.notificationMessage == st.notificationMessage || next.notificationMessage == None) &&
      next.notificationTimer == st.notificationTimer
  {
  }

  /** Between iterations, a showing notification is removed exactly when more than 5 seconds have passed since it was raised, or a fetch succeeds. */
  lemma NotificationExpiry(project: Coord -> Pixel, st: Snapshot, now: real, fetched: Option<Coord>,
                           response: GeocodeResponse)
    requires Consistent(project, st) && st.notificationMessage.Some?
    ensures Step(project, st, now, fetched, response).notificationMessage.None? <==>
      now - st.notificationTimer > 5.0 || (PositionDue(st, now) && fetched.Some?)
  {
    if PositionDue(st, now) && fetched.Some? {
      SuccessfulFetchClearsNotification(project, st, now, fetched.value);
    }
  }

  /** The geocoding lookup never raises or clears a notification, whatever its outcome. */
  lemma CityLookupLeavesNotification(st: Snapshot, now: real, response: GeocodeResponse)
    ensures var next := AfterCity(st, now, response);
      next.notificationMessage == st.notificationMessage && next.notificationTimer == st.notificationTimer
  {
  }

  // ---- City refresh ----

  /**
   * The geocoding service is called exactly when a position is known and
   * more than 10 seconds have passed since the last call; each call
   * overwrites the city text, an error text included.
   */
  lemma CityLookupSchedule(project: Coord -> Pixel, st: Snapshot, now: real, fetched: Option<Coord>,
                           response: GeocodeResponse)
    ensures var mid := AfterPosition(project, st, now, fetched);
      var next := Step(project, st, now, fetched, response);
      CityLookupCount(project, st, [TickInput(now, fetched, response)]) ==
        (if mid.position.Some? && now - st.lastCityUpdateTime > 10.0 then 1 else 0) &&
      next.closestCity == (if CityLookedUp(project, st, now, fetched) then CityName(response) else st.closestCity) &&
      next.lastCityUpdateTime == (if CityLookedUp(project, st, now, fetched) then now else st.lastCityUpdateTime)
  {
  }

  /** A failed geocoding call shows its error text in place of the city. */
  lemma CityErrorShownInPlace(project: Coord -> Pixel, st: Snapshot, now: real, fetched: Option<Coord>)
    requires CityLookedUp(project, st, now, fetched)
    ensures Step(project, st, now, fetched, NetworkError).closestCity == "API Error"
    ensures Step(project, st, now, fetched, ParseError).closestCity == "Parsing Error"
  {
  }

  // ---- Runs of iterations ----

  /** Once data has been received it stays received for the rest of the run. */
  lemma {:induction false} RunKeepsInitialData(project: Coord -> Pixel, st: Snapshot, inputs: seq<TickInput>)
    requires st.hasInitialData
    ensures Run(project, st, inputs).hasInitialData
    decreases |inputs|
  {
    if inputs != [] {
      var i := inputs[0];
      InitialDataNeverReset(project, st, i.now, i.fetched, i.response);
      RunKeepsInitialData(project, Step(project, st, i.now, i.fetched, i.response), inputs[1..]);
    }
  }

  /** Every fetch made in the run fails; iterations in which no fetch is due may carry any outcome. */
  ghost predicate DueFetchesFail(project: Coord -> Pixel, st: Snapshot, inputs: seq<TickInput>)
  {
    forall k :: 0 <= k < |inputs| ==>
      PositionDue(Run(project, st, inputs[..k]), inputs[k].now) ==> inputs[k].fetched.None?
  }

  /** The condition carries over from a run to the rest of it after its first iteration. */
  lemma DueFetchesFailTail(project: Coord -> Pixel, st: Snapshot, inputs: seq<TickInput>)
    requires inputs != [] && DueFetchesFail(project, st, inputs)
    ensures var i := inputs[0];
      DueFetchesFail(project, Step(project, st, i.now, i.fetched, i.response), inputs[1..])
  {
    var i := inputs[0];
    var next := Step(project, st, i.now, i.fetched, i.response);
    forall k | 0 <= k < |inputs[1..]| && PositionDue(Run(project, next, inputs[1..][..k]), inputs[1..][k].now)
      ensures inputs[1..][k].fetched.None?
    {
      assert inputs[..k + 1][1..] == inputs[1..][..k];
      assert Run(project, st, inputs[..k + 1]) == Run(project, next, inputs[1..][..k]);
      assert inputs[1..][k] == inputs[k + 1];
    }
  }

  /** A run in which every fetch made fails ends with the position, screen point and data flag it started with. */
  lemma {:induction false} FailuresKeepPosition(project: Coord -> Pixel, st: Snapshot, inputs: seq<TickInput>)
    requires DueFetchesFail(project, st, inputs)
    ensures var last := Run(project, st, inputs);
      last.position == st.position && last.iss == st.iss && last.hasInitialData == st.hasInitialData
    decreases |inputs|
  {
    if inputs != [] {
      var i := inputs[0];
      assert inputs[..0] == [];
      DueFetchesFailTail(project, st, inputs);
      FailuresKeepPosition(project, Step(project, st, i.now, i.fetched, i.response), inputs[1..]);
    }
  }

  /** Until a fetch has succeeded the geocoding service is never called and the city text is unchanged. */
  lemma {:induction false} NoCityLookupBeforeFirstFix(project: Coord -> Pixel, st: Snapshot, inputs: seq<TickInput>)
    requires st.position.None?
    requires DueFetchesFail(project, st, inputs)
    ensures CityLookupCount(project, st, inputs) == 0
    ensures Run(project, st, inputs).closestCity == st.closestCity
    decreases |inputs|
  {
    if inputs != [] {
      var i := inputs[0];
      assert inputs[..0] == [];
      DueFetchesFailTail(project, st, inputs);
      NoCityLookupBeforeFirstFix(project, Step(project, st, i.now, i.fetched, i.response), inputs[1..]);
    }
  }

  /** Every run keeps the variables consistent. */
  lemma {:induction false} RunKeepsConsistent(project: Coord -> Pixel, st: Snapshot, inputs: seq<TickInput>)
    requires Consistent(project, st)
    ensures Consistent(project, Run(project, st, inputs))
    decreases |inputs|
  {
    if inputs != [] {
      var i := inputs[0];
      StepKeepsConsistent(project, st, i.now, i.fetched, i.response);
      RunKeepsConsistent(project, Step(project, st, i.now, i.fetched, i.response), inputs[1..]);
    }
  }

  /**
   * A sustained outage from start-up: the fetches at 100, 102.5 and 105 all
   * fail. The notification is raised once at 100, still shows at 105 with
   * its original stamp (5 seconds is not more than 5), and is gone at 105.5.
   */
  lemma OutageScenario(project: Coord -> Pixel, response: GeocodeResponse)
    ensures var s1 := Step(project, Initial(), 100.0, None, response);
      var s2 := Step(project, s1, 102.5, None, response);
      var s3 := Step(project, s2, 105.0, None, response);
      var s4 := Step(project, s3, 105.5, None, response);
      s1.notificationMessage == Some(NETWORK_ERROR_MESSAGE) && s1.notificationTimer == 100.0 &&
      s3.notificationMessage == Some(NETWORK_ERROR_MESSAGE) && s3.notificationTimer == 100.0 &&
      s3.lastUpdateTime == 105.0 && s4.notificationMessage == None &&
      s4.position == None && !s4.hasInitialData && s4.closestCity == INITIAL_CITY
  {
  }
}
