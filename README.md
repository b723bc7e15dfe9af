# ISS tracker: refresh and notification state machine

A model of the update logic of `iss_tracker.py`, a full-screen display of the
International Space Station's position on a world map, labelled with the
nearest city. On every iteration of its main loop the program decides whether
to ask the tracking API for a new position (more than 2 seconds since the last
attempt) and whether to ask the reverse-geocoding API for the closest city (a
position is known and more than 10 seconds since the last lookup). It keeps the
last good position when a fetch fails, shows one "Network/API Error"
notification while position fetches fail, and removes it on the next good
fetch or once it has shown for more than 5 seconds.

Modules:

- `Wrappers` (`wrappers.dfy`): `Option`, standing for Python's `None`.
- `City` (`city.dfy`): how `get_closest_city` turns a geocoding response, or
  the failure to get one, into the city text.
- `Chunking` (`chunking.dfy`): how `render_notification` cuts the message into
  lines of at most 40 characters.
- `Tracker` (`tracker.dfy`): the program's module-level variables as the class
  `IssTracker`. `Tick` is one iteration of the main loop. It is made of three
  methods, one per block of the loop body. `Loop` runs a finite sequence of
  iterations. The specification is a pure function `Step` over a `Snapshot`
  of the variables, and `Run` is its iteration. Ghost counters record how
  often each network call is made.
- `TrackerProperties` (`tracker_properties.dfy`): lemmas about `Step` and `Run`.

Modelling decisions:

- The results of `get_iss_location` and of the geocoding request are inputs
  to `Tick`. The position result is an optional `Coord`. The geocoding result
  is a `GeocodeResponse`: a decoded body with optional `address.city` and
  optional `display_name`, or a network error, or a parse error. The inputs
  are only used when the corresponding call is due.
- Timestamps are `real` seconds. The program only subtracts them and compares
  them strictly, so float rounding is the only thing lost.
- `latitude`/`longitude` and `iss_x`/`iss_y` are always assigned together, so
  each pair is one optional field (`position`, `iss`).
- `lat_lon_to_pixels` is not modelled. The class holds it as an opaque
  function `project`, fixed at construction.
- The truthiness test `notification_message and ...` and the substring test
  `"Network/API Error" in notification_message` are modelled as written
  (`IsTruthy`, `Contains`). They are not reduced to "a message is present".
  `Consistent` shows that between iterations they amount to the same thing.
- With the strict `>` at iss_tracker.py:134, a fetch exactly 2 seconds after
  the previous attempt does not happen. `EqualElapsedDoesNotFetch` and
  `OutageScenario` state this.

## Model

| member | source | states |
|---|---|---|
| `City.TextBeforeFirstComma` | iss_tracker.py:87 | `display_name.split(',')[0]` is a prefix of the display name, contains no comma, and is followed by a comma or the end of the text |
| `City.TextBeforeFirstCommaUnique` | iss_tracker.py:87 | that characterisation has exactly one solution, so it defines "the text before the first comma" |
| `City.CityName` | iss_tracker.py:84-93 | the address's city if present; otherwise the text before the first comma of `display_name`; otherwise "Over Ocean or Unnamed Area"; "API Error" on a request failure and "Parsing Error" on a decoding failure |
| `City.CityNameExamples` | iss_tracker.py:84-89 | a city "Lagos", a display name "Lagos, Nigeria" without an address, and a response with neither give "Lagos", "Lagos" and the open-ocean text |
| `Chunking.Lines` | iss_tracker.py:104 | the message is cut into ceil(len/40) lines, each non-empty and at most 40 characters long |
| `Chunking.LinesUnfold` | iss_tracker.py:104 | a message longer than 40 characters gives its first 40 characters as line one, then the lines of the rest |
| `Chunking.ConcatLines` | iss_tracker.py:104 | concatenating the lines gives back the message |
| `Chunking.FullLinesBeforeLast` | iss_tracker.py:104 | every line except the last is exactly 40 characters long |
| `Chunking.NotificationLines` | iss_tracker.py:102-104 | no lines when the message is `None` or empty; otherwise lines that concatenate to the message |
| `Tracker.ContainsIffOccurs` | iss_tracker.py:146 | Python's `pattern in text` holds exactly when the pattern occurs at some index of the text |
| `Tracker.NetworkErrorMessageIsTagged` | iss_tracker.py:140-146 | the notification raised on a failed fetch contains "Network/API Error", so a later good fetch recognises it |
| `Tracker.RunSnoc` | iss_tracker.py:124-160 | running one more iteration after a run gives the run of the longer sequence, and adds that iteration's calls to the call counts |
| `Tracker.StepKeepsConsistent` | iss_tracker.py:134-160 | each iteration keeps three facts: a position is known exactly when data was ever received; the screen point is the projection of that position; the only notification is the network error |
| `Tracker.IssTracker.constructor` | iss_tracker.py:50-63 | the variables start with no position, no screen point, city "...", no notification, timers at 0 and no data received |
| `Tracker.IssTracker.Tick` | iss_tracker.py:131-160 | one iteration changes the variables as `Step` says, keeps them consistent, and counts one position fetch when due and one city lookup when due |
| `Tracker.IssTracker.UpdatePosition` | iss_tracker.py:134-151 | the position block as `AfterPosition`; the fetch counter grows by one exactly when a fetch is due |
| `Tracker.IssTracker.UpdateCity` | iss_tracker.py:154-156 | the city block as `AfterCity`; the lookup counter grows by one exactly when a lookup is due |
| `Tracker.IssTracker.ExpireNotification` | iss_tracker.py:159-160 | the expiry block as `AfterExpiry`; no network call is counted |
| `Tracker.IssTracker.Loop` | iss_tracker.py:123-160 | running the loop over a sequence of iterations gives the state `Run` computes; the counters grow by the number of due fetches and lookups in the run |
| `TrackerProperties.PositionFetchSchedule` | iss_tracker.py:134-136 | an iteration calls the tracking API exactly when more than 2 seconds have passed since the last attempt (the fetch count grows by one then, and by nothing otherwise); the attempt time becomes `now` whatever the outcome; when no fetch is due, the position block changes nothing |
| `TrackerProperties.EqualElapsedDoesNotFetch` | iss_tracker.py:134 | exactly 2 seconds after the last attempt no fetch happens (strict comparison) |
| `TrackerProperties.FailedFetchKeepsLastKnownData` | iss_tracker.py:138-143 | an iteration whose fetch fails leaves the position, screen point and data flag as they were |
| `TrackerProperties.InitialDataNeverReset` | iss_tracker.py:151 | once data has been received the flag stays true after any iteration |
| `TrackerProperties.SuccessfulFetch` | iss_tracker.py:144-151 | a due fetch that succeeds stores the position and its projection and sets the data flag; it clears the network-error notification and leaves any message without that text in place, with the timer untouched |
| `TrackerProperties.SuccessfulFetchClearsNotification` | iss_tracker.py:146-147 | between iterations every notification is the network error, so a successful fetch clears it |
| `TrackerProperties.NotificationCreatedOnlyWhenIdle` | iss_tracker.py:139-141 | the timer is set to `now` exactly when a due fetch fails while no notification shows, and otherwise keeps its value; starting from no notification, an iteration ends with one exactly when its due fetch fails, and that one is the network error |
| `TrackerProperties.FailureWhileShowingKeepsNotification` | iss_tracker.py:139 | a failed fetch while a notification shows changes neither the message nor its timer |
| `TrackerProperties.NotificationNeverStacks` | iss_tracker.py:138-160 | while a notification shows, an iteration either keeps it unchanged or removes it, and never restamps it |
| `TrackerProperties.NotificationExpiry` | iss_tracker.py:146-160 | a showing notification disappears in an iteration exactly when more than 5 seconds have passed since it was raised or a due fetch succeeds |
| `TrackerProperties.CityLookupLeavesNotification` | iss_tracker.py:154-156 | the city lookup neither raises nor clears a notification, whatever its outcome |
| `TrackerProperties.CityLookupSchedule` | iss_tracker.py:154-156 | an iteration calls the geocoding service exactly when a position is known (after this iteration's fetch) and more than 10 seconds have passed since the last lookup (the lookup count grows by one then, and by nothing otherwise); it then overwrites the city text and restarts the city timer; otherwise both are unchanged |
| `TrackerProperties.CityErrorShownInPlace` | iss_tracker.py:90-93 | a due lookup that fails puts "API Error" or "Parsing Error" in place of the city |
| `TrackerProperties.RunKeepsInitialData` | iss_tracker.py:151 | once data has been received the flag stays true for the rest of any run |
| `TrackerProperties.FailuresKeepPosition` | iss_tracker.py:138-151 | a run in which every fetch actually made fails ends with the position, screen point and data flag it started with; iterations with no fetch due may carry any outcome |
| `TrackerProperties.NoCityLookupBeforeFirstFix` | iss_tracker.py:154 | starting with no position, a run in which every fetch actually made fails never calls the geocoding service and leaves the city text unchanged |
| `TrackerProperties.RunKeepsConsistent` | iss_tracker.py:131-160 | every run keeps the consistency facts of `StepKeepsConsistent` |
| `TrackerProperties.OutageScenario` | iss_tracker.py:134-160 | from start-up, fetches fail at 100, 102.5 and 105: one notification is raised at 100; it still shows at 105 with its original stamp; it is gone at 105.5 |

## Left out

- Window, image, font and event handling, and all drawing (iss_tracker.py:9-41, 105-129, 162-195): presentation through pygame. The choice of which panel to draw is not modelled. `Consistent` shows that the "Fetching ISS location..." text, which needs no position and no data received, appears exactly when no position is known.
- The HTTP requests and JSON decoding in `get_iss_location` and `get_closest_city` (iss_tracker.py:66-83): network I/O. Only their outcomes are modelled, as inputs to `Tick`.
- Exceptions that end the program are not modelled. `get_iss_location` and `get_closest_city` catch only `RequestException`, `KeyError` and `JSONDecodeError` (iss_tracker.py:74-77, 90-93). A JSON value of an unexpected type raises an uncaught `TypeError`, `ValueError` or `AttributeError`, which ends the main loop and the program. The value can be the body itself, `iss_position`, `address`, or a field inside them. Examples: a latitude or longitude that is `null` or not a number, at `float(...)` (iss_tracker.py:71). An `iss_position` that is not an object (iss_tracker.py:71). A body that is `null`, a number, or a string or list containing "address", at iss_tracker.py:70 or 84-87. An `address` that is `null`, a boolean, a number, a string containing "city" or a list containing "city" (iss_tracker.py:84-85). A `display_name` that is not a string, which has no `split` (iss_tracker.py:87). The outcome inputs of `Tick` only say "a position or none" and "a decoded response or an error", so they have no value for these cases.
- An `address` that is a string or a list without "city" makes the test at iss_tracker.py:84 false, and the code falls through to `display_name`. The model covers that case as `Address(None)`.
- `City.CityName`: a `city` key that is present but not a string, such as `{"address": {"city": null}}`, is returned as it is (iss_tracker.py:85), so the city text becomes that value (for example `None`). The model has no value for it: `city` is an optional string, and `Address(None)` means the key is missing, which falls through to `display_name`.
- Which exception a malformed body raises depends on the version of the `requests` library. In recent versions it is a `requests.RequestException`, which would give "API Error" rather than "Parsing Error". The model keeps the two outcomes as the `except` clauses name them.
- `lat_lon_to_pixels` (iss_tracker.py:95-98): floating-point screen arithmetic. The model treats it as an opaque projection, applied only after a successful fetch.
- `time.time()` and `time.sleep(0.1)` (iss_tracker.py:131, 196): the clock is the `now` input of each iteration, and pacing is not modelled.
- The termination of the loop by a quit event (iss_tracker.py:125-129): `Loop` runs a given finite sequence of iterations.
- Floating point: coordinates and timestamps are exact reals.
