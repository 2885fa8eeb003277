# Voyah integration for Home Assistant: a verified model of its core

The Voyah integration reads the telemetry of a Voyah car from the vendor's cloud API
and shows it in Home Assistant. This project models its core in Dafny:

- **The API client** (`Api`): the authenticated data request. On a 401 it runs one
  refresh exchange. After a successful refresh it sends exactly one retry with the new
  access token. It also turns a car record into a telemetry snapshot, and it defines
  how each onboarding request (SMS, sign-in, organisations, organisation sign-in, car
  search) treats the status and body it gets back.
- **The update coordinator** (`Coordinator`): one polling cycle. It maps the client's
  errors onto "re-authenticate" and "update failed". After a successful fetch it writes
  the token pair back to the config entry, but only when the pair changed.
- **The charging end-time sensor** (`Sensor`): a sliding window of the last four
  (percentage, server time) samples while the car charges. From the window it computes
  a linear estimate of when the battery reaches 100 %. It resets when charging stops.
- **The config flow** (`ConfigFlow`): the phone number step, the SMS code step, the
  optional organisation step and the car step. The flow ends in a config entry or an
  abort. This module also holds the car label.
- **The stand-alone credentials helper** (`SetupAuth`): phone and code validation, the
  SMS and sign-in decisions, organisation and car picking, and the tokens it finally
  prints.

The remote API is a scripted oracle (`Net`). Every request sent is recorded in a log,
and each answer is the next entry of a fixed script of responses. An answer is either
a transport failure or a status with a decoded JSON body. An exhausted script answers
with a transport failure.

JSON values (`Json`) follow Python's semantics where the source relies on them:

- truthiness;
- `dict.get` with a default;
- `or`;
- `key in container` for dicts, lists and strings;
- `str()` of a value.

Exceptions the Python code raises on a value of an unexpected shape are modelled as
an explicit outcome: `OtherException`, `Raised` or `Crashed`. Examples are a
`KeyError`, an `AttributeError` from `.get` on a list, a `TypeError` from `in` on a
number, and a slice of a token that is not a string. The cases the model treats
differently are listed under "Left out".

Objects whose fields the source updates in place are Dafny classes with `modifies`
clauses:

- `ApiClient` and its token pair;
- `DataUpdateCoordinator` and its last written pair and entry data;
- `ChargingEndTimeSensor` and its tracking fields;
- `VoyahConfigFlow` and its step state;
- the `Session`.

Each method is proved against a pure function of the old state and the script:
`Protocol`, `CycleOf`, `Persist`, `Update` and the `*Of` functions. The properties
the source promises are proved as lemmas about those functions.

## Model

| member | source | states |
|---|---|---|
| Json.Member | setup_auth.py:227 | Python `in` on a dict tests its keys; `in` raises (None) exactly on values that are not a dict, list or string |
| Strings.LStrip | custom_components/voyah/config_flow.py:49 | `lstrip(c)` leaves a suffix of the input that does not start with `c`, and everything dropped was `c` |
| Strings.Remove | custom_components/voyah/config_flow.py:49 | `replace(c, "")` leaves no `c`, shortens the string by the number of `c`s and keeps every other character with its multiplicity |
| Strings.RemoveAppend | custom_components/voyah/config_flow.py:49 | removing a character distributes over concatenation, so the order of the other characters is kept |
| Strings.Strip | setup_auth.py:193 | `strip()` leaves no whitespace at either end |
| Strings.StripSlice | setup_auth.py:193 | `strip()` leaves a contiguous slice of its input, and every character it drops, before or after that slice, is whitespace |
| Strings.Lower | setup_auth.py:68 | `lower()` keeps the length, leaves no capital letter and changes no character that is not a capital |
| Strings.JoinEnds | custom_components/voyah/config_flow.py:241 | `" ".join(parts)` starts with the first part and ends with the last |
| Net.Session.Send | custom_components/voyah/api.py:66-68 | a request is appended to the log and answered by the next scripted response, which is consumed |
| Api.RefreshOf | custom_components/voyah/api.py:93-120 | only a 200 whose body holds two truthy tokens refreshes, and then both tokens come from that body; a non-200 or a transport failure does not refresh |
| Api.RefreshAcceptsBothTokens | custom_components/voyah/api.py:107-111 | a 200 object body refreshes if and only if both `accessToken` and `refreshToken` are truthy |
| Api.ApiClient.constructor | custom_components/voyah/api.py:30-40 | the client holds the session, car id and token pair it was given |
| Api.ApiClient.RefreshAccessToken | custom_components/voyah/api.py:93-120 | one refresh request carrying the old refresh token; the pair changes only on a successful refresh, and then to the refreshed pair |
| Api.Protocol | custom_components/voyah/api.py:57-91 | one to three requests: the data request, on 401 one refresh, and after a successful refresh exactly one retry with the new token; the pair is kept or replaced as a whole by the refresh; an auth error needs a 401, a connection error a transport failure, and a result the 200 body; a transport failure on the first request is a connection error after that one request, with the pair kept |
| Api.ApiClient.Request | custom_components/voyah/api.py:57-91 | `_request` returns the result of `Protocol`, leaves the client holding its pair, and sends exactly its requests |
| Api.AtMostTwoDataRequests | custom_components/voyah/api.py:69-82 | one run never sends more than two data requests |
| Api.FirstAnswerIsFinal | custom_components/voyah/api.py:84-86 | a first answer other than 401 is final: the pair is kept, 200 gives the body and any other status an "Unexpected status" error |
| Api.FailedRefreshSendsNoRetry | custom_components/voyah/api.py:69-72 | on 401 a failed refresh raises an auth error, keeps the pair and sends no retry |
| Api.RefreshThenOneRetry | custom_components/voyah/api.py:73-82 | on 401 a successful refresh is followed by exactly one retry with the new access token, whose answer decides the result |
| Api.FirstRow | custom_components/voyah/api.py:129-132 | an empty or missing `rows` is a "car not found" error; a non-empty list gives its first row; every other failure is an exception |
| Api.Parse | custom_components/voyah/api.py:140-160 | a snapshot exists iff the record is an object whose `sensors` block, `sensorsData` and `positionData` are objects, and any failure is an exception; the snapshot holds the position data and server time of the `sensors` block, and every sensor value but `speed` as sent; a non-null GPS speed is written over `speed` |
| Api.ParseWithoutSensors | custom_components/voyah/api.py:143-146 | a record without a truthy `sensors` block gives empty sensor and position maps and no time |
| Api.CarDataOf | custom_components/voyah/api.py:122-138 | a request error passes through unchanged; otherwise the result is the first-row error, or else the parse of the first row |
| Api.ApiClient.GetCarData | custom_components/voyah/api.py:122-138 | `async_get_car_data` returns `CarDataOf` of the request protocol's result, with the protocol's pair and requests |
| Api.RequestSmsOf | custom_components/voyah/api.py:164-176 | the SMS request fails only on a transport failure or a status of 500 and above, and a server error is a connection error |
| Api.SignInOf | custom_components/voyah/api.py:178-198 | sign-in succeeds iff the status is 200, with the body; with an object body, 403 is an auth error and any other status an API error |
| Api.OrganizationsOf | custom_components/voyah/api.py:200-218 | a non-200 gives no organisations, a list body is taken as it is, otherwise `rows`, else `items`, else none |
| Api.SignInOrgOf | custom_components/voyah/api.py:220-240 | the organisation sign-in succeeds iff the status is 200; with an object body, any other status is a plain API error |
| Api.SearchCarsOf | custom_components/voyah/api.py:242-260 | a non-200 gives no cars; a 200 gives `rows`, else `items`, else none, and raises on a body that is not an object |
| Api.AdoptOrgTokens | custom_components/voyah/config_flow.py:111-113 | the pair is replaced as a whole by the body's tokens when `accessToken` is in the body, and kept when it is not |
| Coordinator.OutcomeOf | custom_components/voyah/coordinator.py:45-55 | an auth error asks for re-authentication; every other API error (connection, status, not found) fails the update with that cause; a snapshot is returned as is |
| Coordinator.Persist | custom_components/voyah/coordinator.py:57-75 | the store always ends up holding the current pair; the entry is written, once, only when the pair differs from the last written one, and a write changes only the two token fields |
| Coordinator.CycleOf | custom_components/voyah/coordinator.py:45-55 | a failed fetch leaves the store as it was; after a successful fetch the store holds the client's pair; at most one write per cycle |
| Coordinator.NoRefreshNoWrite | custom_components/voyah/coordinator.py:57-65 | cycles in which the access token is never rejected never write the config entry |
| Coordinator.RefreshedPairWrittenLater | custom_components/voyah/coordinator.py:54 | a pair refreshed in a failed cycle is not written then, but by the next successful cycle |
| Coordinator.DataUpdateCoordinator.constructor | custom_components/voyah/coordinator.py:27-43 | the last written pair starts as the client's pair |
| Coordinator.DataUpdateCoordinator.PersistTokensIfChanged | custom_components/voyah/coordinator.py:57-75 | the new store is `Persist` of the old one and the client's pair |
| Coordinator.DataUpdateCoordinator.AsyncUpdateData | custom_components/voyah/coordinator.py:45-55 | the outcome, store, client pair and requests are those of `CycleOf` |
| Sensor.LastN | custom_components/voyah/sensor.py:110-112 | the newest `n` samples, or all when there are fewer: a suffix of the window of that length |
| Sensor.Push | custom_components/voyah/sensor.py:110-112 | appending to a `deque(maxlen=4)` keeps at most four samples, ends with the new one and equals the newest four of the window plus the sample |
| Sensor.WindowKeepsNewest | custom_components/voyah/sensor.py:110-112 | after any number of appends the window is the newest four of everything appended |
| Sensor.EndTime | custom_components/voyah/sensor.py:141-183 | an estimate exists iff the window has two samples, the newest below 100 % and both percentage and time rising; it lies after `now`, and at the window's rate the time left covers exactly the percentage left |
| Sensor.EndTimeExample | custom_components/voyah/sensor.py:152-162 | 60 % at 0 s and 64 % at 1200 s end three hours from now |
| Sensor.EndTimeWhenFull | custom_components/voyah/sensor.py:149-150 | a newest sample at 100 % gives no estimate |
| Sensor.EndTimeWhenFalling | custom_components/voyah/sensor.py:155-156 | a falling percentage gives no estimate |
| Sensor.EndTimeDependsOnEnds | custom_components/voyah/sensor.py:146-163 | only the oldest and newest samples matter, and a later `now` moves the estimate by as much |
| Sensor.Record | custom_components/voyah/sensor.py:201-202 | a reading with a percentage and a time becomes the newest sample, and the window keeps the newest four; any other reading leaves the window unchanged |
| Sensor.Update | custom_components/voyah/sensor.py:186-221 | one coordinator update keeps the window within four samples |
| Sensor.Init | custom_components/voyah/sensor.py:110-133 | a new sensor satisfies the invariant, is charging iff the snapshot says so, and has no estimate |
| Sensor.Shown | custom_components/voyah/sensor.py:223-228 | no time is shown unless charging; while charging the cached estimate is shown |
| Sensor.UpdateKeepsInv | custom_components/voyah/sensor.py:186-221 | every update keeps the invariant: bounded window, nothing tracked while idle, an estimate only for an estimable window |
| Sensor.InitIsFirstUpdate | custom_components/voyah/sensor.py:119-133 | seeding the sensor at creation is the same as feeding the first snapshot to an idle sensor |
| Sensor.ShownNeedsEstimableWindow | custom_components/voyah/sensor.py:223-228 | a shown time always comes from a charging window of two or more samples that admits an estimate |
| Sensor.StartOfCharging | custom_components/voyah/sensor.py:195-205 | charging starts: the flag is set, the percentage remembered, the estimate cleared, and the window holds just this reading when it has a percentage and a time |
| Sensor.EndOfCharging | custom_components/voyah/sensor.py:191-194 | in any state satisfying the invariant, a reading that is not charging leads to the idle state: window, percentage, estimate and flag all cleared |
| Sensor.RestartForgetsHistory | custom_components/voyah/sensor.py:135-139 | stopping and restarting a charge starts afresh, whatever came before |
| Sensor.SamePercentIsNoOp | custom_components/voyah/sensor.py:206-208 | while charging, a reading with no or the same percentage changes nothing |
| Sensor.ChangedPercent | custom_components/voyah/sensor.py:207-219 | a changed percentage is remembered; with a time it is appended and the estimate recomputed, without one the window and estimate are kept |
| Sensor.ChargingScenario | custom_components/voyah/sensor.py:186-221 | two updates, 60 % at 0 s then 64 % at 1200 s, show a completion three hours on |
| Sensor.RunKeepsInv | custom_components/voyah/sensor.py:186-221 | the invariant holds after any sequence of updates |
| Sensor.RepeatedReadingIsNoOp | custom_components/voyah/sensor.py:206-208 | repeating an unchanged charging reading never changes the state |
| Sensor.Measurements | custom_components/voyah/sensor.py:45-49 | no more entities than descriptions; every entity measures a described key the snapshot reports, and every such key is measured |
| Sensor.MeasurementsCount | custom_components/voyah/sensor.py:45-49 | one measurement entity per description whose key the snapshot reports: a reported key is measured exactly as many times as it is described, an unreported key never |
| Sensor.MeasurementsAppend | custom_components/voyah/sensor.py:45-49 | the entities come in description order: two runs of descriptions give the first run's entities, then the second's |
| Sensor.SetupEntities | custom_components/voyah/sensor.py:43-52 | the end-time entity is added iff both `batteryPercentage` and `chargingStatus` are reported |
| Sensor.ChargingEndTimeSensor.constructor | custom_components/voyah/sensor.py:96-117 | a new sensor is in the state `Init` of its first snapshot |
| Sensor.ChargingEndTimeSensor.InitTracking | custom_components/voyah/sensor.py:119-133 | seeds an idle sensor into `Init` of the snapshot |
| Sensor.ChargingEndTimeSensor.ResetTracking | custom_components/voyah/sensor.py:135-139 | clears the window, percentage, estimate and flag |
| Sensor.ChargingEndTimeSensor.HandleCoordinatorUpdate | custom_components/voyah/sensor.py:185-221 | the new state is `Update` of the old state and the snapshot's reading, and the invariant is kept |
| Sensor.ChargingEndTimeSensor.NativeValue | custom_components/voyah/sensor.py:223-228 | the shown value is nothing unless charging, and any shown time comes from an estimable window |
| ConfigFlow.NormalizePhone | custom_components/voyah/config_flow.py:49 | the normalised phone has no spaces or dashes and keeps every other character after the leading pluses |
| ConfigFlow.NormalizePhoneKeepsOrder | custom_components/voyah/config_flow.py:49 | leading pluses are dropped, then spaces and dashes anywhere; the rest stays in order |
| ConfigFlow.NormalizeDigits | custom_components/voyah/config_flow.py:49 | a plain digit string is left unchanged |
| ConfigFlow.SmsErrorKey | custom_components/voyah/config_flow.py:53-59 | the SMS step shows `cannot_connect` iff the error is a connection error, else `unknown` |
| ConfigFlow.SignInErrorKey | custom_components/voyah/config_flow.py:83-93 | `invalid_code` iff an auth error, `cannot_connect` iff a connection or API error, `unknown` iff any other exception |
| ConfigFlow.LabelParts | custom_components/voyah/config_flow.py:226-240 | none iff no field is present; one part per present field, in order: the model, the name only when it differs from the model, the plate in brackets, the VIN in parentheses |
| ConfigFlow.CarLabel | custom_components/voyah/config_flow.py:226-241 | with any label field the label is a string that starts with the model and ends with the VIN in parentheses; without one it is the car's `_id`, else "Voyah" |
| ConfigFlow.AllFourParts | custom_components/voyah/config_flow.py:233-240 | a car with all four fields and a distinct name gets all four parts in order |
| ConfigFlow.CarLabelExample | custom_components/voyah/config_flow.py:226-241 | model Free, name Dream, plate A001AA and VIN X1 give "Free Dream [A001AA] (X1)" |
| ConfigFlow.CarLabelNameIsModel | custom_components/voyah/config_flow.py:229-236 | a name equal to the model is not repeated, and `modelName` stands in for a missing model |
| ConfigFlow.CarLabelFallback | custom_components/voyah/config_flow.py:241 | without label fields the label is the `_id`, or "Voyah" without one |
| ConfigFlow.FirstMatch | custom_components/voyah/config_flow.py:187-190 | the first car whose id matches, every earlier car not matching; none when no car matches; an exception only when some car is not an object |
| ConfigFlow.SelectCar | custom_components/voyah/config_flow.py:185-191 | the chosen car is one of the list; a matching car is chosen when there is one, and it is the first matching car, every earlier car not matching; otherwise the first car; a non-empty list of objects always yields a car |
| ConfigFlow.EntryResult | custom_components/voyah/config_flow.py:205-223 | an entry is created only for an unconfigured unique id `voyah_<id>`, titled with the car label and holding the phone, tokens, car id and name; an existing id aborts |
| ConfigFlow.OrgDecision | custom_components/voyah/config_flow.py:101-117 | several organisations lead to the organisation step; one (an object) to an organisation sign-in; an empty list to loading the cars |
| ConfigFlow.CarsDecision | custom_components/voyah/config_flow.py:171-178 | no cars aborts iff the list is falsy; one car is taken; several are offered |
| ConfigFlow.LoadCarsOf | custom_components/voyah/config_flow.py:164-178 | a car search that raises, or a truthy answer that is not a list of objects, raises; `no_cars` iff the list is falsy; an entry only for a single car, and it is that car's `EntryResult`; the car form only for several cars |
| ConfigFlow.NoOrgOneCarCreatesEntry | custom_components/voyah/config_flow.py:98-117 | no organisation and a single unconfigured car create that car's entry with the sign-in's tokens |
| ConfigFlow.OneOrgOneCarCreatesEntry | custom_components/voyah/config_flow.py:98-117 | one organisation whose sign-in answers with both tokens and a single unconfigured car create that car's entry with the organisation's tokens |
| ConfigFlow.VoyahConfigFlow.constructor | custom_components/voyah/config_flow.py:33-39 | a new flow has empty phone, tokens, organisations and cars |
| ConfigFlow.VoyahConfigFlow.StepUser | custom_components/voyah/config_flow.py:41-70 | without input the form is shown and nothing sent; with input the normalised phone is kept and the SMS requested; success goes on to the code form, failure shows the mapped error |
| ConfigFlow.VoyahConfigFlow.RequestSms | custom_components/voyah/config_flow.py:50-62 | the phone is kept and one SMS request sent; its outcome decides between the code form and the error form |
| ConfigFlow.VoyahConfigFlow.StepCode | custom_components/voyah/config_flow.py:72-126 | a failed sign-in shows the mapped error and keeps the tokens; a successful one with both tokens sends exactly the sign-in and the organisation list with the new token, and its result is `ListOrgsOf` of the answers that follow; a successful one without both tokens raises |
| ConfigFlow.VoyahConfigFlow.ListOrganizations | custom_components/voyah/config_flow.py:98-117 | the result is exactly `ListOrgsOf` of the answers; several organisations: the organisation form with the tokens kept; one: an organisation sign-in whose API error is ignored and whose tokens are adopted, then the car search with the resulting token; none: the car search with the tokens kept; the tokens and requests after each branch are stated |
| ConfigFlow.VoyahConfigFlow.StepOrganization | custom_components/voyah/config_flow.py:128-162 | an organisation sign-in that fails with an API error shows `cannot_connect` and keeps the tokens; a success adopts its tokens (raising when adoption fails) and its result is `LoadCarsOf` of the car answer with those tokens, after exactly the organisation sign-in and the car search |
| ConfigFlow.VoyahConfigFlow.LoadCars | custom_components/voyah/config_flow.py:164-178 | one car search with the current token, and the result is exactly `LoadCarsOf` of its answer |
| ConfigFlow.VoyahConfigFlow.StepCar | custom_components/voyah/config_flow.py:180-203 | without input the car form; with input the entry for the selected car |
| ConfigFlow.VoyahConfigFlow.AsyncCreateEntry | custom_components/voyah/config_flow.py:205-223 | the result is `EntryResult` of the car, the phone and the current tokens |
| SetupAuth.PhoneOf | setup_auth.py:193-197 | an accepted phone is exactly 11 digits and is the normalised stripped line |
| SetupAuth.PhoneAccepted | setup_auth.py:193-197 | a line is accepted iff, after its leading pluses, it holds only digits, spaces and dashes, and exactly 11 digits |
| SetupAuth.PhoneOfDigits | setup_auth.py:193-197 | a plain 11-digit number is accepted as typed |
| SetupAuth.CodeOf | setup_auth.py:203-206 | a code is accepted iff the stripped line is exactly 4 digits, and then it is the stripped line |
| SetupAuth.CodeOfDigits | setup_auth.py:203-206 | four digits are accepted as typed |
| SetupAuth.IntOf | setup_auth.py:155-163 | `int()` of the stripped line: a value exists iff it is a digit string, or a sign followed by a digit string; the value of digits is their decimal value, `+d` gives that value and `-d` its negation |
| SetupAuth.SmsVerdictOf | setup_auth.py:58-78 | success iff the status is below 400; "may have been sent" only on 400, a rejection only above 400; a crash iff a transport failure or an error body whose message cannot be read |
| SetupAuth.SmsContinuesIff | setup_auth.py:58-78 | the helper goes on after the SMS request iff the status is below 400, or it is 400 with a message that does not ask for a captcha |
| SetupAuth.CaptchaStops | setup_auth.py:68-71 | a captcha message stops the helper whatever the status from 400 on |
| SetupAuth.SignInTokens | setup_auth.py:81-97 | tokens iff a status below 400 with both tokens in an object body, and then they are those two; with an object body, an error status or a missing `accessToken` exits |
| SetupAuth.OrganizationsOf | setup_auth.py:100-107 | no organisations from 400 on; a list as it is; otherwise `rows`, else `items`, else the body itself when it has `_id`, else none |
| SetupAuth.SingleOrganisationRecord | setup_auth.py:107 | a single organisation record is offered as the only choice |
| SetupAuth.OrgSignInOf | setup_auth.py:110-122 | succeeds iff the status is below 400, with the body; from 400 on an object body exits, and a body that is not an object crashes where the message is read |
| SetupAuth.CarsOf | setup_auth.py:125-137 | no cars from 400 on; otherwise `rows`, else `items`, else none; a body that is not an object raises |
| SetupAuth.OrgLabel | setup_auth.py:220 | an organisation is labelled iff it is an object |
| SetupAuth.CarLabel | setup_auth.py:166-184 | only an object is labelled; with label fields a label exists iff the model and a shown name are strings, and it starts with the model and ends with "(VIN: vin)"; without label fields the label is the `_id`, else `id`, else empty |
| SetupAuth.LabelsAgree | setup_auth.py:166-184 | the helper and the integration label a car alike when its model and name are strings and it has no VIN |
| SetupAuth.FirstChoice | setup_auth.py:155-163 | the first typed integer naming an item, every earlier one naming none |
| SetupAuth.Choose | setup_auth.py:140-163 | no items exits; one item is taken without asking; otherwise the pick is the item named by a typed integer k with 1 <= k <= n, after every label was shown |
| SetupAuth.InvalidLineSkipped | setup_auth.py:159-163 | a typed line naming no item is skipped |
| SetupAuth.ValidLinePicks | setup_auth.py:159-160 | the first typed line naming an item picks it |
| SetupAuth.ShowLabels | setup_auth.py:151-153 | printing the list goes through iff every label can be computed |
| SetupAuth.ReadChoice | setup_auth.py:155-163 | the prompt loop stops at the first typed line whose integer names an item and returns that integer; it finds none iff no line does |
| SetupAuth.PickOption | setup_auth.py:140-163 | the interactive picker returns `Choose` of the items, their labels and the integers the typed lines parse to |
| SetupAuth.ItemsOf | setup_auth.py:142 | a falsy list counts as no items, a list is taken as it is, anything else raises |
| SetupAuth.OrgLabels | setup_auth.py:152-153 | one label per organisation |
| SetupAuth.CarLabels | setup_auth.py:152-153 | one label per car |
| SetupAuth.SignInPhase | setup_auth.py:193-211 | the requests sent and the outcome are exactly `SignInPhaseOf` of the validated phone and code and the answers |
| SetupAuth.OrganizationPhase | setup_auth.py:214-232 | the requests sent and the outcome are exactly `OrgPhaseOf` of the tokens, the typed lines and the answers |
| SetupAuth.CarPhase | setup_auth.py:235-251 | the requests sent and the outcome are exactly `CarPhaseOf` of the tokens, the typed lines and the answer |
| SetupAuth.ChoosePhase | setup_auth.py:214-251 | the requests sent and the outcome are exactly `ChoosePhaseOf` of the tokens, the typed lines and the answers |
| SetupAuth.SignInAndChoose | setup_auth.py:199-251 | the run is exactly `SetupOf` of the validated phone and code, the typed lines and the answers, and so ends as `SetupEnds` says: credentials only after the SMS request, a sign-in with the typed code, the organisation list and the car search, with the sign-in's tokens or those adopted from the organisation sign-in, and only when both tokens can be sliced |
| SetupAuth.Authenticate | setup_auth.py:187-260 | `main` is exactly `SetupOf` of `PhoneOf` and `CodeOf` of the typed lines and ends as `SetupEnds` says: a rejected phone exits with nothing sent, and printed credentials carry the tokens of the last successful sign-in |
| SetupAuth.SignInPhaseEnds | setup_auth.py:193-211 | a rejected phone exits with nothing sent; otherwise the SMS request goes first; a refused SMS stops after it; a valid code after an SMS that went on gives exactly the sign-in's outcome after the SMS request and the sign-in; the phase never prints credentials |
| SetupAuth.OrgPhaseEnds | setup_auth.py:214-232 | the organisations are listed first with the access token; none keeps the tokens after that one request; otherwise a failed pick crashes after that request, and the picked organisation is signed in to with its id; a failed organisation sign-in ends the helper as `OrgSignInOf` says, and a successful one gives the adopted tokens, or a crash when they cannot be adopted |
| SetupAuth.CarPhaseEnds | setup_auth.py:235-251 | one car search with the access token; credentials carry the picked car's id and the tokens; once a car is picked the credentials are printed iff both tokens can be sliced, else the helper crashes; no cars exits |
| SetupAuth.ChoosePhaseEnds | setup_auth.py:214-251 | the organisation list comes first and the car search, with the final access token, last; the printed tokens are those of the sign-in without an organisation sign-in, and those adopted from it otherwise, and both can be sliced |
| SetupAuth.SetupOfEnds | setup_auth.py:187-260 | every run ends as `SetupEnds` describes |
| SetupAuth.SetupSucceedsWithoutOrganisation | setup_auth.py:187-260 | an SMS that goes on, a sign-in with both tokens, no organisation and a picked car with sliceable tokens print that car's id and the sign-in's tokens after exactly the SMS, sign-in, organisation-list and car-search requests |
| SetupAuth.SetupSucceedsWithOrganisation | setup_auth.py:187-260 | as above with a picked organisation whose sign-in answers with both tokens: the car is searched and printed with the organisation's tokens, after exactly five requests |
| SetupAuth.ChooseWithOrganisation | setup_auth.py:214-251 | a picked organisation whose sign-in answers with both tokens and a picked car end the choice phase with that car and the organisation's tokens, after the organisation list, the organisation sign-in and the car search |

## Left out

- Logging, `print`, the Home Assistant framework (entity registration, `CoordinatorEntity`, schemas and form rendering), `device_tracker.py`, `binary_sensor.py`, `button.py` and `__init__.py` are outside the model.
- Forms are modelled only as the step they show and their error key. Building the option dictionaries is modelled only where it raises, on an item that is not an object.
- `const.py` is not part of this model. `DOMAIN` is taken as "voyah", and the entry keys as `access_token` and `refresh_token`. The sensor descriptions enter `Sensor.SetupEntities` as a parameter (their keys).
- JSON decoding and HTTP are not modelled. A response is a transport failure or a status with a decoded body. A body that fails to decode is not modelled.
- The clock (`datetime.now`) is the parameter `now`. What the user types at the helper's prompts is a parameter too.
- `sys.exit(1)` is the `Exited` outcome, and an uncaught exception is `Crashed` or `Raised`.
- An exhausted script answers with a transport failure. Input that runs out at `pick_option` raises EOFError, modelled as `PickCrashed`.
- Sensor.EndTime: times and percentages are exact reals. Float rounding and the `datetime` arithmetic are not modelled.
- Sensor.ReadingOf: a `batteryPercentage` or `time` that is not a number is treated as absent. The source would store it and could then raise in the arithmetic.
- Api.Parse: a `sensorsData` that is not an object is treated as an exception. The source raises there only when it writes `speed` into it or when it has no length. A `positionData` that is not an object raises in the source too, at `position_data.get("speed")`.
- Json.Text: `str()` of a number, list or object is a placeholder "?". It is used only for labels and unique ids.
- Json values compare structurally. Python's `1 == 1.0 == True` is not modelled.
- Strings.IsDigit, Strings.IsSpace and SetupAuth.IntOf cover the ASCII digits and six whitespace characters only: space, tab, line feed, carriage return, vertical tab and form feed. Python's `strip()` and `int()` also remove the separators \x1c-\x1f, \x85 and the other Unicode spaces, which is not modelled. `int()` also accepts underscores between digits, which is not modelled either.
- Strings.Lower maps only Latin and Cyrillic letters.
- SetupAuth.OrgLabels and SetupAuth.CarLabels state only their length. They are the element-wise labels.
- SetupAuth.Authenticate: the phone and code checks enter as `PhoneOf` and `CodeOf` of the typed lines.
- Concurrency between a polling cycle and the config flow is not modelled.
