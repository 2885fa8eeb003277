/** The Voyah API client (custom_components/voyah/api.py): the authenticated data
    request with its one refresh and one retry, the refresh exchange, the
    normalisation of a car record into a telemetry snapshot, and the status
    handling of the onboarding requests. */
module Api {
  import opened Json
  import opened Net

  /** What a plain `VoyahApiError` says. */
  datatype Reason =
    | UnexpectedStatus(status: int)   // "Unexpected status: <status>"
    | CarNotFound(carId: string)      // "Car <id> not found in search results"
    | ServerMessage(message: Json)    // the "message" field of an error body
    | Rejected(status: int)           // "Sign-in failed: <status>" when the body has no "message"

  /** The exceptions that leave the client.  `AuthError` and `ConnectionError` are
      the two subclasses of the base `VoyahApiError`; `OtherException` is anything
      else (a raw aiohttp error, or a KeyError, AttributeError or TypeError raised
      by a body of an unexpected shape). */
  datatype Error =
    | AuthError
    | ConnectionError
    | ApiError(reason: Reason)
    | OtherException

  /** `except VoyahApiError` catches the base class and both subclasses. */
  predicate IsVoyahError(e: Error) {
    !e.OtherException?
  }

  /** The access/refresh token pair. */
  datatype Tokens = Tokens(access: Json, refresh: Json)

  /** The dictionary `_parse` returns: sensor values, position values, server time. */
  datatype Snapshot = Snapshot(sensors: map<string, Json>, position: map<string, Json>, time: Json)

  /** What `_refresh_access_token` does: returns True, returns False, or lets an exception through. */
  datatype RefreshResult = Refreshed(tokens: Tokens) | NotRefreshed | RefreshRaised

  /** The outcome of one refresh exchange, given the answer to it.  Only a 200 whose
      body holds two truthy tokens refreshes, and then both tokens come from that body. */
  function RefreshOf(resp: Response): (r: RefreshResult)
    ensures r.Refreshed? ==> resp.Reply? && resp.status == 200 && resp.body.Obj?
    ensures r.Refreshed? ==> Truthy(r.tokens.access) && Truthy(r.tokens.refresh)
    ensures r.Refreshed? ==>
      "accessToken" in resp.body.fields && "refreshToken" in resp.body.fields &&
      r.tokens == Tokens(resp.body.fields["accessToken"], resp.body.fields["refreshToken"])
    ensures resp.Failed? || resp.status != 200 ==> r == NotRefreshed
  {
    match resp
    case Failed => NotRefreshed
    case Reply(status, body) =>
      if status != 200 then NotRefreshed
      else if !body.Obj? then RefreshRaised
      else
        var newAccess := GetOr(body.fields, "accessToken", Null);
        var newRefresh := GetOr(body.fields, "refreshToken", Null);
        if !Truthy(newAccess) || !Truthy(newRefresh) then NotRefreshed
        else Refreshed(Tokens(newAccess, newRefresh))
  }

  /** A 200 whose body is an object refreshes exactly when both tokens in it are truthy. */
  lemma RefreshAcceptsBothTokens(body: map<string, Json>)
    ensures RefreshOf(Reply(200, Obj(body))).Refreshed?
        <==> Truthy(GetOr(body, "accessToken", Null)) && Truthy(GetOr(body, "refreshToken", Null))
  {
  }

  /** One run of `_request`: its result, the token pair afterwards and the requests sent. */
  datatype Exchange = Exchange(result: Result<Json, Error>, tokens: Tokens, calls: seq<Call>)

  /** Number of data requests among `calls`. */
  function DataCalls(calls: seq<Call>): nat {
    if calls == [] then 0 else (if calls[0].CarData? then 1 else 0) + DataCalls(calls[1..])
  }

  /** The request protocol of `_request` for the car data request, answered by `script`:
      the request; on 401 one refresh exchange; after a successful refresh exactly one
      retry with the new access token. */
  function Protocol(t: Tokens, carId: string, script: seq<Response>): (x: Exchange)
    ensures 1 <= |x.calls| <= 3 && x.calls[0] == CarData(t.access, carId)
    ensures |x.calls| > 1 ==> x.calls[1] == RefreshToken(t.refresh)
    ensures |x.calls| == 3 ==> x.calls[2] == CarData(x.tokens.access, carId)
    // the pair is either untouched or replaced as a whole by a successful refresh
    ensures x.tokens == t || (|x.calls| == 3 && RefreshOf(Nth(script, 1)) == Refreshed(x.tokens))
    ensures |x.calls| == 3 <==> Nth(script, 0).Reply? && Nth(script, 0).status == 401 && RefreshOf(Nth(script, 1)).Refreshed?
    // a transport failure on the first request is a connection error, with nothing else sent
    ensures Nth(script, 0).Failed? ==> x.result == Err(ConnectionError) && x.calls == [CarData(t.access, carId)] && x.tokens == t
    // an auth error needs a 401 on the first answer; a connection error needs a transport failure
    ensures x.result == Err(AuthError) ==> Nth(script, 0).Reply? && Nth(script, 0).status == 401
    ensures x.result == Err(ConnectionError) ==> Nth(script, |x.calls| - 1).Failed?
    ensures x.result.Ok? ==> Nth(script, |x.calls| - 1) == Reply(200, x.result.value)
  {
    var first := CarData(t.access, carId);
    match Nth(script, 0)
    case Failed => Exchange(Err(ConnectionError), t, [first])
    case Reply(status, body) =>
      if status == 401 then
        var refresh := RefreshToken(t.refresh);
        match RefreshOf(Nth(script, 1))
        case RefreshRaised => Exchange(Err(OtherException), t, [first, refresh])
        case NotRefreshed => Exchange(Err(AuthError), t, [first, refresh])
        case Refreshed(renewed) =>
          var calls := [first, refresh, CarData(renewed.access, carId)];
          match Nth(script, 2)
          case Failed => Exchange(Err(ConnectionError), renewed, calls)
          case Reply(retryStatus, retryBody) =>
            if retryStatus == 401 then Exchange(Err(AuthError), renewed, calls)
            else if retryStatus != 200 then Exchange(Err(ApiError(UnexpectedStatus(retryStatus))), renewed, calls)
            else Exchange(Ok(retryBody), renewed, calls)
      else if status != 200 then Exchange(Err(ApiError(UnexpectedStatus(status))), t, [first])
      else Exchange(Ok(body), t, [first])
  }

  /** Never more than two data requests in one run. */
  lemma AtMostTwoDataRequests(t: Tokens, carId: string, script: seq<Response>)
    ensures DataCalls(Protocol(t, carId, script).calls) <= 2
  {
    var calls := Protocol(t, carId, script).calls;
    if |calls| == 3 {
      assert calls[1..][1..][1..] == [];
      assert DataCalls(calls[1..][1..]) == 1;
      assert DataCalls(calls[1..]) == 1;
    } else if |calls| == 2 {
      assert calls[1..][1..] == [];
      assert DataCalls(calls[1..]) == 0;
    } else {
      assert calls[1..] == [];
    }
  }

  /** A first answer other than 401 is final: no refresh, and 200 gives the body while
      any other status is a plain API error carrying that status. */
  lemma FirstAnswerIsFinal(t: Tokens, carId: string, script: seq<Response>)
    requires Nth(script, 0).Reply? && Nth(script, 0).status != 401
    ensures var x := Protocol(t, carId, script);
      var status := Nth(script, 0).status;
      x.tokens == t && x.calls == [CarData(t.access, carId)] &&
      x.result == if status == 200 then Ok(Nth(script, 0).body) else Err(ApiError(UnexpectedStatus(status)))
  {
  }

  /** On 401 a failed refresh ends the run with an auth error, leaves the pair as it was
      and sends no retry. */
  lemma FailedRefreshSendsNoRetry(t: Tokens, carId: string, script: seq<Response>)
    requires Nth(script, 0).Reply? && Nth(script, 0).status == 401
    requires RefreshOf(Nth(script, 1)) == NotRefreshed
    ensures Protocol(t, carId, script) == Exchange(Err(AuthError), t, [CarData(t.access, carId), RefreshToken(t.refresh)])
  {
  }

  /** On 401 a successful refresh is followed by exactly one retry with the new access
      token; the retry's answer decides the result. */
  lemma RefreshThenOneRetry(t: Tokens, carId: string, script: seq<Response>, renewed: Tokens)
    requires Nth(script, 0).Reply? && Nth(script, 0).status == 401
    requires RefreshOf(Nth(script, 1)) == Refreshed(renewed)
    ensures var x := Protocol(t, carId, script);
      var retry := Nth(script, 2);
      x.tokens == renewed &&
      x.calls == [CarData(t.access, carId), RefreshToken(t.refresh), CarData(renewed.access, carId)] &&
      x.result == (if retry.Failed? then Err(ConnectionError)
                   else if retry.status == 401 then Err(AuthError)
                   else if retry.status != 200 then Err(ApiError(UnexpectedStatus(retry.status)))
                   else Ok(retry.body))
  {
  }

  /** The first element of the search result's `rows`, as `async_get_car_data` takes it. */
  function FirstRow(body: Json, carId: string): (r: Result<Json, Error>)
    ensures r.Ok? ==>
      body.Obj? && "rows" in body.fields && body.fields["rows"].Arr? &&
      body.fields["rows"].items != [] && r.value == body.fields["rows"].items[0]
    ensures body.Obj? && !Truthy(GetOr(body.fields, "rows", Null)) ==> r == Err(ApiError(CarNotFound(carId)))
    ensures body.Obj? && "rows" in body.fields && body.fields["rows"].Arr? && body.fields["rows"].items != [] ==>
      r == Ok(body.fields["rows"].items[0])
    // `.get` on a body that is not a dict, or indexing truthy `rows` that are not a list, raises
    ensures r.Err? && r.error != ApiError(CarNotFound(carId)) ==> r.error == OtherException
  {
    if !body.Obj? then Err(OtherException)
    else
      var rows := GetOr(body.fields, "rows", Arr([]));
      if !Truthy(rows) then Err(ApiError(CarNotFound(carId)))
      else if rows.Arr? then Ok(rows.items[0])
      else Err(OtherException)
  }

  /** The `sensors` block of a car record: `raw.get("sensors") or {}`. */
  function SensorsBlock(raw: map<string, Json>): Json {
    Or(GetOr(raw, "sensors", Null), Obj(map[]))
  }

  /** `_parse`: sensor values, position values and server time out of a car record, with a
      non-null GPS speed written over the `speed` sensor. */
  function Parse(raw: Json): (r: Result<Snapshot, Error>)
    // parsing succeeds exactly on a dict whose sensors block and its two data blocks are
    // dicts (or absent); anything else raises
    ensures r.Ok? <==>
      raw.Obj? && SensorsBlock(raw.fields).Obj? &&
      GetOr(SensorsBlock(raw.fields).fields, "sensorsData", Obj(map[])).Obj? &&
      GetOr(SensorsBlock(raw.fields).fields, "positionData", Obj(map[])).Obj?
    ensures r.Err? ==> r.error == OtherException
    ensures r.Ok? ==> raw.Obj? && SensorsBlock(raw.fields).Obj?
    ensures r.Ok? ==>
      var block := SensorsBlock(raw.fields).fields;
      var sensors := GetOr(block, "sensorsData", Obj(map[]));
      var position := GetOr(block, "positionData", Obj(map[]));
      sensors.Obj? && position.Obj? &&
      r.value.position == position.fields &&
      r.value.time == GetOr(block, "time", Null) &&
      // every key but "speed" is kept as the API sent it
      r.value.sensors - {"speed"} == sensors.fields - {"speed"} &&
      var speed := GetOr(position.fields, "speed", Null);
      (speed != Null ==> "speed" in r.value.sensors && r.value.sensors["speed"] == speed) &&
      (speed == Null ==> r.value.sensors == sensors.fields)
  {
    if !raw.Obj? then Err(OtherException)
    else
      var block := SensorsBlock(raw.fields);
      if !block.Obj? then Err(OtherException)
      else
        var sensors := GetOr(block.fields, "sensorsData", Obj(map[]));
        var position := GetOr(block.fields, "positionData", Obj(map[]));
        var time := GetOr(block.fields, "time", Null);
        if !position.Obj? || !sensors.Obj? then Err(OtherException)
        else
          var speed := GetOr(position.fields, "speed", Null);
          var merged := if speed != Null then sensors.fields["speed" := speed] else sensors.fields;
          Ok(Snapshot(merged, position.fields, time))
  }

  /** A record without a (truthy) `sensors` block gives empty maps and no server time. */
  lemma ParseWithoutSensors(raw: map<string, Json>)
    requires !Truthy(GetOr(raw, "sensors", Null))
    ensures Parse(Obj(raw)) == Ok(Snapshot(map[], map[], Null))
  {
  }

  /** `async_get_car_data` after the request: not-found on empty `rows`, else the first row parsed. */
  function CarDataOf(result: Result<Json, Error>, carId: string): (r: Result<Snapshot, Error>)
    ensures result.Err? ==> r == Err(result.error)
    // a search that succeeds: not-found and shape errors of the first row pass through,
    // otherwise the snapshot is the first row parsed
    ensures result.Ok? && FirstRow(result.value, carId).Err? ==> r == Err(FirstRow(result.value, carId).error)
    ensures result.Ok? && FirstRow(result.value, carId).Ok? ==> r == Parse(FirstRow(result.value, carId).value)
    ensures r.Ok? ==>
      result.Ok? && FirstRow(result.value, carId).Ok? &&
      r == Parse(FirstRow(result.value, carId).value)
  {
    match result
    case Err(e) => Err(e)
    case Ok(body) =>
      match FirstRow(body, carId)
      case Err(e) => Err(e)
      case Ok(raw) => Parse(raw)
  }

  /** The error-message reason of an onboarding request: the body's "message", else the status. */
  function MessageOf(body: map<string, Json>, status: int): Reason {
    if "message" in body then ServerMessage(body["message"]) else Rejected(status)
  }

  /** `async_request_sms`: only a server error (status 500 and above) is reported, as a
      connection error; a transport failure escapes as a raw aiohttp exception. */
  function RequestSmsOf(resp: Response): (r: Outcome)
    ensures r.Fail? <==> resp.Failed? || resp.status >= 500
    ensures r.Fail? && resp.Reply? ==> r.error == ConnectionError
    ensures resp.Failed? ==> r == Fail(OtherException)
  {
    match resp
    case Failed => Fail(OtherException)
    case Reply(status, _) => if status >= 500 then Fail(ConnectionError) else Pass
  }

  datatype Outcome = Pass | Fail(error: Error)

  /** `async_sign_in`: 403 is an auth error, any other non-200 a plain API error, and 200
      returns the body. */
  function SignInOf(resp: Response): (r: Result<Json, Error>)
    ensures r.Ok? <==> resp.Reply? && resp.status == 200
    ensures r.Ok? ==> r.value == resp.body
    ensures r == Err(AuthError) <==> resp.Reply? && resp.status == 403 && resp.body.Obj?
    ensures r.Err? && r.error.ApiError? <==> resp.Reply? && resp.status != 200 && resp.status != 403 && resp.body.Obj?
    ensures r.Err? ==> r.error != ConnectionError
  {
    match resp
    case Failed => Err(OtherException)
    case Reply(status, body) =>
      if status == 403 then (if body.Obj? then Err(AuthError) else Err(OtherException))
      else if status != 200 then (if body.Obj? then Err(ApiError(MessageOf(body.fields, status))) else Err(OtherException))
      else Ok(body)
  }

  /** `async_get_organizations`: [] on a non-200, a list body as it is, otherwise `rows`,
      else `items`, else []. */
  function OrganizationsOf(resp: Response): (r: Result<Json, Error>)
    ensures resp.Reply? && resp.status != 200 ==> r == Ok(Arr([]))
    ensures resp.Reply? && resp.status == 200 && resp.body.Arr? ==> r == Ok(resp.body)
    ensures resp.Reply? && resp.status == 200 && resp.body.Obj? ==>
      var f := resp.body.fields;
      r == Ok(if "rows" in f then f["rows"] else if "items" in f then f["items"] else Arr([]))
    ensures r.Err? ==> r.error == OtherException
  {
    match resp
    case Failed => Err(OtherException)
    case Reply(status, body) =>
      if status != 200 then Ok(Arr([]))
      else if body.Arr? then Ok(body)
      else if body.Obj? then Ok(GetOr(body.fields, "rows", GetOr(body.fields, "items", Arr([]))))
      else Err(OtherException)
  }

  /** `async_sign_in_org`: any non-200 is a plain API error, 200 returns the body. */
  function SignInOrgOf(resp: Response): (r: Result<Json, Error>)
    ensures r.Ok? <==> resp.Reply? && resp.status == 200
    ensures r.Ok? ==> r.value == resp.body
    ensures r.Err? && IsVoyahError(r.error) <==> resp.Reply? && resp.status != 200 && resp.body.Obj?
    ensures r.Err? && IsVoyahError(r.error) ==> r.error.ApiError?
  {
    match resp
    case Failed => Err(OtherException)
    case Reply(status, body) =>
      if status != 200 then (if body.Obj? then Err(ApiError(MessageOf(body.fields, status))) else Err(OtherException))
      else Ok(body)
  }

  /** `async_search_cars`: [] on a non-200, otherwise `rows`, else `items`, else []; unlike
      the organisation listing, a list body is not accepted. */
  function SearchCarsOf(resp: Response): (r: Result<Json, Error>)
    ensures resp.Reply? && resp.status != 200 ==> r == Ok(Arr([]))
    ensures r.Ok? && resp.Reply? && resp.status == 200 ==>
      resp.body.Obj? &&
      r.value == GetOr(resp.body.fields, "rows", GetOr(resp.body.fields, "items", Arr([])))
    ensures r.Err? <==> resp.Failed? || (resp.status == 200 && !resp.body.Obj?)
  {
    match resp
    case Failed => Err(OtherException)
    case Reply(status, body) =>
      if status != 200 then Ok(Arr([]))
      else if body.Obj? then Ok(GetOr(body.fields, "rows", GetOr(body.fields, "items", Arr([]))))
      else Err(OtherException)
  }

  /** The token pair after an organisation sign-in answered with `body`: replaced as a
      whole when `"accessToken" in body`, kept otherwise.  Reading the two tokens raises
      when the body is a dict without `refreshToken`, or a list or string (which pass the
      `in` test by element or substring); `in` itself raises on numbers, booleans and null.
      On a dict without `refreshToken` the source has already assigned the new access
      token when the KeyError is raised; the model keeps the pair, since the step that
      raised ends there and the half-updated pair is never used. */
  function AdoptOrgTokens(body: Json, t: Tokens): (r: Result<Tokens, Error>)
    ensures r.Ok? && r.value != t ==>
      body.Obj? && "accessToken" in body.fields && "refreshToken" in body.fields &&
      r.value == Tokens(body.fields["accessToken"], body.fields["refreshToken"])
    ensures Member("accessToken", body) == Some(false) ==> r == Ok(t)
    ensures body.Obj? && "accessToken" in body.fields && "refreshToken" in body.fields ==>
      r == Ok(Tokens(body.fields["accessToken"], body.fields["refreshToken"]))
    ensures r.Err? ==> r.error == OtherException
  {
    match Member("accessToken", body)
    case None => Err(OtherException)
    case Some(false) => Ok(t)
    case Some(true) =>
      if body.Obj? && "refreshToken" in body.fields then
        Ok(Tokens(body.fields["accessToken"], body.fields["refreshToken"]))
      else
        Err(OtherException)
  }

  /** `VoyahApiClient`: a session, the car it reads, and the token pair it refreshes in place. */
  class ApiClient {
    const session: Session
    const carId: string
    var accessToken: Json
    var refreshToken: Json

    constructor (session: Session, carId: string, accessToken: Json, refreshToken: Json)
      ensures this.session == session && this.carId == carId
      ensures this.accessToken == accessToken && this.refreshToken == refreshToken
    {
      this.session := session;
      this.carId := carId;
      this.accessToken := accessToken;
      this.refreshToken := refreshToken;
    }

    function Pair(): Tokens
      reads this
    {
      Tokens(accessToken, refreshToken)
    }

    /** `_refresh_access_token`: one refresh exchange; the pair changes only when it succeeds. */
    method RefreshAccessToken() returns (r: RefreshResult)
      modifies this, session
      ensures session.log == old(session.log) + [RefreshToken(old(refreshToken))]
      ensures session.pending == Drop(old(session.pending), 1)
      ensures r == RefreshOf(Nth(old(session.pending), 0))
      ensures Pair() == if r.Refreshed? then r.tokens else old(Pair())
    {
      var resp := session.Send(RefreshToken(refreshToken));
      if resp.Failed? || resp.status != 200 {
        return NotRefreshed;
      }
      if !resp.body.Obj? {
        return RefreshRaised;
      }
      var newAccess := GetOr(resp.body.fields, "accessToken", Null);
      var newRefresh := GetOr(resp.body.fields, "refreshToken", Null);
      if !Truthy(newAccess) || !Truthy(newRefresh) {
        return NotRefreshed;
      }
      accessToken := newAccess;
      refreshToken := newRefresh;
      return Refreshed(Tokens(newAccess, newRefresh));
    }

    /** `_request` for the car data request: behaves as `Protocol` on the session's script. */
    method Request() returns (r: Result<Json, Error>)
      modifies this, session
      ensures var x := Protocol(old(Pair()), carId, old(session.pending));
        r == x.result && Pair() == x.tokens &&
        session.log == old(session.log) + x.calls &&
        session.pending == Drop(old(session.pending), |x.calls|)
    {
      ghost var script := session.pending;
      var resp := session.Send(CarData(accessToken, carId));
      if resp.Failed? {
        return Err(ConnectionError);
      }
      if resp.status == 401 {
        var refreshed := RefreshAccessToken();
        DropDrop(script, 1, 1);
        if refreshed.RefreshRaised? {
          return Err(OtherException);
        }
        if refreshed.NotRefreshed? {
          return Err(AuthError);
        }
        var retry := session.Send(CarData(accessToken, carId));
        DropDrop(script, 2, 1);
        DropDrop(script, 2, 0);
        if retry.Failed? {
          return Err(ConnectionError);
        }
        if retry.status == 401 {
          return Err(AuthError);
        }
        if retry.status != 200 {
          return Err(ApiError(UnexpectedStatus(retry.status)));
        }
        return Ok(retry.body);
      }
      if resp.status != 200 {
        return Err(ApiError(UnexpectedStatus(resp.status)));
      }
      return Ok(resp.body);
    }

    /** `async_get_car_data`: the request, then the first search row parsed into a snapshot. */
    method GetCarData() returns (r: Result<Snapshot, Error>)
      modifies this, session
      ensures var x := Protocol(old(Pair()), carId, old(session.pending));
        r == CarDataOf(x.result, carId) && Pair() == x.tokens &&
        session.log == old(session.log) + x.calls &&
        session.pending == Drop(old(session.pending), |x.calls|)
    {
      var resp := Request();
      match resp
      case Err(e) =>
        return Err(e);
      case Ok(body) =>
        var row := FirstRow(body, carId);
        match row
        case Err(e) =>
          return Err(e);
        case Ok(raw) =>
          return Parse(raw);
    }
  }
}
