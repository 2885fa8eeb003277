/** The update coordinator (custom_components/voyah/coordinator.py): one polling cycle
    fetches the car data, maps the client's errors onto "re-authentication needed"
    and "update failed", and after a successful fetch writes the token pair back to
    the config entry when it differs from the pair last written. */
module Coordinator {
  import opened Json
  import opened Net
  import opened Api

  /** CONF_ACCESS_TOKEN and CONF_REFRESH_TOKEN, the config entry keys of the two tokens. */
  const AccessTokenKey: string := "access_token"
  const RefreshTokenKey: string := "refresh_token"

  /** How `_async_update_data` ends. */
  datatype UpdateOutcome =
    | Fetched(data: Snapshot)      // the new coordinator data
    | AuthFailed                   // ConfigEntryAuthFailed: the user must re-authenticate
    | UpdateFailed(cause: Error)   // UpdateFailed: retried at the next interval
    | Raised                       // an exception that is not a VoyahApiError passes through

  /** The error mapping of `_async_update_data`. */
  function OutcomeOf(r: Result<Snapshot, Error>): (o: UpdateOutcome)
    ensures o.Fetched? <==> r.Ok?
    ensures o.Fetched? ==> o.data == r.value
    ensures o == AuthFailed <==> r == Err(AuthError)
    // connection errors and plain API errors, not-found included, all fail the update
    ensures o.UpdateFailed? <==> r.Err? && IsVoyahError(r.error) && r.error != AuthError
    ensures o.UpdateFailed? ==> o.cause == r.error
  {
    match r
    case Ok(data) => Fetched(data)
    case Err(AuthError) => AuthFailed
    case Err(OtherException) => Raised
    case Err(e) => UpdateFailed(e)
  }

  /** The persisted side of the coordinator: the pair last written, the config entry data,
      and the number of config entry updates issued. */
  datatype Store = Store(last: Tokens, data: map<string, Json>, writes: nat)

  /** `_persist_tokens_if_changed` against the client's current pair. */
  function Persist(s: Store, current: Tokens): (u: Store)
    ensures u.last == current
    ensures u.writes == if current != s.last then s.writes + 1 else s.writes
    // a write replaces the two token fields and keeps every other entry field
    ensures u.data - {AccessTokenKey, RefreshTokenKey} == s.data - {AccessTokenKey, RefreshTokenKey}
    ensures current != s.last ==>
      AccessTokenKey in u.data && u.data[AccessTokenKey] == current.access &&
      RefreshTokenKey in u.data && u.data[RefreshTokenKey] == current.refresh
    ensures current == s.last ==> u == s
  {
    if current.access != s.last.access || current.refresh != s.last.refresh then
      Store(current, s.data[AccessTokenKey := current.access][RefreshTokenKey := current.refresh], s.writes + 1)
    else
      s
  }

  /** One polling cycle: its outcome, the store and the client's pair afterwards, and the requests sent. */
  datatype Cycle = Cycle(outcome: UpdateOutcome, store: Store, tokens: Tokens, calls: seq<Call>)

  function CycleOf(s: Store, t: Tokens, carId: string, script: seq<Response>): (c: Cycle)
    // a failed fetch leaves the store as it was, even when the client's pair changed
    ensures !c.outcome.Fetched? ==> c.store == s
    // after a successful fetch the store holds the client's pair
    ensures c.outcome.Fetched? ==> c.store.last == c.tokens
    ensures c.store.writes <= s.writes + 1
  {
    var x := Protocol(t, carId, script);
    var outcome := OutcomeOf(CarDataOf(x.result, carId));
    Cycle(outcome, if outcome.Fetched? then Persist(s, x.tokens) else s, x.tokens, x.calls)
  }

  /** The store and the client's pair after a sequence of cycles, each answered by its own script. */
  function Cycles(s: Store, t: Tokens, carId: string, scripts: seq<seq<Response>>): (Store, Tokens)
    decreases |scripts|
  {
    if scripts == [] then (s, t)
    else
      var c := CycleOf(s, t, carId, scripts[0]);
      Cycles(c.store, c.tokens, carId, scripts[1..])
  }

  /** The first answer of a script is not 401: no refresh can happen. */
  predicate NoUnauthorized(script: seq<Response>) {
    !(Nth(script, 0).Reply? && Nth(script, 0).status == 401)
  }

  /** Starting from the pair the client was built with, cycles in which the access token
      is never rejected never write the config entry. */
  lemma {:induction false} NoRefreshNoWrite(s: Store, t: Tokens, carId: string, scripts: seq<seq<Response>>)
    requires s.last == t
    requires forall i :: 0 <= i < |scripts| ==> NoUnauthorized(scripts[i])
    ensures Cycles(s, t, carId, scripts) == (s, t)
    decreases |scripts|
  {
    if scripts != [] {
      var c := CycleOf(s, t, carId, scripts[0]);
      assert c.tokens == t;
      assert c.store == s;
      NoRefreshNoWrite(s, t, carId, scripts[1..]);
    }
  }

  /** A pair refreshed in a cycle whose fetch failed is not written then, but by the next
      successful cycle (one that needs no refresh of its own). */
  lemma RefreshedPairWrittenLater(s: Store, t: Tokens, carId: string, failing: seq<Response>, next: seq<Response>)
    requires s.last == t
    requires !CycleOf(s, t, carId, failing).outcome.Fetched?
    requires CycleOf(s, t, carId, failing).tokens != t
    requires NoUnauthorized(next)
    ensures var c1 := CycleOf(s, t, carId, failing);
      var c2 := CycleOf(c1.store, c1.tokens, carId, next);
      c2.outcome.Fetched? ==> c2.store.writes == s.writes + 1 && c2.store.last == c2.tokens
  {
    var c1 := CycleOf(s, t, carId, failing);
    var c2 := CycleOf(c1.store, c1.tokens, carId, next);
    assert c1.store == s;
    assert c2.tokens == c1.tokens;
  }

  /** `VoyahDataUpdateCoordinator`: the client, the pair last written, and the config entry. */
  class DataUpdateCoordinator {
    const client: ApiClient
    var lastAccessToken: Json
    var lastRefreshToken: Json
    var entryData: map<string, Json>
    var writes: nat

    constructor (client: ApiClient, entryData: map<string, Json>)
      ensures this.client == client && this.entryData == entryData && writes == 0
      ensures lastAccessToken == client.accessToken && lastRefreshToken == client.refreshToken
    {
      this.client := client;
      this.entryData := entryData;
      lastAccessToken := client.accessToken;
      lastRefreshToken := client.refreshToken;
      writes := 0;
    }

    function StoreOf(): Store
      reads this
    {
      Store(Tokens(lastAccessToken, lastRefreshToken), entryData, writes)
    }

    /** `_persist_tokens_if_changed`. */
    method PersistTokensIfChanged()
      modifies this
      ensures StoreOf() == Persist(old(StoreOf()), client.Pair())
    {
      var newAccess := client.accessToken;
      var newRefresh := client.refreshToken;
      if newAccess != lastAccessToken || newRefresh != lastRefreshToken {
        lastAccessToken := newAccess;
        lastRefreshToken := newRefresh;
        var newData := entryData;
        newData := newData[AccessTokenKey := newAccess];
        newData := newData[RefreshTokenKey := newRefresh];
        entryData := newData;
        writes := writes + 1;
      }
    }

    /** `_async_update_data`. */
    method AsyncUpdateData() returns (o: UpdateOutcome)
      modifies this, client, client.session
      ensures var c := CycleOf(old(StoreOf()), old(client.Pair()), client.carId, old(client.session.pending));
        o == c.outcome && StoreOf() == c.store && client.Pair() == c.tokens &&
        client.session.log == old(client.session.log) + c.calls
    {
      var data := client.GetCarData();
      match data
      case Err(AuthError) =>
        return AuthFailed;
      case Err(OtherException) =>
        return Raised;
      case Err(e) =>
        return UpdateFailed(e);
      case Ok(snapshot) =>
        PersistTokensIfChanged();
        return Fetched(snapshot);
    }
  }
}
