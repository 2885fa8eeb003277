/** The remote API as a scripted oracle: every request the code sends is recorded,
    and the answer is the next response of a fixed script. */
module Net {
  import opened Json

  /** The requests the integration and the setup helper send. */
  datatype Call =
    | CarData(token: Json, carId: string)        // POST /car-service/car/v2/search with sensors, filtered by car
    | RefreshToken(refreshToken: Json)           // POST /id-service/auth/refresh-token
    | SignUp(phone: string)                      // POST /id-service/auth/sign-up
    | SignIn(phone: string, code: string)        // POST /id-service/auth/sign-in
    | OrgList(token: Json)                       // GET  /id-service/org/my
    | OrgSignIn(token: Json, orgId: Json)        // POST /id-service/org/sign-in
    | CarSearch(token: Json)                     // POST /car-service/car/v2/search without sensors

  /** An answer: a transport failure (connection refused, timeout, DNS, TLS), or a
      status code with its decoded JSON body. */
  datatype Response = Failed | Reply(status: int, body: Json)

  /** The `i`-th response of a script; a script that has run out answers with a transport failure. */
  function Nth(script: seq<Response>, i: nat): Response {
    if i < |script| then script[i] else Failed
  }

  /** The script after `n` responses have been consumed. */
  function Drop(script: seq<Response>, n: nat): seq<Response> {
    if n <= |script| then script[n..] else []
  }

  lemma DropDrop(script: seq<Response>, a: nat, b: nat)
    ensures Drop(Drop(script, a), b) == Drop(script, a + b)
    ensures Nth(Drop(script, a), b) == Nth(script, a + b)
  {
  }

  /** The HTTP session: the responses still to come and the requests sent so far. */
  class Session {
    var pending: seq<Response>
    var log: seq<Call>

    constructor (script: seq<Response>)
      ensures pending == script && log == []
    {
      pending := script;
      log := [];
    }

    method Send(c: Call) returns (r: Response)
      modifies this
      ensures r == Nth(old(pending), 0)
      ensures pending == Drop(old(pending), 1)
      ensures log == old(log) + [c]
    {
      r := if pending == [] then Failed else pending[0];
      pending := if pending == [] then [] else pending[1..];
      log := log + [c];
    }
  }
}
