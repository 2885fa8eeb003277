/** The config flow (custom_components/voyah/config_flow.py): phone entry and SMS
    request, code entry and sign-in, the optional organisation step, and the choice of
    a car, ending in a config entry or an abort.  Each step's network requests go
    through the session oracle. */
module ConfigFlow {
  import opened Json
  import opened Strings
  import opened Net
  import opened Api

  /** DOMAIN, the integration's name. */
  const Domain: string := "voyah"

  // ---------------------------------------------------------------------------
  // Phone normalisation

  /** `phone.lstrip("+").replace(" ", "").replace("-", "")`. */
  function NormalizePhone(s: string): (r: string)
    ensures ' ' !in r && '-' !in r
    ensures forall x :: x != ' ' && x != '-' ==> multiset(r)[x] == multiset(LStrip(s, '+'))[x]
  {
    var spaceless := Remove(LStrip(s, '+'), ' ');
    var r := Remove(spaceless, '-');
    assert multiset(r)[' '] == multiset(spaceless)[' '] == 0;
    r
  }

  /** Leading pluses are dropped, then spaces and dashes anywhere; everything else
      stays, in order. */
  lemma NormalizePhoneKeepsOrder(pluses: string, rest: string)
    requires forall i :: 0 <= i < |pluses| ==> pluses[i] == '+'
    requires rest == [] || rest[0] != '+'
    ensures NormalizePhone(pluses + rest) == Remove(Remove(rest, ' '), '-')
  {
    PlusesStripped(pluses, rest);
  }

  lemma {:induction false} PlusesStripped(pluses: string, rest: string)
    requires forall i :: 0 <= i < |pluses| ==> pluses[i] == '+'
    requires rest == [] || rest[0] != '+'
    ensures LStrip(pluses + rest, '+') == rest
  {
    if pluses == [] {
      assert pluses + rest == rest;
    } else {
      assert (pluses + rest)[1..] == pluses[1..] + rest;
      PlusesStripped(pluses[1..], rest);
    }
  }

  /** A plain digit string is left unchanged. */
  lemma NormalizeDigits(s: string)
    requires IsDigits(s)
    ensures NormalizePhone(s) == s
  {
    assert LStrip(s, '+') == s;
    RemoveAbsent(s, ' ');
    RemoveAbsent(s, '-');
  }

  // ---------------------------------------------------------------------------
  // Error keys

  /** The form error of `async_step_user` when the SMS request fails. */
  function SmsErrorKey(e: Error): (k: string)
    ensures k == "cannot_connect" <==> e == ConnectionError
  {
    if e == ConnectionError then "cannot_connect" else "unknown"
  }

  /** The form error of `async_step_code` when sign-in fails. */
  function SignInErrorKey(e: Error): (k: string)
    ensures k == "invalid_code" <==> e == AuthError
    ensures k == "cannot_connect" <==> e == ConnectionError || e.ApiError?
    ensures k == "unknown" <==> e == OtherException
  {
    match e
    case AuthError => "invalid_code"
    case ConnectionError => "cannot_connect"
    case ApiError(_) => "cannot_connect"
    case OtherException => "unknown"
  }

  // ---------------------------------------------------------------------------
  // Car labels and ids

  /** The four fields a car label is built from, with the `or` fallbacks. */
  datatype LabelFields = LabelFields(model: Json, name: Json, plate: Json, vin: Json)

  function LabelFieldsOf(car: map<string, Json>): LabelFields {
    LabelFields(Or(GetOr(car, "model", Null), GetOr(car, "modelName", Null)),
                GetOr(car, "name", Null),
                Or(GetOr(car, "plateNumber", Null), GetOr(car, "grz", Null)),
                GetOr(car, "vin", Null))
  }

  /** The parts of `_car_label`: model, a name that differs from it, `[plate]`, `(vin)`,
      each only when present. */
  function LabelParts(f: LabelFields): (parts: seq<string>)
    ensures parts == [] <==> !Truthy(f.model) && !Truthy(f.name) && !Truthy(f.plate) && !Truthy(f.vin)
    // one part per present field, a name equal to the model not counted; in the order
    // model, name, plate, VIN
    ensures var m := if Truthy(f.model) then 1 else 0;
      var n := if Truthy(f.name) && f.name != f.model then 1 else 0;
      var p := if Truthy(f.plate) then 1 else 0;
      var v := if Truthy(f.vin) then 1 else 0;
      |parts| == m + n + p + v &&
      (m == 1 ==> parts[0] == Text(f.model)) &&
      (n == 1 ==> parts[m] == Text(f.name)) &&
      (p == 1 ==> parts[m + n] == "[" + Text(f.plate) + "]") &&
      (v == 1 ==> parts[m + n + p] == "(" + Text(f.vin) + ")")
  {
    (if Truthy(f.model) then [Text(f.model)] else []) +
    (if Truthy(f.name) && f.name != f.model then [Text(f.name)] else []) +
    (if Truthy(f.plate) then ["[" + Text(f.plate) + "]"] else []) +
    (if Truthy(f.vin) then ["(" + Text(f.vin) + ")"] else [])
  }

  /** `_car_label`: the parts joined by spaces, or the car's `_id` (else "Voyah") when there are none. */
  function CarLabel(car: map<string, Json>): (shown: Json)
    // with any label field the label is a string that starts with the model and ends
    // with the VIN in parentheses, when those are present
    ensures var f := LabelFieldsOf(car);
      (Truthy(f.model) || Truthy(f.name) || Truthy(f.plate) || Truthy(f.vin)) ==> shown.Str?
    ensures var f := LabelFieldsOf(car);
      Truthy(f.model) ==> Text(f.model) <= shown.s
    ensures var f := LabelFieldsOf(car);
      var suffix := "(" + Text(f.vin) + ")";
      Truthy(f.vin) ==> |suffix| <= |shown.s| && shown.s[|shown.s| - |suffix|..] == suffix
    // without any, the car's `_id`, else "Voyah"
    ensures var f := LabelFieldsOf(car);
      !Truthy(f.model) && !Truthy(f.name) && !Truthy(f.plate) && !Truthy(f.vin) ==>
      shown == GetOr(car, "_id", Str("Voyah"))
  {
    var parts := LabelParts(LabelFieldsOf(car));
    if parts != [] then JoinEnds(parts); Str(JoinSpaces(parts)) else GetOr(car, "_id", Str("Voyah"))
  }

  /** A car with all four fields, its name differing from its model, gets all four parts, in order. */
  lemma AllFourParts(f: LabelFields)
    requires Truthy(f.model) && Truthy(f.name) && Truthy(f.plate) && Truthy(f.vin)
    requires f.name != f.model
    ensures LabelParts(f) == [Text(f.model), Text(f.name), "[" + Text(f.plate) + "]", "(" + Text(f.vin) + ")"]
  {
  }

  lemma JoinFour(a: string, b: string, c: string, d: string)
    ensures JoinSpaces([a, b, c, d]) == a + " " + (b + " " + (c + " " + d))
  {
    assert [c, d][1..] == [d];
    assert JoinSpaces([c, d]) == c + " " + d;
    assert [b, c, d][1..] == [c, d];
    assert JoinSpaces([b, c, d]) == b + " " + (c + " " + d);
    assert [a, b, c, d][1..] == [b, c, d];
  }

  lemma CarLabelExample()
    ensures CarLabel(map["model" := Str("Free"), "name" := Str("Dream"), "plateNumber" := Str("A001AA"), "vin" := Str("X1")])
         == Str("Free Dream [A001AA] (X1)")
  {
    var car := map["model" := Str("Free"), "name" := Str("Dream"), "plateNumber" := Str("A001AA"), "vin" := Str("X1")];
    ExampleFields(car);
    ExampleParts();
  }

  lemma ExampleFields(car: map<string, Json>)
    requires car == map["model" := Str("Free"), "name" := Str("Dream"), "plateNumber" := Str("A001AA"), "vin" := Str("X1")]
    ensures LabelFieldsOf(car) == LabelFields(Str("Free"), Str("Dream"), Str("A001AA"), Str("X1"))
  {
  }

  lemma ExampleParts()
    ensures JoinSpaces(LabelParts(LabelFields(Str("Free"), Str("Dream"), Str("A001AA"), Str("X1")))) == "Free Dream [A001AA] (X1)"
  {
    var f := LabelFields(Str("Free"), Str("Dream"), Str("A001AA"), Str("X1"));
    assert "Dream"[0] != "Free"[0];
    AllFourParts(f);
    assert "[" + Text(f.plate) + "]" == "[A001AA]";
    assert "(" + Text(f.vin) + ")" == "(X1)";
    JoinFour("Free", "Dream", "[A001AA]", "(X1)");
    assert "Free" + " " + ("Dream" + " " + ("[A001AA]" + " " + "(X1)")) == "Free Dream [A001AA] (X1)";
  }

  /** A name equal to the model is not repeated; `modelName` stands in for a missing model. */
  lemma CarLabelNameIsModel()
    ensures CarLabel(map["modelName" := Str("Passion"), "name" := Str("Passion")]) == Str("Passion")
  {
    var car := map["modelName" := Str("Passion"), "name" := Str("Passion")];
    assert LabelParts(LabelFieldsOf(car)) == ["Passion"];
  }

  /** With no label fields the label is the `_id`, or "Voyah" without one. */
  lemma CarLabelFallback(id: Json)
    ensures CarLabel(map["_id" := id]) == id
    ensures CarLabel(map[]) == Str("Voyah")
  {
  }

  /** The entry's unique id, `f"{DOMAIN}_{car_id}"`. */
  function UniqueId(car: map<string, Json>): string {
    Domain + "_" + Text(IdOf(car))
  }

  // ---------------------------------------------------------------------------
  // Choosing a car

  predicate Matches(car: Json, carId: Json) {
    car.Obj? && IdOf(car.fields) == carId
  }

  /** Position of the first car whose id is `carId`, scanning as the generator in
      `async_step_car` does: a car that is not an object stops the scan with an exception. */
  function FirstMatch(cars: seq<Json>, carId: Json): (r: Result<Option<nat>, Error>)
    ensures r.Ok? && r.value.Some? ==>
      r.value.value < |cars| && Matches(cars[r.value.value], carId) &&
      forall j :: 0 <= j < r.value.value ==> cars[j].Obj? && !Matches(cars[j], carId)
    ensures r == Ok(None) ==> forall j :: 0 <= j < |cars| ==> cars[j].Obj? && !Matches(cars[j], carId)
    ensures r.Err? ==> exists j :: 0 <= j < |cars| && !cars[j].Obj?
  {
    if cars == [] then Ok(None)
    else if !cars[0].Obj? then Err(OtherException)
    else if IdOf(cars[0].fields) == carId then Ok(Some(0))
    else
      match FirstMatch(cars[1..], carId)
      case Err(e) => assert cars[1..][0] == cars[1]; Err(e)
      case Ok(None) => Ok(None)
      case Ok(Some(k)) => Ok(Some(k + 1))
  }

  /** `next((c for c in cars if id(c) == car_id), cars[0])`: the first matching car, else the first car. */
  function SelectCar(cars: seq<Json>, carId: Json): (r: Result<Json, Error>)
    ensures r.Ok? ==> r.value in cars
    // on a list of dicts the selection always succeeds
    ensures cars != [] && (forall c :: c in cars ==> c.Obj?) ==> r.Ok?
    ensures r.Ok? && !Matches(r.value, carId) ==> r.value == cars[0] && forall c :: c in cars ==> !Matches(c, carId)
    ensures (exists c :: c in cars && Matches(c, carId)) && (forall c :: c in cars ==> c.Obj?) ==> r.Ok? && Matches(r.value, carId)
    // the matching car chosen is the first one
    ensures r.Ok? && Matches(r.value, carId) ==>
      exists k :: 0 <= k < |cars| && r.value == cars[k] && forall j :: 0 <= j < k ==> !Matches(cars[j], carId)
  {
    if cars == [] then Err(OtherException)
    else
      match FirstMatch(cars, carId)
      case Err(e) => Err(e)
      case Ok(None) => Ok(cars[0])
      case Ok(Some(k)) => Ok(cars[k])
  }

  // ---------------------------------------------------------------------------
  // Flow results

  datatype Step = UserStep | CodeStep | OrganizationStep | CarStep

  /** The data of the created config entry. */
  datatype EntryData = EntryData(phone: string, access: Json, refresh: Json, carId: Json, carName: Json)

  /** What a step returns, or `Raised` when an exception escapes it. */
  datatype FlowResult =
    | ShowForm(step: Step, error: Option<string>)
    | CreateEntry(uniqueId: string, title: Json, data: EntryData)
    | Abort(reason: string)
    | Raised

  /** `_async_create_entry` for `car`: unique id `voyah_<car id>`, aborted when an entry
      with that id exists, otherwise an entry titled with the car's label. */
  function EntryResult(car: Json, phone: string, t: Tokens, configured: set<string>): (r: FlowResult)
    ensures r.CreateEntry? ==>
      car.Obj? && r.uniqueId == UniqueId(car.fields) && r.uniqueId !in configured &&
      r.title == CarLabel(car.fields) &&
      r.data == EntryData(phone, t.access, t.refresh, IdOf(car.fields), CarLabel(car.fields))
    ensures r.Abort? <==> car.Obj? && UniqueId(car.fields) in configured
    ensures r.Raised? <==> !car.Obj?
  {
    if !car.Obj? then Raised
    else if UniqueId(car.fields) in configured then Abort("already_configured")
    else
      var title := CarLabel(car.fields);
      CreateEntry(UniqueId(car.fields), title, EntryData(phone, t.access, t.refresh, IdOf(car.fields), title))
  }

  /** The organisation form; building its options fails on an organisation that is not an object. */
  function OrgForm(orgs: seq<Json>, error: Option<string>): FlowResult {
    if forall o :: o in orgs ==> o.Obj? then ShowForm(OrganizationStep, error) else Raised
  }

  /** The car form; building its options fails on a car that is not an object. */
  function CarForm(cars: seq<Json>): FlowResult {
    if forall c :: c in cars ==> c.Obj? then ShowForm(CarStep, None) else Raised
  }

  /** How many organisations the account has decides the next step. */
  datatype OrgChoice = SeveralOrgs(orgs: seq<Json>) | OneOrg(org: map<string, Json>) | NoOrg | OrgsRaised

  /** `len(orgs) > 1`, `len(orgs) == 1`, otherwise none. */
  function OrgDecision(orgs: Json): (d: OrgChoice)
    ensures d.SeveralOrgs? <==> orgs.Arr? && |orgs.items| > 1
    ensures d.SeveralOrgs? ==> d.orgs == orgs.items
    ensures d.OneOrg? <==> orgs.Arr? && |orgs.items| == 1 && orgs.items[0].Obj?
    ensures d.OneOrg? ==> d.org == orgs.items[0].fields
    ensures orgs.Arr? && orgs.items == [] ==> d == NoOrg
  {
    match orgs
    case Arr(items) =>
      if |items| > 1 then SeveralOrgs(items)
      else if |items| == 1 then (if items[0].Obj? then OneOrg(items[0].fields) else OrgsRaised)
      else NoOrg
    case Obj(fields) => if fields == map[] then NoOrg else OrgsRaised
    case Str(s) => if s == "" then NoOrg else OrgsRaised
    case _ => OrgsRaised
  }

  /** What `_async_load_cars` does with the car list. */
  datatype CarsChoice = NoCars | OnlyCar(car: Json) | ChooseCar(cars: seq<Json>) | CarsRaised

  /** `not cars` aborts, one car is taken, several are offered. */
  function CarsDecision(cars: Json): (d: CarsChoice)
    ensures d == NoCars <==> !Truthy(cars)
    ensures d.OnlyCar? <==> cars.Arr? && |cars.items| == 1
    ensures d.OnlyCar? ==> d.car == cars.items[0]
    ensures d.ChooseCar? <==> cars.Arr? && |cars.items| > 1
    ensures d.ChooseCar? ==> d.cars == cars.items
  {
    if !Truthy(cars) then NoCars
    else if cars.Arr? then (if |cars.items| == 1 then OnlyCar(cars.items[0]) else ChooseCar(cars.items))
    else CarsRaised
  }

  /** What `_async_load_cars` returns, given the answer to the car search and the
      phone and tokens the entry would hold. */
  function LoadCarsOf(answer: Response, phone: string, t: Tokens, configured: set<string>): (r: FlowResult)
    // it raises iff the search raises, or the list is truthy and is not a list of dicts
    ensures r == Raised <==>
      SearchCarsOf(answer).Err? ||
      (Truthy(SearchCarsOf(answer).value) &&
       (!SearchCarsOf(answer).value.Arr? || exists c :: c in SearchCarsOf(answer).value.items && !c.Obj?))
    ensures r == Abort("no_cars") <==> SearchCarsOf(answer).Ok? && !Truthy(SearchCarsOf(answer).value)
    // an entry only for a single car, the car form only for several
    ensures r.CreateEntry? ==>
      SearchCarsOf(answer).Ok? && SearchCarsOf(answer).value.Arr? && |SearchCarsOf(answer).value.items| == 1 &&
      r == EntryResult(SearchCarsOf(answer).value.items[0], phone, t, configured)
    ensures r.ShowForm? ==>
      r == ShowForm(CarStep, None) &&
      SearchCarsOf(answer).Ok? && SearchCarsOf(answer).value.Arr? && |SearchCarsOf(answer).value.items| > 1
  {
    match SearchCarsOf(answer)
    case Err(_) => Raised
    case Ok(found) =>
      match CarsDecision(found)
      case NoCars => Abort("no_cars")
      case OnlyCar(car) => assert car in found.items; EntryResult(car, phone, t, configured)
      case ChooseCar(items) => CarForm(items)
      case CarsRaised => Raised
  }

  /** What step 2 returns after a sign-in that gave the pair `t` (lines 98-117), given
      the answers to the organisation listing and the requests after it: several
      organisations show the organisation form; one is signed in to, an API error there
      being ignored, and the cars are loaded with the resulting pair; none loads the
      cars with `t`. */
  function ListOrgsOf(script: seq<Response>, phone: string, t: Tokens, configured: set<string>): FlowResult {
    match OrganizationsOf(Nth(script, 0))
    case Err(_) => Raised
    case Ok(orgs) =>
      match OrgDecision(orgs)
      case OrgsRaised => Raised
      case SeveralOrgs(items) => OrgForm(items, None)
      case NoOrg => LoadCarsOf(Nth(script, 1), phone, t, configured)
      case OneOrg(_) =>
        match SignInOrgOf(Nth(script, 1))
        case Err(e) => if IsVoyahError(e) then LoadCarsOf(Nth(script, 2), phone, t, configured) else Raised
        case Ok(body) =>
          match AdoptOrgTokens(body, t)
          case Err(_) => Raised
          case Ok(adopted) => LoadCarsOf(Nth(script, 2), phone, adopted, configured)
  }

  /** An account without organisations and with a single, new car: the flow creates the
      entry for that car, holding the sign-in's pair. */
  lemma NoOrgOneCarCreatesEntry(script: seq<Response>, phone: string, t: Tokens, configured: set<string>,
                                car: map<string, Json>)
    requires Nth(script, 0) == Reply(200, Arr([]))
    requires Nth(script, 1) == Reply(200, Obj(map["rows" := Arr([Obj(car)])]))
    requires UniqueId(car) !in configured
    ensures ListOrgsOf(script, phone, t, configured) ==
      CreateEntry(UniqueId(car), CarLabel(car), EntryData(phone, t.access, t.refresh, IdOf(car), CarLabel(car)))
  {
    assert OrgDecision(Arr([])) == NoOrg;
    assert SearchCarsOf(Nth(script, 1)) == Ok(Arr([Obj(car)]));
    assert CarsDecision(Arr([Obj(car)])) == OnlyCar(Obj(car));
  }

  /** One organisation whose sign-in succeeds with a new pair `t2`, and a single new car:
      the entry holds `t2`. */
  lemma OneOrgOneCarCreatesEntry(script: seq<Response>, phone: string, t: Tokens, configured: set<string>,
                                 org: map<string, Json>, car: map<string, Json>, t2: Tokens)
    requires Nth(script, 0) == Reply(200, Arr([Obj(org)]))
    requires Nth(script, 1) == Reply(200, Obj(map["accessToken" := t2.access, "refreshToken" := t2.refresh]))
    requires Nth(script, 2) == Reply(200, Obj(map["rows" := Arr([Obj(car)])]))
    requires UniqueId(car) !in configured
    ensures ListOrgsOf(script, phone, t, configured) ==
      CreateEntry(UniqueId(car), CarLabel(car), EntryData(phone, t2.access, t2.refresh, IdOf(car), CarLabel(car)))
  {
    assert OrgDecision(Arr([Obj(org)])) == OneOrg(org);
    var body := Obj(map["accessToken" := t2.access, "refreshToken" := t2.refresh]);
    assert SignInOrgOf(Nth(script, 1)) == Ok(body);
    assert AdoptOrgTokens(body, t) == Ok(t2);
    assert SearchCarsOf(Nth(script, 2)) == Ok(Arr([Obj(car)]));
    assert CarsDecision(Arr([Obj(car)])) == OnlyCar(Obj(car));
  }

  // ---------------------------------------------------------------------------
  // The flow

  /** `VoyahConfigFlow`: the state carried from step to step. */
  class VoyahConfigFlow {
    const session: Session
    const configured: set<string>   // unique ids of the entries that already exist
    var phone: string
    var accessToken: Json
    var refreshToken: Json
    var organizations: seq<Json>
    var cars: seq<Json>

    constructor (session: Session, configured: set<string>)
      ensures this.session == session && this.configured == configured
      ensures phone == "" && accessToken == Str("") && refreshToken == Str("")
      ensures organizations == [] && cars == []
    {
      this.session := session;
      this.configured := configured;
      phone := "";
      accessToken := Str("");
      refreshToken := Str("");
      organizations := [];
      cars := [];
    }

    function Pair(): Tokens
      reads this
    {
      Tokens(accessToken, refreshToken)
    }

    /** Step 1: normalise the phone number and request an SMS code. */
    method StepUser(input: Option<string>) returns (r: FlowResult)
      modifies this, session
      ensures Pair() == old(Pair())
      ensures input.None? ==> r == ShowForm(UserStep, None) && session.log == old(session.log)
      ensures input.Some? ==>
        phone == NormalizePhone(input.value) && session.log == old(session.log) + [SignUp(phone)]
      ensures input.Some? && RequestSmsOf(Nth(old(session.pending), 0)).Pass? ==> r == ShowForm(CodeStep, None)
      ensures input.Some? && RequestSmsOf(Nth(old(session.pending), 0)).Fail? ==>
        r == ShowForm(UserStep, Some(SmsErrorKey(RequestSmsOf(Nth(old(session.pending), 0)).error)))
    {
      if input.None? {
        return ShowForm(UserStep, None);
      }
      r := RequestSms(NormalizePhone(input.value));
    }

    /** Step 1 once the phone number is normalised: keep it and request the SMS code. */
    method RequestSms(normalized: string) returns (r: FlowResult)
      modifies this, session
      ensures Pair() == old(Pair())
      ensures phone == normalized && session.log == old(session.log) + [SignUp(normalized)]
      ensures RequestSmsOf(Nth(old(session.pending), 0)).Pass? ==> r == ShowForm(CodeStep, None)
      ensures RequestSmsOf(Nth(old(session.pending), 0)).Fail? ==>
        r == ShowForm(UserStep, Some(SmsErrorKey(RequestSmsOf(Nth(old(session.pending), 0)).error)))
    {
      phone := normalized;
      var resp := session.Send(SignUp(normalized));
      var sent := RequestSmsOf(resp);
      if sent.Fail? {
        return ShowForm(UserStep, Some(SmsErrorKey(sent.error)));
      }
      r := StepCode(None);
    }

    /** Step 2: sign in with the code, then branch on the number of organisations. */
    method StepCode(code: Option<string>) returns (r: FlowResult)
      modifies this, session
      ensures phone == old(phone)
      ensures code.None? ==> r == ShowForm(CodeStep, None) && session.log == old(session.log) && Pair() == old(Pair())
      ensures code.Some? ==>
        |session.log| > |old(session.log)| && session.log[|old(session.log)|] == SignIn(phone, code.value)
      // a failed sign-in shows the mapped error and keeps the tokens
      ensures code.Some? && SignInOf(Nth(old(session.pending), 0)).Err? ==>
        r == ShowForm(CodeStep, Some(SignInErrorKey(SignInOf(Nth(old(session.pending), 0)).error))) &&
        Pair() == old(Pair()) && session.log == old(session.log) + [SignIn(phone, code.value)]
      // after a successful sign-in whose answer holds both tokens, the organisations are
      // listed with the new access token and decide the result; otherwise reading the
      // tokens raises
      ensures code.Some? && SignInOf(Nth(old(session.pending), 0)).Ok? ==>
        var auth := SignInOf(Nth(old(session.pending), 0)).value;
        if auth.Obj? && "accessToken" in auth.fields && "refreshToken" in auth.fields then
          var t := Tokens(auth.fields["accessToken"], auth.fields["refreshToken"]);
          r == ListOrgsOf(Drop(old(session.pending), 1), phone, t, configured) &&
          |session.log| >= |old(session.log)| + 2 &&
          session.log[..|old(session.log)| + 2] == old(session.log) + [SignIn(phone, code.value), OrgList(t.access)]
        else
          r == Raised
      // the tokens and requests on each branch
      ensures code.Some? && SignInOf(Nth(old(session.pending), 0)).Ok? && r != Raised ==>
        var auth := SignInOf(Nth(old(session.pending), 0)).value;
        auth.Obj? && "accessToken" in auth.fields && "refreshToken" in auth.fields &&
        |session.log| >= |old(session.log)| + 2 &&
        session.log[|old(session.log)| + 1] == OrgList(auth.fields["accessToken"]) &&
        OrganizationsOf(Nth(old(session.pending), 1)).Ok? &&
        match OrgDecision(OrganizationsOf(Nth(old(session.pending), 1)).value)
        // several organisations: the organisation step, with the sign-in tokens
        case SeveralOrgs(orgs) =>
          r == ShowForm(OrganizationStep, None) && organizations == orgs &&
          Pair() == Tokens(auth.fields["accessToken"], auth.fields["refreshToken"])
        // one organisation: sign in to it (a failure there is ignored), then load the cars
        case OneOrg(org) =>
          |session.log| >= |old(session.log)| + 4 &&
          session.log[|old(session.log)| + 2] == OrgSignIn(auth.fields["accessToken"], IdOf(org)) &&
          var orgAuth := SignInOrgOf(Nth(old(session.pending), 2));
          (orgAuth.Err? ==> Pair() == Tokens(auth.fields["accessToken"], auth.fields["refreshToken"])) &&
          (orgAuth.Ok? ==> Ok(Pair()) == AdoptOrgTokens(orgAuth.value, Tokens(auth.fields["accessToken"], auth.fields["refreshToken"]))) &&
          session.log[|old(session.log)| + 3] == CarSearch(Pair().access)
        // no organisation: load the cars with the sign-in tokens
        case NoOrg =>
          |session.log| >= |old(session.log)| + 3 &&
          Pair() == Tokens(auth.fields["accessToken"], auth.fields["refreshToken"]) &&
          session.log[|old(session.log)| + 2] == CarSearch(auth.fields["accessToken"])
        case OrgsRaised => false
    {
      if code.None? {
        return ShowForm(CodeStep, None);
      }
      ghost var script := session.pending;
      var resp := session.Send(SignIn(phone, code.value));
      var signedIn := SignInOf(resp);
      if signedIn.Err? {
        return ShowForm(CodeStep, Some(SignInErrorKey(signedIn.error)));
      }
      var auth := signedIn.value;
      if !auth.Obj? || "accessToken" !in auth.fields {
        return Raised;
      }
      accessToken := auth.fields["accessToken"];
      if "refreshToken" !in auth.fields {
        return Raised;
      }
      refreshToken := auth.fields["refreshToken"];
      ghost var log1 := session.log;
      r := ListOrganizations();
      assert session.log[..|log1| + 1] == log1 + [OrgList(auth.fields["accessToken"])];
      DropDrop(script, 1, 0);
      DropDrop(script, 1, 1);
      DropDrop(script, 1, 2);
    }

    /** Step 2 after the sign-in (lines 98-117): list the organisations with the new access
        token and branch on how many there are. */
    method ListOrganizations() returns (r: FlowResult)
      modifies this, session
      ensures phone == old(phone)
      ensures |session.log| > |old(session.log)| && session.log[..|old(session.log)| + 1] == old(session.log) + [OrgList(old(accessToken))]
      ensures r == ListOrgsOf(old(session.pending), phone, old(Pair()), configured)
      // the tokens and requests on each branch
      ensures OrganizationsOf(Nth(old(session.pending), 0)).Ok? ==>
        match OrgDecision(OrganizationsOf(Nth(old(session.pending), 0)).value)
        // several organisations: the organisation step, with the tokens kept
        case SeveralOrgs(orgs) =>
          organizations == orgs && Pair() == old(Pair()) && session.log == old(session.log) + [OrgList(old(accessToken))]
        // one organisation: sign in to it (an API error there is ignored), then load the cars
        case OneOrg(org) =>
          var orgAuth := SignInOrgOf(Nth(old(session.pending), 1));
          var signedIn := old(session.log) + [OrgList(old(accessToken)), OrgSignIn(old(accessToken), IdOf(org))];
          (orgAuth.Err? && IsVoyahError(orgAuth.error) ==>
            Pair() == old(Pair()) && session.log == signedIn + [CarSearch(old(accessToken))]) &&
          (orgAuth.Err? && !IsVoyahError(orgAuth.error) ==> Pair() == old(Pair()) && session.log == signedIn) &&
          (orgAuth.Ok? ==>
            match AdoptOrgTokens(orgAuth.value, old(Pair()))
            case Err(_) => Pair() == old(Pair()) && session.log == signedIn
            case Ok(t) => Pair() == t && session.log == signedIn + [CarSearch(t.access)])
        // no organisation: load the cars with the tokens kept
        case NoOrg =>
          Pair() == old(Pair()) && session.log == old(session.log) + [OrgList(old(accessToken)), CarSearch(old(accessToken))]
        case OrgsRaised =>
          Pair() == old(Pair()) && session.log == old(session.log) + [OrgList(old(accessToken))]
    {
      ghost var log0 := session.log;
      ghost var script := session.pending;
      var orgResp := session.Send(OrgList(accessToken));
      var orgs := OrganizationsOf(orgResp);
      if orgs.Err? {
        return Raised;
      }
      var choice := OrgDecision(orgs.value);
      match choice {
        case OrgsRaised =>
          return Raised;
        case SeveralOrgs(items) =>
          organizations := items;
          r := StepOrganization(None);
          return;
        case OneOrg(org) =>
          var orgAnswer := session.Send(OrgSignIn(accessToken, IdOf(org)));
          DropDrop(script, 1, 0);
          var orgAuth := SignInOrgOf(orgAnswer);
          if orgAuth.Err? && !IsVoyahError(orgAuth.error) {
            return Raised;
          }
          if orgAuth.Ok? {
            var adopted := AdoptOrgTokens(orgAuth.value, Pair());
            if adopted.Err? {
              return Raised;
            }
            accessToken := adopted.value.access;
            refreshToken := adopted.value.refresh;
          }
          assert |session.log| == |log0| + 2;
          DropDrop(script, 1, 1);
          DropDrop(Drop(script, 1), 1, 0);
          r := LoadCars();
        case NoOrg =>
          assert |session.log| == |log0| + 1;
          DropDrop(script, 1, 0);
          r := LoadCars();
      }
    }

    /** Step 3: sign in to the chosen organisation, then load the cars. */
    method StepOrganization(orgId: Option<Json>) returns (r: FlowResult)
      modifies this, session
      ensures phone == old(phone) && organizations == old(organizations)
      ensures orgId.None? ==> r == OrgForm(organizations, None) && session.log == old(session.log) && Pair() == old(Pair())
      ensures orgId.Some? ==>
        |session.log| > |old(session.log)| &&
        session.log[|old(session.log)|] == OrgSignIn(old(accessToken), orgId.value)
      ensures orgId.Some? ==>
        var orgAuth := SignInOrgOf(Nth(old(session.pending), 0));
        (orgAuth.Err? && IsVoyahError(orgAuth.error) ==>
          r == OrgForm(organizations, Some("cannot_connect")) && Pair() == old(Pair())) &&
        (orgAuth.Err? && !IsVoyahError(orgAuth.error) ==> r == Raised) &&
        // a successful sign-in adopts its tokens and loads the cars with them;
        // reading tokens that are not there raises
        (orgAuth.Ok? ==>
          match AdoptOrgTokens(orgAuth.value, old(Pair()))
          case Err(_) => r == Raised
          case Ok(t) =>
            Pair() == t && r == LoadCarsOf(Nth(old(session.pending), 1), phone, t, configured) &&
            session.log == old(session.log) + [OrgSignIn(old(accessToken), orgId.value), CarSearch(t.access)])
    {
      if orgId.None? {
        return OrgForm(organizations, None);
      }
      var resp := session.Send(OrgSignIn(accessToken, orgId.value));
      var orgAuth := SignInOrgOf(resp);
      if orgAuth.Err? {
        if IsVoyahError(orgAuth.error) {
          return OrgForm(organizations, Some("cannot_connect"));
        }
        return Raised;
      }
      var adopted := AdoptOrgTokens(orgAuth.value, Pair());
      if adopted.Err? {
        return Raised;
      }
      accessToken := adopted.value.access;
      refreshToken := adopted.value.refresh;
      DropDrop(old(session.pending), 1, 0);
      r := LoadCars();
    }

    /** `_async_load_cars`: no car aborts, one car makes the entry, several lead to the car step. */
    method LoadCars() returns (r: FlowResult)
      modifies this, session
      ensures phone == old(phone) && Pair() == old(Pair()) && organizations == old(organizations)
      ensures session.log == old(session.log) + [CarSearch(accessToken)]
      ensures r == LoadCarsOf(Nth(old(session.pending), 0), phone, Pair(), configured)
      ensures var found := SearchCarsOf(Nth(old(session.pending), 0));
        (found.Err? ==> r == Raised) &&
        (found.Ok? ==>
          match CarsDecision(found.value)
          case NoCars => r == Abort("no_cars")
          case OnlyCar(car) => r == EntryResult(car, phone, Pair(), configured) && cars == [car]
          case ChooseCar(items) => r == CarForm(items) && cars == items
          case CarsRaised => r == Raised)
    {
      var resp := session.Send(CarSearch(accessToken));
      var found := SearchCarsOf(resp);
      if found.Err? {
        return Raised;
      }
      var choice := CarsDecision(found.value);
      match choice {
        case NoCars =>
          cars := [];
          return Abort("no_cars");
        case CarsRaised =>
          return Raised;
        case OnlyCar(car) =>
          cars := [car];
          r := AsyncCreateEntry(car);
        case ChooseCar(items) =>
          cars := items;
          r := StepCar(None);
      }
    }

    /** Step 4: the chosen car, the first car when the choice matches none. */
    method StepCar(carId: Option<Json>) returns (r: FlowResult)
      ensures carId.None? ==> r == CarForm(cars)
      ensures carId.Some? ==>
        var chosen := SelectCar(cars, carId.value);
        r == if chosen.Err? then Raised else EntryResult(chosen.value, phone, Pair(), configured)
    {
      if carId.None? {
        return CarForm(cars);
      }
      var chosen := SelectCar(cars, carId.value);
      if chosen.Err? {
        return Raised;
      }
      r := AsyncCreateEntry(chosen.value);
    }

    /** `_async_create_entry`. */
    method AsyncCreateEntry(car: Json) returns (r: FlowResult)
      ensures r == EntryResult(car, phone, Pair(), configured)
    {
      if !car.Obj? {
        return Raised;
      }
      var carId := IdOf(car.fields);
      var carName := CarLabel(car.fields);
      var uniqueId := Domain + "_" + Text(carId);
      if uniqueId in configured {
        return Abort("already_configured");
      }
      return CreateEntry(uniqueId, carName, EntryData(phone, accessToken, refreshToken, carId, carName));
    }
  }
}
