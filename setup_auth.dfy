/** The interactive credentials helper (setup_auth.py): it validates the phone number
    and the SMS code typed by the user, signs in, lets the user pick an organisation and
    a car, and ends with the car id and the token pair, or with `sys.exit(1)`, or with an
    uncaught exception.  What the user types is a parameter; the server's answers come
    from a response script. */
module SetupAuth {
  import opened Json
  import opened Strings
  import opened Net
  import Api
  import ConfigFlow

  /** `token[:40]` evaluates only on a string or a list; on null, a number, a boolean
      or a dict it raises. */
  predicate Sliceable(j: Json) {
    j.Str? || j.Arr?
  }

  /** How the helper ends. */
  datatype Exit =
    | Credentials(carId: Json, access: Json, refresh: Json)   // the values printed for the integration
    | Exited                                                  // sys.exit(1) after a message
    | Crashed                                                 // an uncaught exception

  // ---------------------------------------------------------------------------
  // What the user types

  /** The phone number `main` accepts: the stripped line with leading pluses, spaces
      and dashes removed, when that is exactly 11 digits. */
  function PhoneOf(line: string): (r: Option<string>)
    ensures r.Some? ==> IsDigits(r.value) && |r.value| == 11
    ensures r.Some? ==> r.value == ConfigFlow.NormalizePhone(Strip(line))
  {
    var phone := ConfigFlow.NormalizePhone(Strip(line));
    if IsDigits(phone) && |phone| == 11 then Some(phone) else None
  }

  /** A line is accepted as a phone number iff, after its leading pluses, it holds only
      digits, spaces and dashes, and exactly 11 digits. */
  lemma PhoneAccepted(line: string)
    ensures var t := LStrip(Strip(line), '+');
      PhoneOf(line).Some? <==>
        (forall i :: 0 <= i < |t| ==> IsDigit(t[i]) || t[i] == ' ' || t[i] == '-') &&
        |t| - Count(t, ' ') - Count(t, '-') == 11
  {
    var t := LStrip(Strip(line), '+');
    var phone := Remove(Remove(t, ' '), '-');
    assert PhoneOf(line).Some? <==> IsDigits(phone) && |phone| == 11;
    NormalizedLength(t);
    NormalizedDigits(t);
  }

  lemma NormalizedLength(t: string)
    ensures |Remove(Remove(t, ' '), '-')| == |t| - Count(t, ' ') - Count(t, '-')
  {
    var spaceless := Remove(t, ' ');
    CountIsMultiplicity(spaceless, '-');
    CountIsMultiplicity(t, '-');
  }

  /** Every character left after removing spaces and dashes is a digit iff every
      character was a digit, a space or a dash. */
  lemma NormalizedDigits(t: string)
    ensures var phone := Remove(Remove(t, ' '), '-');
      (forall i :: 0 <= i < |phone| ==> IsDigit(phone[i])) <==>
      (forall i :: 0 <= i < |t| ==> IsDigit(t[i]) || t[i] == ' ' || t[i] == '-')
  {
    var phone := Remove(Remove(t, ' '), '-');
    if forall i :: 0 <= i < |t| ==> IsDigit(t[i]) || t[i] == ' ' || t[i] == '-' {
      forall i | 0 <= i < |phone|
        ensures IsDigit(phone[i])
      {
        var x := phone[i];
        assert x in multiset(phone);
        NormalizedKeeps(t, x);
        var k :| 0 <= k < |t| && t[k] == x;
      }
    } else {
      var k :| 0 <= k < |t| && !(IsDigit(t[k]) || t[k] == ' ' || t[k] == '-');
      var x := t[k];
      assert x in multiset(t);
      NormalizedKeeps(t, x);
      var i :| 0 <= i < |phone| && phone[i] == x;
    }
  }

  /** Removing spaces and dashes keeps every other character. */
  lemma NormalizedKeeps(t: string, x: char)
    requires x != ' ' && x != '-'
    ensures x in multiset(Remove(Remove(t, ' '), '-')) <==> x in multiset(t)
  {
    var spaceless := Remove(t, ' ');
    assert multiset(Remove(spaceless, '-'))[x] == multiset(spaceless)[x] == multiset(t)[x];
  }

  /** A plain 11-digit number is accepted as typed. */
  lemma PhoneOfDigits(s: string)
    requires IsDigits(s) && |s| == 11
    ensures PhoneOf(s) == Some(s)
  {
    StripDigits(s);
    ConfigFlow.NormalizeDigits(s);
  }

  lemma StripDigits(s: string)
    requires IsDigits(s)
    ensures Strip(s) == s
  {
    assert !IsSpace(s[0]) && !IsSpace(s[|s| - 1]);
    assert StripLeft(s) == s;
    assert StripRight(s) == s;
  }

  /** The SMS code `main` accepts: the stripped line, when it is exactly 4 digits. */
  function CodeOf(line: string): (r: Option<string>)
    ensures r.Some? <==> IsDigits(Strip(line)) && |Strip(line)| == 4
    ensures r.Some? ==> r.value == Strip(line)
  {
    var code := Strip(line);
    if IsDigits(code) && |code| == 4 then Some(code) else None
  }

  /** Four digits are accepted as typed; anything with a character that is neither a digit
      nor surrounding whitespace is not. */
  lemma CodeOfDigits(s: string)
    requires IsDigits(s) && |s| == 4
    ensures CodeOf(s) == Some(s)
  {
    StripDigits(s);
  }

  /** The value of a string of ASCII digits. */
  function DigitsValue(s: string): nat
    requires forall i :: 0 <= i < |s| ==> IsDigit(s[i])
    decreases |s|
  {
    if s == [] then 0
    else
      assert IsDigit(s[|s| - 1]);
      DigitsValue(s[..|s| - 1]) * 10 + (s[|s| - 1] as int - '0' as int)
  }

  /** `int(s)` for an optional sign followed by ASCII digits, surrounding whitespace
      allowed; anything else raises ValueError (None). */
  function IntOf(s: string): (r: Option<int>)
    ensures IsDigits(Strip(s)) ==> r == Some(DigitsValue(Strip(s)))
    ensures r.Some? ==> Strip(s) != []
    // an optional sign before the digits; anything else raises ValueError (None)
    ensures var t := Strip(s);
      r.Some? <==> IsDigits(t) || (|t| > 1 && (t[0] == '+' || t[0] == '-') && IsDigits(t[1..]))
    ensures var t := Strip(s);
      !IsDigits(t) && |t| > 1 && IsDigits(t[1..]) ==>
        (t[0] == '+' ==> r == Some(DigitsValue(t[1..]))) && (t[0] == '-' ==> r == Some(0 - DigitsValue(t[1..]) as int))
  {
    var t := Strip(s);
    if IsDigits(t) then Some(DigitsValue(t))
    else if |t| > 1 && t[0] == '+' && IsDigits(t[1..]) then Some(DigitsValue(t[1..]))
    else if |t| > 1 && t[0] == '-' && IsDigits(t[1..]) then Some(0 - DigitsValue(t[1..]) as int)
    else None
  }

  // ---------------------------------------------------------------------------
  // The server's answers

  /** How `request_sms` ends. */
  datatype SmsVerdict = SmsSent | SmsMaybeSent | SmsCaptcha | SmsRejected | SmsCrashed

  /** The message asks for a captcha, in English or in Russian, in any letter case. */
  predicate IsCaptcha(msg: string) {
    Contains(Lower(msg), "captcha") || Contains(Lower(msg), "капча")
  }

  /** `request_sms`: a status below 400 succeeds; from 400 on, a captcha message exits,
      then 400 goes on (the code may have been sent) and every other status exits.
      Reading `message` raises on a body that is not a dict, lowering it on a non-string. */
  function SmsVerdictOf(resp: Response): (v: SmsVerdict)
    ensures v == SmsSent <==> resp.Reply? && resp.status < 400
    ensures v == SmsMaybeSent ==> resp.Reply? && resp.status == 400
    ensures v == SmsRejected ==> resp.Reply? && resp.status > 400
    ensures v == SmsCrashed <==>
      resp.Failed? ||
      (resp.status >= 400 && (!resp.body.Obj? || !GetOr(resp.body.fields, "message", Str("Unknown error")).Str?))
  {
    match resp
    case Failed => SmsCrashed
    case Reply(status, data) =>
      if status < 400 then SmsSent
      else if !data.Obj? then SmsCrashed
      else
        var msg := GetOr(data.fields, "message", Str("Unknown error"));
        if !msg.Str? then SmsCrashed
        else if IsCaptcha(msg.s) then SmsCaptcha
        else if status == 400 then SmsMaybeSent
        else SmsRejected
  }

  /** The helper goes on to ask for the code. */
  predicate SmsContinues(v: SmsVerdict) {
    v == SmsSent || v == SmsMaybeSent
  }

  /** The helper goes on after the SMS request iff the status is below 400, or it is 400
      with a message that does not ask for a captcha. */
  lemma SmsContinuesIff(resp: Response)
    ensures SmsContinues(SmsVerdictOf(resp)) <==>
      resp.Reply? &&
      (resp.status < 400 ||
       (resp.status == 400 && resp.body.Obj? &&
        GetOr(resp.body.fields, "message", Str("Unknown error")).Str? &&
        !IsCaptcha(GetOr(resp.body.fields, "message", Str("Unknown error")).s)))
  {
  }

  /** A captcha message stops the helper whatever the status from 400 on, 400 included. */
  lemma CaptchaStops(status: int, body: map<string, Json>)
    requires status >= 400
    requires "message" in body && body["message"].Str? && IsCaptcha(body["message"].s)
    ensures SmsVerdictOf(Reply(status, Obj(body))) == SmsCaptcha
  {
  }

  /** `sign_in` and the two subscripts after it in `main`: a status from 400 on exits, a
      body without `accessToken` exits, and the pair is read from the body.  A non-dict
      body raises where the source calls `.get` or subscripts it. */
  function SignInTokens(resp: Response): (r: Result<Api.Tokens, Exit>)
    ensures r.Ok? ==>
      resp.Reply? && resp.status < 400 && resp.body.Obj? &&
      "accessToken" in resp.body.fields && "refreshToken" in resp.body.fields &&
      r.value == Api.Tokens(resp.body.fields["accessToken"], resp.body.fields["refreshToken"])
    // and conversely, a successful dict answer with both tokens signs in
    ensures (resp.Reply? && resp.status < 400 && resp.body.Obj? &&
             "accessToken" in resp.body.fields && "refreshToken" in resp.body.fields) ==> r.Ok?
    ensures resp.Reply? && resp.status >= 400 && resp.body.Obj? ==> r == Err(Exited)
    ensures resp.Reply? && resp.body.Obj? && "accessToken" !in resp.body.fields ==> r == Err(Exited)
    ensures r.Err? ==> !r.error.Credentials?
  {
    match resp
    case Failed => Err(Crashed)
    case Reply(status, data) =>
      if status >= 400 then (if data.Obj? then Err(Exited) else Err(Crashed))
      else
        match Member("accessToken", data)
        case None => Err(Crashed)
        case Some(false) => Err(Exited)
        case Some(true) =>
          if data.Obj? && "refreshToken" in data.fields then
            Ok(Api.Tokens(data.fields["accessToken"], data.fields["refreshToken"]))
          else
            Err(Crashed)
  }

  /** `get_organizations`: [] from 400 on, a list body as it is, otherwise `rows`, else
      `items`, else the body itself in a list when it has `_id`, else [].  None when it
      raises: a transport failure, or `.get` on a body that is neither a list nor a dict. */
  function OrganizationsOf(resp: Response): (r: Option<Json>)
    ensures resp.Reply? && resp.status >= 400 ==> r == Some(Arr([]))
    ensures resp.Reply? && resp.status < 400 && resp.body.Arr? ==> r == Some(resp.body)
    ensures resp.Reply? && resp.status < 400 && resp.body.Obj? ==>
      var d := resp.body.fields;
      r == Some(if "rows" in d then d["rows"]
                else if "items" in d then d["items"]
                else if "_id" in d then Arr([resp.body])
                else Arr([]))
    ensures r.None? <==> resp.Failed? || (resp.status < 400 && !resp.body.Arr? && !resp.body.Obj?)
  {
    match resp
    case Failed => None
    case Reply(status, data) =>
      if status >= 400 then Some(Arr([]))
      else if data.Arr? then Some(data)
      else if data.Obj? then
        Some(GetOr(data.fields, "rows", GetOr(data.fields, "items", if "_id" in data.fields then Arr([data]) else Arr([]))))
      else None
  }

  /** An organisation answering with a single record is offered as the only choice. */
  lemma SingleOrganisationRecord(org: map<string, Json>)
    requires "_id" in org && "rows" !in org && "items" !in org
    ensures OrganizationsOf(Reply(200, Obj(org))) == Some(Arr([Obj(org)]))
  {
  }

  /** `sign_in_org`: from 400 on it exits (raising on a non-dict body); otherwise the body. */
  function OrgSignInOf(resp: Response): (r: Result<Json, Exit>)
    ensures r.Ok? <==> resp.Reply? && resp.status < 400
    ensures r.Ok? ==> r.value == resp.body
    ensures r.Err? ==> !r.error.Credentials?
    ensures resp.Reply? && resp.status >= 400 && resp.body.Obj? ==> r == Err(Exited)
  {
    match resp
    case Failed => Err(Crashed)
    case Reply(status, data) =>
      if status >= 400 then (if data.Obj? then Err(Exited) else Err(Crashed))
      else Ok(data)
  }

  /** `search_cars`: [] from 400 on (raising on a non-dict body), otherwise `rows`, else
      `items`, else []; `.get` raises on a body that is not a dict. */
  function CarsOf(resp: Response): (r: Option<Json>)
    ensures resp.Reply? && resp.status >= 400 && resp.body.Obj? ==> r == Some(Arr([]))
    ensures resp.Reply? && resp.status < 400 && resp.body.Obj? ==>
      r == Some(GetOr(resp.body.fields, "rows", GetOr(resp.body.fields, "items", Arr([]))))
    ensures r.Some? <==> resp.Reply? && resp.body.Obj?
  {
    match resp
    case Failed => None
    case Reply(status, data) =>
      if !data.Obj? then None
      else if status >= 400 then Some(Arr([]))
      else Some(GetOr(data.fields, "rows", GetOr(data.fields, "items", Arr([]))))
  }

  // ---------------------------------------------------------------------------
  // Labels and picking

  /** The organisation label, `o.get("name", o.get("_id", "?"))`; None when it raises. */
  function OrgLabel(o: Json): (r: Option<string>)
    ensures r.Some? <==> o.Obj?
  {
    if o.Obj? then Some(Text(GetOr(o.fields, "name", GetOr(o.fields, "_id", Str("?"))))) else None
  }

  /** The strings of a list whose elements are all strings. */
  function TextsOf(parts: seq<Json>): (r: seq<string>)
    ensures |r| == |parts|
    ensures forall i :: 0 <= i < |parts| && parts[i].Str? ==> r[i] == parts[i].s
  {
    if parts == [] then [] else [if parts[0].Str? then parts[0].s else ""] + TextsOf(parts[1..])
  }

  /** The label parts of `car_label`, before the fallback: model, a name that differs
      from it, `[plate]`, `(VIN: vin)`.  Model and name are kept as they are. */
  function SetupLabelParts(f: ConfigFlow.LabelFields): seq<Json> {
    (if Truthy(f.model) then [f.model] else []) +
    (if Truthy(f.name) && f.name != f.model then [f.name] else []) +
    (if Truthy(f.plate) then [Str("[" + Text(f.plate) + "]")] else []) +
    (if Truthy(f.vin) then [Str("(VIN: " + Text(f.vin) + ")")] else [])
  }

  /** Which parts are strings, and what comes first and last. */
  lemma SetupLabelShape(f: ConfigFlow.LabelFields)
    ensures var parts := SetupLabelParts(f);
      ((forall p :: p in parts ==> p.Str?) <==>
        (Truthy(f.model) ==> f.model.Str?) && (Truthy(f.name) && f.name != f.model ==> f.name.Str?)) &&
      (Truthy(f.model) ==> parts[0] == f.model) &&
      (Truthy(f.vin) ==> parts[|parts| - 1] == Str("(VIN: " + Text(f.vin) + ")"))
  {
    var m: seq<Json> := if Truthy(f.model) then [f.model] else [];
    var n: seq<Json> := if Truthy(f.name) && f.name != f.model then [f.name] else [];
    var p: seq<Json> := if Truthy(f.plate) then [Str("[" + Text(f.plate) + "]")] else [];
    var v: seq<Json> := if Truthy(f.vin) then [Str("(VIN: " + Text(f.vin) + ")")] else [];
    assert SetupLabelParts(f) == m + n + p + v;
  }

  /** `car_label`: the parts joined by spaces, or the `_id`, else `id`, else "" when there
      are none.  `" ".join` raises on a part that is not a string (None), and so does
      `.get` on a car that is not a dict. */
  function CarLabel(car: Json): (r: Option<string>)
    ensures r.Some? ==> car.Obj?
    // with label fields, a label exists iff the model and a shown name are strings; it
    // starts with the model and ends with "(VIN: vin)" when those are present
    ensures car.Obj? && SetupLabelParts(ConfigFlow.LabelFieldsOf(car.fields)) != [] ==>
      var f := ConfigFlow.LabelFieldsOf(car.fields);
      (r.Some? <==> (Truthy(f.model) ==> f.model.Str?) && (Truthy(f.name) && f.name != f.model ==> f.name.Str?))
    ensures r.Some? && Truthy(ConfigFlow.LabelFieldsOf(car.fields).model) ==>
      ConfigFlow.LabelFieldsOf(car.fields).model.s <= r.value
    ensures r.Some? && Truthy(ConfigFlow.LabelFieldsOf(car.fields).vin) ==>
      var suffix := "(VIN: " + Text(ConfigFlow.LabelFieldsOf(car.fields).vin) + ")";
      |suffix| <= |r.value| && r.value[|r.value| - |suffix|..] == suffix
    ensures car.Obj? && SetupLabelParts(ConfigFlow.LabelFieldsOf(car.fields)) == [] ==>
      var fallback := GetOr(car.fields, "_id", GetOr(car.fields, "id", Str("")));
      r == if fallback.Str? then Some(fallback.s) else None
  {
    if !car.Obj? then None
    else
      var parts := SetupLabelParts(ConfigFlow.LabelFieldsOf(car.fields));
      if parts == [] then
        // `" ".join([car_id])` is `car_id` itself
        var fallback := GetOr(car.fields, "_id", GetOr(car.fields, "id", Str("")));
        if fallback.Str? then Some(fallback.s) else None
      else
        SetupLabelShape(ConfigFlow.LabelFieldsOf(car.fields));
        if forall p :: p in parts ==> p.Str? then
          JoinEnds(TextsOf(parts));
          Some(JoinSpaces(TextsOf(parts)))
        else None
  }

  /** The helper and the integration label a car alike, as long as its model and name
      are strings and it has no VIN (the helper writes "VIN: " before it). */
  lemma LabelsAgree(car: map<string, Json>)
    requires var f := ConfigFlow.LabelFieldsOf(car);
      (Truthy(f.model) ==> f.model.Str?) && (Truthy(f.name) ==> f.name.Str?) && !Truthy(f.vin)
    requires ConfigFlow.LabelParts(ConfigFlow.LabelFieldsOf(car)) != []
    ensures CarLabel(Obj(car)) == Some(ConfigFlow.CarLabel(car).s)
  {
    var f := ConfigFlow.LabelFieldsOf(car);
    var parts := SetupLabelParts(f);
    assert TextsOf(parts) == ConfigFlow.LabelParts(f);
  }

  /** What `pick_option` returns. */
  datatype Pick = Picked(item: Json) | NoItems | PickCrashed

  /** The typed integer k names one of `n` items: 1 <= k <= n. */
  predicate ValidChoice(choice: Option<int>, n: nat) {
    choice.Some? && 1 <= choice.value <= n
  }

  /** What each typed line parses to, in order. */
  function Choices(lines: seq<string>): seq<Option<int>> {
    seq(|lines|, i requires 0 <= i < |lines| => IntOf(lines[i]))
  }

  /** The position of the first typed integer that names one of `n` items. */
  function FirstChoice(choices: seq<Option<int>>, n: nat): (r: Option<nat>)
    ensures r.Some? ==> r.value < |choices| && ValidChoice(choices[r.value], n)
    ensures r.Some? ==> forall j :: 0 <= j < r.value ==> !ValidChoice(choices[j], n)
    ensures r.None? ==> forall j :: 0 <= j < |choices| ==> !ValidChoice(choices[j], n)
  {
    if choices == [] then None
    else if ValidChoice(choices[0], n) then Some(0)
    else
      match FirstChoice(choices[1..], n)
      case None => None
      case Some(k) => Some(k + 1)
  }

  /** `pick_option`: no items exits; a single item is taken without asking; otherwise
      every label is shown and the first typed k with 1 <= k <= n picks item k-1; input
      running out raises EOFError.  A label that raises stops it (`labels[i]` is None). */
  function Choose(items: seq<Json>, labels: seq<Option<string>>, choices: seq<Option<int>>): (r: Pick)
    requires |labels| == |items|
    ensures r == NoItems <==> items == []
    ensures |items| == 1 ==> r == if labels[0].Some? then Picked(items[0]) else PickCrashed
    ensures |items| > 1 && r.Picked? ==>
      (forall i :: 0 <= i < |labels| ==> labels[i].Some?) &&
      exists k :: 0 <= k < |choices| && ValidChoice(choices[k], |items|) && r.item == items[choices[k].value - 1]
  {
    if items == [] then NoItems
    else if |items| == 1 then (if labels[0].Some? then Picked(items[0]) else PickCrashed)
    else if exists i :: 0 <= i < |labels| && labels[i].None? then PickCrashed
    else
      match FirstChoice(choices, |items|)
      case None => PickCrashed
      case Some(k) => Picked(items[choices[k].value - 1])
  }

  /** A typed line that names no item is skipped. */
  lemma InvalidLineSkipped(items: seq<Json>, labels: seq<Option<string>>, choices: seq<Option<int>>)
    requires |labels| == |items| && |items| > 1
    requires choices != [] && !ValidChoice(choices[0], |items|)
    ensures Choose(items, labels, choices) == Choose(items, labels, choices[1..])
  {
  }

  /** The first typed line that names an item picks it. */
  lemma ValidLinePicks(items: seq<Json>, labels: seq<Option<string>>, choices: seq<Option<int>>)
    requires |labels| == |items| && |items| > 1
    requires forall i :: 0 <= i < |labels| ==> labels[i].Some?
    requires choices != [] && ValidChoice(choices[0], |items|)
    ensures Choose(items, labels, choices) == Picked(items[choices[0].value - 1])
  {
  }

  /** The prompt loop of `pick_option`: read lines until one parses to an integer
      naming one of `n` items, and give its position and the integer typed there. */
  method ReadChoice(lines: seq<string>, n: nat) returns (k: Option<nat>, typed: int)
    ensures k == FirstChoice(Choices(lines), n)
    ensures k.Some? ==> Choices(lines)[k.value] == Some(typed)
  {
    ghost var choices := Choices(lines);
    var i := 0;
    while i < |lines|
      invariant 0 <= i <= |lines|
      invariant forall j :: 0 <= j < i ==> !ValidChoice(choices[j], n)
    {
      var choice := IntOf(lines[i]);
      assert choice == choices[i];
      if choice.Some? && 1 <= choice.value <= n {
        FirstValidChoice(choices, n, i);
        return Some(i), choice.value;
      }
      i := i + 1;
    }
    return None, 0;
  }

  /** A valid choice after only invalid ones is the first. */
  lemma FirstValidChoice(choices: seq<Option<int>>, n: nat, k: nat)
    requires k < |choices| && ValidChoice(choices[k], n)
    requires forall j :: 0 <= j < k ==> !ValidChoice(choices[j], n)
    ensures FirstChoice(choices, n) == Some(k)
  {
    var r := FirstChoice(choices, n);
    assert r.Some?;
    if r.value < k {
    } else if r.value > k {
    }
  }

  /** The loop of `pick_option` that prints every label; false when one of them raises. */
  method ShowLabels(labels: seq<Option<string>>) returns (ok: bool)
    ensures ok <==> forall i :: 0 <= i < |labels| ==> labels[i].Some?
  {
    var i := 0;
    while i < |labels|
      invariant 0 <= i <= |labels|
      invariant forall j :: 0 <= j < i ==> labels[j].Some?
    {
      if labels[i].None? {
        return false;
      }
      i := i + 1;
    }
    return true;
  }

  /** Once every label is shown, the first valid choice decides the pick. */
  lemma ChoiceDecides(items: seq<Json>, labels: seq<Option<string>>, choices: seq<Option<int>>,
                      k: Option<nat>, typed: int)
    requires |labels| == |items| && |items| > 1
    requires forall i :: 0 <= i < |labels| ==> labels[i].Some?
    requires k == FirstChoice(choices, |items|)
    requires k.Some? ==> choices[k.value] == Some(typed)
    ensures k.Some? ==> 1 <= typed <= |items|
    ensures Choose(items, labels, choices) == if k.None? then PickCrashed else Picked(items[typed - 1])
  {
  }

  /** `pick_option`, with the labels it prints and the lines the user types. */
  method PickOption(items: seq<Json>, labels: seq<Option<string>>, lines: seq<string>) returns (r: Pick)
    requires |labels| == |items|
    ensures r == Choose(items, labels, Choices(lines))
  {
    if items == [] {
      return NoItems;
    }
    if |items| == 1 {
      return if labels[0].Some? then Picked(items[0]) else PickCrashed;
    }
    var shown := ShowLabels(labels);
    if !shown {
      return PickCrashed;
    }
    var k, typed := ReadChoice(lines, |items|);
    ChoiceDecides(items, labels, Choices(lines), k, typed);
    if k.None? {
      return PickCrashed;
    }
    return Picked(items[typed - 1]);
  }

  /** The list `pick_option` receives: a falsy value counts as no items; any other
      value that is not a list makes it raise (None). */
  function ItemsOf(j: Json): (r: Option<seq<Json>>)
    ensures !Truthy(j) ==> r == Some([])
    ensures j.Arr? ==> r == Some(j.items)
    ensures r.None? <==> Truthy(j) && !j.Arr?
  {
    if !Truthy(j) then Some([]) else if j.Arr? then Some(j.items) else None
  }

  function OrgLabels(orgs: seq<Json>): (r: seq<Option<string>>)
    ensures |r| == |orgs|
  {
    if orgs == [] then [] else [OrgLabel(orgs[0])] + OrgLabels(orgs[1..])
  }

  function CarLabels(cars: seq<Json>): (r: seq<Option<string>>)
    ensures |r| == |cars|
  {
    if cars == [] then [] else [CarLabel(cars[0])] + CarLabels(cars[1..])
  }

  /** The id of a picked record; a picked item is always a dict, since labelling it would
      have raised otherwise. */
  function IdOfItem(j: Json): Json {
    if j.Obj? then IdOf(j.fields) else Null
  }

  // ---------------------------------------------------------------------------
  // The whole helper

  /** A part of `main` as a value: how it ends and the requests it sent. */
  datatype Stage<T> = Stage(result: T, calls: seq<Call>)

  /** The organisations `pick_option` is offered; None when getting them raises. */
  function OrgItems(resp: Response): Option<seq<Json>> {
    match OrganizationsOf(resp)
    case None => None
    case Some(orgs) => ItemsOf(orgs)
  }

  /** The cars `pick_option` is offered; None when getting them raises. */
  function CarItems(resp: Response): Option<seq<Json>> {
    match CarsOf(resp)
    case None => None
    case Some(cars) => ItemsOf(cars)
  }

  /** Lines 193-211 of `main`: the phone number as validated, the SMS request, the code
      as validated, and the sign-in. */
  function SignInPhaseOf(phone: Option<string>, code: Option<string>, script: seq<Response>)
    : Stage<Result<Api.Tokens, Exit>>
  {
    if phone.None? then Stage(Err(Exited), [])
    else
      var sms := SmsVerdictOf(Nth(script, 0));
      if !SmsContinues(sms) then Stage(Err(if sms == SmsCrashed then Crashed else Exited), [SignUp(phone.value)])
      else if code.None? then Stage(Err(Exited), [SignUp(phone.value)])
      else Stage(SignInTokens(Nth(script, 1)), [SignUp(phone.value), SignIn(phone.value, code.value)])
  }

  /** How the sign-in phase ends: a rejected phone number exits before any request, a
      refused SMS or a rejected code stops after the SMS request, and otherwise the
      sign-in's answer decides. */
  lemma SignInPhaseEnds(phone: Option<string>, code: Option<string>, script: seq<Response>)
    ensures var s := SignInPhaseOf(phone, code, script);
      (s.result.Err? ==> !s.result.error.Credentials?) &&
      (phone.None? ==> s == Stage(Err(Exited), [])) &&
      (phone.Some? ==> s.calls != [] && s.calls[0] == SignUp(phone.value)) &&
      (phone.Some? && !SmsContinues(SmsVerdictOf(Nth(script, 0))) ==> s.result.Err? && |s.calls| == 1) &&
      (phone.Some? && SmsContinues(SmsVerdictOf(Nth(script, 0))) && code.None? ==>
        s == Stage(Err(Exited), [SignUp(phone.value)])) &&
      // once the SMS request went on and the code is valid, the sign-in's answer decides
      (phone.Some? && SmsContinues(SmsVerdictOf(Nth(script, 0))) && code.Some? ==>
        s == Stage(SignInTokens(Nth(script, 1)), [SignUp(phone.value), SignIn(phone.value, code.value)]))
  {
    if phone.Some? && SmsContinues(SmsVerdictOf(Nth(script, 0))) && code.Some? {
      var r := SignInTokens(Nth(script, 1));
      assert r.Err? ==> !r.error.Credentials?;
    }
  }

  /** Lines 215-232 of `main`: list the organisations; when there are any, pick one, sign
      in to it, and take its tokens when its answer has `accessToken`.  The answers are
      those of `script` from position `start` on. */
  function OrgPhaseOf(t: Api.Tokens, lines: seq<string>, script: seq<Response>, start: nat)
    : Stage<Result<Api.Tokens, Exit>>
  {
    var listed := [OrgList(t.access)];
    match OrgItems(Nth(script, start))
    case None => Stage(Err(Crashed), listed)
    case Some(items) =>
      if items == [] then Stage(Ok(t), listed)
      else
        var pick := Choose(items, OrgLabels(items), Choices(lines));
        if !pick.Picked? then Stage(Err(Crashed), listed)
        else
          var calls := listed + [OrgSignIn(t.access, IdOfItem(pick.item))];
          match OrgSignInOf(Nth(script, start + 1))
          case Err(e) => Stage(Err(e), calls)
          case Ok(body) =>
            match Api.AdoptOrgTokens(body, t)
            case Err(_) => Stage(Err(Crashed), calls)
            case Ok(adopted) => Stage(Ok(adopted), calls)
  }

  /** How the organisation phase ends: with no organisation the tokens are kept; with
      some, one is picked and signed in to, and that answer decides the tokens. */
  lemma OrgPhaseEnds(t: Api.Tokens, lines: seq<string>, script: seq<Response>, start: nat)
    ensures var s := OrgPhaseOf(t, lines, script, start);
      (s.result.Err? ==> !s.result.error.Credentials?) &&
      1 <= |s.calls| <= 2 && s.calls[0] == OrgList(t.access) &&
      // no organisation: the tokens are kept
      (OrgItems(Nth(script, start)) == Some([]) ==> s == Stage(Ok(t), [OrgList(t.access)])) &&
      (s.result.Ok? ==>
        OrgItems(Nth(script, start)).Some? && (|s.calls| == 1 <==> OrgItems(Nth(script, start)).value == []))
    ensures var s := OrgPhaseOf(t, lines, script, start);
      // an organisation is picked and signed in to; its answer decides the tokens
      OrgItems(Nth(script, start)).Some? && OrgItems(Nth(script, start)).value != [] ==>
        var items := OrgItems(Nth(script, start)).value;
        var pick := Choose(items, OrgLabels(items), Choices(lines));
        (!pick.Picked? ==> s == Stage(Err(Crashed), [OrgList(t.access)])) &&
        (pick.Picked? ==>
          s.calls == [OrgList(t.access), OrgSignIn(t.access, IdOfItem(pick.item))] &&
          var orgAuth := OrgSignInOf(Nth(script, start + 1));
          (orgAuth.Err? ==> s.result == Err(orgAuth.error)) &&
          (orgAuth.Ok? ==> s.result == (match Api.AdoptOrgTokens(orgAuth.value, t)
                                        case Ok(adopted) => Ok(adopted)
                                        case Err(_) => Err(Crashed))))
  {
    var orgAuth := OrgSignInOf(Nth(script, start + 1));
    assert orgAuth.Err? ==> !orgAuth.error.Credentials?;
  }

  /** Lines 235-251 of `main`: search the cars, pick one, and end with its id and the
      tokens, which are printed by slicing them. */
  function CarPhaseOf(t: Api.Tokens, lines: seq<string>, answer: Response): Stage<Exit> {
    var calls := [CarSearch(t.access)];
    match CarItems(answer)
    case None => Stage(Crashed, calls)
    case Some(items) =>
      match Choose(items, CarLabels(items), Choices(lines))
      case NoItems => Stage(Exited, calls)
      case PickCrashed => Stage(Crashed, calls)
      case Picked(car) =>
        if Sliceable(t.access) && Sliceable(t.refresh) then Stage(Credentials(IdOfItem(car), t.access, t.refresh), calls)
        else Stage(Crashed, calls)
  }

  /** How the car phase ends: one search, then the picked car's id with the tokens when
      both can be sliced; no car at all exits. */
  lemma CarPhaseEnds(t: Api.Tokens, lines: seq<string>, answer: Response)
    ensures var s := CarPhaseOf(t, lines, answer);
      s.calls == [CarSearch(t.access)] &&
      (s.result.Credentials? ==>
        s.result.access == t.access && s.result.refresh == t.refresh && CarItems(answer).Some? &&
        var items := CarItems(answer).value;
        var pick := Choose(items, CarLabels(items), Choices(lines));
        pick.Picked? && s.result.carId == IdOfItem(pick.item))
    ensures var s := CarPhaseOf(t, lines, answer);
      // once a car is picked, the result is printed iff both tokens can be sliced
      CarItems(answer).Some? ==>
        var items := CarItems(answer).value;
        var pick := Choose(items, CarLabels(items), Choices(lines));
        pick.Picked? ==>
          s.result == if Sliceable(t.access) && Sliceable(t.refresh)
                      then Credentials(IdOfItem(pick.item), t.access, t.refresh)
                      else Crashed
    // no car at all exits
    ensures CarsOf(answer).Some? && !Truthy(CarsOf(answer).value) ==> CarPhaseOf(t, lines, answer).result == Exited
  {
  }

  /** Lines 214-251 of `main`, after the sign-in with tokens `t`: the organisation, then
      the car.  The answers are those of `script` from position `start` on. */
  function ChoosePhaseOf(t: Api.Tokens, orgLines: seq<string>, carLines: seq<string>,
                         script: seq<Response>, start: nat): Stage<Exit>
  {
    var org := OrgPhaseOf(t, orgLines, script, start);
    match org.result
    case Err(e) => Stage(e, org.calls)
    case Ok(chosen) =>
      var car := CarPhaseOf(chosen, carLines, Nth(script, start + |org.calls|));
      Stage(car.result, org.calls + car.calls)
  }

  /** How the choice phase ends: it starts by listing the organisations, and printed
      tokens are the sign-in's without an organisation and the adopted ones after one. */
  lemma ChoosePhaseEnds(t: Api.Tokens, orgLines: seq<string>, carLines: seq<string>,
                        script: seq<Response>, start: nat)
    ensures var s := ChoosePhaseOf(t, orgLines, carLines, script, start);
      s.calls != [] && s.calls[0] == OrgList(t.access) &&
      (s.result.Credentials? ==>
        (|s.calls| == 2 || |s.calls| == 3) && s.calls[|s.calls| - 1] == CarSearch(s.result.access) &&
        Sliceable(s.result.access) && Sliceable(s.result.refresh)) &&
      // without organisations the tokens of the sign-in are kept
      (s.result.Credentials? && |s.calls| == 2 ==> Api.Tokens(s.result.access, s.result.refresh) == t) &&
      // after an organisation sign-in the tokens are those it adopted
      (s.result.Credentials? && |s.calls| == 3 ==>
        s.calls[1].OrgSignIn? && s.calls[1].token == t.access &&
        OrgSignInOf(Nth(script, start + 1)).Ok? &&
        Api.AdoptOrgTokens(OrgSignInOf(Nth(script, start + 1)).value, t) == Ok(Api.Tokens(s.result.access, s.result.refresh)))
  {
    var org := OrgPhaseOf(t, orgLines, script, start);
    OrgPhaseEnds(t, orgLines, script, start);
    if org.result.Ok? {
      CarPhaseEnds(org.result.value, carLines, Nth(script, start + |org.calls|));
    }
  }

  /** How `main` ends, given the phone number and the code as validated (None when the
      line typed was rejected): the requests sent and the outcome.  The tokens of the
      result are those of the sign-in, replaced after an organisation sign-in only when
      its answer has `accessToken`. */
  predicate SetupEnds(phone: Option<string>, code: Option<string>, script: seq<Response>, r: Exit, calls: seq<Call>) {
    (phone.None? ==> r == Exited && calls == []) &&
    (phone.Some? ==> calls != [] && calls[0] == SignUp(phone.value)) &&
    (r.Credentials? ==>
      phone.Some? && SmsContinues(SmsVerdictOf(Nth(script, 0))) && code.Some? &&
      (|calls| == 4 || |calls| == 5) &&
      calls[1] == SignIn(phone.value, code.value) &&
      SignInTokens(Nth(script, 1)).Ok? &&
      calls[2] == OrgList(SignInTokens(Nth(script, 1)).value.access) &&
      calls[|calls| - 1] == CarSearch(r.access) &&
      // the tokens are printed by slicing them
      Sliceable(r.access) && Sliceable(r.refresh)) &&
    // without organisations the tokens of the sign-in are the result
    (r.Credentials? && |calls| == 4 ==>
      Api.Tokens(r.access, r.refresh) == SignInTokens(Nth(script, 1)).value) &&
    // after an organisation sign-in the tokens are those it adopted
    (r.Credentials? && |calls| == 5 ==>
      var t := SignInTokens(Nth(script, 1)).value;
      calls[3].OrgSignIn? && calls[3].token == t.access &&
      OrgSignInOf(Nth(script, 3)).Ok? &&
      Api.AdoptOrgTokens(OrgSignInOf(Nth(script, 3)).value, t) == Ok(Api.Tokens(r.access, r.refresh)))
  }

  /** `main` from the SMS request on, with the phone number and the code already validated. */
  function SetupOf(phone: Option<string>, code: Option<string>, orgLines: seq<string>, carLines: seq<string>,
                   script: seq<Response>): Stage<Exit>
  {
    var signedIn := SignInPhaseOf(phone, code, script);
    match signedIn.result
    case Err(e) => Stage(e, signedIn.calls)
    case Ok(t) =>
      var rest := ChoosePhaseOf(t, orgLines, carLines, script, 2);
      Stage(rest.result, signedIn.calls + rest.calls)
  }

  /** Every run of `main` ends as `SetupEnds` describes. */
  lemma SetupOfEnds(phone: Option<string>, code: Option<string>, orgLines: seq<string>, carLines: seq<string>,
                    script: seq<Response>)
    ensures var s := SetupOf(phone, code, orgLines, carLines, script);
      SetupEnds(phone, code, script, s.result, s.calls)
  {
    var signedIn := SignInPhaseOf(phone, code, script);
    SignInPhaseEnds(phone, code, script);
    if signedIn.result.Ok? {
      var rest := ChoosePhaseOf(signedIn.result.value, orgLines, carLines, script, 2);
      ChoosePhaseEnds(signedIn.result.value, orgLines, carLines, script, 2);
      assert (signedIn.calls + rest.calls)[2..] == rest.calls;
    }
  }

  /** A run that signs in, is offered no organisation and picks a car prints that car's
      id and the sign-in's tokens, after exactly four requests. */
  lemma SetupSucceedsWithoutOrganisation(phone: string, code: string, orgLines: seq<string>, carLines: seq<string>,
                                         script: seq<Response>, t: Api.Tokens, cars: seq<Json>, car: Json)
    requires SmsContinues(SmsVerdictOf(Nth(script, 0)))
    requires SignInTokens(Nth(script, 1)) == Ok(t)
    requires OrgItems(Nth(script, 2)) == Some([])
    requires CarItems(Nth(script, 3)) == Some(cars)
    requires Choose(cars, CarLabels(cars), Choices(carLines)) == Picked(car)
    requires Sliceable(t.access) && Sliceable(t.refresh)
    ensures SetupOf(Some(phone), Some(code), orgLines, carLines, script) ==
      Stage(Credentials(IdOfItem(car), t.access, t.refresh),
            [SignUp(phone), SignIn(phone, code)] + [OrgList(t.access), CarSearch(t.access)])
  {
    SignInPhaseSucceeds(phone, code, script, t);
    OrgPhaseKeeps(t, orgLines, script, 2);
    CarPhasePrints(t, carLines, Nth(script, 3), cars, car);
    CarPhaseAfterOrganisation(t, orgLines, carLines, script, 2, t, [OrgList(t.access)]);
    SetupAfterSignIn(phone, code, orgLines, carLines, script, t,
      Stage(Credentials(IdOfItem(car), t.access, t.refresh), [OrgList(t.access), CarSearch(t.access)]));
  }

  /** A run that signs in, picks an organisation whose sign-in answers with both tokens,
      and picks a car prints that car's id and the organisation's tokens, after exactly
      five requests. */
  lemma SetupSucceedsWithOrganisation(phone: string, code: string, orgLines: seq<string>, carLines: seq<string>,
                                      script: seq<Response>, t: Api.Tokens, orgs: seq<Json>, org: Json,
                                      orgAuth: map<string, Json>, cars: seq<Json>, car: Json)
    requires SmsContinues(SmsVerdictOf(Nth(script, 0)))
    requires SignInTokens(Nth(script, 1)) == Ok(t)
    requires OrgItems(Nth(script, 2)) == Some(orgs) && orgs != []
    requires Choose(orgs, OrgLabels(orgs), Choices(orgLines)) == Picked(org)
    requires OrgSignInOf(Nth(script, 3)) == Ok(Obj(orgAuth))
    requires "accessToken" in orgAuth && "refreshToken" in orgAuth
    requires CarItems(Nth(script, 4)) == Some(cars)
    requires Choose(cars, CarLabels(cars), Choices(carLines)) == Picked(car)
    requires Sliceable(orgAuth["accessToken"]) && Sliceable(orgAuth["refreshToken"])
    ensures SetupOf(Some(phone), Some(code), orgLines, carLines, script) ==
      Stage(Credentials(IdOfItem(car), orgAuth["accessToken"], orgAuth["refreshToken"]),
            [SignUp(phone), SignIn(phone, code)] +
            [OrgList(t.access), OrgSignIn(t.access, IdOfItem(org)), CarSearch(orgAuth["accessToken"])])
  {
    SignInPhaseSucceeds(phone, code, script, t);
    ChooseWithOrganisation(t, orgLines, carLines, script, orgs, org, orgAuth, cars, car);
    SetupAfterSignIn(phone, code, orgLines, carLines, script, t,
      Stage(Credentials(IdOfItem(car), orgAuth["accessToken"], orgAuth["refreshToken"]),
            [OrgList(t.access), OrgSignIn(t.access, IdOfItem(org)), CarSearch(orgAuth["accessToken"])]));
  }

  lemma ChooseWithOrganisation(t: Api.Tokens, orgLines: seq<string>, carLines: seq<string>, script: seq<Response>,
                               orgs: seq<Json>, org: Json, orgAuth: map<string, Json>, cars: seq<Json>, car: Json)
    requires OrgItems(Nth(script, 2)) == Some(orgs) && orgs != []
    requires Choose(orgs, OrgLabels(orgs), Choices(orgLines)) == Picked(org)
    requires OrgSignInOf(Nth(script, 3)) == Ok(Obj(orgAuth))
    requires "accessToken" in orgAuth && "refreshToken" in orgAuth
    requires CarItems(Nth(script, 4)) == Some(cars)
    requires Choose(cars, CarLabels(cars), Choices(carLines)) == Picked(car)
    requires Sliceable(orgAuth["accessToken"]) && Sliceable(orgAuth["refreshToken"])
    ensures ChoosePhaseOf(t, orgLines, carLines, script, 2) ==
      Stage(Credentials(IdOfItem(car), orgAuth["accessToken"], orgAuth["refreshToken"]),
            [OrgList(t.access), OrgSignIn(t.access, IdOfItem(org))] + [CarSearch(orgAuth["accessToken"])])
  {
    var t2 := Api.Tokens(orgAuth["accessToken"], orgAuth["refreshToken"]);
    var orgCalls := [OrgList(t.access), OrgSignIn(t.access, IdOfItem(org))];
    OrgPhaseAdopts(t, orgLines, script, 2, orgs, org, orgAuth);
    CarPhasePrints(t2, carLines, Nth(script, 4), cars, car);
    CarPhaseAfterOrganisation(t, orgLines, carLines, script, 2, t2, orgCalls);
  }

  // Steps of the two runs above, each about one phase.

  lemma SignInPhaseSucceeds(phone: string, code: string, script: seq<Response>, t: Api.Tokens)
    requires SmsContinues(SmsVerdictOf(Nth(script, 0)))
    requires SignInTokens(Nth(script, 1)) == Ok(t)
    ensures SignInPhaseOf(Some(phone), Some(code), script) == Stage(Ok(t), [SignUp(phone), SignIn(phone, code)])
  {
  }

  lemma OrgPhaseKeeps(t: Api.Tokens, lines: seq<string>, script: seq<Response>, start: nat)
    requires OrgItems(Nth(script, start)) == Some([])
    ensures OrgPhaseOf(t, lines, script, start) == Stage(Ok(t), [OrgList(t.access)])
  {
  }

  lemma OrgPhaseAdopts(t: Api.Tokens, lines: seq<string>, script: seq<Response>, start: nat,
                       orgs: seq<Json>, org: Json, orgAuth: map<string, Json>)
    requires OrgItems(Nth(script, start)) == Some(orgs) && orgs != []
    requires Choose(orgs, OrgLabels(orgs), Choices(lines)) == Picked(org)
    requires OrgSignInOf(Nth(script, start + 1)) == Ok(Obj(orgAuth))
    requires "accessToken" in orgAuth && "refreshToken" in orgAuth
    ensures OrgPhaseOf(t, lines, script, start) ==
      Stage(Ok(Api.Tokens(orgAuth["accessToken"], orgAuth["refreshToken"])),
            [OrgList(t.access), OrgSignIn(t.access, IdOfItem(org))])
  {
  }

  lemma CarPhasePrints(t: Api.Tokens, lines: seq<string>, answer: Response, cars: seq<Json>, car: Json)
    requires CarItems(answer) == Some(cars)
    requires Choose(cars, CarLabels(cars), Choices(lines)) == Picked(car)
    requires Sliceable(t.access) && Sliceable(t.refresh)
    ensures CarPhaseOf(t, lines, answer) == Stage(Credentials(IdOfItem(car), t.access, t.refresh), [CarSearch(t.access)])
  {
  }

  lemma CarPhaseAfterOrganisation(t: Api.Tokens, orgLines: seq<string>, carLines: seq<string>,
                                  script: seq<Response>, start: nat, chosen: Api.Tokens, calls: seq<Call>)
    requires OrgPhaseOf(t, orgLines, script, start) == Stage(Ok(chosen), calls)
    ensures ChoosePhaseOf(t, orgLines, carLines, script, start) ==
      Stage(CarPhaseOf(chosen, carLines, Nth(script, start + |calls|)).result,
            calls + CarPhaseOf(chosen, carLines, Nth(script, start + |calls|)).calls)
  {
  }

  lemma SetupAfterSignIn(phone: string, code: string, orgLines: seq<string>, carLines: seq<string>,
                         script: seq<Response>, t: Api.Tokens, rest: Stage<Exit>)
    requires SignInPhaseOf(Some(phone), Some(code), script) == Stage(Ok(t), [SignUp(phone), SignIn(phone, code)])
    requires ChoosePhaseOf(t, orgLines, carLines, script, 2) == rest
    ensures SetupOf(Some(phone), Some(code), orgLines, carLines, script) ==
      Stage(rest.result, [SignUp(phone), SignIn(phone, code)] + rest.calls)
  {
  }

  /** Lines 193-211 of `main`. */
  method SignInPhase(phone: Option<string>, code: Option<string>, script: seq<Response>)
    returns (r: Result<Api.Tokens, Exit>, calls: seq<Call>)
    ensures Stage(r, calls) == SignInPhaseOf(phone, code, script)
  {
    calls := [];
    if phone.None? {
      return Err(Exited), calls;
    }
    var smsAnswer := Nth(script, 0);
    calls := calls + [SignUp(phone.value)];
    var sms := SmsVerdictOf(smsAnswer);
    if !SmsContinues(sms) {
      return Err(if sms == SmsCrashed then Crashed else Exited), calls;
    }
    if code.None? {
      return Err(Exited), calls;
    }
    var signInAnswer := Nth(script, 1);
    calls := calls + [SignIn(phone.value, code.value)];
    r := SignInTokens(signInAnswer);
  }

  /** Lines 215-232 of `main`. */
  method OrganizationPhase(t: Api.Tokens, lines: seq<string>, script: seq<Response>, start: nat)
    returns (r: Result<Api.Tokens, Exit>, calls: seq<Call>)
    ensures Stage(r, calls) == OrgPhaseOf(t, lines, script, start)
  {
    calls := [OrgList(t.access)];
    var orgs := OrganizationsOf(Nth(script, start));
    if orgs.None? {
      return Err(Crashed), calls;
    }
    var orgItems := ItemsOf(orgs.value);
    if orgItems.None? {
      return Err(Crashed), calls;
    }
    if orgItems.value == [] {
      return Ok(t), calls;
    }
    var org := PickOption(orgItems.value, OrgLabels(orgItems.value), lines);
    if !org.Picked? {
      return Err(if org == NoItems then Exited else Crashed), calls;
    }
    calls := calls + [OrgSignIn(t.access, IdOfItem(org.item))];
    var orgAuth := OrgSignInOf(Nth(script, start + 1));
    if orgAuth.Err? {
      return Err(orgAuth.error), calls;
    }
    var adopted := Api.AdoptOrgTokens(orgAuth.value, t);
    if adopted.Err? {
      return Err(Crashed), calls;
    }
    return Ok(adopted.value), calls;
  }

  /** Lines 235-251 of `main`. */
  method CarPhase(t: Api.Tokens, lines: seq<string>, answer: Response) returns (r: Exit, calls: seq<Call>)
    ensures Stage(r, calls) == CarPhaseOf(t, lines, answer)
  {
    calls := [CarSearch(t.access)];
    var cars := CarsOf(answer);
    if cars.None? {
      return Crashed, calls;
    }
    var carItems := ItemsOf(cars.value);
    if carItems.None? {
      return Crashed, calls;
    }
    var car := PickOption(carItems.value, CarLabels(carItems.value), lines);
    if !car.Picked? {
      return (if car == NoItems then Exited else Crashed), calls;
    }
    if !Sliceable(t.access) || !Sliceable(t.refresh) {
      return Crashed, calls;
    }
    return Credentials(IdOfItem(car.item), t.access, t.refresh), calls;
  }

  /** Lines 214-251 of `main`, after the sign-in with tokens `t`. */
  method ChoosePhase(t: Api.Tokens, orgLines: seq<string>, carLines: seq<string>,
                     script: seq<Response>, start: nat)
    returns (r: Exit, calls: seq<Call>)
    ensures Stage(r, calls) == ChoosePhaseOf(t, orgLines, carLines, script, start)
  {
    var chosen;
    chosen, calls := OrganizationPhase(t, orgLines, script, start);
    if chosen.Err? {
      return chosen.error, calls;
    }
    CarPhaseAfterOrganisation(t, orgLines, carLines, script, start, chosen.value, calls);
    var third;
    r, third := CarPhase(chosen.value, carLines, Nth(script, start + |calls|));
    calls := calls + third;
  }

  /** `main` from the SMS request on, with the phone number and the code already validated. */
  method SignInAndChoose(phone: Option<string>, code: Option<string>, orgLines: seq<string>, carLines: seq<string>,
                         script: seq<Response>)
    returns (r: Exit, calls: seq<Call>)
    ensures Stage(r, calls) == SetupOf(phone, code, orgLines, carLines, script)
    ensures SetupEnds(phone, code, script, r, calls)
  {
    SetupOfEnds(phone, code, orgLines, carLines, script);
    var signedIn, first := SignInPhase(phone, code, script);
    calls := first;
    if signedIn.Err? {
      return signedIn.error, calls;
    }
    var rest;
    r, rest := ChoosePhase(signedIn.value, orgLines, carLines, script, 2);
    calls := first + rest;
  }

  /** `main`: the lines typed at the prompts and the server's answers in order give the
      requests sent and how the script ends. */
  method Authenticate(phoneLine: string, codeLine: string, orgLines: seq<string>, carLines: seq<string>,
                      script: seq<Response>)
    returns (r: Exit, calls: seq<Call>)
    ensures Stage(r, calls) == SetupOf(PhoneOf(phoneLine), CodeOf(codeLine), orgLines, carLines, script)
    ensures SetupEnds(PhoneOf(phoneLine), CodeOf(codeLine), script, r, calls)
  {
    r, calls := SignInAndChoose(PhoneOf(phoneLine), CodeOf(codeLine), orgLines, carLines, script);
  }
}
