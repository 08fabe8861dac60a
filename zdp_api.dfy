/** The ZiviConnect API client: parameter validation, the request payload
    without `None` values, the request headers and the status check of
    `ZiviConnectClient.search`. The HTTP session is not modelled; a search
    is recorded as the request it would post, and the response's status
    code, text and JSON body are parameters. */
module ZdpApi {
  import opened Wrappers
  import opened PyText
  import opened PyData

  /** `ApiError` with its message. */
  datatype ApiError = ApiError(message: string)

  const RadiusMessage: string := "umkreis must be between 0 and 25 in steps of 5"
  const DurationMessage: string := "einsatzdauer must be between 1 and 52"
  const LanguagesMessage: string := "Maximum 3 sprache_ids allowed"
  const CodesMessage: string := "Maximum 3 kennzeichnung_speziell_codes allowed"
  const TokenMessage: string := "Authentication token not set."

  /** The supported response locales. */
  datatype Locale = DE | FR | IT
  {
    function Tag(): (t: string)
      ensures |t| == 5 && t[2..] == "-CH"
    {
      match this
      case DE => "de-CH"
      case FR => "fr-CH"
      case IT => "it-CH"
    }
  }

  const BaseUrl: string := "https://ziviconnect.admin.ch/web-zdp/api"

  /** The keyword arguments of `search`; `None` is `Option.None`. */
  datatype SearchParams = SearchParams(
    searchText: Option<string>,
    einsatzortId: Option<int>,
    umkreis: Option<int>,
    einsatzdauer: Option<int>,
    taetigkeitsbereichIds: Option<seq<int>>,
    spracheIds: Option<seq<int>>,
    kennzeichnungSpeziellCodes: Option<seq<string>>)

  // ---------------------------------------------------------------------
  // Validation
  // ---------------------------------------------------------------------

  /** `umkreis and (umkreis < 0 or umkreis > 25 or umkreis % 5 != 0)`. The
      remainder is only reached for a non-negative radius, where Python's
      floored `%` and Dafny's agree. */
  predicate RadiusRejected(umkreis: Option<int>): (rejected: bool)
    ensures rejected ==> umkreis.Some? && umkreis.value != 0
    ensures umkreis.Some? && (umkreis.value < 0 || umkreis.value > 25) ==> rejected
    ensures umkreis.Some? && umkreis.value in {0, 5, 10, 15, 20, 25} ==> !rejected
  {
    umkreis.Some? && umkreis.value != 0 &&
    (umkreis.value < 0 || umkreis.value > 25 || umkreis.value % 5 != 0)
  }

  /** `einsatzdauer and (einsatzdauer < 1 or einsatzdauer > 52)`. */
  predicate DurationRejected(einsatzdauer: Option<int>): (rejected: bool)
    ensures rejected <==> !DurationAllowed(einsatzdauer)
  {
    einsatzdauer.Some? && einsatzdauer.value != 0 && (einsatzdauer.value < 1 || einsatzdauer.value > 52)
  }

  /** `ids and len(ids) > 3`. */
  predicate TooMany<T>(ids: Option<seq<T>>): (rejected: bool)
    ensures rejected <==> !AtMostThree(ids)
  {
    ids.Some? && |ids.value| != 0 && |ids.value| > 3
  }

  /** The radii the command line offers. */
  predicate RadiusAllowed(umkreis: Option<int>)
  {
    umkreis.None? || umkreis.value in {0, 5, 10, 15, 20, 25}
  }

  /** No duration, the falsy `0`, or one to fifty-two weeks. */
  predicate DurationAllowed(einsatzdauer: Option<int>)
  {
    einsatzdauer.None? || einsatzdauer.value == 0 || 1 <= einsatzdauer.value <= 52
  }

  predicate AtMostThree<T>(ids: Option<seq<T>>)
  {
    ids.None? || |ids.value| <= 3
  }

  /** The radius check rejects exactly the radii the command line does not
      offer. */
  lemma RadiusCheckMatchesChoices(umkreis: Option<int>)
    ensures RadiusRejected(umkreis) <==> !RadiusAllowed(umkreis)
  {
    if umkreis.Some? && 0 < umkreis.value <= 25 && umkreis.value % 5 == 0 {
      var u := umkreis.value;
      assert u == 5 * (u / 5);
      assert 1 <= u / 5 <= 5;
    }
  }

  /** The checks of `search`, in their order: the first failing one raises. */
  function Validate(p: SearchParams): (r: Option<ApiError>)
    ensures r.None? <==>
      RadiusAllowed(p.umkreis) && DurationAllowed(p.einsatzdauer) &&
      AtMostThree(p.spracheIds) && AtMostThree(p.kennzeichnungSpeziellCodes)
    ensures !RadiusAllowed(p.umkreis) ==> r == Some(ApiError(RadiusMessage))
    ensures RadiusAllowed(p.umkreis) && !DurationAllowed(p.einsatzdauer) ==>
      r == Some(ApiError(DurationMessage))
    ensures RadiusAllowed(p.umkreis) && DurationAllowed(p.einsatzdauer) && !AtMostThree(p.spracheIds) ==>
      r == Some(ApiError(LanguagesMessage))
    ensures RadiusAllowed(p.umkreis) && DurationAllowed(p.einsatzdauer) && AtMostThree(p.spracheIds) &&
            !AtMostThree(p.kennzeichnungSpeziellCodes) ==>
      r == Some(ApiError(CodesMessage))
  {
    RadiusCheckMatchesChoices(p.umkreis);
    if RadiusRejected(p.umkreis) then Some(ApiError(RadiusMessage))
    else if DurationRejected(p.einsatzdauer) then Some(ApiError(DurationMessage))
    else if TooMany(p.spracheIds) then Some(ApiError(LanguagesMessage))
    else if TooMany(p.kennzeichnungSpeziellCodes) then Some(ApiError(CodesMessage))
    else None
  }

  /** Falsy parameters skip their checks: a zero radius, a zero duration and
      empty lists always pass. */
  lemma FalsyParamsPass(p: SearchParams)
    requires p.umkreis.None? || p.umkreis.value == 0
    requires p.einsatzdauer.None? || p.einsatzdauer.value == 0
    requires p.spracheIds.None? || p.spracheIds.value == []
    requires p.kennzeichnungSpeziellCodes.None? || p.kennzeichnungSpeziellCodes.value == []
    ensures Validate(p) == None
  {
  }

  // ---------------------------------------------------------------------
  // The payload
  // ---------------------------------------------------------------------

  const PayloadKeys: seq<string> := [
    "searchText", "einsatzortId", "umkreis", "einsatzdauer",
    "taetigkeitsbereichId", "spracheId", "pflichtenheftKennzeichnungSpeziellCodeList"
  ]

  function TextValue(x: Option<string>): (v: Json)
    ensures v == JNull <==> x.None?
  {
    if x.Some? then JStr(x.value) else JNull
  }

  function IntValue(x: Option<int>): (v: Json)
    ensures v == JNull <==> x.None?
  {
    if x.Some? then JInt(x.value) else JNull
  }

  function IntListValue(x: Option<seq<int>>): (v: Json)
    ensures v == JNull <==> x.None?
  {
    if x.Some? then JList(seq(|x.value|, i requires 0 <= i < |x.value| => JInt(x.value[i]))) else JNull
  }

  function TextListValue(x: Option<seq<string>>): (v: Json)
    ensures v == JNull <==> x.None?
  {
    if x.Some? then JList(seq(|x.value|, i requires 0 <= i < |x.value| => JStr(x.value[i]))) else JNull
  }

  /** The payload dict before `None` values are removed: each key carries
      its own parameter, `None` when the parameter is not given. */
  function PayloadDraft(p: SearchParams): (d: seq<(string, Json)>)
    ensures |d| == |PayloadKeys|
    ensures d[0] == ("searchText", TextValue(p.searchText))
    ensures d[1] == ("einsatzortId", IntValue(p.einsatzortId))
    ensures d[2] == ("umkreis", IntValue(p.umkreis))
    ensures d[3] == ("einsatzdauer", IntValue(p.einsatzdauer))
    ensures d[4] == ("taetigkeitsbereichId", IntListValue(p.taetigkeitsbereichIds))
    ensures d[5] == ("spracheId", IntListValue(p.spracheIds))
    ensures d[6] == ("pflichtenheftKennzeichnungSpeziellCodeList", TextListValue(p.kennzeichnungSpeziellCodes))
  {
    [ ("searchText", TextValue(p.searchText)),
      ("einsatzortId", IntValue(p.einsatzortId)),
      ("umkreis", IntValue(p.umkreis)),
      ("einsatzdauer", IntValue(p.einsatzdauer)),
      ("taetigkeitsbereichId", IntListValue(p.taetigkeitsbereichIds)),
      ("spracheId", IntListValue(p.spracheIds)),
      ("pflichtenheftKennzeichnungSpeziellCodeList", TextListValue(p.kennzeichnungSpeziellCodes)) ]
  }

  lemma PayloadDraftKeys(p: SearchParams)
    ensures Keys(PayloadDraft(p)) == PayloadKeys
  {
  }

  predicate NotNone(v: Json)
  {
    v != JNull
  }

  /** `{k: v for k, v in payload.items() if v is not None}`: no value sent
      is `None`. */
  function Payload(p: SearchParams): (payload: seq<(string, Json)>)
    ensures forall i :: 0 <= i < |payload| ==> payload[i].1 != JNull
  {
    FilterEntries(PayloadDraft(p), NotNone)
  }

  /** The payload holds no `None`, keeps its keys in order, and keeps each
      kept value as it was. */
  lemma PayloadShape(p: SearchParams)
    ensures forall i :: 0 <= i < |Payload(p)| ==> Payload(p)[i].1 != JNull
    ensures Subsequence(Payload(p), PayloadDraft(p))
    ensures Subsequence(Keys(Payload(p)), PayloadKeys)
  {
    var d := PayloadDraft(p);
    var r := FilterEntries(d, NotNone);
    PayloadDraftKeys(p);
    FilterKeepsOrder(d, NotNone);
    forall i | 0 <= i < |r|
      ensures r[i].1 != JNull
    {
      assert NotNone(r[i].1);
    }
  }

  /** An entry of the draft is sent exactly when its value is not `None`;
      `0`, `""` and empty lists are sent. */
  lemma PayloadDropsExactlyNone(p: SearchParams, i: nat)
    requires i < |PayloadKeys|
    ensures PayloadDraft(p)[i] in Payload(p) <==> PayloadDraft(p)[i].1 != JNull
  {
    FilterMembership(PayloadDraft(p), NotNone, i);
  }

  /** Every parameter that is given is sent under its own key, with its own
      value. */
  lemma GivenParamsSent(p: SearchParams)
    ensures p.searchText.Some? ==> ("searchText", JStr(p.searchText.value)) in Payload(p)
    ensures p.einsatzortId.Some? ==> ("einsatzortId", JInt(p.einsatzortId.value)) in Payload(p)
    ensures p.umkreis.Some? ==> ("umkreis", JInt(p.umkreis.value)) in Payload(p)
    ensures p.einsatzdauer.Some? ==> ("einsatzdauer", JInt(p.einsatzdauer.value)) in Payload(p)
    ensures p.taetigkeitsbereichIds.Some? ==>
      ("taetigkeitsbereichId", IntListValue(p.taetigkeitsbereichIds)) in Payload(p)
    ensures p.spracheIds.Some? ==> ("spracheId", IntListValue(p.spracheIds)) in Payload(p)
    ensures p.kennzeichnungSpeziellCodes.Some? ==>
      ("pflichtenheftKennzeichnungSpeziellCodeList", TextListValue(p.kennzeichnungSpeziellCodes)) in Payload(p)
  {
    PayloadDropsExactlyNone(p, 0);
    PayloadDropsExactlyNone(p, 1);
    PayloadDropsExactlyNone(p, 2);
    PayloadDropsExactlyNone(p, 3);
    PayloadDropsExactlyNone(p, 4);
    PayloadDropsExactlyNone(p, 5);
    PayloadDropsExactlyNone(p, 6);
  }

  /** A radius of `0`, which passes validation as falsy, is still sent. */
  lemma ZeroRadiusSent(p: SearchParams)
    requires p.umkreis == Some(0)
    ensures ("umkreis", JInt(0)) in Payload(p)
  {
    PayloadDropsExactlyNone(p, 2);
  }

  /** A parameter left as `None` is absent from the payload. */
  lemma NoneParamNotSent(p: SearchParams, i: nat)
    requires i < |PayloadKeys| && PayloadDraft(p)[i].1 == JNull
    ensures PayloadKeys[i] !in Keys(Payload(p))
  {
    var d := PayloadDraft(p);
    PayloadDraftKeys(p);
    forall k | 0 <= k < |d| && d[k].0 == d[i].0
      ensures k == i
    {
      assert Keys(d)[k] == PayloadKeys[k] && Keys(d)[i] == PayloadKeys[i];
      DistinctPayloadKeys(k, i);
    }
    FilterDropsKey(d, NotNone, i);
    assert d[i].0 == Keys(d)[i];
  }

  /** The payload keys are pairwise different. */
  lemma DistinctPayloadKeys(k: nat, i: nat)
    requires k < |PayloadKeys| && i < |PayloadKeys| && PayloadKeys[k] == PayloadKeys[i]
    ensures k == i
  {
    assert |PayloadKeys[k]| == |PayloadKeys[i]|;
    assert PayloadKeys[k][0] == PayloadKeys[i][0];
  }

  // ---------------------------------------------------------------------
  // Headers and status
  // ---------------------------------------------------------------------

  /** The value of the first header called `name`. */
  function HeaderValue(headers: seq<(string, string)>, name: string): (v: Option<string>)
    ensures v.Some? <==> exists i :: 0 <= i < |headers| && headers[i].0 == name
  {
    if |headers| == 0 then None
    else if headers[0].0 == name then Some(headers[0].1)
    else
      var rest := HeaderValue(headers[1..], name);
      assert forall i :: 1 <= i < |headers| ==> headers[i] == headers[1..][i - 1];
      rest
  }

  /** The first header of that name decides the value. */
  lemma {:induction false} HeaderValueAt(headers: seq<(string, string)>, i: nat, name: string)
    requires i < |headers| && headers[i].0 == name
    requires forall j :: 0 <= j < i ==> headers[j].0 != name
    ensures HeaderValue(headers, name) == Some(headers[i].1)
  {
    if i > 0 {
      HeaderValueAt(headers[1..], i - 1, name);
    }
  }

  /** The headers of a request, given the `Authorization` value, the locale
      tag and the base URL. */
  function HeaderList(authorization: string, localeTag: string, baseUrl: string): (h: seq<(string, string)>)
    ensures |h| == 6
    ensures forall i, j :: 0 <= i < j < |h| ==> h[i].0 != h[j].0
  {
    assert "Accept"[0] == 'A' && "Content-Type"[0] == 'C' && "x-zivi-locale"[0] == 'x';
    assert "Authorization"[0] == 'A' && "Origin"[0] == 'O' && "Referer"[0] == 'R';
    assert "Accept"[1] == 'c' && "Authorization"[1] == 'u';
    [ ("Accept", "application/json"),
      ("Content-Type", "application/json"),
      ("x-zivi-locale", localeTag),
      ("Authorization", authorization),
      ("Origin", baseUrl),
      ("Referer", baseUrl + "/zdp/einsatz") ]
  }

  lemma HeaderListValues(authorization: string, localeTag: string, baseUrl: string)
    ensures var h := HeaderList(authorization, localeTag, baseUrl);
      HeaderValue(h, "Content-Type") == Some("application/json") &&
      HeaderValue(h, "x-zivi-locale") == Some(localeTag) &&
      HeaderValue(h, "Authorization") == Some(authorization) &&
      HeaderValue(h, "Origin") == Some(baseUrl) &&
      HeaderValue(h, "Referer") == Some(baseUrl + "/zdp/einsatz")
  {
    var h := HeaderList(authorization, localeTag, baseUrl);
    assert "Accept"[0] == 'A' && "Content-Type"[0] == 'C' && "x-zivi-locale"[0] == 'x';
    assert "Authorization"[0] == 'A' && "Origin"[0] == 'O' && "Referer"[0] == 'R';
    assert "Accept"[1] == 'c' && "Authorization"[1] == 'u';
    HeaderValueAt(h, 1, "Content-Type");
    HeaderValueAt(h, 2, "x-zivi-locale");
    HeaderValueAt(h, 3, "Authorization");
    HeaderValueAt(h, 4, "Origin");
    HeaderValueAt(h, 5, "Referer");
  }

  /** The error a non-200 response raises. */
  function StatusError(status: int, text: string): (e: ApiError)
    ensures StartsWith(e.message, "API request failed with status ")
    ensures EndsWith(e.message, ": " + text)
  {
    var head := "API request failed with status " + DecimalString(status);
    assert (head + ": " + text)[..|"API request failed with status "|] == "API request failed with status ";
    assert (head + ": " + text)[|head|..] == ": " + text;
    ApiError(head + ": " + text)
  }

  /** `if response.status_code != 200: raise ApiError(...)`. */
  function CheckStatus(status: int, text: string): (r: Option<ApiError>)
    ensures r.None? <==> status == 200
    ensures r.Some? ==> r.value == StatusError(status, text)
  {
    if status != 200 then Some(StatusError(status, text)) else None
  }

  // ---------------------------------------------------------------------
  // The client
  // ---------------------------------------------------------------------

  /** A POST request: its URL, headers and JSON payload. */
  datatype Request = Request(url: string, headers: seq<(string, string)>, payload: seq<(string, Json)>)

  class ZiviConnectClient {
    var baseUrl: string
    var locale: Locale
    var token: Option<string>
    /** The session's cookie jar. */
    var cookies: map<string, string>
    /** The requests posted through the session, oldest first. */
    var posted: seq<Request>

    constructor (token: Option<string>, cookies: Option<map<string, string>>, locale: Locale)
      ensures this.baseUrl == BaseUrl && this.locale == locale && this.token == token
      ensures this.cookies == (if cookies.Some? then cookies.value else map[])
      ensures this.posted == []
    {
      this.baseUrl := BaseUrl;
      this.locale := locale;
      this.token := token;
      this.cookies := map[];
      this.posted := [];
      new;
      if cookies.Some? && cookies.value != map[] {
        this.cookies := this.cookies + cookies.value;
      }
    }

    /** `_get_headers`: refuses a missing or empty token; otherwise sends
        the token as a bearer token and the locale as `x-zivi-locale`. */
    function GetHeaders(): (r: Result<seq<(string, string)>, ApiError>)
      reads this`token, this`locale, this`baseUrl
      ensures r.Err? <==> token.None? || token.value == ""
      ensures r.Err? ==> r.error == ApiError(TokenMessage)
    {
      if token.None? || token.value == "" then Err(ApiError(TokenMessage))
      else Ok(HeaderList("Bearer " + token.value, locale.Tag(), baseUrl))
    }

    /** With a token, the headers carry it as a bearer token, the client's
        locale tag, its origin and referer, and the JSON content type. */
    lemma HeadersCarrySession()
      requires GetHeaders().Ok?
      ensures HeaderValue(GetHeaders().value, "Authorization") == Some("Bearer " + token.value)
      ensures HeaderValue(GetHeaders().value, "x-zivi-locale") == Some(locale.Tag())
      ensures HeaderValue(GetHeaders().value, "Origin") == Some(baseUrl)
      ensures HeaderValue(GetHeaders().value, "Referer") == Some(baseUrl + "/zdp/einsatz")
      ensures HeaderValue(GetHeaders().value, "Content-Type") == Some("application/json")
    {
      HeaderListValues("Bearer " + token.value, locale.Tag(), baseUrl);
    }

    /** `session.post` followed by the status check. */
    method Post(request: Request, status: int, text: string, body: Json) returns (r: Result<Json, ApiError>)
      modifies this`posted
      ensures posted == old(posted) + [request]
      ensures r == (if status == 200 then Ok(body) else Err(StatusError(status, text)))
    {
      posted := posted + [request];
      var failure := CheckStatus(status, text);
      r := if failure.Some? then Err(failure.value) else Ok(body);
    }

    /** `search`: validates, builds the payload and the headers, posts, and
        checks the status. Nothing is posted when a check fails or the token
        is missing. */
    method Search(p: SearchParams, status: int, text: string, body: Json) returns (r: Result<Json, ApiError>)
      modifies this`posted
      ensures Validate(p).Some? ==> r == Err(Validate(p).value) && posted == old(posted)
      ensures Validate(p).None? && GetHeaders().Err? ==> r == Err(GetHeaders().error) && posted == old(posted)
      ensures Validate(p).None? && GetHeaders().Ok? ==>
        posted == old(posted) + [Request(baseUrl + "/pflichtenheft/search", GetHeaders().value, Payload(p))]
      ensures Validate(p).None? && GetHeaders().Ok? ==>
        r == (if status == 200 then Ok(body) else Err(StatusError(status, text)))
    {
      var invalid := Validate(p);
      if invalid.Some? {
        r := Err(invalid.value);
      } else {
        var payload := Payload(p);
        var headers := GetHeaders();
        if headers.Err? {
          r := Err(headers.error);
        } else {
          r := Post(Request(baseUrl + "/pflichtenheft/search", headers.value, payload), status, text, body);
        }
      }
    }
  }
}
