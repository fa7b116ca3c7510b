/** The Moodle web-service client (src/services/moodle.ts): the request it
    builds for one call, how the outcome of that call is normalised into a
    value or an error message, and the static function catalog.

    `fetch` is not called: its outcome is an input, a `FetchOutcome`. */
module Moodle {
  import opened Wrappers
  import opened Js

  /** The part of the configuration the client reads. */
  datatype MoodleConfig = MoodleConfig(url: string, apiKey: string, language: string)

  /** A value of `MoodleFunctionParams`: a string, a number (integers only),
      a boolean or an array of strings. */
  datatype ParamValue =
    | Text(text: string)
    | Number(number: int)
    | Flag(flag: bool)
    | List(items: seq<string>)

  /** The parameter object of a call, keys in enumeration order. */
  type Params = Object<ParamValue>

  datatype MoodleParameter = MoodleParameter(
    name: string,
    typeName: string,
    possibleValues: Option<seq<string>>,
    required: bool)

  datatype MoodleFunction = MoodleFunction(
    name: string,
    description: string,
    parameters: seq<MoodleParameter>)

  /** What `response.json()` makes of the response body. */
  datatype Body = Parsed(json: Json) | Unparsable(message: string)

  /** How the one `fetch` of a call ends: it rejects with an error message,
      or it delivers a response with a status and a body. */
  datatype FetchOutcome =
    | NetworkError(message: string)
    | HttpResponse(status: int, body: Body)

  /** The POST request that is sent: its URL and its form fields in order. */
  datatype HttpPost = HttpPost(url: string, form: seq<(string, string)>)

  const GenericFailure: string := "API call failed"
  const HttpErrorPrefix: string := "HTTP error! status: "

  // ---------------------------------------------------------------------
  // The request URL
  // ---------------------------------------------------------------------

  /** The endpoint URL with the function, the token and the JSON format flag
      as query parameters, joined as they are: nothing is escaped. */
  function RequestUrl(url: string, functionName: string, apiKey: string): (r: string)
    ensures |r| == |url| + |functionName| + |apiKey| + |"?wsfunction=&wstoken=&moodlewsrestformat=json"|
    ensures r[..|url|] == url && r[|url|] == '?'
    ensures r[|r| - |"&moodlewsrestformat=json"|..] == "&moodlewsrestformat=json"
  {
    url + "?wsfunction=" + functionName + "&wstoken=" + apiKey + "&moodlewsrestformat=json"
  }

  /** The three things a request URL addresses. */
  datatype Target = Target(url: string, functionName: string, apiKey: string)

  /** `s` cut at the first `c`, if there is one. */
  function SplitAt(s: string, c: char): (r: Option<(string, string)>)
    ensures r.Some? ==> s == r.value.0 + [c] + r.value.1 && c !in r.value.0
    ensures r.None? ==> c !in s
  {
    if |s| == 0 then None
    else if s[0] == c then Some(([], s[1..]))
    else match SplitAt(s[1..], c)
      case None => None
      case Some((before, after)) => Some(([s[0]] + before, after))
  }

  predicate HasPrefix(s: string, p: string) {
    |p| <= |s| && s[..|p|] == p
  }

  /** Splits a request URL back at the first `?` and at each `&`: the base,
      then each query value. A server reads more into a URL than this
      (fragments, percent-escapes, `+`); see `RequestUrlRoundTrip`. */
  function ParseRequestUrl(u: string): Option<Target> {
    match SplitAt(u, '?')
    case None => None
    case Some((base, query)) =>
      if !HasPrefix(query, "wsfunction=") then None
      else match SplitAt(query[|"wsfunction="|..], '&')
        case None => None
        case Some((functionName, rest)) =>
          match ParseToken(rest)
          case None => None
          case Some(apiKey) => Some(Target(base, functionName, apiKey))
  }

  /** The token of `wstoken=<token>&moodlewsrestformat=json`. */
  function ParseToken(rest: string): Option<string> {
    if !HasPrefix(rest, "wstoken=") then None
    else match SplitAt(rest[|"wstoken="|..], '&')
      case None => None
      case Some((apiKey, tail)) =>
        if tail == "moodlewsrestformat=json" then Some(apiKey) else None
  }

  lemma {:induction false} SplitAtFirst(a: string, c: char, b: string)
    requires c !in a
    ensures SplitAt(a + [c] + b, c) == Some((a, b))
    decreases |a|
  {
    var s := a + [c] + b;
    if |a| == 0 {
      assert s[1..] == b;
    } else {
      assert c !in a[1..] by { assert forall x :: x in a[1..] ==> x in a; }
      SplitAtFirst(a[1..], c, b);
      assert s[1..] == a[1..] + [c] + b;
      assert [a[0]] + a[1..] == a;
    }
  }

  lemma PrefixThenRest(p: string, rest: string)
    ensures HasPrefix(p + rest, p) && (p + rest)[|p|..] == rest
  {
    assert (p + rest)[..|p|] == p;
  }

  /** Because nothing is escaped, the URL addresses what it was built from
      only when the endpoint has no `?` and neither the function name nor
      the token has an `&`. */
  lemma RequestUrlRoundTrip(url: string, functionName: string, apiKey: string)
    requires '?' !in url && '&' !in functionName && '&' !in apiKey
    ensures ParseRequestUrl(RequestUrl(url, functionName, apiKey)) == Some(Target(url, functionName, apiKey))
  {
    var rest := "wstoken=" + apiKey + "&moodlewsrestformat=json";
    var afterFunction := functionName + ['&'] + rest;
    var query := "wsfunction=" + afterFunction;
    RequestUrlShape(url, functionName, apiKey);
    SplitAtFirst(url, '?', query);
    PrefixThenRest("wsfunction=", afterFunction);
    SplitAtFirst(functionName, '&', rest);
    ParseTokenRoundTrip(apiKey);
  }

  /** The URL regrouped around its separators. */
  lemma RequestUrlShape(url: string, functionName: string, apiKey: string)
    ensures RequestUrl(url, functionName, apiKey)
         == url + ['?'] + ("wsfunction=" + (functionName + ['&'] + ("wstoken=" + apiKey + "&moodlewsrestformat=json")))
  {
    var rest := "wstoken=" + apiKey + "&moodlewsrestformat=json";
    calc {
      RequestUrl(url, functionName, apiKey);
      url + "?wsfunction=" + functionName + "&wstoken=" + apiKey + "&moodlewsrestformat=json";
      { assert "?wsfunction=" == ['?'] + "wsfunction="; }
      url + ['?'] + ("wsfunction=" + (functionName + ['&'] + rest));
    }
  }

  lemma ParseTokenRoundTrip(apiKey: string)
    requires '&' !in apiKey
    ensures ParseToken("wstoken=" + apiKey + "&moodlewsrestformat=json") == Some(apiKey)
  {
    var tail := "moodlewsrestformat=json";
    var afterToken := apiKey + ['&'] + tail;
    assert "wstoken=" + apiKey + "&moodlewsrestformat=json" == "wstoken=" + afterToken;
    PrefixThenRest("wstoken=", afterToken);
    SplitAtFirst(apiKey, '&', tail);
  }

  // ---------------------------------------------------------------------
  // The form body
  // ---------------------------------------------------------------------

  /** The string form JavaScript gives each kind of parameter value. */
  function ParamToString(v: ParamValue): (r: string)
    ensures v.Text? ==> r == v.text
    ensures v.Number? || v.Flag? ==> r != "" && ',' !in r
  {
    match v
    case Text(s) => s
    case Number(n) => IntToString(n)
    case Flag(b) => if b then "true" else "false"
    case List(xs) => JoinCommas(xs)
  }

  /** The form fields of a call: one per parameter, in key order, holding
      the parameter's string form. */
  function FormFields(params: Params): (r: seq<(string, string)>)
    ensures |r| == |params|
    ensures DistinctKeys(r)
  {
    seq(|params|, i requires 0 <= i < |params| => (params[i].0, ParamToString(params[i].1)))
  }

  /** Builds the form body as the client does: walks the parameter keys in
      enumeration order and appends each key with its value's string form. */
  method BuildFormData(params: Params) returns (formData: seq<(string, string)>)
    ensures |formData| == |params|
    ensures forall i :: 0 <= i < |params| ==>
      formData[i].0 == params[i].0 && formData[i].1 == ParamToString(params[i].1)
    ensures formData == FormFields(params)
  {
    formData := [];
    var keys := Keys(params);
    var i := 0;
    while i < |keys|
      invariant 0 <= i <= |keys| == |params|
      invariant |formData| == i
      invariant forall k :: 0 <= k < i ==>
        formData[k].0 == params[k].0 && formData[k].1 == ParamToString(params[k].1)
    {
      var key := keys[i];
      GetAt(params, i);
      var value := Get(params, key).value;
      formData := formData + [(key, ParamToString(value))];
      i := i + 1;
    }
  }

  /** The field text of each kind of value reads back as that value: a
      number through its decimal digits, a boolean as `true`/`false`, and a
      non-empty array of comma-free strings by cutting at the commas. */
  lemma ParamToStringReadsBack(v: ParamValue)
    ensures v.Text? ==> ParamToString(v) == v.text
    ensures v.Number? ==> ParseInt(ParamToString(v)) == Some(v.number)
    ensures v.Flag? ==> (ParamToString(v) == "true" <==> v.flag)
    ensures v.List? && |v.items| > 0 && (forall i :: 0 <= i < |v.items| ==> ',' !in v.items[i]) ==>
      SplitCommas(ParamToString(v)) == v.items
  {
    match v
    case Text(_) =>
    case Number(n) => IntToStringRoundTrip(n);
    case Flag(_) =>
    case List(xs) =>
      if |xs| > 0 && (forall i :: 0 <= i < |xs| ==> ',' !in xs[i]) {
        JoinSplitRoundTrip(xs);
      }
  }

  /** The form names exactly the parameter keys, in the same order. */
  lemma FormFieldsFollowKeys(params: Params)
    ensures Keys(FormFields(params)) == Keys(params)
  {
  }

  // ---------------------------------------------------------------------
  // Normalising the outcome
  // ---------------------------------------------------------------------

  /** `response.ok`: a 2xx status. */
  predicate StatusOk(status: int) {
    200 <= status <= 299
  }

  /** `response.ok` holds exactly for the statuses whose hundreds digit is 2. */
  lemma {:induction false} StatusOkHundreds(status: int)
    ensures StatusOk(status) <==> status / 100 == 2
  {
    if StatusOk(status) {
      assert status == 200 + (status - 200) && 0 <= status - 200 < 100;
    }
  }

  /** What `callMoodleApi` resolves to (`Success`) or rejects with
      (`Failure` with the error's message). An error without a message
      becomes `GenericFailure`, so a failure always carries some text. */
  function Normalise(outcome: FetchOutcome): (r: Result<Json, string>)
    ensures r.Failure? ==> r.error != ""
  {
    match outcome
    case NetworkError(m) => Failure(OrElse(m, GenericFailure))
    case HttpResponse(status, body) =>
      if !StatusOk(status) then Failure(OrElse(HttpErrorPrefix + IntToString(status), GenericFailure))
      else match body
        case Parsed(j) => Success(j)
        case Unparsable(m) => Failure(OrElse(m, GenericFailure))
  }

  /** A call succeeds exactly when the response is 2xx with a parseable
      body, and then its value is that body, unchanged. */
  lemma NormaliseSucceedsExactly(outcome: FetchOutcome)
    ensures Normalise(outcome).Success? <==>
      outcome.HttpResponse? && StatusOk(outcome.status) && outcome.body.Parsed?
    ensures Normalise(outcome).Success? ==> Normalise(outcome).value == outcome.body.json
  {
  }

  /** A non-2xx response fails with "HTTP error! status: " and the status,
      which can be read back from the message. */
  lemma HttpErrorReportsStatus(status: int, body: Body)
    requires !StatusOk(status)
    ensures Normalise(HttpResponse(status, body)) == Failure(HttpErrorPrefix + IntToString(status))
    ensures ParseInt(Normalise(HttpResponse(status, body)).error[|HttpErrorPrefix|..]) == Some(status)
  {
    var m := HttpErrorPrefix + IntToString(status);
    assert m[|HttpErrorPrefix|..] == IntToString(status);
    IntToStringRoundTrip(status);
  }

  /** A transport or parse failure carries its own message, or
      `GenericFailure` when that message is empty. */
  lemma TransportFailureMessage(outcome: FetchOutcome)
    requires outcome.NetworkError? || (outcome.HttpResponse? && StatusOk(outcome.status) && outcome.body.Unparsable?)
    ensures var m := if outcome.NetworkError? then outcome.message else outcome.body.message;
      Normalise(outcome) == Failure(if m == "" then GenericFailure else m)
  {
  }

  /** `callMoodleApi`, step by step as the source's `try`/`catch` runs;
      `Normalise` is its specification. It builds the URL and the form, sends exactly one POST
      (`requests` lists every request sent: there is no retry) and turns
      its outcome into a value or an error. */
  method CallMoodleApi(config: MoodleConfig, functionName: string, params: Params, outcome: FetchOutcome)
    returns (requests: seq<HttpPost>, result: Result<Json, string>)
    ensures requests == [HttpPost(RequestUrl(config.url, functionName, config.apiKey), FormFields(params))]
    ensures result == Normalise(outcome)
  {
    var apiUrl := RequestUrl(config.url, functionName, config.apiKey);
    var formData := BuildFormData(params);
    requests := [HttpPost(apiUrl, formData)];
    var message: string;
    match outcome {
      case NetworkError(m) =>
        message := m;
      case HttpResponse(status, body) =>
        if !StatusOk(status) {
          message := HttpErrorPrefix + IntToString(status);
        } else {
          match body {
            case Parsed(j) =>
              result := Success(j);
              return;
            case Unparsable(m) =>
              message := m;
          }
        }
    }
    result := Failure(OrElse(message, GenericFailure));
  }

  // ---------------------------------------------------------------------
  // The function catalog
  // ---------------------------------------------------------------------

  predicate FunctionNamesDistinct(fs: seq<MoodleFunction>) {
    forall i, j :: 0 <= i < j < |fs| ==> fs[i].name != fs[j].name
  }

  predicate ParameterNamesDistinct(ps: seq<MoodleParameter>) {
    forall i, j :: 0 <= i < j < |ps| ==> ps[i].name != ps[j].name
  }

  const FieldParameter: MoodleParameter :=
    MoodleParameter("field", "string", Some(["id", "idnumber", "username", "email"]), true)

  const ValuesParameter: MoodleParameter :=
    MoodleParameter("values", "string[]", None, true)

  const GetUsersByField: MoodleFunction :=
    MoodleFunction(
      "core_user_get_users_by_field",
      "Retrieve users' information for a specified unique field - If you want to do a user search, use core_user_get_users() or core_user_search_identity().",
      [FieldParameter, ValuesParameter])

  /** `getMoodleFunctions`: a constant list whatever the configuration; no
      function name repeats and no parameter name repeats within a function. */
  function GetMoodleFunctions(config: MoodleConfig): (fs: seq<MoodleFunction>)
    ensures FunctionNamesDistinct(fs)
    ensures forall f :: f in fs ==> ParameterNamesDistinct(f.parameters)
  {
    [GetUsersByField]
  }

  /** The catalog holds one function with two required parameters: `field`,
      a closed choice among four values, and `values`, free text. */
  lemma CatalogContents(config: MoodleConfig)
    ensures |GetMoodleFunctions(config)| == 1
    ensures GetMoodleFunctions(config)[0].name == "core_user_get_users_by_field"
    ensures GetMoodleFunctions(config)[0].parameters == [FieldParameter, ValuesParameter]
    ensures FieldParameter.name == "field" && FieldParameter.required
    ensures FieldParameter.possibleValues == Some(["id", "idnumber", "username", "email"])
    ensures ValuesParameter.name == "values" && ValuesParameter.required
    ensures ValuesParameter.possibleValues.None?
  {
  }

  /** The configuration does not influence the catalog. */
  lemma CatalogIgnoresConfig(a: MoodleConfig, b: MoodleConfig)
    ensures GetMoodleFunctions(a) == GetMoodleFunctions(b)
  {
  }
}
