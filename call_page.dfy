/** The call page (src/app/call/page.tsx): the session state of the API
    explorer and the handlers that change it — choosing a function, editing
    its parameters, submitting a call, and viewing, replaying, deleting and
    paging through the call log.

    Each handler is one atomic transition. The id and timestamps of a new log
    entry, the page's configuration and the outcome of the network call are
    parameters. */
module CallPage {
  import opened Wrappers
  import opened Js
  import opened Moodle
  import opened UseConfig

  /** The request record shown as "Last Request" and kept in a log entry. */
  datatype Request = Request(functionName: string, params: Params, apiUrl: string, apiKey: string)

  datatype LogEntry = LogEntry(
    id: string,
    timestampRequest: string,
    timestampResponse: string,
    functionName: string,
    parameters: Params,
    request: Request,
    response: Json)

  /** All state slots of the page, as one value. */
  datatype Session = Session(
    moodleFunctions: seq<MoodleFunction>,
    selectedFunction: Option<MoodleFunction>,
    formValues: Params,
    lastRequest: Option<Request>,
    lastResponse: Option<Json>,
    logs: seq<LogEntry>,
    selectedLog: Option<LogEntry>,
    currentPage: int)

  const ItemsPerPage: nat := 5

  /** The object `{error: message}` shown as the response of a failed call. */
  function ErrorResponse(message: string): (r: Json)
    ensures r.Obj? && |r.fields| == 1 && Get(r.fields, "error") == Some(Str(message))
  {
    Obj([("error", Str(message))])
  }

  // ---------------------------------------------------------------------
  // Finding a function by name
  // ---------------------------------------------------------------------

  /** The position of the first function called `name`. */
  function FirstMatch(fs: seq<MoodleFunction>, name: string): (r: Option<nat>)
    ensures r.Some? ==> r.value < |fs| && fs[r.value].name == name
    ensures r.Some? ==> forall j :: 0 <= j < r.value ==> fs[j].name != name
    ensures r.None? ==> forall j :: 0 <= j < |fs| ==> fs[j].name != name
  {
    if |fs| == 0 then None
    else if fs[0].name == name then Some(0)
    else match FirstMatch(fs[1..], name)
      case None => None
      case Some(i) => Some(i + 1)
  }

  /** The first function in `fs` called `name`, or `None`. */
  function FindByName(fs: seq<MoodleFunction>, name: string): (r: Option<MoodleFunction>)
    ensures r.Some? ==> r.value in fs && r.value.name == name
    ensures r.None? <==> forall f :: f in fs ==> f.name != name
  {
    match FirstMatch(fs, name)
    case None => None
    case Some(i) => Some(fs[i])
  }

  /** Names are unique in the catalog, so a lookup returns the one function
      with that name. */
  lemma FindByNameInCatalog(config: MoodleConfig, i: nat)
    requires i < |GetMoodleFunctions(config)|
    ensures FindByName(GetMoodleFunctions(config), GetMoodleFunctions(config)[i].name)
         == Some(GetMoodleFunctions(config)[i])
  {
    var fs := GetMoodleFunctions(config);
    assert FunctionNamesDistinct(fs);
  }

  // ---------------------------------------------------------------------
  // Deleting from the log
  // ---------------------------------------------------------------------

  /** The log without the entries whose id is `logId`, order kept. */
  function WithoutId(logs: seq<LogEntry>, logId: string): (r: seq<LogEntry>)
    ensures forall e :: e in r <==> e in logs && e.id != logId
    ensures |r| <= |logs|
  {
    if |logs| == 0 then []
    else (if logs[0].id == logId then [] else [logs[0]]) + WithoutId(logs[1..], logId)
  }

  /** Filtering keeps the relative order: it works piece by piece. */
  lemma {:induction false} WithoutIdConcat(a: seq<LogEntry>, b: seq<LogEntry>, logId: string)
    ensures WithoutId(a + b, logId) == WithoutId(a, logId) + WithoutId(b, logId)
    decreases |a|
  {
    if |a| > 0 {
      var head := if a[0].id == logId then [] else [a[0]];
      assert (a + b)[0] == a[0];
      assert (a + b)[1..] == a[1..] + b;
      assert WithoutId(a + b, logId) == head + WithoutId(a[1..] + b, logId);
      WithoutIdConcat(a[1..], b, logId);
      assert WithoutId(a, logId) == head + WithoutId(a[1..], logId);
    } else {
      assert a + b == b;
    }
  }

  /** Deleting an id no entry carries leaves the log exactly as it was. */
  lemma {:induction false} WithoutAbsentId(logs: seq<LogEntry>, logId: string)
    requires forall e :: e in logs ==> e.id != logId
    ensures WithoutId(logs, logId) == logs
    decreases |logs|
  {
    if |logs| > 0 {
      WithoutAbsentId(logs[1..], logId);
      assert [logs[0]] + logs[1..] == logs;
    }
  }

  /** Deleting the same id twice is deleting it once. */
  lemma WithoutIdIdempotent(logs: seq<LogEntry>, logId: string)
    ensures WithoutId(WithoutId(logs, logId), logId) == WithoutId(logs, logId)
  {
    WithoutAbsentId(WithoutId(logs, logId), logId);
  }

  // ---------------------------------------------------------------------
  // Paging
  // ---------------------------------------------------------------------

  /** The number of pages: the entry count divided by five, rounded up. */
  function TotalPages(count: nat): (t: nat)
    ensures t * ItemsPerPage >= count
    ensures t == 0 || (t - 1) * ItemsPerPage < count
  {
    (count + ItemsPerPage - 1) / ItemsPerPage
  }

  /** The entries shown on `currentPage`: a JavaScript slice from position
      `(currentPage - 1) * 5` up to, not including, `currentPage * 5`. */
  function PaginatedLogs(logs: seq<LogEntry>, currentPage: int): (r: seq<LogEntry>)
    ensures |r| <= ItemsPerPage
    ensures forall e :: e in r ==> e in logs
  {
    Slice(logs, (currentPage - 1) * ItemsPerPage, currentPage * ItemsPerPage)
  }

  /** A page from 1 on is the window of at most five entries starting at
      entry `(page - 1) * 5`, cut off at the end of the log. */
  lemma PageWindow(logs: seq<LogEntry>, page: int)
    requires page >= 1
    ensures PaginatedLogs(logs, page)
         == logs[Min((page - 1) * ItemsPerPage, |logs|)..Min(page * ItemsPerPage, |logs|)]
    ensures |PaginatedLogs(logs, page)| <= ItemsPerPage
  {
  }

  /** Page 0 (reached by "Next" on an empty log) and every page past the
      last one show nothing. */
  lemma PageEmptyOutside(logs: seq<LogEntry>, page: int)
    requires page == 0 || page > TotalPages(|logs|)
    ensures PaginatedLogs(logs, page) == []
  {
  }

  /** Every page from 1 to the last shows at least one entry. */
  lemma PageNonEmptyInside(logs: seq<LogEntry>, page: int)
    requires 1 <= page <= TotalPages(|logs|)
    ensures |PaginatedLogs(logs, page)| > 0
  {
  }

  /** Pages 1 to k laid end to end. */
  function PagesUpTo(logs: seq<LogEntry>, k: nat): seq<LogEntry> {
    if k == 0 then [] else PagesUpTo(logs, k - 1) + PaginatedLogs(logs, k)
  }

  lemma {:induction false} PagesUpToPrefix(logs: seq<LogEntry>, k: nat)
    ensures PagesUpTo(logs, k) == logs[..Min(k * ItemsPerPage, |logs|)]
  {
    if k > 0 {
      PagesUpToPrefix(logs, k - 1);
      PageWindow(logs, k);
      var lo := Min((k - 1) * ItemsPerPage, |logs|);
      var hi := Min(k * ItemsPerPage, |logs|);
      assert logs[..lo] + logs[lo..hi] == logs[..hi];
    }
  }

  /** The pages, in order, show every entry exactly once. */
  lemma PagesCoverLog(logs: seq<LogEntry>)
    ensures PagesUpTo(logs, TotalPages(|logs|)) == logs
  {
    PagesUpToPrefix(logs, TotalPages(|logs|));
  }

  /** The newest entry heads the first page. */
  lemma FirstPageShowsNewest(entry: LogEntry, older: seq<LogEntry>)
    ensures PaginatedLogs([entry] + older, 1)[0] == entry
  {
  }

  /** The page "Previous" moves to: one back, but never below 1. */
  function PreviousPage(page: int): (r: int)
    ensures r >= 1
    ensures page > 1 ==> r == page - 1
    ensures page <= 1 ==> r == 1
  {
    Max(page - 1, 1)
  }

  /** The page "Next" moves to: one on while before the last page,
      otherwise the last page (0 for an empty log), even if that is
      backwards. */
  function NextPage(page: int, totalPages: nat): (r: int)
    ensures r <= totalPages
    ensures page < totalPages ==> r == page + 1
    ensures page >= totalPages ==> r == totalPages
  {
    Min(page + 1, totalPages)
  }

  // ---------------------------------------------------------------------
  // The page component
  // ---------------------------------------------------------------------

  class CallSession {
    var moodleFunctions: seq<MoodleFunction>
    var selectedFunction: Option<MoodleFunction>
    var formValues: Params
    var lastRequest: Option<Request>
    var lastResponse: Option<Json>
    var logs: seq<LogEntry>
    var selectedLog: Option<LogEntry>
    var currentPage: int

    /** No handler takes the page number below 0. */
    ghost predicate Valid()
      reads this
    {
      currentPage >= 0
    }

    ghost function State(): Session
      reads this
    {
      Session(moodleFunctions, selectedFunction, formValues, lastRequest, lastResponse,
              logs, selectedLog, currentPage)
    }

    /** The initial values of the `useState` slots. */
    constructor ()
      ensures Valid()
      ensures State() == Session([], None, [], None, None, [], None, 1)
    {
      moodleFunctions := [];
      selectedFunction := None;
      formValues := [];
      lastRequest := None;
      lastResponse := None;
      logs := [];
      selectedLog := None;
      currentPage := 1;
    }

    /** The effect that loads the catalog whenever the configuration changes. */
    method FetchFunctions(config: MoodleConfig)
      requires Valid()
      modifies this
      ensures Valid()
      ensures State() == old(State()).(moodleFunctions := GetMoodleFunctions(config))
    {
      moodleFunctions := GetMoodleFunctions(config);
    }

    /** `handleFunctionSelect`: selects the first catalog entry with that
        name (none if there is none) and empties the form. */
    method HandleFunctionSelect(functionName: string)
      requires Valid()
      modifies this
      ensures Valid()
      ensures State() == old(State()).(selectedFunction := FindByName(old(moodleFunctions), functionName),
                                       formValues := [])
    {
      var selected := FindByName(moodleFunctions, functionName);
      selectedFunction := selected;
      formValues := [];
    }

    /** `handleInputChange`: sets one form value, keeping every other. */
    method HandleInputChange(name: string, value: ParamValue)
      requires Valid()
      modifies this
      ensures Valid()
      ensures State() == old(State()).(formValues := Put(old(formValues), name, value))
      ensures Get(formValues, name) == Some(value)
      ensures forall k :: k != name ==> Get(formValues, k) == Get(old(formValues), k)
    {
      formValues := Put(formValues, name, value);
      forall k | true
        ensures Get(formValues, k) == if k == name then Some(value) else Get(old(formValues), k)
      {
        PutGet(old(formValues), name, value, k);
      }
    }

    /** `handleSubmit`. Without a selected function nothing happens and no
        request is sent. Otherwise the request record becomes the last
        request, exactly one POST is sent, and then either the response
        becomes the last response and a new entry heads the log, or the
        failure becomes `{error: message}` and the log is left alone. */
    method HandleSubmit(config: Config, outcome: FetchOutcome, id: string,
                        timestampRequest: string, timestampResponse: string)
      returns (requests: seq<HttpPost>)
      requires Valid()
      modifies this
      ensures Valid()
      ensures old(selectedFunction).None? ==> requests == [] && State() == old(State())
      ensures old(selectedFunction).Some? ==>
        var name := old(selectedFunction).value.name;
        var request := Request(name, old(formValues), config.url, config.apiKey);
        && requests == [HttpPost(RequestUrl(config.url, name, config.apiKey), FormFields(old(formValues)))]
        && State() == match Normalise(outcome)
             case Success(body) =>
               old(State()).(lastRequest := Some(request), lastResponse := Some(body),
                             logs := [LogEntry(id, timestampRequest, timestampResponse, name,
                                               old(formValues), request, body)] + old(logs))
             case Failure(message) =>
               old(State()).(lastRequest := Some(request), lastResponse := Some(ErrorResponse(message)))
    {
      if selectedFunction.None? {
        requests := [];
        return;
      }
      var functionName := selectedFunction.value.name;
      var request := Request(functionName, formValues, config.url, config.apiKey);
      lastRequest := Some(request);
      var result;
      requests, result := CallMoodleApi(MoodleConfig(config.url, config.apiKey, config.language),
                                        functionName, formValues, outcome);
      match result {
        case Success(response) =>
          lastResponse := Some(response);
          var logEntry := LogEntry(id, timestampRequest, timestampResponse, functionName,
                                   formValues, request, response);
          logs := [logEntry] + logs;
        case Failure(message) =>
          lastResponse := Some(ErrorResponse(OrElse(message, GenericFailure)));
      }
    }

    /** `handleViewLog`: shows the entry's request and response and marks
        it selected; the form is not touched. */
    method HandleViewLog(log: LogEntry)
      requires Valid()
      modifies this
      ensures Valid()
      ensures State() == old(State()).(selectedLog := Some(log), lastRequest := Some(log.request),
                                       lastResponse := Some(log.response))
    {
      selectedLog := Some(log);
      lastRequest := Some(log.request);
      lastResponse := Some(log.response);
    }

    /** `handleTryAgain`: reselects the entry's function by name and puts
        its parameters back in the form, without submitting. */
    method HandleTryAgain(log: LogEntry)
      requires Valid()
      modifies this
      ensures Valid()
      ensures State() == old(State()).(selectedFunction := FindByName(old(moodleFunctions), log.functionName),
                                       formValues := log.parameters)
    {
      selectedFunction := FindByName(moodleFunctions, log.functionName);
      formValues := log.parameters;
    }

    /** `handleDeleteLog`: drops every entry with that id, in place order;
        when the selected entry is among them the selection and both
        "last" slots are cleared. The page number stays. */
    method HandleDeleteLog(logId: string)
      requires Valid()
      modifies this
      ensures Valid()
      ensures var hit := old(selectedLog).Some? && old(selectedLog).value.id == logId;
        State() == if hit
          then old(State()).(logs := WithoutId(old(logs), logId), selectedLog := None,
                             lastRequest := None, lastResponse := None)
          else old(State()).(logs := WithoutId(old(logs), logId))
    {
      logs := WithoutId(logs, logId);
      if selectedLog.Some? && selectedLog.value.id == logId {
        selectedLog := None;
        lastRequest := None;
        lastResponse := None;
      }
    }

    /** The "Previous" button, disabled on page 1. */
    method HandlePrevious()
      requires Valid()
      modifies this
      ensures Valid()
      ensures State() == old(State()).(currentPage := PreviousPage(old(currentPage)))
    {
      if currentPage != 1 {
        currentPage := PreviousPage(currentPage);
      }
    }

    /** The "Next" button, disabled on the last page. */
    method HandleNext()
      requires Valid()
      modifies this
      ensures Valid()
      ensures State() == old(State()).(currentPage := NextPage(old(currentPage), TotalPages(|old(logs)|)))
    {
      var totalPages := TotalPages(|logs|);
      if currentPage != totalPages {
        currentPage := NextPage(currentPage, totalPages);
      }
    }
  }

  // ---------------------------------------------------------------------
  // Scenarios
  // ---------------------------------------------------------------------

  /** Select the catalog's function, fill in `field` and `values`, and
      submit against a server answering `status` with `body`: a 2xx answer
      is shown and logged at position 0 with the function and its
      parameters; any other answer shows "HTTP error! status: <status>" and
      logs nothing. */
  method SubmitScenario(status: int, body: Json) returns (logged: seq<LogEntry>, shown: Option<Json>)
    ensures StatusOk(status) ==>
      && shown == Some(body)
      && |logged| == 1
      && logged[0].functionName == "core_user_get_users_by_field"
      && logged[0].parameters == [("field", Text("email")), ("values", List(["a@test.com"]))]
    ensures !StatusOk(status) ==>
      && logged == []
      && shown == Some(ErrorResponse(HttpErrorPrefix + IntToString(status)))
  {
    var config := Config(1, "https://x.test", "tok", "en", "2024-01-01T00:00:00.000Z");
    var moodleConfig := MoodleConfig(config.url, config.apiKey, config.language);
    var page := new CallSession();
    page.FetchFunctions(moodleConfig);
    FindByNameInCatalog(moodleConfig, 0);
    page.HandleFunctionSelect("core_user_get_users_by_field");
    assert page.selectedFunction == Some(GetUsersByField) && page.logs == [];
    page.HandleInputChange("field", Text("email"));
    assert page.formValues == [("field", Text("email"))];
    page.HandleInputChange("values", List(["a@test.com"]));
    var form := [("field", Text("email")), ("values", List(["a@test.com"]))];
    assert page.formValues == form;
    var outcome := HttpResponse(status, Parsed(body));
    if StatusOk(status) {
      assert Normalise(outcome) == Success(body);
    } else {
      HttpErrorReportsStatus(status, Parsed(body));
    }
    var _ := page.HandleSubmit(config, outcome, "1", "t0", "t1");
    logged := page.logs;
    shown := page.lastResponse;
  }

  /** Switching functions discards what was typed for the previous one. */
  method SwitchResetsForm(page: CallSession, a: string, b: string)
    requires page.Valid()
    modifies page
    ensures page.formValues == []
  {
    page.HandleFunctionSelect(a);
    page.HandleInputChange("x", Text("1"));
    page.HandleFunctionSelect(b);
  }
}
