# Moodle API explorer: the call page, the configuration store and the client

This project models, in Dafny, the logic at the heart of a browser-based
explorer for a Moodle web-service API. An operator picks a remote function
from a static catalog and fills in its parameters. The explorer posts the
call to the configured endpoint and shows the request and the response. Each
successful call goes into a history that can be paged through, viewed,
replayed and pruned.

Three source files hold that logic, and each has its own module:

- `CallPage` (src/app/call/page.tsx). The page's state slots are the fields
  of the class `CallSession`: the catalog, the selected function, the form
  values, the last request and response, the log (newest first), the
  selected log entry and the current page. Every event handler is a method
  whose postcondition gives the whole new state as an update of the old one
  (`State() == old(State()).(…)`). The pure parts are functions with lemmas:
  the lookup by name, the filter used by delete, the page count, the page
  slice and the Previous/Next updates.
- `UseConfig` (src/hooks/use-config.ts). The class `ConfigStore` holds the
  `config` state and the `'config'` local-storage slot. It has the mount-time
  `Load` and `UpdateConfig`. `Merge` is the record merge that `UpdateConfig`
  writes.
- `Moodle` (src/services/moodle.ts). It covers the request URL, the form
  body (built by a loop, as the source's `forEach` does) and the
  normalisation of the call's outcome into a value or an error message. It
  also holds the constant function catalog.

Two support modules model what these files get from the language. `Js`
covers plain objects with ordered distinct keys and the spread update,
`Array.prototype.slice`, integer and string-array `toString`, `||` on
strings, and JSON values. `Wrappers` holds `Option` and `Result`.

Inputs the code gets from its environment are parameters:

- the outcome of `fetch`, as a `FetchOutcome`: a network error with a message, or a status with a body that parses or not;
- the page's configuration;
- log ids and timestamps;
- the update time and the module-load time of the configuration store;
- the initial contents of local storage.

Where the written design of the explorer and its code differ, the model
follows the code:

- A failed call is not logged. Only the success path adds a log entry.
  `SubmitScenario` shows that a 500 response leaves the log empty.
- Stored configuration text that is not JSON makes the load effect throw. It
  does not fall back to the defaults. `Load` then returns `parsed == false`
  and changes nothing.
- Submitting with no function selected raises an alert and returns. No
  validation result is given back. The model changes no state and sends no
  request.
- Delete returns nothing and removes every entry with the given id. There is
  no lookup of a single entry by id.
- `updateConfig` always takes all three fields: URL, token and language.
- Replay puts the entry's parameter object itself into the form. No copy is
  made. The page never changes a form object in place: it always builds a new
  one. So the sharing cannot be observed, and a value-typed model is exact.
- "Next" on an empty log sets the page to 0. Deleting entries never changes
  the page, so the current page can end up past the last one and show nothing.

## Model

| member | source | states |
|---|---|---|
| `CallPage.CallSession.constructor` | src/app/call/page.tsx:41-48 | the initial state: empty catalog, no selection, empty form, no last request or response, empty log, page 1 |
| `CallPage.CallSession.FetchFunctions` | src/app/call/page.tsx:53-60 | the catalog slot becomes the catalog for the given configuration; nothing else changes |
| `CallPage.CallSession.HandleFunctionSelect` | src/app/call/page.tsx:62-66 | the selection becomes the first catalog entry with that name, or none; the form is emptied; nothing else changes |
| `CallPage.CallSession.HandleInputChange` | src/app/call/page.tsx:68-70 | the form becomes its spread update with one key; that key reads the new value, every other key reads what it read before; nothing else changes |
| `CallPage.CallSession.HandleSubmit` | src/app/call/page.tsx:72-119 | with no selection: no request and no state change; otherwise the last request is `{functionName, params: form, apiUrl, apiKey}`, exactly one POST is sent, and a success sets the last response and prepends exactly one entry (the selected name, the form, the request, the response) to the log, while a failure sets the last response to `{error: message}` and leaves the log alone |
| `CallPage.CallSession.HandleViewLog` | src/app/call/page.tsx:121-125 | the entry becomes selected and its request and response fill the last request and response; the selected function and the form are untouched |
| `CallPage.CallSession.HandleTryAgain` | src/app/call/page.tsx:127-135 | the selection becomes the catalog lookup of the entry's function name and the form becomes the entry's parameters; the log and everything else are untouched |
| `CallPage.CallSession.HandleDeleteLog` | src/app/call/page.tsx:137-144 | the log becomes its filter by id; if the selected entry has that id, the selection and both last slots become none, otherwise they stay; the page number stays |
| `CallPage.CallSession.HandlePrevious` | src/app/call/page.tsx:329-330 | the page becomes `PreviousPage` of the old page, whether or not the button was disabled; only the page changes |
| `CallPage.CallSession.HandleNext` | src/app/call/page.tsx:338-339 | the page becomes `NextPage` of the old page and the page count, whether or not the button was disabled; only the page changes |
| `CallPage.PreviousPage` | src/app/call/page.tsx:329 | never below 1; one back from any page above 1 |
| `CallPage.NextPage` | src/app/call/page.tsx:338 | never above the page count (so 0 for an empty log); one on from any page before the last; the last page from any page at or past it |
| `CallPage.TotalPages` | src/app/call/page.tsx:146 | the ceiling of the entry count over 5: enough pages for every entry, and not one more |
| `CallPage.PaginatedLogs` | src/app/call/page.tsx:147 | the current page shows at most 5 entries, each taken from the log |
| `CallPage.PageWindow` | src/app/call/page.tsx:147 | page p ≥ 1 is the entries from (p-1)·5 up to min(p·5, length), so at most 5 |
| `CallPage.PageEmptyOutside` | src/app/call/page.tsx:146-147 | page 0 and every page past the page count are empty |
| `CallPage.PageNonEmptyInside` | src/app/call/page.tsx:146-147 | every page from 1 to the page count has an entry |
| `CallPage.PagesCoverLog` | src/app/call/page.tsx:146-147 | pages 1 to the page count, laid end to end, are the whole log in order |
| `CallPage.ErrorResponse` | src/app/call/page.tsx:112 | the response shown for a failure is an object with the single key `error`, holding the message |
| `CallPage.FirstPageShowsNewest` | src/app/call/page.tsx:105 | an entry prepended to the log heads page 1 |
| `CallPage.FirstMatch` | src/app/call/page.tsx:63 | the index of a function with that name with no earlier one, or none when no function has it |
| `CallPage.FindByName` | src/app/call/page.tsx:63 | a found function is in the list and has that name; none exactly when no function has it |
| `CallPage.FindByNameInCatalog` | src/app/call/page.tsx:128 | looking up a catalog function's name finds that function |
| `CallPage.WithoutId` | src/app/call/page.tsx:138 | an entry stays exactly when it was in the log and its id differs; never longer |
| `CallPage.WithoutIdConcat` | src/app/call/page.tsx:138 | the filter keeps relative order: filtering a concatenation concatenates the filtered parts |
| `CallPage.WithoutAbsentId` | src/app/call/page.tsx:138 | deleting an id no entry has leaves the log exactly unchanged |
| `CallPage.WithoutIdIdempotent` | src/app/call/page.tsx:138 | deleting the same id twice is deleting it once |
| `CallPage.SubmitScenario` | src/app/call/page.tsx:62-119 | select the catalog function, set `field` and `values`, submit: a 2xx answer is shown and logged at position 0 with that function and those parameters; any other status shows `HTTP error! status: <status>` and logs nothing |
| `CallPage.SwitchResetsForm` | src/app/call/page.tsx:62-70 | select, type a value, select again: the form is empty |
| `Js.Put` | src/app/call/page.tsx:69 | the spread update keeps the key order, and appends a key that was absent |
| `Js.PutGet` | src/app/call/page.tsx:69 | after the spread update the key reads the new value and every other key reads its old value |
| `Js.Slice` | src/app/call/page.tsx:147 | for 0 ≤ start ≤ end, slicing gives the entries from start to end, both clamped to the length; an end of 0 gives nothing |
| `UseConfig.ConfigStore.constructor` | src/hooks/use-config.ts:14-23 | the state starts as `initialConfig` (id 1, empty URL and token, language `en`) over the given storage |
| `UseConfig.ConfigStore.Load` | src/hooks/use-config.ts:25-34 | a set slot holding a record becomes the state and nothing is written; an unset or empty slot gets `initialConfig`, which also becomes the state; unparsable text changes nothing; afterwards the slot is always set |
| `UseConfig.InitialConfig` | src/hooks/use-config.ts:14-20 | the default record: id 1, empty URL and token, language `en`, stamped with the module-load time |
| `UseConfig.Truthy` | src/hooks/use-config.ts:28 | the load effect takes the stored branch exactly when the slot is set and does not hold the empty string |
| `UseConfig.LoadTwice` | src/hooks/use-config.ts:25-34 | two loads with no write between end with the same configuration, which is the state; a set slot is never written, and an unset one ends up holding `initialConfig`, which is then also the configuration: the default is written at most once |
| `UseConfig.ConfigStore.UpdateConfig` | src/hooks/use-config.ts:36-44 | the state becomes the merge of the old record with the update, and the persisted record equals the state |
| `UseConfig.Merge` | src/hooks/use-config.ts:37-41 | keeps `id`; sets URL, token and language to the supplied values; sets the timestamp to `now` |
| `UseConfig.MergeForgetsPrevious` | src/hooks/use-config.ts:37-41 | the merged record depends on the old one only through its `id`, whatever its previous timestamp |
| `UseConfig.MergeLatestWins` | src/hooks/use-config.ts:36-44 | of two updates in a row only the later shows |
| `UseConfig.MergeOnlyLanguage` | src/hooks/use-config.ts:37-41 | resubmitting the current URL and token with a new language changes only the language and the timestamp |
| `Moodle.RequestUrl` | src/services/moodle.ts:95 | the endpoint is sent as it is, followed by `?`; the URL ends with the JSON format flag; its length is the three inputs plus the fixed separators, so nothing is escaped or dropped |
| `Moodle.RequestUrlRoundTrip` | src/services/moodle.ts:94-95 | split back at the first `?` and at each `&`, the URL gives the endpoint, function name and token it was built from, provided the endpoint has no `?` and the name and token have no `&` (nothing is escaped) |
| `Moodle.ParseTokenRoundTrip` | src/services/moodle.ts:95 | the token part of the query reads back as the token when the token has no `&` |
| `Moodle.BuildFormData` | src/services/moodle.ts:97-100 | one field per parameter, in key order, each holding the key and its value's string form |
| `Moodle.ParamToString` | src/services/moodle.ts:99 | a string is sent as itself; a number or a boolean as non-empty text without a comma |
| `Moodle.FormFields` | src/services/moodle.ts:98-99 | one field per parameter, and no field name occurs twice |
| `Moodle.FormFieldsFollowKeys` | src/services/moodle.ts:98-99 | the form's field names are the parameter keys, in order |
| `Moodle.ParamToStringReadsBack` | src/services/moodle.ts:99 | a field's text reads back as its value: a string as itself, an integer through its digits, a boolean as `true`/`false`, a non-empty array of comma-free strings by cutting at commas |
| `Js.IntToStringRoundTrip` | src/services/moodle.ts:99 | the decimal text of an integer parses back to that integer |
| `Js.JoinSplitRoundTrip` | src/services/moodle.ts:99 | a non-empty comma-free string array is recovered from its comma join |
| `Moodle.StatusOkHundreds` | src/services/moodle.ts:109 | `response.ok` holds exactly for the statuses whose hundreds digit is 2 |
| `Moodle.Normalise` | src/services/moodle.ts:109-117 | a failure always carries a non-empty message |
| `Moodle.NormaliseSucceedsExactly` | src/services/moodle.ts:109-113 | success exactly for a 2xx response with a parseable body, and then the value is that body unchanged |
| `Moodle.HttpErrorReportsStatus` | src/services/moodle.ts:109-116 | a non-2xx status fails with `HTTP error! status: ` and the status, which parses back from the message |
| `Moodle.TransportFailureMessage` | src/services/moodle.ts:114-117 | a network or body-parse failure carries its own message, or `API call failed` when that is empty |
| `Moodle.CallMoodleApi` | src/services/moodle.ts:89-118 | exactly one POST, to the built URL with the built form, and the result is the normalised outcome |
| `Moodle.GetMoodleFunctions` | src/services/moodle.ts:126-150 | no function name repeats, and no parameter name repeats within a function |
| `Moodle.CatalogContents` | src/services/moodle.ts:130-149 | one function, `core_user_get_users_by_field`, with required `field` (choices `id`, `idnumber`, `username`, `email`) and required `values` (no choices) |
| `Moodle.CatalogIgnoresConfig` | src/services/moodle.ts:126-150 | the catalog is the same for every configuration |

## Left out

- Rendering is left out: JSX, cards, tables, badges, `alert`, toasts, `window.scrollTo` and `toLocaleString`. This includes the choice between a choice list and a text input for a parameter. They are presentation and change no state.
- `fetch`, `FormData`, `response.json()` and `JSON.parse`/`JSON.stringify` are browser APIs. A call's outcome is the input `FetchOutcome`. A stored record is the `Config` value it encodes.
- Stored text that is valid JSON but not a configuration record is not modelled. The code would take such text as the state unchecked.
- Failures of local storage itself, such as quota or disabled storage, are not modelled.
- `Date.now()` and `toISOString()` are clocks, so ids and timestamps are parameters. Log ids are not proved unique, because the code does not make them unique.
- Numbers in parameters and JSON bodies are integers only. Float formatting in `toString` is not modelled.
- A parameter value of `null` or `undefined` is not modelled. Its `toString` would throw before the request is sent.
- Object keys enumerate in insertion order in this model. JavaScript lists integer-like keys first, in numeric order.
- Overlapping submits are not modelled. Each submit is one atomic transition, although the source awaits the network in the middle.
- Each `useConfig` call has its own state, and the page's copy is passed to `HandleSubmit` as a parameter. The configuration page (src/app/config/page.tsx) only forwards its three form fields to `updateConfig`, so it is not part of this model.
- `Moodle.RequestUrlRoundTrip` splits the URL only at `?` and `&`. It does not model what a browser and a server read into an unescaped URL: `fetch` drops everything from `#` on as a fragment, and the server percent-decodes query values and reads `+` as a space. So an endpoint, name or token holding `#`, `%` or `+` does not reach the server as written, although the lemma's split reads it back.
- Logging with `console.log` and `console.error` is left out.
- The navigation and layout files have no logic and are not part of this model. These are src/components/main-nav.tsx, src/app/components/*.tsx and the layout files.
- The language type in src/types is not part of this model. The language is kept as a string code such as `en`.
