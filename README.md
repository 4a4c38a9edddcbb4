# aioazuredevops, modelled in Dafny

aioazuredevops is an asynchronous Python client for the Azure DevOps REST API.
This project models its two cores and proves properties of the model.

- **The helpers** (`aioazuredevops/helper.py`) post-process collections that have already been fetched:
  - they find the current iteration and its neighbours;
  - they list the names of the work item states that a category rule keeps;
  - they group work items under their work item type and state.
- **The client** (`aioazuredevops/client.py`):
  - holds a personal access token and an "authorised" flag;
  - attaches Basic credentials to each request when it holds a token;
  - turns the service's JSON answers into records, or into `None` for a refused or empty answer.

Modules:

- `Py` (`py.dfy`): Python's `None`, the exceptions the code can raise (as values), and list subscripting with negative indices.
- `Models` (`models.dfy`): the iteration, work item type and work item records the helpers read.
- `Helper` (`helper.py` modelled in `helper.dfy`):
  - the iteration lookups are pure functions;
  - the two state filters are methods whose nested loops append to a list, each proved equal to a recursive specification function;
  - lemmas about those specification functions.
- `Json` (`json.dfy`): a decoded JSON value, seen the way Python sees it.
  - A dict keeps its keys in insertion order; a key the JSON text gives twice holds its last value.
  - `key in v` tests a dict's keys, a list's elements and a str's substrings, and raises TypeError on anything else.
  - `v[key]` raises KeyError or TypeError.
  - Iteration yields a list's elements, a dict's keys and a str's characters.
  - Truth testing is modelled too.
  - A list comprehension stops at its first exception.
- `Records` (`records.dfy`): the `DevOps*` records the client builds.
  - A field copied from the JSON holds the decoded value unchanged; `Null` stands for Python's `None`.
  - A nested record that can be left out is an `Option`.
- `Mappers` (`mappers.dfy`): one function per record built in `client.py`.
  - It reads the keys in the order Python evaluates the constructor's arguments, so the exception it returns is the one Python raises first.
- `Ids` (`ids.dfy`): the comma-joined `ids` query parameter, and its inverse.
- `Client` (`client.dfy`): the `DevOpsClient` class, with the network taken out.
  - `authorized` and `pat` are fields that `Authorize` updates.
  - Each fetch method returns the request it sends, built from the stored token, and takes the answer (status and decoded body) as a parameter.
  - Its result is `None` for a status other than 200 or a body that decodes to `None`. Otherwise it is the mapped record, or the exception the mapping raises.
  - `GetBuilds` keeps the source's accumulating loop.

## Model

| member | source | states |
|---|---|---|
| Helper.FirstCurrent | aioazuredevops/helper.py:20-23 | the index where the scan stops is that of the first CURRENT iteration; it is None exactly when no iteration is CURRENT, and it is unique |
| Helper.CurrentIteration | aioazuredevops/helper.py:10-15 | None exactly when no iteration is CURRENT (so None for `[]`); otherwise the result is a list element that is CURRENT with no CURRENT element before it |
| Helper.PreviousIteration | aioazuredevops/helper.py:18-23 | None exactly when no iteration is CURRENT; the element just before the first CURRENT one; the LAST element when the first CURRENT one is at index 0 |
| Helper.NextIteration | aioazuredevops/helper.py:26-31 | Success(None) when no iteration is CURRENT; the element just after the first CURRENT one; IndexError when that one is the last |
| Helper.PreviousIterationWrapsAround | aioazuredevops/helper.py:22 | with the first of at least two iterations CURRENT, the code answers the last iteration and the corrected lookup answers None |
| Helper.NextIterationRaisesAtEnd | aioazuredevops/helper.py:30 | when the only CURRENT iteration is the last, the code raises IndexError and the corrected lookup answers None |
| Helper.PreviousIterationIntended | aioazuredevops/helper.py:18-23 | a previous iteration exists exactly when the first CURRENT iteration has an index above 0, and it is the one just before it |
| Helper.NextIterationIntended | aioazuredevops/helper.py:26-31 | a next iteration exists exactly when the first CURRENT iteration is not the last, and it is the one just after it |
| Helper.NeighboursAgreeAwayFromEdges | aioazuredevops/helper.py:18-31 | away from the first and last positions, the as-written and corrected lookups give the same answer |
| Helper.WorkItemTypesStatesFilter | aioazuredevops/helper.py:48-67 | the nested loops produce exactly the kept state names: type after type, state after state |
| Helper.NoFilterKeepsNoState | aioazuredevops/helper.py:60-66 | with neither filter given, no state of a type passes the rule |
| Helper.NoFilterKeepsNoName | aioazuredevops/helper.py:54-55 | with neither filter given, the filter's result is `[]` |
| Helper.KeptNamesLength | aioazuredevops/helper.py:59-66 | at most one name is emitted per state of a type |
| Helper.FilteredStateNamesLength | aioazuredevops/helper.py:57-67 | the output is no longer than the total number of states |
| Helper.KeptNamesMembership | aioazuredevops/helper.py:59-66 | a name is emitted for a type exactly when one of its states carries it and that state's category passes the rule |
| Helper.FilteredStateNamesMembership | aioazuredevops/helper.py:57-67 | a name is in the output exactly when some state of some type carries it and that state's category passes the rule |
| Helper.KeptNamesAppend | aioazuredevops/helper.py:59-66 | within a type, names come out in state order |
| Helper.FilteredStateNamesAppend | aioazuredevops/helper.py:58-66 | across types, names come out in type order |
| Helper.FixtureIgnoringCompletedAndRemoved | aioazuredevops/helper.py:57-67 | a type with a New (Proposed) state and a Closed (Completed) state, filtered by ignoring Completed and Removed, yields `["New"]` |
| Helper.ItemsInStateMembers | aioazuredevops/helper.py:82 | the comprehension keeps exactly the work items whose state is the named state, and no more items than were given |
| Helper.ItemsInStateAppend | aioazuredevops/helper.py:82 | the comprehension keeps the work items in their input order |
| Helper.KeptStateItemsEntries | aioazuredevops/helper.py:81-95 | every state entry is a state of the type whose category passes the rule, and it carries exactly the work items in that state |
| Helper.NoFilterKeepsNoStateItem | aioazuredevops/helper.py:89-95 | with neither filter given, no state entry is built for a type |
| Helper.ByTypeAndStateEntries | aioazuredevops/helper.py:79-112 | one entry per type, in type order; each copies the type's twelve attributes unchanged and holds that type's kept state entries |
| Helper.WorkItemsByTypeAndState | aioazuredevops/helper.py:70-114 | the nested loops produce exactly the grouping described by the specification function |
| Helper.EntryNamesAppend | aioazuredevops/helper.py:89-95 | the names of appended state entries are the appended names |
| Helper.KeptStateItemsNames | aioazuredevops/helper.py:81-95 | a type's state entries carry the names the filter emits for that type, in the same order |
| Helper.GroupingAgreesWithFilter | aioazuredevops/helper.py:48-95 | concatenated, the kept state names of all entries equal `work_item_types_states_filter`'s output for the same filters |
| Helper.NoFilterGroupsNothing | aioazuredevops/helper.py:89-95 | with neither filter given, every type still gets an entry, and every entry has no state entries |
| Json.Lookup | aioazuredevops/client.py:102-108 | a dict holds no value for a key exactly when no member has that key; the value it holds is that of the last member with the key, as `json.loads` keeps a repeated key |
| Json.Get | aioazuredevops/client.py:102-103 | `v[key]` succeeds exactly on a dict holding the key and gives its value; it raises KeyError(key) on a dict without the key and TypeError on any other value |
| Json.Elements | aioazuredevops/client.py:147 | iterating a list visits its elements; iterating None, a number or a bool raises TypeError; iterating a dict or a str yields only strings |
| Json.MapAllSuccess | aioazuredevops/client.py:316-330 | a comprehension succeeds exactly when every element maps; it then has one result per element, in order |
| Json.MapAllFailure | aioazuredevops/client.py:316-330 | a failed comprehension raises what its first failing element raises |
| Json.MapAllStopsAt | aioazuredevops/client.py:146-148 | a loop that mapped a prefix and fails on the next element raises what the whole comprehension raises |
| Mappers.OptionalWith | aioazuredevops/client.py:112-125 | on a dict, an absent key gives None and a present key gives the nested mapping of its value; on None, a number or a bool it raises TypeError |
| Mappers.Href | aioazuredevops/client.py:119-123 | `v[key]["href"]` succeeds exactly when both keys are present, and gives the inner value |
| Mappers.OptionalHref | aioazuredevops/client.py:200-210 | on a dict, an absent link gives None and a present one gives its `href` lookup |
| Mappers.MapEach | aioazuredevops/client.py:316-330 | `[f(x) for x in v[key]]` raises when the key is absent, and maps a list value element by element |
| Mappers.MapTeam | aioazuredevops/client.py:112-116 | succeeds exactly on a dict with `id`, `name` and `url`, copying them; otherwise it raises KeyError for the first absent key, or TypeError on a non-dict |
| Mappers.MapProjectLinks | aioazuredevops/client.py:119-123 | succeeds exactly when the `self`, `collection` and `web` links each have an `href`; it holds the three hrefs |
| Mappers.MapProject | aioazuredevops/client.py:101-126 | TypeError on a non-dict; KeyError for `id`, then `name`, when absent; succeeds exactly when those are present and any team and links present map; optional keys give their value or None; team and links are present exactly when their keys are |
| Mappers.MapBuildDefinition | aioazuredevops/client.py:161-175 | succeeds exactly on a dict with `id` and `name` (KeyError for the first absent one); the five optional keys give their value or None |
| Mappers.MapBuildProject | aioazuredevops/client.py:176-198 | succeeds exactly on a dict with `id` and `name`; the optional keys give their value or None; no team and no links |
| Mappers.MapBuildLinks | aioazuredevops/client.py:199-213 | TypeError on None, a number or a bool; on a dict, succeeds exactly when each of the five links is absent or a dict holding `href`; the first link in source order that does not resolve raises KeyError("href"), or TypeError when it is not a dict; each link's href, or None when the link is absent |
| Mappers.MapBuild | aioazuredevops/client.py:149-214 | TypeError on a non-dict; KeyError("id") without `id`; succeeds exactly when the nested definition, project and links present map; optional keys give their value or None; `finishTime == startTime` |
| Mappers.MapWiqlColumn | aioazuredevops/client.py:317-323 | succeeds exactly on a dict with `referenceName`, `name` and `url`, copying them; KeyError for the first absent key |
| Mappers.MapWiqlWorkItem | aioazuredevops/client.py:325-330 | succeeds exactly on a dict with `id` and `url`, copying them; KeyError for the first absent key |
| Mappers.MapWiqlResult | aioazuredevops/client.py:312-331 | KeyError for the first absent key of `queryType`, `queryResultType` and `asOf`; those are copied; columns and work item references are the element-wise mappings of `columns` and `workItems` |
| Mappers.MapUser | aioazuredevops/client.py:364-380 | succeeds exactly when all seven keys are present and `_links.avatar.href` resolves; copies them |
| Mappers.OptionalUser | aioazuredevops/client.py:364-383 | no user when the key is absent or its value is falsy; otherwise the mapped user; on a dict, a successful result holds a user exactly when the fields name one |
| Mappers.MapFields | aioazuredevops/client.py:357-428 | TypeError on a non-dict; succeeds exactly when the eleven required keys are present and the three users map; copies the values; the state change date is the whole `fields` dict |
| Mappers.MapWorkItemValue | aioazuredevops/client.py:354-430 | KeyError for the first absent key among `id`, `rev` and `fields`; then the exception the fields raise; with those mapped, succeeds exactly when `url` is present, else KeyError("url"); the state change date is the whole `fields` dict; each user is present exactly when the fields name one |
| Mappers.MapWorkItems | aioazuredevops/client.py:351-433 | raises without `count`; copies `count`; the values are the element-wise mapping of `value` |
| Mappers.MappedBuilds | aioazuredevops/client.py:146-217 | a mapped build list has one build per element of `value`, in order, and every build has `finishTime == startTime` |
| Mappers.MappedWiql | aioazuredevops/client.py:316-330 | a mapped WIQL result has one column per element of `columns` and one reference per element of `workItems`, in order |
| Mappers.MappedWorkItems | aioazuredevops/client.py:351-433 | a mapped work item answer has one value per element of `value`, in order |
| Ids.NatToDecimal | aioazuredevops/client.py:343 | `str(n)` is a non-empty string of decimal digits |
| Ids.IntToDecimal | aioazuredevops/client.py:343 | `str(i)` is non-empty and has no comma |
| Ids.JoinIds | aioazuredevops/client.py:343 | the joined string is empty exactly when there are no ids |
| Ids.Split | aioazuredevops/client.py:343 | splitting at commas always gives at least one piece |
| Ids.ParseNatDecimal | aioazuredevops/client.py:343 | reading back the digits of `str(n)` gives `n` |
| Ids.ParseIntDecimal | aioazuredevops/client.py:343 | reading back `str(i)` gives `i`, with or without a minus sign |
| Ids.SplitCommaFree | aioazuredevops/client.py:343 | a comma-free piece runs on into the first piece of what follows it |
| Ids.SplitAtComma | aioazuredevops/client.py:343 | a leading comma ends an empty piece |
| Ids.SplitJoinIds | aioazuredevops/client.py:343 | splitting the joined ids gives one decimal per id, in order |
| Ids.ParseAllDecimals | aioazuredevops/client.py:343 | reading back one decimal per id gives the ids |
| Ids.JoinIdsRoundTrip | aioazuredevops/client.py:343 | reading the `ids` parameter back gives exactly the ids asked for, in order |
| Ids.JoinOneId | aioazuredevops/client.py:343 | the ids `[1]` are written `1` |
| Client.Answer | aioazuredevops/client.py:95-99 | None when the status is not 200 or the body decodes to None; a 200 answer with a body gives exactly the mapped body, or the exception the mapping raises |
| Client.DevOpsClient.constructor | aioazuredevops/client.py:22-35 | a new client is not authorised and holds no token |
| Client.DevOpsClient.Credentials | aioazuredevops/client.py:43-48 | credentials exist exactly when a token is stored: an empty login and the token |
| Client.DevOpsClient.GetRequest | aioazuredevops/client.py:37-48 | a GET of the URL with no body; it carries the Authorization header exactly when a token is stored, with that token |
| Client.DevOpsClient.PostRequest | aioazuredevops/client.py:50-66 | a POST of the URL with the JSON body; it carries the Authorization header exactly when a token is stored, with that token |
| Client.DevOpsClient.Authorize | aioazuredevops/client.py:68-82 | the token is stored whatever the answer; the client is authorised exactly when the answer's status is 200; the projects request already carries the new token |
| Client.DevOpsClient.GetProject | aioazuredevops/client.py:84-126 | GETs the project URL; its result is the answer rule applied to `MapProject` |
| Client.DevOpsClient.GetBuilds | aioazuredevops/client.py:128-217 | GETs the build list URL; the loop's result is the answer rule applied to mapping every element of `value`, in order, stopping at the first failure |
| Client.DevOpsClient.GetBuild | aioazuredevops/client.py:219-290 | GETs the build URL with the id in decimal; its result is the answer rule applied to `MapBuild` |
| Client.DevOpsClient.GetWorkItemsIdsAll | aioazuredevops/client.py:292-331 | POSTs the all-work-items WIQL query; its result is the answer rule applied to `MapWiqlResult` |
| Client.DevOpsClient.GetWorkItems | aioazuredevops/client.py:333-433 | GETs the work items URL with the ids comma-joined; its result is the answer rule applied to `MapWorkItems` |
| Client.RefusedToken | tests/test_client.py:23-53 | after a refused token (status 401), a new client is not authorised and still holds the token, which it sent |

## Left out

- Network I/O, `aiohttp` sessions and `async`/`await`. Each request becomes a returned `Request` value and each answer a `Response` parameter.
  - Decoding a body that is not JSON (an exception in `response.json()`) is not modelled.
- `aiohttp.BasicAuth("", pat).encode()` (client.py:47, 65). This is Basic authentication, section 2 of RFC 7617, with Base64. The model keeps the credentials (`BasicAuth(login, password)`) but not their encoding into the header value.
- `datetime.strptime` of `lastUpdateTime` (client.py:109, 190-193). The model keeps the decoded JSON value unparsed, so the ValueError or TypeError a malformed date raises is not modelled.
- Json.Elements: on a dict whose JSON text repeats a key, Python iterates that key once; the model lists every member, so it yields the repeated key again. No mapper's outcome depends on this: iterating any dict there gives strings, and the first one raises TypeError.
- JSON numbers are integers; floating point is not modelled. The truth value of a number is `n != 0`.
- `authorize` returns `None` as written, although its tests expect a truthy result. The model follows the code: `Authorize` returns only the request it sends.
- Operations the tests call but `client.py` does not contain (`get_iterations`, `get_work_item_types`, `get_work_item_ids`, `BASE_URL`, a `session=` constructor) are not part of this model. Neither is id chunking or state-filtered WIQL.
- `aioazuredevops/cli.py`, `setup.py` and `_version.py` are not part of this model: they are packaging and a command-line front end.
- Of the record modules, only the fields the helpers and mappers read or copy are modelled. The enums are closed datatypes.
- Mappers.MapFields does not state which key's KeyError it raises first. Only success and the copied values are stated; the order is kept in its body.
- `previous_iteration` (helper.py:19-22) looks one index back from the current iteration, and the first iteration has no predecessor to look back to. The code nevertheless gives the last iteration there, through Python's negative indexing. The model follows the code (`Helper.PreviousIteration`) and states the lookback separately, with None when there is no predecessor (`Helper.PreviousIterationIntended`); see Findings.

## Findings

| source | as written | input that shows it | evidently intended | confidence | as-written member | corrected member |
|---|---|---|---|---|---|---|
| aioazuredevops/helper.py:22 | `iterations[key - 1]` with `key == 0` is Python's `iterations[-1]`, the last iteration | two iterations, the first CURRENT | no previous iteration: `None` | not executed | Helper.PreviousIterationWrapsAround | Helper.PreviousIterationIntended |
| aioazuredevops/helper.py:30 | `iterations[key + 1]` past the end raises IndexError | one iteration, CURRENT | no next iteration: `None` | not executed | Helper.NextIterationRaisesAtEnd | Helper.NextIterationIntended |
