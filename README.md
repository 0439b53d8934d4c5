# plex-requester-collections: request drain and media-server client, in Dafny

This project models the two pieces of sequential logic in the service
clients of plex-requester-collections. Its contracts prove what those pieces
promise.

- **The request drain of the request tracker** (`src/overseerr.ts`).
  - `getPaginatedRequests` defaults the caller's options object in place:
    - `take` defaults to 100 and `skip` to 0;
    - `filter` defaults to `"available"` and `sort` to `"added"`;
    - a falsy value (0 or "") is replaced, as a missing one is.
  - `getAllRequests` fetches the first page and reads `pages`, `pageSize`,
    `results` and `page` from it once. It then asks for page after page with
    `skip = currentPage * pageSize` and `take = pageSize`, and merges every page
    into the result with lodash `unionBy(…, "id")`.
  - The loop ends when `currentPage` reaches the page count, or when the merged
    list holds exactly `results` records. When the first page already holds at
    least that many, it asks for no further page.
  - The tracker is a pure oracle `Server = Query -> Option<Response>`. `None`
    stands for a failed call, which the code sees as `null`.
  - The drain is specified by a predicate on the sequence of queries it sends:
    - `IsDrain`: the first query, then every later query asks for the page the
      previous response reported, and the drain stops exactly after the last
      query;
    - `Collected`: the `unionBy`-deduplication of every record received;
    - lemmas prove that `IsDrain` determines the queries uniquely, and that the
      result has no duplicate ids, keeps the earliest record and first-seen
      order, and holds only records a response returned.
- **The media-server client singleton** (`src/plex.ts`).
  - The `PlexAPI` class has:
    - the two caches, `machineId` (memoised, retried while "") and `labels`
      (`None` until loaded);
    - the log of calls it made;
    - the server oracle `respond(n, call)`, the response to the client's n-th
      call;
    - `encodeURIComponent`, kept as an opaque function.
  - Its methods are the section, collection, item and label listers; the label
    key lookup; adding and removing labels (a cache reload when the lower-cased
    label is unknown); item updates (defaulting the caller's update dictionary
    in place); and smart-collection creation (two calls, with the early return
    when the created collection has no key).
  - Pure helpers:
    - `GetPlexTypeCode`;
    - the nested-list extractors;
    - lodash `_.find(…, { title })` as `FindByTitle`;
    - the key lookup `KeyFor`;
    - the update defaulting `WithItemDefaults`.

Files:
- `wrappers.dfy`: `Option` and JavaScript `||` on numbers and strings.
- `requests.dfy`: request records and keep-first deduplication by id, with its lemmas.
- `overseerr.dfy`: the paged request drain.
- `plex.dfy`: the media-server client.

Three facts about the drain's code that the model keeps:
- The page size used for later pages is the one the first response
  reported, read once; it is not re-read from every page.
- No guard stops a page that does not advance. A failed later page resets
  `currentPage` to 0 and the loop goes on (see Findings).
- A first page reporting `results = 0` stops the drain, but what that page
  returned is still kept. The result is not empty unless the page was.

## Model

| member | source | states |
|---|---|---|
| Overseerr.GetPaginatedRequests | src/overseerr.ts:73-87 | every option that is missing or falsy is replaced in the caller's object by its default (take 100, skip 0, filter "available", sort "added"); truthy options are kept; the defaulted query is the one sent and its response is returned |
| Overseerr.CollectedFirst | src/overseerr.ts:125-131 | the list after the first page is the deduplicated records of the first response (none for a failed call or missing results) |
| Overseerr.CollectedSnoc | src/overseerr.ts:147-153 | merging one more page into the collected list equals deduplicating all records received so far, that page's included |
| Overseerr.CollectedIsUnique | src/overseerr.ts:127-131 | what was collected has no two records with the same id, and every record came from some response |
| Overseerr.DrainPrefixOfPrefix | src/overseerr.ts:134-157 | every non-empty prefix of a run of the drain is itself a run; the loop does not stop before the last query of a run; each later query asks, with the first page size, for the page the previous response reported |
| Overseerr.DrainPrefixStarts | src/overseerr.ts:100-104 | every run of the drain starts with the query for the first page: `skip = 0`, `take = 100` and the filter |
| Overseerr.DrainPrefixStep | src/overseerr.ts:135-145 | while the drain has not stopped, asking for `skip = page * pageSize`, `take = pageSize` of the reported page extends a valid run of the drain |
| Overseerr.DrainPrefixWithin | src/overseerr.ts:134-157 | no run of the drain is longer than a complete run, and a run as long as a complete one has stopped, so the loop ends after at most as many calls as the complete run has |
| Overseerr.AdvancingServerDrains | src/overseerr.ts:134-157 | on a server that reports, for every page asked below the page count, a later page, every run of the drain extends to a complete one |
| Overseerr.DrainPagesAdvance | src/overseerr.ts:142-145 | on an advancing server, the page reported after the k-th later call is at least k past the first reported page |
| Overseerr.DrainLengthBound | src/overseerr.ts:134-145 | on an advancing server a run of the drain makes at most `pageCount - firstPage` calls after the first |
| Overseerr.GetAllRequests | src/overseerr.ts:97-162 | against any server on which a complete drain run exists (exactly the servers on which the code ends), the queries sent are exactly that run; the result is the id-deduplication of everything received, without duplicate ids and only with received records; on a server whose reported page always advances, at most `pageCount - firstPage` later pages are fetched; a failed first call gives `[]` after one call; a first page that already holds `totalCount` unique records means only one call |
| Overseerr.StopsExactlyAtEnd | src/overseerr.ts:134-157 | in a complete run the stop condition holds after the last query and after no earlier one |
| Overseerr.DrainPrefixesAgree | src/overseerr.ts:136-145 | two runs against the same server with the same filter agree on every common prefix |
| Overseerr.DrainPrefixesAgreeAt | src/overseerr.ts:135-145 | two runs against the same server with the same filter send the same query at every position both reach |
| Overseerr.DrainIsDeterministic | src/overseerr.ts:97-162 | the server and the filter determine the queries of the drain uniquely (header read once, each page from the previous response) |
| Overseerr.SecondPageFailsNeverStops | src/overseerr.ts:142-145 | for a server whose second page fails, no query sequence of any length satisfies the stop condition, so the loop as written never ends |
| Overseerr.GetAllRequestsGuarded | src/overseerr.ts:97-162 | the drain with a non-advancing-page guard: always terminates; when not stalled its queries are a complete drain run; when stalled, the last reported page did not move past the previous one and the drain had not stopped; under an advancing server it is never stalled and behaves as `GetAllRequests`; same result guarantees |
| Requests.FirstIndex | src/overseerr.ts:147-153 | the position of the first record with a given id: it has that id and no earlier record has it |
| Requests.UniqById | src/overseerr.ts:147-153 | keep-first deduplication by id never makes the list longer |
| Requests.UnionById | src/overseerr.ts:147-153 | lodash `unionBy(a, b, "id")`: the result has no two records with the same id, holds exactly the ids of `a` and `b`, and each of its records is one of `a` or `b` |
| Requests.UniqKeepsIds | src/overseerr.ts:127-131 | deduplication by id keeps exactly the ids of its input |
| Requests.UniqHasNoDupIds | src/overseerr.ts:147-153 | the deduplicated list never holds two records with the same id |
| Requests.UniqIsFromInput | src/overseerr.ts:147-153 | every record of the deduplicated list is a record of the input |
| Requests.UniqKeepsFirst | src/overseerr.ts:147-153 | for each id, the record kept is the earliest one of the input with that id |
| Requests.UniqKeepsOrder | src/overseerr.ts:147-153 | kept records appear in the order their ids were first seen |
| Requests.UniqOfDistinct | src/overseerr.ts:147-153 | a list with distinct ids is left unchanged |
| Requests.UniqIdempotent | src/overseerr.ts:147-153 | deduplicating twice is deduplicating once |
| Requests.UnionAbsorbs | src/overseerr.ts:147-153 | `unionBy` of an already merged list and a page equals deduplicating the whole concatenation, so page-by-page merging equals one merge of all pages |
| Plex.GetPlexTypeCode | src/plex.ts:275-286 | "show" maps to 2, "collection" to 18, and exactly the other strings (among them "movie") to 1 |
| Plex.DirectoryOf | src/plex.ts:295-298 | the sections are `MediaContainer.Directory` when present and `[]` when the response, its container or the list is missing |
| Plex.MetadataOf | src/plex.ts:320-323 | the collections (and items) are `MediaContainer.Metadata` when present and `[]` otherwise |
| Plex.LabelsAreDirectory | src/plex.ts:439-445 | the extra non-empty test of `getLabels` changes nothing: the cache holds `Directory` when present, else `[]` |
| Plex.LabelsOf | src/plex.ts:439-445 | the label cache loaded from a response is `MediaContainer.Directory` when present (an empty one included), and `[]` when the response, its container or the list is missing |
| Plex.MachineIdOf | src/plex.ts:255-260 | the machine id is `machineIdentifier` when present and "" otherwise |
| Plex.Lower | src/plex.ts:496 | lower-casing keeps the length, leaves no upper-case ASCII letter, maps each upper-case letter to its lower-case one and keeps every other character |
| Plex.FindByTitle | src/plex.ts:473 | the position of the first entry whose `title` is the label; none exactly when no entry has that title |
| Plex.Knows | src/plex.ts:504 | the cache knows a label exactly when it is loaded and some entry has that title; an unloaded cache knows nothing, so the labels are reloaded |
| Plex.KeyFor | src/plex.ts:470-475 | a key is returned exactly when the label is non-empty, some entry has that title, and the first such entry has a truthy `key`, which is what is returned; an empty label or an empty cache gives none |
| Plex.WithItemDefaults | src/plex.ts:601-604 | a falsy or missing `type` becomes 1 and a truthy one is kept; `id` is the item; `includeExternalMedia` is 1; every other key is kept unchanged and no key is added besides those three |
| Plex.LabelUpdateSends | src/plex.ts:496-501 | the update call of adding and of removing a label goes to the given section, and its parameters are exactly the lower-cased label under that operation's own key, `label.locked = 1`, `type = itemType` (1 when `itemType` is 0), the item id, `includeExternalMedia = 1` and `X-Plex-Token` set to the client token |
| Plex.RatingKeyOf | src/plex.ts:368-370 | the key of the created collection is the truthy `ratingKey` of the first `Metadata` entry, and none when `Metadata` is missing or empty or the key is falsy |
| Plex.FirstCreated | src/plex.ts:389 | the result is nothing for a failed call or a missing container, a TypeError for a container without `Metadata`, and the first entry of `Metadata` (nothing when it is empty) otherwise |
| Plex.PlexAPI.constructor | src/plex.ts:218-226 | the client starts with an empty machine id, an unloaded label cache and no calls made, with the given server, encoder and token |
| Plex.PlexAPI.GetCapabilities | src/plex.ts:235-240 | one call to the server root; its response is returned; caches unchanged |
| Plex.PlexAPI.GetMachineId | src/plex.ts:249-264 | a known machine id is returned without any call; an unknown one is fetched with one capabilities call and set to `machineIdentifier` or "" (so it is asked again next time) |
| Plex.PlexAPI.GetSections | src/plex.ts:292-301 | one call; the nested `Directory` or `[]` is returned; caches unchanged |
| Plex.PlexAPI.GetCollections | src/plex.ts:309-326 | one call for the section's collections; the nested `Metadata` or `[]`; caches unchanged |
| Plex.PlexAPI.GetAllItems | src/plex.ts:569-583 | one call for the section's items; the nested `Metadata` or `[]`; caches unchanged |
| Plex.PlexAPI.GetLabels | src/plex.ts:433-448 | one call; the label cache becomes the response's non-empty `Directory` or `[]`, and is returned |
| Plex.PlexAPI.GetKeyForLabel | src/plex.ts:460-478 | the labels are fetched only when the cache is unloaded (an empty list counts as loaded); afterwards the cache is loaded and the key is `KeyFor` of the lower-cased label |
| Plex.PlexAPI.UpdateItemDetails | src/plex.ts:595-613 | the caller's dictionary is defaulted in place and is itself the parameter object of the one update call, so it also gains the token the call writes into it; the call sends exactly that dictionary and its response is returned |
| Plex.PlexAPI.Signed | src/plex.ts:634-635 | the parameters of a call gain `X-Plex-Token` set to the client token, and every other key is kept |
| Plex.PlexAPI.SendLabelUpdate | src/plex.ts:496-507 | the update is sent first; the label cache is reloaded with a second call exactly when it does not know the lower-cased label |
| Plex.PlexAPI.AddLabelToItem | src/plex.ts:489-508 | sends the add-label update for the lower-cased label, then reloads the cache exactly when that label is unknown to it |
| Plex.PlexAPI.RemoveLabelFromItem | src/plex.ts:519-538 | sends the remove-label update for the lower-cased label, then reloads the cache exactly when that label is unknown to it |
| Plex.PlexAPI.SetTitleSort | src/plex.ts:375-384 | the second call of a collection creation: one update typed 18 with the encoded sort title, locked, for the created collection |
| Plex.PlexAPI.CreateSmartCollection | src/plex.ts:340-390 | `sort` defaults to "titleSort" and `smart` is forced to 1 in the caller's options; the machine id is fetched first if unknown; the creation call follows; a second call happens only when a non-empty sort title differing from the title is given and the creation named a collection key; with no key it returns nothing and makes no second call |

## Left out

- The bodies of `callApi` in every client (HTTP through axios, the base URL, the HTTPS agent, timing, the missing-environment error) are not modelled: each is the server oracle. Of the token it adds, only its write into the parameters of an update call is modelled (`Plex.PlexAPI.Signed`), because that object is the caller's; the other calls carry no caller object. The token is a constructor argument, not read from the environment.
- `debug` and `debugPerformance` only log, and are not modelled.
- `src/radarr.ts`, `src/sonarr.ts`, `src/tautulli.ts` and `src/index.ts` are not part of this model: the first three are thin wrappers of one call each, and the last is an entry point.
- `getStatus`, `getAccounts`, `getSingleAccount` and `getSingleItem` are not part of the core and are not modelled.
- The exact URLs and query strings are not modelled: each call is an abstract `Call` value carrying the values that go into it. `encodeURIComponent` is an uninterpreted function.
- Plex.Lower: `toLowerCase` is modelled on ASCII letters only. The Unicode case mapping is not modelled.
- Plex.PlexAPI.UpdateItemDetails: a `null` update dictionary (the `updates || {}` branch) is not modelled, because the model always receives an object.
- Numbers are integers: `NaN`, fractions and the 2^53 limit of JavaScript numbers are not modelled. Dictionary values are numbers or strings only.
- Overseerr.GetAllRequests: it requires that a complete run of the drain exists for the server and filter. Without one the code never ends (see Findings), which a terminating method cannot model. The fetch-count bound is promised only for a server whose reported page always advances.
- Responses are values given by the oracle. No concurrency between the unawaited calls of the entry point is modelled.

## Findings

| source | as written | input that shows it | evidently intended | confidence | as-written member | corrected member |
|---|---|---|---|---|---|---|
| src/overseerr.ts:142-145 | a later page whose response has no `pageInfo` (a failed call) sets `currentPage` to 0, so the loop asks for page 0 again and never stops | a server reporting 2 pages of 1 record each, `results = 2`, whose call for `skip = 1` fails: every response then reports page 1 or 0 and only 1 unique record is ever collected | stop when a reported page does not advance, and return what was collected with a partial-result signal | not executed | Overseerr.SecondPageFailsNeverStops | Overseerr.GetAllRequestsGuarded |
