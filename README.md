# Match-history API client: a Dafny model

This project models the core of a small command-line client for a game's match-history web API. The model has four parts:

- **MatchView** (`MatchView.dfy`): the read-only queries of `MatchData` over one match record. It covers name, participant id and account id lookups, the winning team, a player's team, membership, and teammate lists. Each query is a linear scan that returns at the first hit, or `None` when the scan finds nothing.
- **Memo** (`Memo.dfy`): the persisted get-or-compute cache of `persist_to_file`.
  - There is one map, keyed only by the second positional argument of the wrapped call; the receiver is not part of the key.
  - A hit returns the stored value without running the function.
  - A miss runs the function once and stores its value, `None` included.
  - A raised error is not stored.
  - A cache file that fails to load gives an empty map.
- **Fetch** (`Fetch.dfy`): the body of `_execute_api_json`, with three pieces:
  - the credential suffix (`&` if the URL already has a `?`, otherwise `?`);
  - the `while True` status loop: 200–300 succeeds; 429 retries when waiting on the limit and fails otherwise; 404 gives an absent value; any other status of 400 or more is an error; every other status (below 200, or 301–399) matches no branch, so the loop requests again;
  - `filter_out`, which removes `stats` and `timeline` from every participant of a match-detail response.
- **Riot** (`Riot.dfy`): the `RiotAPI` client.
  - It builds the endpoint URLs and sends every request through the cache.
  - It resolves a display name to an account (`None` when the data is falsy, as after a 404).
  - It selects match ids from a match list: only matches whose timestamp is strictly before `since` are kept. A too-recent match is skipped without ending the scan; the scan stops only when the depth cap is reached.
  - `count` and `since` are only used when truthy: 0 behaves like omitting them.

Some modelling choices:

- The network is a function from the full request URL to the successive responses the server gives to repeated requests. A response is a status code and a decoded JSON body.
- When that sequence runs out, the model returns the error `NoResponse`; the source would go on requesting.
- Each imperative piece of the source is a `method` with a loop, proved equal to a recursive specification function. The properties are lemmas about those functions:
  - the status loop: `ExecuteRequests` = `Fetch`;
  - `filter_out`: `FilterOutInPlace` = `FilterOut`;
  - the match-list loop: `SelectMatchIds` = `SelectFrom`.
- The mutable cache is a class, `Memo.Cache`, with a hit test (`Lookup`) and the store of a miss (`RecordMiss`). A ghost log records every key for which the wrapped function actually ran. `Riot.RiotApi.ExecuteApiJson` is the decorated `_execute_api_json`, built from those two and the request loop. Its contract ties it to the pure step `Memo.GetOrCompute`.
- `Riot.RiotApi` holds the client's fixed settings and a reference to the shared cache. Each of its methods states its result, the new cache and the requests it logged, in terms of the pure functions `ApiJson`, `AccountIdFor`, `MatchIdsByAccount` and `MatchIdsByName`.

Behaviour worth knowing:

- **Statuses below 200 and 301–399:** such a status matches no branch of the loop, so the loop requests again. `Fetch` and `Repeats` model that.
- **Empty match list:** `get_matches` returns `[]` when the name has no account. An account with no match before `since` also gives `[]`. So only "no account ⇒ `[]`" holds (`NoAccountNoMatches`, `UnknownNameGivesNoMatches`).
- **Zero depth:** the depth cap is a cap only when it is at least 1. With a depth of 0 the loop checks `len(match_ids) == 0` after the first match. If that match is too recent, the check holds and the result is `[]`. If it is kept, the length never equals 0 again and every earlier match is returned (`ZeroDepthDecidedByFirst`, `NonPositiveDepthNeverCaps`).

## Model

| member | source | states |
|---|---|---|
| `MatchView.FirstIndex` | riot.py:23-25 | The scan shape: absent exactly when no element qualifies, otherwise the index of the first that does |
| `MatchView.ParticipantId` | riot.py:22-25 | Absent exactly when no identity has the name; otherwise the participant id of the first identity that has it |
| `MatchView.ParticipantName` | riot.py:27-30 | Absent exactly when no identity has the participant id; otherwise the name on the first one that has it |
| `MatchView.AccountId` | riot.py:32-35 | Absent exactly when no identity has the participant id; otherwise the account on the first one that has it |
| `MatchView.AccountName` | riot.py:37-40 | Absent exactly when no identity has the account; otherwise the name on the first one that has it |
| `MatchView.WinningTeamId` | riot.py:42-45 | Absent exactly when no team is flagged "Win"; otherwise the id of the first team that is |
| `MatchView.TeamId` | riot.py:47-51 | Absent exactly when no participant carries the name's participant id (so always when the name is not found); otherwise the team of the first participant that does |
| `MatchView.IsInTeamAgreesWithTeamId` | riot.py:53-57 | `is_in_team` is absent exactly when `get_team_id` is, and otherwise says whether that team equals the one asked about |
| `MatchView.IsWinnerIffOnWinningTeam` | riot.py:18-20 | `is_winner` is true iff the player's team is the winning team, false iff it is another team, absent if the player is unknown |
| `MatchView.IdsOnTeam` | riot.py:77-83 | An id is in the result iff some participant on the team has it; no team gives []; never longer than the participant list |
| `MatchView.IdsOnTeamAppend` | riot.py:77-83 | The comprehension distributes over concatenation, so ids come out in list order |
| `MatchView.IdsOnTeamSingle` | riot.py:79-81 | One participant is kept exactly when its team id matches |
| `MatchView.TeamIncludesSelf` | riot.py:47-83 | A player with a team is among that team's member ids |
| `MatchView.TeamMembersAccIds` | riot.py:59-66 | One entry per member id; [] for an unknown name; an entry is absent exactly when no identity has that member's id, and otherwise is the account on the first identity that has it |
| `MatchView.TeamMembers` | riot.py:68-75 | One entry per member id; [] for an unknown name; an entry is absent exactly when no identity has that member's id, and otherwise is the name on the first identity that has it |
| `MatchView.NameIdRoundTrip` | riot.py:22-30 | With unique identities, name -> participant id and participant id -> name are inverse |
| `MatchView.AccountRoundTrip` | riot.py:32-40 | With unique identities, the account of a participant leads back to that participant's name |
| `MatchView.TeamMembersIncludeSelf` | riot.py:68-83 | With unique identities, a player's teammate names include the player's own name |
| `MatchView.TeamMembersAreTeam` | riot.py:68-83 | With unique identities and a player who has a team, a name is among the teammate names exactly when it belongs to an identity whose participant is on that team |
| `MatchView.TeamMembersAccIdsAreTeam` | riot.py:59-66 | With unique identities and a player who has a team, an account is among the teammate accounts exactly when it belongs to an identity whose participant is on that team |
| `MatchView.IsInTeam` | riot.py:53-57 | No ensures of its own; `IsInTeamAgreesWithTeamId` states its behaviour |
| `MatchView.IsWinner` | riot.py:18-20 | No ensures of its own; `IsWinnerIffOnWinningTeam` states its behaviour |
| `MatchView.TeamMembersIds` | riot.py:77-83 | No ensures of its own; it is `IdsOnTeam` over the match's participants, whose ensures and lemmas state its behaviour, with `TeamIncludesSelf` |
| `Memo.Loaded` | memo.py:9-12 | The cache starts from the saved map, or empty when reading or parsing the file failed |
| `Memo.HitDoesNotInvoke` | memo.py:25-27 | On a hit the stored value is returned, the cache is unchanged and the function does not run |
| `Memo.MissStores` | memo.py:25-27 | On a miss the function runs once; its value, whatever it is, is stored under the key; an error stores nothing |
| `Memo.OnlyParamChanges` | memo.py:25-26 | A call changes at most the entry for its key and never an entry already present |
| `Memo.SecondCallHits` | memo.py:23-27 | After a successful call, a second call with the same key via any receiver gives the same value, changes nothing and runs nothing |
| `Memo.Cache.Load` | memo.py:7-12 | A new cache holds the loaded map and has run nothing |
| `Memo.GetOrCompute` | memo.py:23-27 | No ensures of its own; `HitDoesNotInvoke`, `MissStores`, `OnlyParamChanges` and `SecondCallHits` state its behaviour |
| `Memo.Cache.Lookup` | memo.py:25-27 | The hit test: a value is returned exactly when the key is stored, and it is the stored value |
| `Memo.Cache.RecordMiss` | memo.py:25-26 | A produced value is stored under the key, an error is not, and the run is logged |
| `Fetch.WithApiKey` | riot.py:126 | No ensures of its own; `WithApiKeyShape` and `WithApiKeyOneQuery` state its behaviour |
| `Fetch.FilterOut` | riot.py:150-155 | No ensures of its own; `FilterOutOtherEndpoints`, `FilterOutStrips`, `FilterOutNotReapplicable` and `FilterOutInPlace` state its behaviour |
| `Fetch.Repeats` | riot.py:131-146 | No ensures of its own; the statuses on which no branch leaves the loop. `FetchSkipsRepeats`, `FetchDecidedByFirstFinal`, `FetchAllRepeat` and `RateLimitPolicy` state what they do |
| `Fetch.Verdict` | riot.py:131-146 | No ensures of its own; the outcome of the response that ends the loop. `FetchDecidedByFirstFinal`, `FetchFirstSuccess`, `RateLimitPolicy` and `NotFoundAndErrors` state it |
| `Fetch.WithApiKeyShape` | riot.py:126 | The suffixed URL is the URL, then `&` if it contains `?` (else `?`), then `api_key=<key>` |
| `Fetch.WithApiKeyOneQuery` | riot.py:126 | The suffix adds a `?` only when the URL has none, so it never opens a second query string |
| `Fetch.FilterOutOtherEndpoints` | riot.py:150-151 | Outside `match/v4/matches/` the data is returned unchanged |
| `Fetch.FilterOutStrips` | riot.py:150-155 | Every participant loses `stats` and `timeline` and keeps its other keys and values; the participant count and other top-level keys are unchanged |
| `Fetch.FilterOutNotReapplicable` | riot.py:152-154 | Filtering an already filtered match with participants raises, because the keys are gone |
| `Fetch.FilterOutInPlace` | riot.py:150-155 | The per-participant deletion loop computes `FilterOut`, raising at the first participant that lacks a key |
| `Fetch.Fetch` | riot.py:128-148 | The loop makes at most as many requests as there are responses, and at least one when there is one |
| `Fetch.FetchSkipsRepeats` | riot.py:128-146 | Responses that make the loop request again only add requests |
| `Fetch.FetchDecidedByFirstFinal` | riot.py:128-148 | The first response that does not repeat decides the outcome, and it is the last request made |
| `Fetch.FetchAllRepeat` | riot.py:128-146 | If every response repeats, all are used and no outcome is reached |
| `Fetch.FetchFirstSuccess` | riot.py:131-132 | A first response in 200..300 ends the loop after one request with the filtered body |
| `Fetch.RateLimitPolicy` | riot.py:134-141 | When waiting, 429s followed by a success give that success; when not waiting, a 429 fails with no further request |
| `Fetch.NotFoundAndErrors` | riot.py:142-146 | A deciding 404 gives an absent value; any other deciding status of 400 or more except 429 gives an error with that status |
| `Fetch.FetchedMatchIsStripped` | riot.py:148-155 | A match detail returned by the loop has no participant with `stats` or `timeline` |
| `Fetch.ExecuteRequests` | riot.py:128-148 | The `while True` loop computes `Fetch`: same outcome and same number of requests |
| `Riot.SelectFrom` | riot.py:102-107 | A successful selection extends what was collected and, with a cap of at least one, never exceeds it |
| `Riot.Earlier` | riot.py:102-104 | The uncapped reference keeps no more ids than there are matches |
| `Riot.SelectMatchIds` | riot.py:99-107 | The append-and-break loop computes `SelectFrom` from the empty list |
| `Riot.EarlierAppend` | riot.py:102-104 | The uncapped selection distributes over concatenation, so it keeps list order |
| `Riot.EarlierSound` | riot.py:102-104 | Every selected id is the gameId of a match older than `since` |
| `Riot.SelectIsTake` | riot.py:102-106 | With a well-formed list and a cap of at least one, the result is the first `depth` matches older than `since`, in order |
| `Riot.SelectScansPrefix` | riot.py:102-107 | A successful selection is the uncapped one applied to a prefix, and it stops before the end only at the cap |
| `Riot.SelectIgnoresTail` | riot.py:105-106 | Once the cap is reached, later matches (even malformed ones) make no difference |
| `Riot.NonPositiveDepthNeverCaps` | riot.py:101-106 | With a depth of 0 or less and more ids collected than that, every match before `since` is returned |
| `Riot.ZeroDepthDecidedByFirst` | riot.py:101-106 | With a depth of 0 and nothing collected, a too-recent first match gives [], and a kept first match gives every match before `since` |
| `Riot.Keep` | riot.py:103-104 | No ensures of its own; `EarlierSound` and `SelectIsTake` state which matches are kept |
| `Riot.EffectiveSince` | riot.py:100 | No ensures of its own; `ZeroArgumentsFallBack` states the fallback |
| `Riot.Depth` | riot.py:101 | No ensures of its own; `ZeroArgumentsFallBack` states the fallback |
| `Riot.MatchEntries` | riot.py:102 | No ensures of its own; the list the loop visits, used by `MatchIdsByAccountSelects` |
| `Riot.MatchIdsByAccount` | riot.py:95-107 | No ensures of its own; `MatchIdsByAccountSelects` and `ZeroArgumentsFallBack` state its behaviour, and `RiotApi.GetMatchesByAccId` is tied to it |
| `Riot.MatchIdsByName` | riot.py:109-113 | No ensures of its own; `NoAccountNoMatches`, `UnknownNameGivesNoMatches` and `RepeatedQueryIsCached` state its behaviour, and `RiotApi.GetMatches` is tied to it |
| `Riot.AccountIdOf` | riot.py:122 | No ensures of its own; a falsy response or a null account gives None. `NoAccountNoMatches` and `UnknownNameGivesNoMatches` use it |
| `Riot.AccountIdFor` | riot.py:119-122 | No ensures of its own; the cached account lookup that `RiotApi.NameToAccId` is tied to |
| `Riot.ApiJson` | riot.py:124-148 | No ensures of its own; the decorated `_execute_api_json`, one get-or-compute step of memo.py's `new_func` on the endpoint URL. `Memo.GetOrCompute`'s lemmas, `CacheIgnoresReceiver` and `RiotApi.ExecuteApiJson` state its behaviour |
| `Riot.Fetcher` | riot.py:125-148 | No ensures of its own; the undecorated body as a function of the client and the endpoint: the request loop `Fetch` on the responses to the full URL. The `Fetch` lemmas state its behaviour |
| `Riot.RequestUrl` | riot.py:126-129 | No ensures of its own; the top URL followed by the suffixed endpoint. `WithApiKeyShape` and `WithApiKeyOneQuery` cover the suffix |
| `Riot.TopUrl` | riot.py:90 | No ensures of its own; the region's API root |
| `Riot.AccountUrl` | riot.py:120 | No ensures of its own; the account endpoint for a name |
| `Riot.MatchListUrl` | riot.py:96-97 | No ensures of its own; the match-list endpoint for an account, already carrying a query string, so by `WithApiKeyShape` the key is joined with `&` |
| `JsonData.Truthy` | riot.py:122 | No ensures of its own; Python truthiness of the response, used by `AccountIdOf` |
| `JsonData.Iterated` | riot.py:102 | No ensures of its own; what a `for` loop over a decoded value visits, here and at riot.py:152 |
| `Riot.ZeroArgumentsFallBack` | riot.py:100-101 | `count = 0` and `since = 0` give the same answer as omitting them (queue depth, current time) |
| `Riot.MatchIdsByAccountSelects` | riot.py:95-107 | A successful match-list query returns at most `depth` ids, the older-than-`since` ids of a prefix of the list, and a full cap when it stopped early |
| `Riot.NoAccountNoMatches` | riot.py:109-113 | When the account lookup yields None, `get_matches` returns [] with no match-list request |
| `Riot.UnknownNameGivesNoMatches` | riot.py:109-122 | A name whose lookup ends in 404 gives [], caches None for the lookup and makes one fetch of the account endpoint, through any number of repeated HTTP requests first |
| `Riot.CacheIgnoresReceiver` | memo.py:24-27 | A client with another region, key or network gets the cached value and makes no request |
| `Riot.RepeatedQueryIsCached` | riot.py:109-125 | After a successful `get_matches`, repeating it with the same arguments and the same `now` makes no request and gives the same ids |
| `Riot.RiotApi.constructor` | riot.py:87-93 | The client keeps its region, key, queue depth (default 20) and wait flag; the region must be a supported one |
| `Riot.RiotApi.ExecuteApiJson` | riot.py:124-148 | The decorated request (`new_func` around the request loop): result, new cache and invocation log are one get-or-compute step |
| `Riot.RiotApi.NameToAccId` | riot.py:119-122 | The account looked up through the cache; None when the data is falsy or its account is null |
| `Riot.RiotApi.GetMatchesByAccId` | riot.py:95-107 | The selected ids, cache and log, as `MatchIdsByAccount` gives them |
| `Riot.RiotApi.GetMatches` | riot.py:109-113 | [] when no account is found, otherwise the match-list selection for it, with the cache and log |

## Left out

- Real HTTP (`requests.get`) is not modelled. The server is a function from the full URL to a finite sequence of responses to repeated requests. The model cannot express a server whose answers to one URL depend on what other URLs were requested before, or on earlier fetches of the same URL: a fetch repeated after a failure, which is not cached, replays the same responses.
- The endless retry loop is not modelled: a server that runs out of responses gives the error `NoResponse` instead.
- Decoding a response body is not modelled. Bodies are already-decoded JSON, so a `ValueError` from `r.json()` never occurs.
- The two-unit `time.sleep` before a rate-limit retry is not modelled; it is only a delay.
- The real clock (`datetime.now()`, scaled to milliseconds) is not modelled: the current time is an integer parameter `now`.
- Reading and writing the cache file, the JSON dump at exit and the `atexit` hook are not modelled (file I/O and process-exit hooks). Only the load outcome is kept: a saved map, or an empty one after `IOError` or `ValueError`. So the save/load round trip is not stated.
- Error messages are not modelled: raised exceptions are `ApiError` values without their message text. The Python code raises `KeyError`/`TypeError` on a response it cannot subscript; the model calls that `Malformed`.
- JSON floats are not modelled. A match timestamp that is not an integer is treated as malformed, where Python would still compare a float or boolean with `since`.
- Riot.AccountIdOf: an `accountId` that is neither a string nor null is treated as malformed. Python would format it into the match-list URL anyway.
- `filter_out` mutating the participant dicts in place is modelled on values. Nothing else holds a reference to the freshly decoded body, so no aliasing is lost.
- Concurrent access to the cache is not modelled: the source is single-threaded.
- `MatchData` works on typed records (`MatchView.MatchRecord`). So the `KeyError` a record without some field would raise is not modelled.
- `MatchData.get_timestamp` and `RiotAPI.get_match_data` are not modelled: a field read and a wrapper around one request.
- The region `assert` of `RiotAPI.__init__` is a precondition of the constructor.
- run.py is not part of this model: argument parsing, printing, reading the key file and the report loops.
