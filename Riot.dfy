/**
 * The API client of riot.py (class RiotAPI): endpoint URLs, the cached request, account
 * lookup by name and match-list selection. The cache decorating _execute_api_json is the
 * one of module Memo, keyed by the endpoint URL alone.
 */
module Riot {
  import opened Wrappers
  import opened JsonData
  import opened Fetch
  import Memo

  const Regions: seq<string> := ["br1", "eun1", "euw1", "jp1", "kr", "la1", "la2", "na1", "oc1", "tr1", "ru"]
  const MaxQDepth: int := 20

  /** The settings a RiotAPI object is built with; none of them changes afterwards. */
  datatype Config = Config(region: string, apiKey: string, qDepth: int, waitOnLimit: bool)

  /** The server: the successive responses it gives to repeated requests of one full URL. */
  type Network = string -> seq<Response>

  type CacheMap = map<string, Option<Json>>

  function TopUrl(region: string): string
  {
    "https://" + region + ".api.riotgames.com/lol/"
  }

  /** The URL actually requested for the endpoint `url`. */
  function RequestUrl(cfg: Config, url: string): string
  {
    TopUrl(cfg.region) + WithApiKey(url, cfg.apiKey)
  }

  /** The undecorated _execute_api_json, as a function of the receiver and the endpoint. */
  function Fetcher(net: Network): (Config, string) -> Result<Option<Json>, ApiError>
  {
    (cfg: Config, url: string) => Fetch.Fetch(url, cfg.waitOnLimit, net(RequestUrl(cfg, url))).outcome
  }

  /** The decorated _execute_api_json: get-or-compute on the endpoint URL. */
  function ApiJson(cfg: Config, net: Network, cache: CacheMap, url: string): Memo.Step<Option<Json>, ApiError>
  {
    Memo.GetOrCompute(cache, cfg, url, Fetcher(net))
  }

  /** What a client operation returns, the cache after it, and the endpoints it fetched from the network. */
  datatype Answer<T> = Answer(result: Result<T, ApiError>, cache: CacheMap, fetched: seq<string>)

  function FetchedUrls(s: Memo.Step<Option<Json>, ApiError>, url: string): seq<string>
  {
    if s.invoked then [url] else []
  }

  // ---------------------------------------------------------------------------
  // _name_to_acc_id
  // ---------------------------------------------------------------------------

  function AccountUrl(name: string): string
  {
    "summoner/v4/summoners/by-name/" + name
  }

  /** `data["accountId"] if data else None`; a JSON null account is Python's None too. */
  function AccountIdOf(data: Option<Json>, url: string): Result<Option<string>, ApiError>
  {
    if !Truthy(data) then Success(None)
    else match Member(data.value, "accountId")
      case Some(JNull) => Success(None)
      case Some(JStr(s)) => Success(Some(s))
      case _ => Failure(Malformed(url))
  }

  function AccountIdFor(cfg: Config, net: Network, cache: CacheMap, name: string): Answer<Option<string>>
  {
    var url := AccountUrl(name);
    var step := ApiJson(cfg, net, cache, url);
    var result := match step.result
      case Failure(e) => Failure(e)
      case Success(data) => AccountIdOf(data, url);
    Answer(result, step.entries, FetchedUrls(step, url))
  }

  // ---------------------------------------------------------------------------
  // get_matches_by_acc_id and get_matches
  // ---------------------------------------------------------------------------

  function MatchListUrl(accId: string): string
  {
    "match/v4/matchlists/by-account/" + accId + "?season=13&&queue=420"
  }

  /** `since or now`: an absent or zero `since` means the current time. */
  function EffectiveSince(since: Option<int>, now: int): int
  {
    if since.Some? && since.value != 0 then since.value else now
  }

  /** `count or self.q_depth`: an absent or zero `count` means the queue depth. */
  function Depth(count: Option<int>, qDepth: int): int
  {
    if count.Some? && count.value != 0 then count.value else qDepth
  }

  /** The entries `for match in data["matches"]` visits; None where that raises. */
  function MatchEntries(data: Option<Json>): Option<seq<Json>>
  {
    match data
    case None => None
    case Some(d) =>
      match Member(d, "matches")
      case None => None
      case Some(ms) => Iterated(ms)
  }

  /**
   * One match of the list: its gameId if its timestamp is before `since`, nothing if it is
   * too recent. The timestamp is read first, the gameId only for a kept match.
   */
  function Keep(entry: Json, since: int, url: string): Result<Option<Json>, ApiError>
  {
    match Member(entry, "timestamp")
    case Some(JInt(ts)) =>
      if ts < since then
        match Member(entry, "gameId")
        case Some(id) => Success(Some(id))
        case None => Failure(Malformed(url))
      else Success(None)
    case _ => Failure(Malformed(url))
  }

  function Kept(k: Option<Json>): seq<Json>
  {
    if k.Some? then [k.value] else []
  }

  /** The loop of get_matches_by_acc_id from the point where `acc` has been collected. */
  function SelectFrom(entries: seq<Json>, since: int, depth: int, acc: seq<Json>, url: string): (r: Result<seq<Json>, ApiError>)
    ensures r.Success? ==> acc <= r.value
    ensures r.Success? && 1 <= depth && |acc| < depth ==> |r.value| <= depth
    decreases |entries|
  {
    if entries == [] then Success(acc)
    else match Keep(entries[0], since, url)
      case Failure(e) => Failure(e)
      case Success(k) =>
        var acc' := acc + Kept(k);
        if |acc'| == depth then Success(acc')
        else SelectFrom(entries[1..], since, depth, acc', url)
  }

  /** The reference: every match before `since`, in list order, with no cap. */
  function Earlier(entries: seq<Json>, since: int, url: string): (r: Result<seq<Json>, ApiError>)
    ensures r.Success? ==> |r.value| <= |entries|
  {
    if entries == [] then Success([])
    else match Keep(entries[0], since, url)
      case Failure(e) => Failure(e)
      case Success(k) =>
        match Earlier(entries[1..], since, url)
        case Failure(e) => Failure(e)
        case Success(rest) => Success(Kept(k) + rest)
  }

  /** The first `n` elements, or all of them. */
  function Take<T>(s: seq<T>, n: nat): seq<T>
  {
    if n < |s| then s[..n] else s
  }

  /** get_matches_by_acc_id: the selection loop, appending and breaking at the depth cap. */
  method SelectMatchIds(entries: seq<Json>, since: int, depth: int, url: string) returns (r: Result<seq<Json>, ApiError>)
    ensures r == SelectFrom(entries, since, depth, [], url)
  {
    var ids: seq<Json> := [];
    var i := 0;
    while i < |entries|
      invariant 0 <= i <= |entries|
      invariant SelectFrom(entries, since, depth, [], url) == SelectFrom(entries[i..], since, depth, ids, url)
    {
      assert entries[i..][1..] == entries[i + 1..];
      ghost var before := ids;
      var k := Keep(entries[i], since, url);
      if k.Failure? {
        return Failure(k.error);
      }
      if k.value.Some? {
        ids := ids + [k.value.value];
      }
      assert ids == before + Kept(k.value);
      if |ids| == depth {
        return Success(ids);
      }
      i := i + 1;
    }
    assert entries[i..] == [];
    return Success(ids);
  }

  function MatchIdsByAccount(cfg: Config, net: Network, cache: CacheMap, accId: string,
                             count: Option<int>, since: Option<int>, now: int): Answer<seq<Json>>
  {
    var url := MatchListUrl(accId);
    var step := ApiJson(cfg, net, cache, url);
    var result := match step.result
      case Failure(e) => Failure(e)
      case Success(data) =>
        match MatchEntries(data)
        case None => Failure(Malformed(url))
        case Some(ms) => SelectFrom(ms, EffectiveSince(since, now), Depth(count, cfg.qDepth), [], url);
    Answer(result, step.entries, FetchedUrls(step, url))
  }

  function MatchIdsByName(cfg: Config, net: Network, cache: CacheMap, name: string,
                          count: Option<int>, since: Option<int>, now: int): Answer<seq<Json>>
  {
    var a := AccountIdFor(cfg, net, cache, name);
    match a.result
    case Failure(e) => Answer(Failure(e), a.cache, a.fetched)
    case Success(None) => Answer(Success([]), a.cache, a.fetched)
    case Success(Some(accId)) =>
      var b := MatchIdsByAccount(cfg, net, a.cache, accId, count, since, now);
      Answer(b.result, b.cache, a.fetched + b.fetched)
  }

  // ---------------------------------------------------------------------------
  // Properties of match-list selection
  // ---------------------------------------------------------------------------

  lemma {:induction false} EarlierAppend(a: seq<Json>, b: seq<Json>, since: int, url: string)
    requires Earlier(a, since, url).Success? && Earlier(b, since, url).Success?
    ensures Earlier(a + b, since, url) == Success(Earlier(a, since, url).value + Earlier(b, since, url).value)
  {
    if a == [] {
      assert a + b == b;
      AppendNil(Earlier(b, since, url).value);
    } else {
      EarlierAppend(a[1..], b, since, url);
      EarlierAppendStep(a, b, since, url);
    }
  }

  /** The inductive step of EarlierAppend: from `a[1..] + b` to `a + b`. */
  lemma {:induction false} EarlierAppendStep(a: seq<Json>, b: seq<Json>, since: int, url: string)
    requires a != [] && Earlier(a, since, url).Success? && Earlier(b, since, url).Success?
    requires Earlier(a[1..] + b, since, url) == Success(Earlier(a[1..], since, url).value + Earlier(b, since, url).value)
    ensures Earlier(a + b, since, url) == Success(Earlier(a, since, url).value + Earlier(b, since, url).value)
  {
    assert (a + b)[1..] == a[1..] + b;
    assert (a + b)[0] == a[0];
    var k := Kept(Keep(a[0], since, url).value);
    AppendAssoc(k, Earlier(a[1..], since, url).value, Earlier(b, since, url).value);
  }

  lemma AppendAssoc<T>(x: seq<T>, y: seq<T>, z: seq<T>)
    ensures x + (y + z) == (x + y) + z
  {
  }

  lemma AppendNil<T>(x: seq<T>)
    ensures [] + x == x
  {
  }

  /** Every id the reference keeps is the gameId of a match older than `since`. */
  lemma {:induction false} EarlierSound(entries: seq<Json>, since: int, url: string, x: Json)
    requires Earlier(entries, since, url).Success? && x in Earlier(entries, since, url).value
    ensures exists j :: 0 <= j < |entries| && Keep(entries[j], since, url) == Success(Some(x))
  {
    var k := Keep(entries[0], since, url);
    assert Earlier(entries, since, url).value == Kept(k.value) + Earlier(entries[1..], since, url).value;
    if k == Success(Some(x)) {
      assert Keep(entries[0], since, url) == Success(Some(x));
    } else {
      assert x !in Kept(k.value);
      EarlierSound(entries[1..], since, url, x);
      var j :| 0 <= j < |entries[1..]| && Keep(entries[1..][j], since, url) == Success(Some(x));
      assert entries[1..][j] == entries[j + 1];
      assert Keep(entries[j + 1], since, url) == Success(Some(x));
    }
  }

  /**
   * The whole list well formed and a cap of at least one: the loop returns the first
   * `depth` matches before `since`, in list order. A too-recent match is skipped without
   * ending the scan; only the cap ends it.
   */
  lemma {:induction false} SelectIsTake(entries: seq<Json>, since: int, depth: int, acc: seq<Json>, url: string)
    requires 1 <= depth && |acc| < depth
    requires Earlier(entries, since, url).Success?
    ensures SelectFrom(entries, since, depth, acc, url) == Success(Take(acc + Earlier(entries, since, url).value, depth))
  {
    if entries == [] {
      assert acc + [] == acc;
    } else {
      var k := Keep(entries[0], since, url).value;
      var acc' := acc + Kept(k);
      var rest := Earlier(entries[1..], since, url).value;
      assert acc + Earlier(entries, since, url).value == acc' + rest;
      if |acc'| == depth {
        if rest == [] {
          assert acc' + rest == acc';
        } else {
          assert (acc' + rest)[..depth] == acc';
        }
      } else {
        SelectIsTake(entries[1..], since, depth, acc', url);
      }
    }
  }

  /** The reference on a single match. */
  lemma EarlierSingle(e: Json, since: int, url: string)
    requires Keep(e, since, url).Success?
    ensures Earlier([e], since, url) == Success(Kept(Keep(e, since, url).value))
  {
    assert [e][1..] == [];
    assert Kept(Keep(e, since, url).value) + [] == Kept(Keep(e, since, url).value);
  }

  /**
   * Whatever the list holds, a successful selection is the reference applied to the
   * prefix of the first `n` matches, and it stops before the end only at the cap: matches
   * after the cap are never inspected, even malformed ones.
   */
  lemma {:induction false} SelectScansPrefix(entries: seq<Json>, since: int, depth: int, acc: seq<Json>, url: string)
    returns (n: nat)
    requires SelectFrom(entries, since, depth, acc, url).Success?
    ensures n <= |entries|
    ensures Earlier(entries[..n], since, url).Success?
    ensures SelectFrom(entries, since, depth, acc, url).value == acc + Earlier(entries[..n], since, url).value
    ensures n < |entries| ==> |SelectFrom(entries, since, depth, acc, url).value| == depth
  {
    if entries == [] {
      n := 0;
      assert entries[..0] == [];
      assert acc + [] == acc;
    } else {
      var k := Keep(entries[0], since, url).value;
      var acc' := acc + Kept(k);
      EarlierSingle(entries[0], since, url);
      if |acc'| == depth {
        n := 1;
        assert entries[..1] == [entries[0]];
      } else {
        var m := SelectScansPrefix(entries[1..], since, depth, acc', url);
        n := m + 1;
        assert entries[..n] == [entries[0]] + entries[1..][..m];
        EarlierAppend([entries[0]], entries[1..][..m], since, url);
        assert acc' + Earlier(entries[1..][..m], since, url).value == acc + Earlier(entries[..n], since, url).value;
      }
    }
  }

  /** Once the cap is reached, what follows in the list makes no difference. */
  lemma {:induction false} SelectIgnoresTail(entries: seq<Json>, tail: seq<Json>, since: int, depth: int, acc: seq<Json>, url: string)
    requires |acc| < depth
    requires SelectFrom(entries, since, depth, acc, url).Success?
    requires |SelectFrom(entries, since, depth, acc, url).value| == depth
    ensures SelectFrom(entries + tail, since, depth, acc, url) == SelectFrom(entries, since, depth, acc, url)
  {
    if entries != [] {
      assert (entries + tail)[0] == entries[0];
      assert (entries + tail)[1..] == entries[1..] + tail;
      var acc' := acc + Kept(Keep(entries[0], since, url).value);
      if |acc'| != depth {
        SelectIgnoresTail(entries[1..], tail, since, depth, acc', url);
      }
    }
  }

  /**
   * A cap of zero or less caps nothing once the collected list is longer than it: the
   * length check of the loop can then never hold, and every match before `since` is kept.
   */
  lemma {:induction false} NonPositiveDepthNeverCaps(entries: seq<Json>, since: int, depth: int, acc: seq<Json>, url: string)
    requires depth <= 0 && depth < |acc|
    requires Earlier(entries, since, url).Success?
    ensures SelectFrom(entries, since, depth, acc, url) == Success(acc + Earlier(entries, since, url).value)
  {
    if entries == [] {
      assert acc + [] == acc;
    } else {
      var k := Kept(Keep(entries[0], since, url).value);
      var rest := Earlier(entries[1..], since, url).value;
      NonPositiveDepthNeverCaps(entries[1..], since, depth, acc + k, url);
      assert (acc + k) + rest == acc + (k + rest);
    }
  }

  /**
   * A cap of zero with nothing collected is decided by the first match: a too-recent one
   * leaves the list empty, so the length check holds and the loop returns []; a kept one
   * makes it never hold again, and every match before `since` is returned.
   */
  lemma ZeroDepthDecidedByFirst(entries: seq<Json>, since: int, url: string)
    requires entries != []
    requires Earlier(entries, since, url).Success?
    ensures Keep(entries[0], since, url).value.None? ==> SelectFrom(entries, since, 0, [], url) == Success([])
    ensures Keep(entries[0], since, url).value.Some? ==>
      SelectFrom(entries, since, 0, [], url) == Earlier(entries, since, url)
  {
    var k := Kept(Keep(entries[0], since, url).value);
    if k != [] {
      NonPositiveDepthNeverCaps(entries[1..], since, 0, k, url);
      assert [] + k == k;
    }
  }

  /** `count = 0` and `since = 0` are falsy, so they behave exactly as if omitted. */
  lemma ZeroArgumentsFallBack(cfg: Config, net: Network, cache: CacheMap, accId: string, now: int)
    ensures MatchIdsByAccount(cfg, net, cache, accId, Some(0), Some(0), now)
         == MatchIdsByAccount(cfg, net, cache, accId, None, None, now)
    ensures Depth(None, cfg.qDepth) == cfg.qDepth && EffectiveSince(None, now) == now
  {
  }

  /**
   * A successful match-list query with a cap of at least one returns at most that many
   * ids, each the gameId of a match older than the effective `since`, in list order.
   */
  lemma MatchIdsByAccountSelects(cfg: Config, net: Network, cache: CacheMap, accId: string,
                                 count: Option<int>, since: Option<int>, now: int)
    requires 1 <= Depth(count, cfg.qDepth)
    requires MatchIdsByAccount(cfg, net, cache, accId, count, since, now).result.Success?
    ensures var ids := MatchIdsByAccount(cfg, net, cache, accId, count, since, now).result.value;
      var ms := MatchEntries(ApiJson(cfg, net, cache, MatchListUrl(accId)).result.value).value;
      && |ids| <= Depth(count, cfg.qDepth)
      && exists n :: 0 <= n <= |ms|
           && Earlier(ms[..n], EffectiveSince(since, now), MatchListUrl(accId)) == Success(ids)
           && (n < |ms| ==> |ids| == Depth(count, cfg.qDepth))
  {
    var url := MatchListUrl(accId);
    var ms := MatchEntries(ApiJson(cfg, net, cache, url).result.value).value;
    var n := SelectScansPrefix(ms, EffectiveSince(since, now), Depth(count, cfg.qDepth), [], url);
    var ids := MatchIdsByAccount(cfg, net, cache, accId, count, since, now).result.value;
    assert ids == SelectFrom(ms, EffectiveSince(since, now), Depth(count, cfg.qDepth), [], url).value;
    assert [] + Earlier(ms[..n], EffectiveSince(since, now), url).value == Earlier(ms[..n], EffectiveSince(since, now), url).value;
  }

  // ---------------------------------------------------------------------------
  // Properties of the client operations
  // ---------------------------------------------------------------------------

  /** No account for the name: no match list is requested and the result is empty. */
  lemma NoAccountNoMatches(cfg: Config, net: Network, cache: CacheMap, name: string,
                           count: Option<int>, since: Option<int>, now: int)
    requires AccountIdFor(cfg, net, cache, name).result == Success(None)
    ensures var a := AccountIdFor(cfg, net, cache, name);
      MatchIdsByName(cfg, net, cache, name, count, since, now) == Answer(Success([]), a.cache, a.fetched)
  {
  }

  /**
   * An unknown name (its lookup answered 404 after any number of repeats): the account is
   * absent rather than an error, the 404 is cached as None, and get_matches returns [].
   */
  lemma UnknownNameGivesNoMatches(cfg: Config, net: Network, cache: CacheMap, name: string,
                                  count: Option<int>, since: Option<int>, now: int, k: nat)
    requires AccountUrl(name) !in cache
    requires var rs := net(RequestUrl(cfg, AccountUrl(name)));
      && k < |rs| && rs[k].status == 404
      && forall j :: 0 <= j < k ==> Repeats(rs[j].status, cfg.waitOnLimit)
    ensures var a := MatchIdsByName(cfg, net, cache, name, count, since, now);
      && a.result == Success([])
      && a.cache == cache[AccountUrl(name) := None]
      && a.fetched == [AccountUrl(name)]
  {
    var url := AccountUrl(name);
    FetchDecidedByFirstFinal(url, cfg.waitOnLimit, net(RequestUrl(cfg, url)), k);
  }

  /**
   * The receiver is not part of the cache key: a client for another region, with another
   * key and another network, gets the value cached by the first, with no request.
   */
  lemma CacheIgnoresReceiver(cfg1: Config, cfg2: Config, net1: Network, net2: Network, cache: CacheMap, url: string)
    requires ApiJson(cfg1, net1, cache, url).result.Success?
    ensures var s1 := ApiJson(cfg1, net1, cache, url);
      ApiJson(cfg2, net2, s1.entries, url) == Memo.Step(s1.result, s1.entries, false)
  {
    var s1 := ApiJson(cfg1, net1, cache, url);
    assert url in s1.entries && s1.entries[url] == s1.result.value;
  }

  /**
   * Calling get_matches again for the same name, once a first call succeeded, makes no
   * request and gives the same ids, whatever the network and the client (of the same
   * queue depth) do the second time.
   */
  lemma RepeatedQueryIsCached(cfg: Config, cfg2: Config, net: Network, net2: Network, cache: CacheMap,
                              name: string, count: Option<int>, since: Option<int>, now: int)
    requires cfg2.qDepth == cfg.qDepth
    requires MatchIdsByName(cfg, net, cache, name, count, since, now).result.Success?
    ensures var first := MatchIdsByName(cfg, net, cache, name, count, since, now);
      MatchIdsByName(cfg2, net2, first.cache, name, count, since, now) == Answer(first.result, first.cache, [])
  {
    var a := AccountIdFor(cfg, net, cache, name);
    var s := ApiJson(cfg, net, cache, AccountUrl(name));
    assert s.result.Success?;
    CacheIgnoresReceiver(cfg, cfg2, net, net2, cache, AccountUrl(name));
    if a.result.value.Some? {
      var accId := a.result.value.value;
      var t := ApiJson(cfg, net, a.cache, MatchListUrl(accId));
      assert t.result.Success?;
      CacheIgnoresReceiver(cfg, cfg2, net, net2, a.cache, MatchListUrl(accId));
      var t2 := ApiJson(cfg2, net2, t.entries, AccountUrl(name));
      assert AccountUrl(name) in t.entries && t.entries[AccountUrl(name)] == s.result.value;
    }
  }

  // ---------------------------------------------------------------------------
  // The client object
  // ---------------------------------------------------------------------------

  /** RiotAPI: fixed settings, and the process-wide cache its requests go through. */
  class RiotApi {
    const config: Config
    const cache: Memo.Cache<Option<Json>>

    constructor (region: string, apiKey: string, store: Memo.Cache<Option<Json>>,
                 qDepth: int := MaxQDepth, waitOnLimit: bool := true)
      requires region in Regions
      ensures config == Config(region, apiKey, qDepth, waitOnLimit) && cache == store
    {
      config := Config(region, apiKey, qDepth, waitOnLimit);
      cache := store;
    }

    /**
     * _execute_api_json with its decorator (new_func): a hit returns the cached value; a
     * miss runs the request loop and stores its value, unless it raised.
     */
    method ExecuteApiJson(net: Network, url: string) returns (r: Result<Option<Json>, ApiError>)
      modifies cache
      ensures var s := ApiJson(config, net, old(cache.entries), url);
        && r == s.result && cache.entries == s.entries
        && cache.invocations == old(cache.invocations) + FetchedUrls(s, url)
    {
      var hit := cache.Lookup(url);
      if hit.Some? {
        return Success(hit.value);
      }
      var f := ExecuteRequests(url, config.waitOnLimit, net(RequestUrl(config, url)));
      r := f.outcome;
      cache.RecordMiss(url, r);
    }

    method NameToAccId(net: Network, name: string) returns (r: Result<Option<string>, ApiError>)
      modifies cache
      ensures var a := AccountIdFor(config, net, old(cache.entries), name);
        && r == a.result && cache.entries == a.cache
        && cache.invocations == old(cache.invocations) + a.fetched
    {
      var url := AccountUrl(name);
      var data := ExecuteApiJson(net, url);
      if data.Failure? {
        return Failure(data.error);
      }
      r := AccountIdOf(data.value, url);
    }

    method GetMatchesByAccId(net: Network, accId: string, now: int,
                             count: Option<int> := None, since: Option<int> := None)
      returns (r: Result<seq<Json>, ApiError>)
      modifies cache
      ensures var a := MatchIdsByAccount(config, net, old(cache.entries), accId, count, since, now);
        && r == a.result && cache.entries == a.cache
        && cache.invocations == old(cache.invocations) + a.fetched
    {
      var url := MatchListUrl(accId);
      var data := ExecuteApiJson(net, url);
      if data.Failure? {
        return Failure(data.error);
      }
      var after := EffectiveSince(since, now);
      var depth := Depth(count, config.qDepth);
      var entries := MatchEntries(data.value);
      if entries.None? {
        return Failure(Malformed(url));
      }
      r := SelectMatchIds(entries.value, after, depth, url);
    }

    method GetMatches(net: Network, name: string, now: int,
                      count: Option<int> := None, since: Option<int> := None)
      returns (r: Result<seq<Json>, ApiError>)
      modifies cache
      ensures var a := MatchIdsByName(config, net, old(cache.entries), name, count, since, now);
        && r == a.result && cache.entries == a.cache
        && cache.invocations == old(cache.invocations) + a.fetched
    {
      var accId := NameToAccId(net, name);
      if accId.Failure? {
        return Failure(accId.error);
      }
      if accId.value.None? {
        return Success([]);
      }
      r := GetMatchesByAccId(net, accId.value.value, now, count, since);
      assert old(cache.invocations) + AccountIdFor(config, net, old(cache.entries), name).fetched
             + MatchIdsByAccount(config, net, AccountIdFor(config, net, old(cache.entries), name).cache,
                                 accId.value.value, count, since, now).fetched
          == old(cache.invocations) + MatchIdsByName(config, net, old(cache.entries), name, count, since, now).fetched;
    }
  }
}
