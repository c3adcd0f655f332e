/**
 * The undecorated body of RiotAPI._execute_api_json and its helper filter_out (riot.py):
 * the credential suffix, the status-code retry loop and the match-detail filtering.
 * The network is the sequence of responses the server gives to successive requests
 * for one URL; the two-unit sleep before a rate-limit retry is only a delay and is omitted.
 */
module Fetch {
  import opened Wrappers
  import opened JsonData

  datatype Response = Response(status: int, body: Json)

  datatype ApiError =
    | RateLimitExceeded(url: string)        // 429 while not waiting on the limit
    | RemoteError(status: int, url: string) // any other status of 400 or more, except 404
    | Malformed(url: string)                // a response of a shape the code cannot subscript
    | NoResponse(url: string)               // the network gave no further response

  // ---------------------------------------------------------------------------
  // The credential suffix
  // ---------------------------------------------------------------------------

  /** `url` with the key appended as a query parameter, opening the query with '?' if needed. */
  function WithApiKey(url: string, apiKey: string): string
  {
    url + (if '?' in url then "&" else "?") + "api_key=" + apiKey
  }

  /** How often `c` occurs in `s`. */
  function Occurrences(c: char, s: string): (n: nat)
    ensures n <= |s|
    ensures n == 0 <==> c !in s
  {
    if s == [] then 0 else (if s[0] == c then 1 else 0) + Occurrences(c, s[1..])
  }

  lemma {:induction false} OccurrencesAppend(c: char, a: string, b: string)
    ensures Occurrences(c, a + b) == Occurrences(c, a) + Occurrences(c, b)
  {
    if a == [] {
      assert a + b == b;
    } else {
      assert (a + b)[1..] == a[1..] + b;
      OccurrencesAppend(c, a[1..], b);
    }
  }

  /** The suffixed URL is `url`, then the separator, then the key parameter. */
  lemma WithApiKeyShape(url: string, apiKey: string)
    ensures var r := WithApiKey(url, apiKey);
      && |r| == |url| + 1 + |"api_key=" + apiKey|
      && r[..|url|] == url
      && r[|url|] == (if '?' in url then '&' else '?')
      && r[|url| + 1..] == "api_key=" + apiKey
  {
    var sep := if '?' in url then "&" else "?";
    assert WithApiKey(url, apiKey) == url + sep + ("api_key=" + apiKey);
  }

  /**
   * The suffixed URL has exactly one '?' whenever `url` had at most one: the key opens
   * the query only when `url` has none, and never opens a second one.
   */
  lemma WithApiKeyOneQuery(url: string, apiKey: string)
    requires '?' !in apiKey
    ensures Occurrences('?', WithApiKey(url, apiKey)) == if '?' in url then Occurrences('?', url) else 1
  {
    var sep := if '?' in url then "&" else "?";
    var tail := "api_key=" + apiKey;
    assert WithApiKey(url, apiKey) == url + sep + tail;
    OccurrencesAppend('?', url + sep, tail);
    OccurrencesAppend('?', url, sep);
    OccurrencesAppend('?', "api_key=", apiKey);
    assert '?' !in "api_key=";
    assert Occurrences('?', sep) == if '?' in url then 0 else 1;
  }

  // ---------------------------------------------------------------------------
  // filter_out
  // ---------------------------------------------------------------------------

  /** The endpoint whose responses filter_out strips. */
  const MatchDetailPrefix: string := "match/v4/matches/"

  /** `del part["stats"]; del part["timeline"]` succeeds on `part`. */
  predicate Strippable(part: Json)
  {
    part.JObj? && "stats" in part.fields && "timeline" in part.fields
  }

  /** `part` after the two deletions. */
  function Stripped(part: Json): Json
  {
    if part.JObj? then JObj(part.fields - {"stats", "timeline"}) else part
  }

  /** filter_out(data, url): the response with the two per-participant keys removed. */
  function FilterOut(data: Json, url: string): Result<Json, ApiError>
  {
    if !(MatchDetailPrefix <= url) then Success(data)
    else match Member(data, "participants")
      case None => Failure(Malformed(url))
      case Some(parts) =>
        match Iterated(parts)
        case None => Failure(Malformed(url))
        case Some(items) =>
          if parts.JArr? then
            if forall i :: 0 <= i < |items| ==> Strippable(items[i]) then
              Success(JObj(data.fields["participants" := JArr(seq(|items|, i requires 0 <= i < |items| => Stripped(items[i])))]))
            else Failure(Malformed(url))
          else Success(data)
  }

  /** Any URL outside the match-detail endpoint leaves the data as it is. */
  lemma FilterOutOtherEndpoints(data: Json, url: string)
    requires !(MatchDetailPrefix <= url)
    ensures FilterOut(data, url) == Success(data)
  {
  }

  /**
   * On the match-detail endpoint a successful filter_out keeps every top-level key and
   * every participant, removes "stats" and "timeline" from each participant and keeps
   * every other key of each participant with its value.
   */
  lemma FilterOutStrips(data: Json, url: string, items: seq<Json>)
    requires MatchDetailPrefix <= url
    requires Member(data, "participants") == Some(JArr(items))
    requires FilterOut(data, url).Success?
    ensures var d := FilterOut(data, url).value;
      && d.JObj? && d.fields.Keys == data.fields.Keys
      && (forall k :: k in data.fields && k != "participants" ==> d.fields[k] == data.fields[k])
      && d.fields["participants"].JArr?
      && |d.fields["participants"].items| == |items|
    ensures var out := FilterOut(data, url).value.fields["participants"].items;
      forall i :: 0 <= i < |items| ==>
        && items[i].JObj? && out[i].JObj?
        && "stats" !in out[i].fields && "timeline" !in out[i].fields
        && "stats" in items[i].fields && "timeline" in items[i].fields
        && (forall k :: k != "stats" && k != "timeline" ==>
              (k in out[i].fields <==> k in items[i].fields)
              && (k in items[i].fields ==> out[i].fields[k] == items[i].fields[k]))
  {
  }

  /**
   * filter_out does not tolerate being applied twice: a filtered match with at least one
   * participant makes a second pass raise, because "stats" is gone.
   */
  lemma FilterOutNotReapplicable(data: Json, url: string)
    requires MatchDetailPrefix <= url
    requires FilterOut(data, url).Success?
    requires var p := Member(data, "participants"); p.Some? && p.value.JArr? && p.value.items != []
    ensures FilterOut(FilterOut(data, url).value, url).Failure?
  {
    var d := FilterOut(data, url).value;
    var items := Member(data, "participants").value.items;
    var out := d.fields["participants"].items;
    assert !Strippable(out[0]);
  }

  /** filter_out as the source runs it: one participant at a time, raising at the first that cannot be stripped. */
  method FilterOutInPlace(data: Json, url: string) returns (r: Result<Json, ApiError>)
    ensures r == FilterOut(data, url)
  {
    if !(MatchDetailPrefix <= url) {
      return Success(data);
    }
    var parts := Member(data, "participants");
    if parts.None? {
      return Failure(Malformed(url));
    }
    var iterated := Iterated(parts.value);
    if iterated.None? {
      return Failure(Malformed(url));
    }
    if !parts.value.JArr? {
      // an empty string or object: nothing to visit
      return Success(data);
    }
    var items := iterated.value;
    var out := items;
    var i := 0;
    while i < |items|
      invariant 0 <= i <= |items| && |out| == |items|
      invariant forall k :: 0 <= k < i ==> Strippable(items[k]) && out[k] == Stripped(items[k])
      invariant forall k :: i <= k < |items| ==> out[k] == items[k]
    {
      if !Strippable(out[i]) {
        return Failure(Malformed(url));
      }
      out := out[i := Stripped(out[i])];
      i := i + 1;
    }
    assert out == seq(|items|, k requires 0 <= k < |items| => Stripped(items[k]));
    return Success(JObj(data.fields["participants" := JArr(out)]));
  }

  // ---------------------------------------------------------------------------
  // The status-code loop
  // ---------------------------------------------------------------------------

  /** How one request sequence ended, and how many requests it made. */
  datatype Fetched = Fetched(outcome: Result<Option<Json>, ApiError>, attempts: nat)

  /** One more request made before `f`. */
  function Retried(f: Fetched): Fetched
  {
    Fetched(f.outcome, f.attempts + 1)
  }

  /** The body of `while True` given the successive responses; 404 yields an absent value. */
  function Fetch(url: string, waitOnLimit: bool, responses: seq<Response>): (f: Fetched)
    ensures f.attempts <= |responses|
    ensures responses != [] ==> 1 <= f.attempts
  {
    if responses == [] then Fetched(Failure(NoResponse(url)), 0)
    else
      var status := responses[0].status;
      if 200 <= status <= 300 then
        Fetched(match FilterOut(responses[0].body, url)
                case Success(d) => Success(Some(d))
                case Failure(e) => Failure(e), 1)
      else if status == 429 then
        if waitOnLimit then Retried(Fetch(url, waitOnLimit, responses[1..]))
        else Fetched(Failure(RateLimitExceeded(url)), 1)
      else if status == 404 then Fetched(Success(None), 1)
      else if status >= 400 then Fetched(Failure(RemoteError(status, url)), 1)
      else Retried(Fetch(url, waitOnLimit, responses[1..]))
  }

  /**
   * A status on which the loop requests again: 429 while waiting on the limit, and every
   * status no branch matches (below 200, or 301 to 399).
   */
  predicate Repeats(status: int, waitOnLimit: bool)
  {
    (status == 429 && waitOnLimit) || status < 200 || (300 < status < 400)
  }

  /** The outcome a response that ends the loop gives. */
  function Verdict(r: Response, url: string): Result<Option<Json>, ApiError>
  {
    if 200 <= r.status <= 300 then
      match FilterOut(r.body, url)
      case Success(d) => Success(Some(d))
      case Failure(e) => Failure(e)
    else if r.status == 429 then Failure(RateLimitExceeded(url))
    else if r.status == 404 then Success(None)
    else Failure(RemoteError(r.status, url))
  }

  /** Responses that only make the loop request again add requests and change nothing else. */
  lemma {:induction false} FetchSkipsRepeats(url: string, waitOnLimit: bool, responses: seq<Response>, k: nat)
    requires k <= |responses|
    requires forall j :: 0 <= j < k ==> Repeats(responses[j].status, waitOnLimit)
    ensures Fetch(url, waitOnLimit, responses).outcome == Fetch(url, waitOnLimit, responses[k..]).outcome
    ensures Fetch(url, waitOnLimit, responses).attempts == k + Fetch(url, waitOnLimit, responses[k..]).attempts
  {
    if k > 0 {
      assert responses[1..][k - 1..] == responses[k..];
      FetchSkipsRepeats(url, waitOnLimit, responses[1..], k - 1);
    }
  }

  /**
   * The status policy: the first response that does not make the loop repeat decides the
   * outcome, and it is the last request made.
   */
  lemma FetchDecidedByFirstFinal(url: string, waitOnLimit: bool, responses: seq<Response>, k: nat)
    requires k < |responses| && !Repeats(responses[k].status, waitOnLimit)
    requires forall j :: 0 <= j < k ==> Repeats(responses[j].status, waitOnLimit)
    ensures Fetch(url, waitOnLimit, responses) == Fetched(Verdict(responses[k], url), k + 1)
  {
    FetchSkipsRepeats(url, waitOnLimit, responses, k);
  }

  /** If every response makes the loop repeat, it uses them all and never ends on its own. */
  lemma FetchAllRepeat(url: string, waitOnLimit: bool, responses: seq<Response>)
    requires forall j :: 0 <= j < |responses| ==> Repeats(responses[j].status, waitOnLimit)
    ensures Fetch(url, waitOnLimit, responses) == Fetched(Failure(NoResponse(url)), |responses|)
  {
    FetchSkipsRepeats(url, waitOnLimit, responses, |responses|);
  }

  /** A first response in 200..300 ends the loop with the filtered body. */
  lemma FetchFirstSuccess(url: string, waitOnLimit: bool, responses: seq<Response>)
    requires responses != [] && 200 <= responses[0].status <= 300
    ensures Fetch(url, waitOnLimit, responses).attempts == 1
    ensures FilterOut(responses[0].body, url).Success? ==>
      Fetch(url, waitOnLimit, responses).outcome == Success(Some(FilterOut(responses[0].body, url).value))
  {
  }

  /**
   * Waiting on the limit, rate-limited (and unhandled 3xx) responses followed by a success
   * return that success; not waiting, a 429 fails at once and no further request is made.
   */
  lemma RateLimitPolicy(url: string, responses: seq<Response>, k: nat)
    requires k < |responses|
    requires forall j :: 0 <= j < k ==> responses[j].status == 429 || 300 < responses[j].status < 400
    ensures 200 <= responses[k].status <= 300 && FilterOut(responses[k].body, url).Success? ==>
      Fetch(url, true, responses) == Fetched(Success(Some(FilterOut(responses[k].body, url).value)), k + 1)
    ensures responses[k].status == 429 && (forall j :: 0 <= j < k ==> 300 < responses[j].status < 400) ==>
      Fetch(url, false, responses) == Fetched(Failure(RateLimitExceeded(url)), k + 1)
  {
    if 200 <= responses[k].status <= 300 {
      FetchDecidedByFirstFinal(url, true, responses, k);
    }
    if responses[k].status == 429 && (forall j :: 0 <= j < k ==> 300 < responses[j].status < 400) {
      FetchDecidedByFirstFinal(url, false, responses, k);
    }
  }

  /** 404 gives an absent value, not an error; other statuses of 400 or more, except 429, are errors. */
  lemma NotFoundAndErrors(url: string, waitOnLimit: bool, responses: seq<Response>, k: nat)
    requires k < |responses|
    requires forall j :: 0 <= j < k ==> Repeats(responses[j].status, waitOnLimit)
    ensures responses[k].status == 404 ==> Fetch(url, waitOnLimit, responses).outcome == Success(None)
    ensures responses[k].status >= 400 && responses[k].status != 404 && responses[k].status != 429 ==>
      Fetch(url, waitOnLimit, responses).outcome == Failure(RemoteError(responses[k].status, url))
  {
    if responses[k].status >= 400 && responses[k].status != 429 {
      FetchDecidedByFirstFinal(url, waitOnLimit, responses, k);
    }
  }

  /** A match detail that comes back from the loop has no participant with "stats" or "timeline". */
  lemma FetchedMatchIsStripped(url: string, waitOnLimit: bool, responses: seq<Response>)
    requires MatchDetailPrefix <= url
    requires Fetch(url, waitOnLimit, responses).outcome.Success?
    requires Fetch(url, waitOnLimit, responses).outcome.value.Some?
    ensures var d := Fetch(url, waitOnLimit, responses).outcome.value.value;
      forall p :: p in Participants(d) ==> p.JObj? ==> "stats" !in p.fields && "timeline" !in p.fields
  {
    if forall j :: 0 <= j < |responses| ==> Repeats(responses[j].status, waitOnLimit) {
      FetchAllRepeat(url, waitOnLimit, responses);
      assert false;
    }
    var k := FirstFinal(waitOnLimit, responses);
    FetchDecidedByFirstFinal(url, waitOnLimit, responses, k);
    var body := responses[k].body;
    var parts := Member(body, "participants");
    if parts.Some? && parts.value.JArr? {
      FilterOutStrips(body, url, parts.value.items);
    }
  }

  /** The participants a decoded match lists, or none if it lists them otherwise. */
  function Participants(d: Json): seq<Json>
  {
    match Member(d, "participants")
    case Some(JArr(items)) => items
    case _ => []
  }

  /** The position of the first response that ends the loop, given that some response did. */
  function FirstFinal(waitOnLimit: bool, responses: seq<Response>): (k: nat)
    requires !forall j :: 0 <= j < |responses| ==> Repeats(responses[j].status, waitOnLimit)
    ensures k < |responses| && !Repeats(responses[k].status, waitOnLimit)
    ensures forall j :: 0 <= j < k ==> Repeats(responses[j].status, waitOnLimit)
  {
    if !Repeats(responses[0].status, waitOnLimit) then 0
    else
      assert forall j :: 0 <= j < |responses| - 1 ==> responses[1..][j] == responses[j + 1];
      1 + FirstFinal(waitOnLimit, responses[1..])
  }

  /** The `while True` loop of _execute_api_json over the successive responses. */
  method ExecuteRequests(url: string, waitOnLimit: bool, responses: seq<Response>) returns (f: Fetched)
    ensures f == Fetch(url, waitOnLimit, responses)
  {
    var i := 0;
    while i < |responses|
      invariant 0 <= i <= |responses|
      invariant Fetch(url, waitOnLimit, responses).outcome == Fetch(url, waitOnLimit, responses[i..]).outcome
      invariant Fetch(url, waitOnLimit, responses).attempts == i + Fetch(url, waitOnLimit, responses[i..]).attempts
    {
      var r := responses[i];
      assert responses[i..][1..] == responses[i + 1..];
      i := i + 1;
      if 200 <= r.status <= 300 {
        var filtered := FilterOutInPlace(r.body, url);
        if filtered.Failure? {
          return Fetched(Failure(filtered.error), i);
        }
        return Fetched(Success(Some(filtered.value)), i);
      }
      if r.status == 429 {
        if waitOnLimit {
          continue;
        } else {
          return Fetched(Failure(RateLimitExceeded(url)), i);
        }
      }
      if r.status == 404 {
        return Fetched(Success(None), i);
      }
      if r.status >= 400 {
        return Fetched(Failure(RemoteError(r.status, url)), i);
      }
    }
    return Fetched(Failure(NoResponse(url)), i);
  }
}
