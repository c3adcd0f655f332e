/**
 * The persisted get-or-compute cache of memo.py (persist_to_file, func_wrapper, new_func).
 * One mapping, shared by every call of the wrapped function, is keyed by the call's second
 * positional argument alone; the receiver (first argument) takes no part in the key.
 */
module Memo {
  import opened Wrappers

  /** What reading the persisted cache file gave at start-up. */
  datatype Persisted<V> =
    | Parsed(saved: map<string, V>)
    | ReadFailed    // IOError: the file is missing or unreadable
    | Unparsable    // ValueError: the file is not valid JSON

  /** The mapping the cache starts from: the saved one, or empty if loading failed. */
  function Loaded<V>(p: Persisted<V>): (m: map<string, V>)
    ensures p.Parsed? ==> m == p.saved
    ensures !p.Parsed? ==> m == map[]
  {
    match p
    case Parsed(saved) => saved
    case _ => map[]
  }

  /** One call of the wrapped function: its result, the cache after it, and whether the function ran. */
  datatype Step<V, E> = Step(result: Result<V, E>, entries: map<string, V>, invoked: bool)

  /**
   * new_func(recv, param): on a hit the stored value, without running `f`; on a miss `f`
   * runs once and its value is stored under `param`, whatever that value is. When `f`
   * raises (Failure) the assignment to the cache never happens and the error propagates.
   */
  function GetOrCompute<R, V, E>(entries: map<string, V>, recv: R, param: string,
                                 f: (R, string) -> Result<V, E>): Step<V, E>
  {
    if param in entries then Step(Success(entries[param]), entries, false)
    else
      var r := f(recv, param);
      Step(r, if r.Success? then entries[param := r.value] else entries, true)
  }

  /** A hit returns the stored value and runs nothing. */
  lemma HitDoesNotInvoke<R, V, E>(entries: map<string, V>, recv: R, param: string,
                                  f: (R, string) -> Result<V, E>)
    requires param in entries
    ensures GetOrCompute(entries, recv, param, f) == Step(Success(entries[param]), entries, false)
  {
  }

  /** A miss runs `f` once and stores a successful value, whatever it is, under `param`. */
  lemma MissStores<R, V, E>(entries: map<string, V>, recv: R, param: string,
                            f: (R, string) -> Result<V, E>)
    requires param !in entries
    ensures var s := GetOrCompute(entries, recv, param, f);
      && s.invoked && s.result == f(recv, param)
      && (s.result.Success? ==> param in s.entries && s.entries[param] == s.result.value)
      && (s.result.Failure? ==> s.entries == entries)
  {
  }

  /** A call changes at most the entry for `param`, and never an entry that was there. */
  lemma OnlyParamChanges<R, V, E>(entries: map<string, V>, recv: R, param: string,
                                  f: (R, string) -> Result<V, E>, other: string)
    requires other != param || param in entries
    ensures var s := GetOrCompute(entries, recv, param, f);
      (other in s.entries <==> other in entries) && (other in entries ==> s.entries[other] == entries[other])
  {
  }

  /**
   * Two calls with the same `param`, through any receivers: once the first has stored a
   * value, the second returns the same value, leaves the cache alone and runs nothing,
   * so `f` runs at most once across the two, and the receivers' differences are ignored.
   */
  lemma SecondCallHits<R, V, E>(entries: map<string, V>, recv1: R, recv2: R, param: string,
                                f: (R, string) -> Result<V, E>)
    requires GetOrCompute(entries, recv1, param, f).result.Success?
    ensures var s1 := GetOrCompute(entries, recv1, param, f);
      var s2 := GetOrCompute(s1.entries, recv2, param, f);
      && s2.result == s1.result && s2.entries == s1.entries && !s2.invoked
  {
  }

  /**
   * The process-wide cache of persist_to_file. `invocations` records, in order,
   * the keys for which the wrapped function actually ran.
   */
  class Cache<V> {
    var entries: map<string, V>
    ghost var invocations: seq<string>

    /** persist_to_file: load the saved mapping, or start empty if loading fails. */
    constructor Load(p: Persisted<V>)
      ensures entries == Loaded(p) && invocations == []
    {
      entries := Loaded(p);
      invocations := [];
    }

    /** The test `param not in cache` of new_func, and the stored value on a hit. */
    method Lookup(param: string) returns (hit: Option<V>)
      ensures hit.Some? <==> param in entries
      ensures hit.Some? ==> hit.value == entries[param]
    {
      if param in entries {
        return Some(entries[param]);
      }
      return None;
    }

    /**
     * The miss path of new_func once the wrapped function has run for `param` and
     * produced `r`: a value is stored (`cache[param] = ...`), an error is not.
     */
    method RecordMiss<E>(param: string, r: Result<V, E>)
      modifies this
      ensures entries == if r.Success? then old(entries)[param := r.value] else old(entries)
      ensures invocations == old(invocations) + [param]
    {
      if r.Success? {
        entries := entries[param := r.value];
      }
      invocations := invocations + [param];
    }
  }
}
