/**
 * The knowledge-base loader of the chat function: a module-level cache of the
 * knowledge text (`knowledgeBaseCache`) and the time it was stored
 * (`lastLoadTime`), refreshed by one fetch whenever the cache is empty or older
 * than five minutes.  The clock and the outcome of the fetch are parameters.
 */
module KnowledgeBase {
  import opened Wrappers

  /** Five minutes, in milliseconds. */
  const CacheDuration: int := 5 * 60 * 1000

  /** Returned when the fetch of the knowledge document throws. */
  const LoadFailedText: string := "NO SE PUDO CARGAR EL KNOWLEDGE BASE"

  /**
   * What `fetch(url)` followed by `response.text()` produced: the body,
   * whatever the status, together with the clock reading taken once it has
   * arrived (the second `Date.now()` of the loader, which stamps the cache);
   * or a thrown error.
   */
  datatype FetchResult = FetchOk(body: string, loadedAt: int) | FetchError

  /** The two module-level variables; `None` is the initial `null`. */
  datatype CacheState = CacheState(cache: Option<string>, lastLoadTime: int)

  /** The state of a freshly started function instance. */
  const Initial: CacheState := CacheState(None, 0)

  /** One call of the loader: the text it returns, the state it leaves, and whether it issued a fetch. */
  datatype LoadStep = LoadStep(text: string, state: CacheState, fetched: bool)

  /**
   * A cache hit: the cached value is truthy (present and not the empty
   * string) and less than `CacheDuration` milliseconds old.
   */
  predicate Fresh(s: CacheState, now: int)
  {
    s.cache.Some? && s.cache.value != "" && now - s.lastLoadTime < CacheDuration
  }

  /** The loader as a function of the state before the call. */
  function LoadSpec(s: CacheState, now: int, fetch: FetchResult): (r: LoadStep)
    // a fetch is issued exactly on a miss
    ensures r.fetched <==> !Fresh(s, now)
    // without a fetch nothing changes and the cached text is served
    ensures !r.fetched ==> r.state == s && r.text == s.cache.value && r.text != ""
    // a failed fetch leaves the cache alone and yields the fallback text
    ensures r.fetched && fetch.FetchError? ==> r.state == s && r.text == LoadFailedText
    // the state changes only by storing a received body, stamped with the time it arrived
    ensures r.state != s ==> r.fetched && fetch.FetchOk? && r.state == CacheState(Some(fetch.body), fetch.loadedAt)
    // a received body is always stored and returned, even an empty one
    ensures r.fetched && fetch.FetchOk? ==>
      r.text == fetch.body && r.state.cache == Some(fetch.body) && r.state.lastLoadTime == fetch.loadedAt
    // the only way to return empty text is to fetch an empty body
    ensures r.text == "" ==> r.fetched && fetch.FetchOk? && fetch.body == ""
  {
    if Fresh(s, now) then
      LoadStep(s.cache.value, s, false)
    else
      match fetch
      case FetchOk(body, loadedAt) => LoadStep(body, CacheState(Some(body), loadedAt), true)
      case FetchError => LoadStep(LoadFailedText, s, true)
  }

  /** A call of the loader: the clock reading and what a fetch would produce at that moment. */
  datatype Call = Call(now: int, fetch: FetchResult)

  /** What a sequence of loader calls returns, where it leaves the cache, and how many fetches it issues. */
  datatype Trace = Trace(texts: seq<string>, final: CacheState, fetches: nat)

  /** Successive loader calls on one warm function instance. */
  function Run(s: CacheState, calls: seq<Call>): (r: Trace)
    ensures |r.texts| == |calls|
    ensures r.fetches <= |calls|
    // only fetches change the state
    ensures r.fetches == 0 ==> r.final == s
    decreases |calls|
  {
    if calls == [] then Trace([], s, 0)
    else
      var step := LoadSpec(s, calls[0].now, calls[0].fetch);
      var rest := Run(step.state, calls[1..]);
      Trace([step.text] + rest.texts, rest.final, rest.fetches + if step.fetched then 1 else 0)
  }

  /**
   * While the cached text stays fresh, every call serves it: the same text
   * each time, no fetch, and the cache untouched.
   */
  lemma {:induction false} StaysFresh(s: CacheState, calls: seq<Call>)
    requires forall i :: 0 <= i < |calls| ==> Fresh(s, calls[i].now)
    ensures Run(s, calls).fetches == 0
    ensures Run(s, calls).final == s
    ensures forall i :: 0 <= i < |calls| ==> Run(s, calls).texts[i] == s.cache.value
    decreases |calls|
  {
    if calls != [] {
      assert Fresh(s, calls[0].now);
      StaysFresh(s, calls[1..]);
      assert forall i :: 1 <= i < |calls| ==> calls[1..][i - 1] == calls[i];
    }
  }

  /**
   * Calls that fall within one five-minute window, in clock order, on a
   * server that always delivers a non-empty document (no earlier than the
   * call that asked for it), issue at most one fetch, whatever the cache
   * held before the first of them. When the first call misses, every call
   * of the window returns the body that first call stored.
   */
  lemma {:induction false} AtMostOneFetchPerWindow(s: CacheState, calls: seq<Call>)
    requires forall i, j :: 0 <= i < j < |calls| ==> calls[i].now <= calls[j].now < calls[i].now + CacheDuration
    requires forall i :: 0 <= i < |calls| ==>
      calls[i].fetch.FetchOk? && calls[i].fetch.body != "" && calls[i].now <= calls[i].fetch.loadedAt
    ensures Run(s, calls).fetches <= 1
    ensures |calls| > 0 && !Fresh(s, calls[0].now) ==>
      forall i :: 0 <= i < |calls| ==> Run(s, calls).texts[i] == calls[0].fetch.body
    decreases |calls|
  {
    if calls != [] {
      var step := LoadSpec(s, calls[0].now, calls[0].fetch);
      var tail := calls[1..];
      assert forall i :: 0 <= i < |tail| ==> tail[i] == calls[i + 1];
      if step.fetched {
        forall i | 0 <= i < |tail| ensures Fresh(step.state, tail[i].now) {
          assert calls[i + 1].now < calls[0].now + CacheDuration <= calls[0].fetch.loadedAt + CacheDuration;
        }
        StaysFresh(step.state, tail);
        var texts := Run(s, calls).texts;
        assert texts == [step.text] + Run(step.state, tail).texts;
        forall i | 0 <= i < |calls| ensures texts[i] == calls[0].fetch.body {
          if i > 0 { assert texts[i] == Run(step.state, tail).texts[i - 1]; }
        }
      } else {
        AtMostOneFetchPerWindow(step.state, tail);
      }
    }
  }

  /**
   * Without a miss at the start of the window the text may change within it:
   * a cached text loaded at 0 is served at 299999 and replaced at 300001.
   */
  lemma StaleCacheChangesTextWithinWindow(fetch: FetchResult)
    requires fetch == FetchOk("new", 300001)
    ensures Run(CacheState(Some("old"), 0), [Call(299999, fetch), Call(300001, fetch)]) ==
      Trace(["old", "new"], CacheState(Some("new"), 300001), 1)
  {
  }

  /** A call that receives an empty body stores it, yet the next call misses and fetches again. */
  lemma EmptyBodyMissesNext(s: CacheState, now: int, loadedAt: int, later: int, fetch: FetchResult)
    requires !Fresh(s, now)
    ensures LoadSpec(s, now, FetchOk("", loadedAt)).state.cache == Some("")
    ensures LoadSpec(LoadSpec(s, now, FetchOk("", loadedAt)).state, later, fetch).fetched
  {
  }

  /** At exactly `CacheDuration` milliseconds after the load the cache has expired. */
  lemma ExpiresAtWindowEnd(s: CacheState)
    ensures !Fresh(s, s.lastLoadTime + CacheDuration)
    ensures s.cache.Some? && s.cache.value != "" ==> Fresh(s, s.lastLoadTime + CacheDuration - 1)
  {
  }

  /**
   * The window opens when the body arrives, not when the call began: a body
   * asked for at 0 that arrives at 1000 is still served at 300500.
   */
  lemma WindowOpensWhenFetchCompletes(s: CacheState, fetch: FetchResult)
    requires !Fresh(s, 0)
    ensures LoadSpec(LoadSpec(s, 0, FetchOk("kb", 1000)).state, 300500, fetch) ==
      LoadStep("kb", CacheState(Some("kb"), 1000), false)
  {
  }

  /** The module-level cache of one function instance. */
  class KnowledgeCache {
    var knowledgeBaseCache: Option<string>
    var lastLoadTime: int

    function State(): CacheState
      reads this
    {
      CacheState(knowledgeBaseCache, lastLoadTime)
    }

    /** A cold start: `null` cache, load time 0. */
    constructor ()
      ensures State() == Initial
    {
      knowledgeBaseCache := None;
      lastLoadTime := 0;
    }

    /**
     * `loadKnowledgeBase`: serve the cached text while it is fresh, otherwise
     * fetch once, store what arrives and return it, or return the fallback
     * text without touching the cache when the fetch throws.
     */
    method Load(now: int, fetch: FetchResult) returns (text: string, fetched: bool)
      modifies this
      ensures LoadStep(text, State(), fetched) == LoadSpec(old(State()), now, fetch)
    {
      if knowledgeBaseCache.Some? && knowledgeBaseCache.value != "" && now - lastLoadTime < CacheDuration {
        return knowledgeBaseCache.value, false;
      }
      fetched := true;
      match fetch {
        case FetchOk(body, loadedAt) =>
          knowledgeBaseCache := Some(body);
          lastLoadTime := loadedAt;
          text := body;
        case FetchError =>
          text := LoadFailedText;
      }
    }
  }
}
