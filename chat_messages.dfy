/**
 * The state the chat view keeps between renders: a per-message tool-count
 * cache, the user's explicit open/closed choices for collapsible elements,
 * and whether the current render is loading. `Session` holds that state and
 * its methods update it in place; the pure functions beside it say what one
 * call does, so that lemmas can relate several calls.
 */
module ChatMessages {
  import opened Wrappers
  import opened Messages

  /** A message is present and its id is truthy (`message && message.id`). */
  predicate Identified(message: Option<Message>) {
    message.Some? && message.value.id != ""
  }

  /** What one `getToolCount` call returns and what the cache holds afterwards. */
  datatype Lookup = Lookup(count: nat, cache: map<string, nat>)

  /**
   * One `getToolCount` call against `cache`. A cached entry is never changed
   * and at most the message's own id is added.
   */
  function LookupToolCount(cache: map<string, nat>, loading: bool, message: Option<Message>): (r: Lookup)
    ensures forall k :: k in cache ==> k in r.cache && r.cache[k] == cache[k]
    ensures forall k :: k in r.cache && k !in cache ==> Identified(message) && k == message.value.id
  {
    if !Identified(message) then Lookup(0, cache)
    else if loading then Lookup(ToolCount(message.value), cache)
    else if message.value.id in cache then Lookup(cache[message.value.id], cache)
    else
      var n := ToolCount(message.value);
      Lookup(n, cache[message.value.id := n])
  }

  /** The cache after a run of `getToolCount` calls under one loading flag. */
  function CacheAfter(cache: map<string, nat>, loading: bool, messages: seq<Option<Message>>): map<string, nat>
    decreases |messages|
  {
    if messages == [] then cache
    else CacheAfter(LookupToolCount(cache, loading, messages[0]).cache, loading, messages[1..])
  }

  /** A missing message, or one with an empty id, counts 0 and leaves the cache alone. */
  lemma UnidentifiedCountsZero(cache: map<string, nat>, loading: bool, message: Option<Message>)
    requires !Identified(message)
    ensures LookupToolCount(cache, loading, message) == Lookup(0, cache)
  {
  }

  /**
   * While loading the count is the live count of the message's parts, whatever
   * the cache holds, and the cache is neither read nor written.
   */
  lemma LoadingCountsLive(cache: map<string, nat>, message: Message)
    requires message.id != ""
    ensures LookupToolCount(cache, true, Some(message)) == Lookup(ToolCount(message), cache)
  {
  }

  /** Any run of calls made while loading leaves the cache exactly as it was. */
  lemma {:induction false} LoadingNeverWritesCache(cache: map<string, nat>, messages: seq<Option<Message>>)
    ensures CacheAfter(cache, true, messages) == cache
    decreases |messages|
  {
    if messages != [] {
      LoadingNeverWritesCache(cache, messages[1..]);
    }
  }

  /** A miss stores the live count under the message id and changes no other key. */
  lemma MissStoresCount(cache: map<string, nat>, message: Message)
    requires message.id != "" && message.id !in cache
    ensures LookupToolCount(cache, false, Some(message)) == Lookup(ToolCount(message), cache[message.id := ToolCount(message)])
  {
  }

  /** Entries already in the cache survive any run of calls unchanged. */
  lemma {:induction false} CachedEntriesPersist(cache: map<string, nat>, loading: bool, messages: seq<Option<Message>>, key: string)
    requires key in cache
    ensures key in CacheAfter(cache, loading, messages)
    ensures CacheAfter(cache, loading, messages)[key] == cache[key]
    decreases |messages|
  {
    if messages != [] {
      CachedEntriesPersist(LookupToolCount(cache, loading, messages[0]).cache, loading, messages[1..], key);
    }
  }

  /**
   * When not loading, a later call for a message with the same id returns what
   * the first call returned, even if its parts changed and other messages were
   * looked up in between, and that later call does not touch the cache.
   */
  lemma SecondLookupHitsCache(cache: map<string, nat>, first: Message, between: seq<Option<Message>>, later: Message)
    requires first.id != "" && later.id == first.id
    ensures var l1 := LookupToolCount(cache, false, Some(first));
            var c := CacheAfter(l1.cache, false, between);
            LookupToolCount(c, false, Some(later)) == Lookup(l1.count, c)
  {
    var l1 := LookupToolCount(cache, false, Some(first));
    CachedEntriesPersist(l1.cache, false, between, first.id);
  }

  /** What one `getIsOpen` call returns and what the tool-count cache holds afterwards. */
  datatype Decision = Decision(open: bool, cache: map<string, nat>)

  /** The default for a part that is not a tool-type part: first matching rule wins. */
  function UntooledDefault(partType: Option<string>, hasNextPart: Option<bool>): bool {
    if partType == Some("tool-invocation") then true
    else if partType == Some("reasoning") then hasNextPart != Some(true)
    else true
  }

  /**
   * One `getIsOpen` call: an explicit choice wins; a tool-type part is open
   * when its message holds at most one tool part; otherwise the untooled
   * default. Only the tool-type rule may touch the cache.
   */
  function ResolveOpen(overrides: map<string, bool>, cache: map<string, nat>, loading: bool,
                       id: string, partType: Option<string>, hasNextPart: Option<bool>,
                       message: Option<Message>): (r: Decision)
    ensures id in overrides ==> r == Decision(overrides[id], cache)
    ensures !(partType.Some? && IsToolType(partType.value)) ==> r.cache == cache
  {
    if id in overrides then Decision(overrides[id], cache)
    else if partType.Some? && IsToolType(partType.value) then
      var l := LookupToolCount(cache, loading, message);
      Decision(l.count <= 1, l.cache)
    else Decision(UntooledDefault(partType, hasNextPart), cache)
  }

  /** Without a choice, a tool-type part is open exactly when its message's tool count is at most one. */
  lemma ToolPartThreshold(overrides: map<string, bool>, cache: map<string, nat>, loading: bool,
                          id: string, kind: string, hasNextPart: Option<bool>, message: Option<Message>)
    requires id !in overrides && IsToolType(kind)
    ensures ResolveOpen(overrides, cache, loading, id, Some(kind), hasNextPart, message).open
            <==> LookupToolCount(cache, loading, message).count <= 1
  {
  }

  /** The boundary of the threshold: one tool part is open, two are closed. */
  lemma ToolThresholdBoundary(id: string, msgId: string, hasNextPart: Option<bool>)
    requires msgId != ""
    ensures ResolveOpen(map[], map[], true, id, Some("tool-search"), hasNextPart,
                        Some(Message(msgId, Some([Part("tool-search")])))).open
    ensures !ResolveOpen(map[], map[], true, id, Some("tool-search"), hasNextPart,
                         Some(Message(msgId, Some([Part("tool-search"), Part("tool-fetch")])))).open
  {
  }

  /** Without a choice: a generic tool invocation is open, and so is any other non-tool, non-reasoning part. */
  lemma InvocationAndOtherDefaultsOpen(overrides: map<string, bool>, cache: map<string, nat>, loading: bool,
                                       id: string, partType: Option<string>, hasNextPart: Option<bool>, message: Option<Message>)
    requires id !in overrides
    requires partType == None || (!IsToolType(partType.value) && partType.value != "reasoning")
    ensures ResolveOpen(overrides, cache, loading, id, partType, hasNextPart, message) == Decision(true, cache)
  {
  }

  /** Without a choice, a reasoning part is open exactly when no part follows it (an absent flag means none). */
  lemma ReasoningOpenUntilFollowed(overrides: map<string, bool>, cache: map<string, nat>, loading: bool,
                                   id: string, hasNextPart: Option<bool>, message: Option<Message>)
    requires id !in overrides
    ensures ResolveOpen(overrides, cache, loading, id, Some("reasoning"), hasNextPart, message).open
            <==> hasNextPart != Some(true)
  {
  }

  /** The override map after a run of `handleOpenChange` calls, applied in order. */
  function ApplyChoices(overrides: map<string, bool>, choices: seq<(string, bool)>): map<string, bool>
    decreases |choices|
  {
    if choices == [] then overrides
    else ApplyChoices(overrides[choices[0].0 := choices[0].1], choices[1..])
  }

  /**
   * After recording `open` for `id`, any later choices about other ids leave
   * it in force: every later `getIsOpen(id, ...)` answers `open`.
   */
  lemma {:induction false} ChoiceStaysInForce(overrides: map<string, bool>, id: string, open: bool,
                                              later: seq<(string, bool)>)
    requires forall i :: 0 <= i < |later| ==> later[i].0 != id
    ensures var o := ApplyChoices(overrides[id := open], later);
            id in o && o[id] == open
    decreases |later|
  {
    if later != [] {
      var next := overrides[id := open][later[0].0 := later[0].1];
      assert next == overrides[later[0].0 := later[0].1][id := open];
      ChoiceStaysInForce(overrides[later[0].0 := later[0].1], id, open, later[1..]);
    }
  }

  /**
   * The state of one live conversation view. `cache` is the tool-count map
   * kept across renders, `overrides` the user's explicit choices, `loading`
   * the current render's `isLoading`.
   */
  class Session {
    var cache: map<string, nat>
    var overrides: map<string, bool>
    var loading: bool

    /** While loading the cache is empty: emptied when loading starts, never written while loading. */
    ghost predicate Valid()
      reads this
    {
      loading ==> cache == map[]
    }

    /** The first render: empty cache, no choices yet. */
    constructor (status: Status)
      ensures Valid()
      ensures cache == map[] && overrides == map[] && loading == IsLoading(status)
    {
      cache := map[];
      overrides := map[];
      loading := IsLoading(status);
    }

    /**
     * A render with `status`, followed by the effect keyed on `isLoading`:
     * the cache is emptied exactly when loading has just become true.
     */
    method OnStatus(status: Status)
      requires Valid()
      modifies this`cache, this`loading
      ensures Valid()
      ensures loading == IsLoading(status)
      ensures cache == if loading && !old(loading) then map[] else old(cache)
    {
      var wasLoading := loading;
      loading := IsLoading(status);
      if loading != wasLoading && loading {
        cache := map[];
      }
    }

    /** `getToolCount`: reads and fills the cache unless loading. */
    method GetToolCount(message: Option<Message>) returns (count: nat)
      requires Valid()
      modifies this`cache
      ensures Valid()
      ensures Lookup(count, cache) == LookupToolCount(old(cache), loading, message)
    {
      if message.None? || message.value.id == "" {
        return 0;
      }
      if loading {
        return ToolCount(message.value);
      }
      var id := message.value.id;
      if id in cache {
        return cache[id];
      }
      count := ToolCount(message.value);
      cache := cache[id := count];
    }

    /** `getIsOpen`: resolves whether a collapsible element is expanded. */
    method IsOpen(id: string, partType: Option<string>, hasNextPart: Option<bool>, message: Option<Message>)
      returns (open: bool)
      requires Valid()
      modifies this`cache
      ensures Valid()
      ensures Decision(open, cache) == ResolveOpen(overrides, old(cache), loading, id, partType, hasNextPart, message)
    {
      if id in overrides {
        return overrides[id];
      }
      if partType.Some? && IsToolType(partType.value) {
        var toolCount := GetToolCount(message);
        return toolCount <= 1;
      }
      if partType == Some("tool-invocation") {
        return true;
      }
      if partType == Some("reasoning") {
        return hasNextPart != Some(true);
      }
      return true;
    }

    /** `handleOpenChange`: records the user's choice for `id`, and nothing else. */
    method SetOpen(id: string, open: bool)
      requires Valid()
      modifies this`overrides
      ensures Valid()
      ensures overrides == old(overrides)[id := open]
    {
      overrides := overrides[id := open];
    }
  }

  /**
   * A session that settles, counts a message, sees its parts grow, then starts
   * streaming: the settled counts agree (cache hit), the streaming count is
   * live, and a choice recorded for a tool part overrides the threshold.
   */
  method CountAcrossStatusChange(first: Message, grown: Message)
    returns (settled: nat, again: nat, streaming: nat, chosen: bool)
    requires first.id != "" && grown.id == first.id
    ensures again == settled == ToolCount(first)
    ensures streaming == ToolCount(grown)
    ensures !chosen
  {
    var s := new Session(Done);
    settled := s.GetToolCount(Some(first));
    again := s.GetToolCount(Some(grown));
    s.OnStatus(Streaming);
    streaming := s.GetToolCount(Some(grown));
    s.SetOpen(first.id, false);
    chosen := s.IsOpen(first.id, Some("tool-search"), None, Some(first));
  }
}
