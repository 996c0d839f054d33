/** The module resolver: a first-match search over the host's loaded module records, and the
    resolution of the stores and network client a run needs. */
module ModuleSearch {
  import opened JsValues

  /** The exports of one loaded module: the export object itself and its nested slots `A`, `Ay`
      and `ZP`, each `None` when missing or falsy. */
  datatype Exports<V> = Exports(whole: V, a: Option<V>, ay: Option<V>, zp: Option<V>)

  /** One record of the registry's module table; `None` when the record or its `exports` is
      missing or falsy. */
  type ModuleRecord<V> = Option<Exports<V>>

  /** The values a lookup offers to the predicate for one module, in the order it offers them. */
  function Candidates<V>(e: Exports<V>): seq<V> {
    (if e.a.Some? then [e.a.value] else [])
    + (if e.ay.Some? then [e.ay.value] else [])
    + (if e.zp.Some? then [e.zp.value] else [])
    + [e.whole]
  }

  /** The slot test made on one module's exports. */
  function MatchIn<V>(e: Exports<V>, filter: V -> bool): (r: Option<V>)
    ensures r.Some? ==>
              filter(r.value) &&
              exists k :: 0 <= k < |Candidates(e)| && Candidates(e)[k] == r.value &&
                          forall j :: 0 <= j < k ==> !filter(Candidates(e)[j])
    ensures r.None? <==> forall k :: 0 <= k < |Candidates(e)| ==> !filter(Candidates(e)[k])
  {
    if e.a.Some? && filter(e.a.value) then
      assert Candidates(e)[0] == e.a.value;
      e.a
    else if e.ay.Some? && filter(e.ay.value) then
      assert Candidates(e)[if e.a.Some? then 1 else 0] == e.ay.value;
      e.ay
    else if e.zp.Some? && filter(e.zp.value) then
      assert Candidates(e)[|Candidates(e)| - 2] == e.zp.value;
      e.zp
    else if filter(e.whole) then
      assert Candidates(e)[|Candidates(e)| - 1] == e.whole;
      Some(e.whole)
    else None
  }

  /** Whether some candidate of module record `m` satisfies `filter`. */
  predicate Hits<V>(m: ModuleRecord<V>, filter: V -> bool) {
    m.Some? && MatchIn(m.value, filter).Some?
  }

  /** The value the lookup returns: the slot match of the first record that has one. */
  function FirstMatch<V>(modules: seq<ModuleRecord<V>>, filter: V -> bool): (r: Option<V>)
    ensures r.None? <==> forall i :: 0 <= i < |modules| ==> !Hits(modules[i], filter)
    ensures r.Some? ==>
              filter(r.value) &&
              exists i :: 0 <= i < |modules| && Hits(modules[i], filter) &&
                          r == MatchIn(modules[i].value, filter) &&
                          forall j :: 0 <= j < i ==> !Hits(modules[j], filter)
  {
    if modules == [] then None
    else if Hits(modules[0], filter) then MatchIn(modules[0].value, filter)
    else
      var r := FirstMatch(modules[1..], filter);
      assert forall i :: 1 <= i < |modules| ==> modules[i] == modules[1..][i - 1];
      r
  }

  /** `findModule`: scans the module records in iteration order and returns the first slot
      value, among `A`, `Ay`, `ZP` and the exports object, that the predicate accepts;
      `None` (the script's `null`) when no record has one. */
  method FindModule<V>(modules: seq<ModuleRecord<V>>, filter: V -> bool) returns (r: Option<V>)
    ensures r == FirstMatch(modules, filter)
  {
    var i := 0;
    while i < |modules|
      invariant 0 <= i <= |modules|
      invariant forall j :: 0 <= j < i ==> !Hits(modules[j], filter)
    {
      var m := modules[i];
      if m.Some? {
        var e := m.value;
        if e.a.Some? && filter(e.a.value) { assert Hits(m, filter); return e.a; }
        if e.ay.Some? && filter(e.ay.value) { assert Hits(m, filter); return e.ay; }
        if e.zp.Some? && filter(e.zp.value) { assert Hits(m, filter); return e.zp; }
        if filter(e.whole) { assert Hits(m, filter); return Some(e.whole); }
      }
      i := i + 1;
    }
    return None;
  }

  /** The host objects one run works with. */
  datatype Stores<V> = Stores(quests: V, channels: Option<V>, guildChannels: Option<V>, api: V)

  /** The network client carried by the module the client lookup found: its `Bo` slot, else
      its `tn` slot, else the module itself. `bo` and `tn` read those slots, `None` when
      missing or falsy. */
  function Client<V>(api: V, bo: V -> Option<V>, tn: V -> Option<V>): (c: V)
    ensures bo(api).Some? ==> c == bo(api).value
    ensures bo(api).None? && tn(api).Some? ==> c == tn(api).value
    ensures bo(api).None? && tn(api).None? ==> c == api
  {
    if bo(api).Some? then bo(api).value
    else if tn(api).Some? then tn(api).value
    else api
  }

  /** `loadStores`: four lookups with the host's structural predicates; the run has no stores
      when the quests store or the network client is not found. */
  method LoadStores<V>(modules: seq<ModuleRecord<V>>,
                       isQuestStore: V -> bool, isChannelStore: V -> bool,
                       isGuildChannelStore: V -> bool, isApi: V -> bool,
                       bo: V -> Option<V>, tn: V -> Option<V>)
    returns (r: Option<Stores<V>>)
    ensures r.None? <==>
              (forall i :: 0 <= i < |modules| ==> !Hits(modules[i], isQuestStore)) ||
              (forall i :: 0 <= i < |modules| ==> !Hits(modules[i], isApi))
    ensures r.Some? ==>
              isQuestStore(r.value.quests) &&
              r.value.quests == FirstMatch(modules, isQuestStore).value &&
              r.value.channels == FirstMatch(modules, isChannelStore) &&
              r.value.guildChannels == FirstMatch(modules, isGuildChannelStore) &&
              isApi(FirstMatch(modules, isApi).value) &&
              r.value.api == Client(FirstMatch(modules, isApi).value, bo, tn)
  {
    var questStore := FindModule(modules, isQuestStore);
    var channelStore := FindModule(modules, isChannelStore);
    var guildChannelStore := FindModule(modules, isGuildChannelStore);
    var api := FindModule(modules, isApi);
    if questStore.None? || api.None? {
      return None;
    }
    return Some(Stores(questStore.value, channelStore, guildChannelStore, Client(api.value, bo, tn)));
  }
}
