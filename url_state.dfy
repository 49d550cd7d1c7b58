/** Deep-link state in the page's query string (src/lib/urlState.ts). A query
    string is the ordered list of key/value pairs that `URLSearchParams` holds;
    turning it into text (percent-encoding) and the number conversions `Number`,
    `String` and `toFixed(3)` are parameters. */
module UrlState {
  import opened Optional

  /** Ordered key/value pairs of a query string. */
  type Params = seq<(string, string)>

  /** The deep-link fields read from a query string. */
  datatype UrlState = UrlState(
    v: Option<string>,
    t: Option<JsNumber>,
    speed: Option<JsNumber>,
    slowMo: Option<JsNumber>,
    scrubSpeed: Option<JsNumber>)

  /** The live state written back to the query string. */
  datatype LiveState = LiveState(
    v: Option<string>,
    t: Option<JsNumber>,
    speed: Option<JsNumber>,
    slowMoSpeed: Option<JsNumber>,
    scrubSpeed: Option<JsNumber>)

  /** The settings a deep link overrides, under their settings names. */
  datatype AppliedSettings = AppliedSettings(
    videoId: Option<string>,
    seekTime: Option<real>,
    speed: Option<real>,
    slowMoSpeed: Option<real>,
    scrubSpeedMultiplier: Option<real>)

  /** The query string carries `key`. */
  predicate HasKey(params: Params, key: string) {
    exists i :: 0 <= i < |params| && params[i].0 == key
  }

  /** `params.get(key)`: the value of the first pair with that key, if any. */
  function Get(params: Params, key: string): (r: Option<string>)
    ensures r.Some? <==> HasKey(params, key)
    ensures r.Some? ==>
      exists i :: 0 <= i < |params| && params[i] == (key, r.value) && forall j :: 0 <= j < i ==> params[j].0 != key
    decreases |params|, 1
  {
    if params == [] then None
    else if params[0].0 == key then Some(params[0].1)
    else
      GetSkipsOtherKey(params, key);
      Get(params[1..], key)
  }

  /** A first pair with another key changes neither presence nor the first value. */
  lemma GetSkipsOtherKey(params: Params, key: string)
    requires params != [] && params[0].0 != key
    ensures HasKey(params, key) <==> HasKey(params[1..], key)
    ensures var r := Get(params[1..], key);
      r.Some? ==>
        exists i :: 0 <= i < |params| && params[i] == (key, r.value) && forall j :: 0 <= j < i ==> params[j].0 != key
    decreases |params|, 0
  {
    if HasKey(params, key) {
      var i :| 0 <= i < |params| && params[i].0 == key;
      assert params[1..][i - 1].0 == key;
    }
    var r := Get(params[1..], key);
    if r.Some? {
      var i :| 0 <= i < |params[1..]| && params[1..][i] == (key, r.value)
        && forall j :: 0 <= j < i ==> params[1..][j].0 != key;
      assert params[i + 1] == (key, r.value);
      assert forall j :: 1 <= j < i + 1 ==> params[j] == params[1..][j - 1];
    }
  }

  /** `parseUrlState`: reads `v`, `t`, `speed`, `slowMo` and `scrubSpeed` from the
      page's query string (`None` when there is no window). An empty `v` counts as
      absent; a numeric field is present whenever its key is, converted with
      `Number`, which may give a non-finite value. */
  function ParseUrlState(query: Option<Params>, toNumber: string -> JsNumber): (r: UrlState)
    ensures query.None? ==> r == UrlState(None, None, None, None, None)
    ensures r.v.Some? <==> query.Some? && Get(query.value, "v").Some? && Get(query.value, "v").value != ""
    ensures r.v.Some? ==> r.v == Get(query.value, "v")
    ensures r.t.Some? <==> query.Some? && HasKey(query.value, "t")
    ensures r.speed.Some? <==> query.Some? && HasKey(query.value, "speed")
    ensures r.slowMo.Some? <==> query.Some? && HasKey(query.value, "slowMo")
    ensures r.scrubSpeed.Some? <==> query.Some? && HasKey(query.value, "scrubSpeed")
    ensures r.t.Some? ==> r.t.value == toNumber(Get(query.value, "t").value)
    ensures r.speed.Some? ==> r.speed.value == toNumber(Get(query.value, "speed").value)
    ensures r.slowMo.Some? ==> r.slowMo.value == toNumber(Get(query.value, "slowMo").value)
    ensures r.scrubSpeed.Some? ==> r.scrubSpeed.value == toNumber(Get(query.value, "scrubSpeed").value)
  {
    match query
    case None => UrlState(None, None, None, None, None)
    case Some(params) =>
      var v := Get(params, "v");
      UrlState(
        v := if v.Some? && v.value != "" then v else None,
        t := NumberParam(params, "t", toNumber),
        speed := NumberParam(params, "speed", toNumber),
        slowMo := NumberParam(params, "slowMo", toNumber),
        scrubSpeed := NumberParam(params, "scrubSpeed", toNumber))
  }

  /** `params.get(key) != null ? Number(params.get(key)) : undefined`. */
  function NumberParam(params: Params, key: string, toNumber: string -> JsNumber): Option<JsNumber> {
    match Get(params, key)
    case None => None
    case Some(s) => Some(toNumber(s))
  }

  /** The value of a present, finite number (`x != null && Number.isFinite(x)`). */
  function FiniteValue(x: Option<JsNumber>): (r: Option<real>)
    ensures r.Some? <==> x.Some? && x.value.Finite?
    ensures r.Some? ==> x == Some(Finite(r.value))
  {
    if x.Some? && x.value.Finite? then Some(x.value.value) else None
  }

  /** A present, non-empty string (`if (x)` on a string). */
  function NonEmpty(x: Option<string>): (r: Option<string>)
    ensures r.Some? <==> x.Some? && x.value != ""
    ensures r.Some? ==> r == x
  {
    if x.Some? && x.value != "" then x else None
  }

  /** The position of each key in the order `buildSearchParams` writes them. */
  function KeyRank(key: string): int {
    if key == "v" then 0
    else if key == "t" then 1
    else if key == "speed" then 2
    else if key == "slowMo" then 3
    else if key == "scrubSpeed" then 4
    else 5
  }

  function MapOption(x: Option<real>, f: real -> string): Option<string> {
    if x.Some? then Some(f(x.value)) else None
  }

  /** Pairs whose keys come in strictly increasing `KeyRank` order. */
  predicate RankOrdered<V>(pairs: seq<(string, V)>) {
    forall i, j :: 0 <= i < j < |pairs| ==> KeyRank(pairs[i].0) < KeyRank(pairs[j].0)
  }

  /** Successive `params.set(key, value)` on a fresh `URLSearchParams`, one per
      entry whose value is present; with distinct keys each `set` appends. */
  function SetAll(entries: seq<(string, Option<string>)>): (r: Params)
    ensures forall p :: p in r ==> (p.0, Some(p.1)) in entries
  {
    if entries == [] then []
    else
      var rest := SetAll(entries[1..]);
      assert forall e :: e in entries[1..] ==> e in entries;
      (if entries[0].1.Some? then [(entries[0].0, entries[0].1.value)] else []) + rest
  }

  /** Every pair written after the first entry has a larger rank than its key. */
  lemma SetAllAfterFirst(entries: seq<(string, Option<string>)>)
    requires RankOrdered(entries) && entries != []
    ensures forall p :: p in SetAll(entries[1..]) ==> KeyRank(entries[0].0) < KeyRank(p.0)
  {
    forall p | p in SetAll(entries[1..]) ensures KeyRank(entries[0].0) < KeyRank(p.0) {
      var m :| 0 <= m < |entries[1..]| && entries[1..][m] == (p.0, Some(p.1));
      assert entries[m + 1].0 == p.0;
    }
  }

  /** A pair ranked below every pair of an ordered list keeps it ordered when
      put in front. */
  lemma PrependOrdered(x: (string, string), rest: Params)
    requires RankOrdered(rest)
    requires forall p :: p in rest ==> KeyRank(x.0) < KeyRank(p.0)
    ensures RankOrdered([x] + rest)
  {
    var r := [x] + rest;
    forall i, j | 0 <= i < j < |r| ensures KeyRank(r[i].0) < KeyRank(r[j].0) {
      assert r[j] == rest[j - 1];
      if i == 0 {
        assert rest[j - 1] in rest;
      } else {
        assert r[i] == rest[i - 1];
      }
    }
  }

  /** Dropping the first of ordered pairs leaves them ordered. */
  lemma TailOrdered<V>(pairs: seq<(string, V)>)
    requires RankOrdered(pairs) && pairs != []
    ensures RankOrdered(pairs[1..])
  {
    forall i, j | 0 <= i < j < |pairs| - 1 ensures KeyRank(pairs[1..][i].0) < KeyRank(pairs[1..][j].0) {
      assert pairs[1..][i] == pairs[i + 1] && pairs[1..][j] == pairs[j + 1];
    }
  }

  /** Setting keys in rank order writes them in rank order. */
  lemma {:induction false} SetAllOrdered(entries: seq<(string, Option<string>)>)
    requires RankOrdered(entries)
    ensures RankOrdered(SetAll(entries))
    decreases |entries|
  {
    if entries != [] {
      TailOrdered(entries);
      SetAllOrdered(entries[1..]);
      SetAllAfterFirst(entries);
      if entries[0].1.Some? {
        PrependOrdered((entries[0].0, entries[0].1.value), SetAll(entries[1..]));
      }
    }
  }

  /** With keys set in rank order, `get` finds each entry's own value. */
  lemma {:induction false} SetAllGet(entries: seq<(string, Option<string>)>, i: nat)
    requires RankOrdered(entries) && i < |entries|
    ensures Get(SetAll(entries), entries[i].0) == entries[i].1
    decreases |entries|
  {
    var key := entries[i].0;
    var rest := SetAll(entries[1..]);
    var r := SetAll(entries);
    SetAllAfterFirst(entries);
    TailOrdered(entries);
    if i == 0 {
      forall k | 0 <= k < |rest| ensures rest[k].0 != key {
        assert rest[k] in rest;
      }
      if entries[0].1.None? {
        assert r == rest;
      }
    } else {
      SetAllGet(entries[1..], i - 1);
      assert KeyRank(entries[0].0) < KeyRank(entries[i].0);
      if entries[0].1.Some? {
        assert r[1..] == rest;
        GetSkipsOtherKey(r, key);
      } else {
        assert r == rest;
      }
    }
  }

  /** The entries `buildSearchParams` sets, in its order. */
  function SearchEntries(state: LiveState, toFixed3: real -> string, toString: real -> string): seq<(string, Option<string>)> {
    [ ("v", NonEmpty(state.v)),
      ("t", MapOption(FiniteValue(state.t), toFixed3)),
      ("speed", MapOption(FiniteValue(state.speed), toString)),
      ("slowMo", MapOption(FiniteValue(state.slowMoSpeed), toString)),
      ("scrubSpeed", MapOption(FiniteValue(state.scrubSpeed), toString)) ]
  }

  lemma SearchEntriesRanks(state: LiveState, toFixed3: real -> string, toString: real -> string)
    ensures var entries := SearchEntries(state, toFixed3, toString);
      && RankOrdered(entries)
      && forall m :: 0 <= m < |entries| ==> KeyRank(entries[m].0) == m
  {
    assert KeyRank("v") == 0 && KeyRank("t") == 1 && KeyRank("speed") == 2;
    assert KeyRank("slowMo") == 3 && KeyRank("scrubSpeed") == 4;
  }

  /** `buildSearchParams`: writes `v` when non-empty, then `t` with three decimals,
      `speed`, `slowMo` (from `slowMoSpeed`) and `scrubSpeed`, each only when
      present and finite. Every key is written at most once, in that order. */
  function BuildSearchParams(state: LiveState, toFixed3: real -> string, toString: real -> string): (r: Params)
    ensures RankOrdered(r)
    ensures forall p :: p in r ==> KeyRank(p.0) < 5
    ensures Get(r, "v") == NonEmpty(state.v)
    ensures Get(r, "t") == MapOption(FiniteValue(state.t), toFixed3)
    ensures Get(r, "speed") == MapOption(FiniteValue(state.speed), toString)
    ensures Get(r, "slowMo") == MapOption(FiniteValue(state.slowMoSpeed), toString)
    ensures Get(r, "scrubSpeed") == MapOption(FiniteValue(state.scrubSpeed), toString)
  {
    var entries := SearchEntries(state, toFixed3, toString);
    SearchEntriesRanks(state, toFixed3, toString);
    var r := SetAll(entries);
    SetAllOrdered(entries);
    SetAllGet(entries, 0);
    SetAllGet(entries, 1);
    SetAllGet(entries, 2);
    SetAllGet(entries, 3);
    SetAllGet(entries, 4);
    forall p | p in r ensures KeyRank(p.0) < 5 {
      var m :| 0 <= m < |entries| && entries[m] == (p.0, Some(p.1));
    }
    r
  }

  /** `applyUrlStateToSettings`: keeps a non-empty `v` as `videoId` and each
      present, finite number under its settings name, unchanged; everything else
      is left out. */
  function ApplyUrlStateToSettings(u: UrlState): (r: AppliedSettings)
    ensures r.videoId.Some? <==> u.v.Some? && u.v.value != ""
    ensures r.videoId.Some? ==> r.videoId == u.v
    ensures r.seekTime.Some? <==> u.t.Some? && u.t.value.Finite?
    ensures r.seekTime.Some? ==> u.t == Some(Finite(r.seekTime.value))
    ensures r.speed.Some? <==> u.speed.Some? && u.speed.value.Finite?
    ensures r.speed.Some? ==> u.speed == Some(Finite(r.speed.value))
    ensures r.slowMoSpeed.Some? <==> u.slowMo.Some? && u.slowMo.value.Finite?
    ensures r.slowMoSpeed.Some? ==> u.slowMo == Some(Finite(r.slowMoSpeed.value))
    ensures r.scrubSpeedMultiplier.Some? <==> u.scrubSpeed.Some? && u.scrubSpeed.value.Finite?
    ensures r.scrubSpeedMultiplier.Some? ==> u.scrubSpeed == Some(Finite(r.scrubSpeedMultiplier.value))
  {
    AppliedSettings(
      videoId := NonEmpty(u.v),
      seekTime := FiniteValue(u.t),
      speed := FiniteValue(u.speed),
      slowMoSpeed := FiniteValue(u.slowMo),
      scrubSpeedMultiplier := FiniteValue(u.scrubSpeed))
  }

  /** With no deep link the settings are left alone. */
  lemma NoLinkAppliesNothing(toNumber: string -> JsNumber)
    ensures ApplyUrlStateToSettings(ParseUrlState(None, toNumber)) == AppliedSettings(None, None, None, None, None)
    ensures ApplyUrlStateToSettings(ParseUrlState(Some([]), toNumber)) == AppliedSettings(None, None, None, None, None)
  {
  }

  /** Writing the live state into the query string and reading it back restores
      every present, finite field: the id, and each of the three speeds whose
      written text `Number` reads back as the same value; the position comes back
      as the number its three-decimal text denotes. */
  lemma BuildThenParse(state: LiveState, toFixed3: real -> string, toString: real -> string, toNumber: string -> JsNumber)
    requires state.speed.Some? && state.speed.value.Finite? ==> toNumber(toString(state.speed.value.value)) == state.speed.value
    requires state.slowMoSpeed.Some? && state.slowMoSpeed.value.Finite? ==>
      toNumber(toString(state.slowMoSpeed.value.value)) == state.slowMoSpeed.value
    requires state.scrubSpeed.Some? && state.scrubSpeed.value.Finite? ==>
      toNumber(toString(state.scrubSpeed.value.value)) == state.scrubSpeed.value
    ensures var u := ParseUrlState(Some(BuildSearchParams(state, toFixed3, toString)), toNumber);
      && u.v == NonEmpty(state.v)
      && u.t == (if FiniteValue(state.t).Some? then Some(toNumber(toFixed3(state.t.value.value))) else None)
      && ApplyUrlStateToSettings(u).speed == FiniteValue(state.speed)
      && ApplyUrlStateToSettings(u).slowMoSpeed == FiniteValue(state.slowMoSpeed)
      && ApplyUrlStateToSettings(u).scrubSpeedMultiplier == FiniteValue(state.scrubSpeed)
  {
  }
}
