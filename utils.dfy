/** torrt's helpers: the object registries, the recursive dict merge used for settings,
    the record stored per torrent, the link found in a torrent comment. */
module Utils {
  import opened Wrappers
  import opened Json
  import opened Errors
  import opened Text
  import opened OrderedDict

  // ---------------------------------------------------------------------------
  // encode_value

  /** `encode_value(value, encoding)`: the string itself without an encoding, else the
      bytes `encode` produces for it (the codec is a parameter). */
  function EncodeValue(value: string, encoding: Option<string>, encode: (string, string) -> seq<bv8>): (r: Json)
    ensures encoding.None? <==> r == JStr(value)
    ensures encoding.Some? ==> r == JBytes(encode(value, encoding.value))
  {
    if encoding.None? then JStr(value) else JBytes(encode(value, encoding.value))
  }

  // ---------------------------------------------------------------------------
  // get_url_from_string

  /** How much of `https?://` the pattern `https?://[^\s]+` takes at position `i`, where it
      matches only if a character other than whitespace follows: 8 for `https://`, 7 for
      `http://`, 0 when it does not match there. */
  function SchemeAt(s: string, i: nat): (n: nat)
    ensures n == 0 || n == 7 || n == 8
    ensures n > 0 ==> i + n < |s| && !IsSpace(s[i + n])
    ensures n == 8 <==> OccursAt(s, "https://", i) && i + 8 < |s| && !IsSpace(s[i + 8])
    ensures n == 7 ==> OccursAt(s, "http://", i)
  {
    if OccursAt(s, "https://", i) && i + 8 < |s| && !IsSpace(s[i + 8]) then 8
    else if OccursAt(s, "http://", i) && i + 7 < |s| && !IsSpace(s[i + 7]) then 7
    else 0
  }

  /** Where the run of non-whitespace characters starting at `j` ends. */
  function RunEnd(s: string, j: nat): (e: nat)
    requires j <= |s|
    ensures j <= e <= |s|
    ensures forall k :: j <= k < e ==> !IsSpace(s[k])
    ensures e < |s| ==> IsSpace(s[e])
    decreases |s| - j
  {
    if j == |s| || IsSpace(s[j]) then j else RunEnd(s, j + 1)
  }

  /** The leftmost position at or after `i` where the pattern matches. */
  function FirstLink(s: string, i: nat): (r: Option<nat>)
    requires i <= |s|
    ensures r.Some? ==> i <= r.value < |s| && SchemeAt(s, r.value) > 0
    ensures r.Some? ==> forall k :: i <= k < r.value ==> SchemeAt(s, k) == 0
    ensures r.None? ==> forall k :: i <= k < |s| ==> SchemeAt(s, k) == 0
    decreases |s| - i
  {
    if i == |s| then None
    else if SchemeAt(s, i) > 0 then Some(i)
    else FirstLink(s, i + 1)
  }

  /** `get_url_from_string(string)`: the leftmost `http://` or `https://` link, up to the
      first whitespace; `''` when there is none. */
  function UrlFromString(s: string): (r: string)
    ensures r == [] <==> forall k :: 0 <= k < |s| ==> SchemeAt(s, k) == 0
    ensures r != [] ==> "http://" <= r || "https://" <= r
    ensures forall k :: 0 <= k < |r| ==> !IsSpace(r[k])
  {
    match FirstLink(s, 0)
    case None => []
    case Some(i) =>
      var e := RunEnd(s, i + SchemeAt(s, i));
      LinkStartsWithScheme(s, i, e);
      s[i..e]
  }

  /** A piece that starts where the pattern matches and runs to the next whitespace is not
      empty, starts with the matched scheme and holds no whitespace. */
  lemma LinkStartsWithScheme(s: string, i: nat, e: nat)
    requires i < |s| && SchemeAt(s, i) > 0
    requires e == RunEnd(s, i + SchemeAt(s, i))
    ensures i < e <= |s| && s[i..e] != []
    ensures "http://" <= s[i..e] || "https://" <= s[i..e]
    ensures forall k :: 0 <= k < |s[i..e]| ==> !IsSpace(s[i..e][k])
  {
    var n := SchemeAt(s, i);
    var p := if n == 8 then "https://" else "http://";
    assert OccursAt(s, p, i) && |p| == n;
    forall k | 0 <= k < |s[i..e]|
      ensures !IsSpace(s[i..e][k])
    {
      assert s[i..e][k] == s[i + k];
      if k < n {
        assert s[i + k] == s[i..i + n][k] == p[k];
        SchemeHasNoSpace(p, k);
      }
    }
    if n == 8 {
      assert s[i..e][..8] == s[i..i + 8] == "https://";
    } else {
      assert s[i..e][..7] == s[i..i + 7] == "http://";
    }
  }

  /** No character of either scheme is whitespace. */
  lemma SchemeHasNoSpace(p: string, k: nat)
    requires p == "https://" || p == "http://"
    requires k < |p|
    ensures !IsSpace(p[k])
  {
  }

  /** The link is a piece of the string that starts where the leftmost match starts and runs
      to the next whitespace or the end. */
  lemma UrlFromStringSpec(s: string)
    requires UrlFromString(s) != []
    ensures exists i, e ::
      && 0 <= i < e <= |s|
      && UrlFromString(s) == s[i..e]
      && SchemeAt(s, i) > 0
      && (forall k :: 0 <= k < i ==> SchemeAt(s, k) == 0)
      && (e == |s| || IsSpace(s[e]))
  {
    var i := FirstLink(s, 0).value;
    var e := RunEnd(s, i + SchemeAt(s, i));
    assert UrlFromString(s) == s[i..e];
  }

  /** The link found in a link is the link itself. */
  lemma UrlFromStringIdempotent(s: string)
    ensures UrlFromString(UrlFromString(s)) == UrlFromString(s)
  {
    var r := UrlFromString(s);
    if r != [] {
      var i := FirstLink(s, 0).value;
      var n := SchemeAt(s, i);
      var e := RunEnd(s, i + n);
      assert r == s[i..e];
      assert i + n < e by {
        assert !IsSpace(s[i + n]);
      }
      assert SchemeAt(r, 0) > 0 by {
        assert r[..n] == s[i..i + n];
        assert r[n] == s[i + n];
        if n == 7 {
          assert OccursAt(r, "http://", 0);
        } else {
          assert OccursAt(r, "https://", 0);
        }
      }
      assert FirstLink(r, 0) == Some(0);
      assert RunEnd(r, SchemeAt(r, 0)) == |r|;
      assert r[0..|r|] == r;
    }
  }

  /** The separator `\x1f` is whitespace to `\s`, so it ends the link. */
  lemma UrlStopsAtSeparator()
    ensures UrlFromString("http://a\U{1F}b") == "http://a"
  {
    var s := "http://a\U{1F}b";
    assert SchemeAt(s, 0) == 7 by {
      assert !OccursAt(s, "https://", 0) by { assert s[4] != 's'; }
      assert OccursAt(s, "http://", 0) by { assert s[..7] == "http://"; }
    }
    assert FirstLink(s, 0) == Some(0);
    assert RunEnd(s, 8) == 8;
    assert RunEnd(s, 7) == 8;
    assert s[0..8] == "http://a";
  }

  // ---------------------------------------------------------------------------
  // update_dict

  /** The value `update_dict` leaves under key `k` of the update: a mapping is merged into
      whatever the prior dict holds there (a fresh `{}` when nothing), anything else replaces. */
  function MergeEntry(prior: Dict, upd: Dict, k: string): Result<Json, Failure>
    requires k in upd
    decreases JObj(upd), 0
  {
    if upd[k].JObj? then Merged(Get(prior, k, JObj(map[])), upd[k].fields) else Ok(upd[k])
  }

  /** `update_dict(old_dict, new_dict)` on values, with `prior` the old dict and `upd` the new one: every key of the update is merged or replaced, the
      other keys of `prior` stay. An update with keys needs `prior` to be a dict (a nested value
      that is not one raises `TypeError`); an empty update returns `prior` as it is. */
  function Merged(prior: Json, upd: Dict): (r: Result<Json, Failure>)
    ensures r.Err? ==> r.error == TypeError
    decreases JObj(upd), 1
  {
    if upd == map[] then Ok(prior)
    else if !prior.JObj? then Err(TypeError)
    else if exists k :: k in upd && MergeEntry(prior.fields, upd, k).Err? then Err(TypeError)
    else
      Ok(JObj(map k | k in prior.fields.Keys + upd.Keys ::
        if k in upd then MergeEntry(prior.fields, upd, k).value else prior.fields[k]))
  }

  /** What a merge that succeeds leaves: the keys of both dicts; a non-mapping value of the
      update overwrites; a mapping value is merged recursively; keys only in `prior` survive. */
  lemma MergedShape(prior: Json, upd: Dict)
    requires Merged(prior, upd).Ok? && upd != map[]
    ensures prior.JObj?
    ensures var m := Merged(prior, upd).value;
      && m.JObj? && m.fields.Keys == prior.fields.Keys + upd.Keys
      && (forall k :: k in upd && !upd[k].JObj? ==> m.fields[k] == upd[k])
      && (forall k :: k in upd && upd[k].JObj? ==>
            Merged(Get(prior.fields, k, JObj(map[])), upd[k].fields) == Ok(m.fields[k]))
      && (forall k :: k in prior.fields && k !in upd ==> m.fields[k] == prior.fields[k])
  {
    forall k | k in upd
      ensures MergeEntry(prior.fields, upd, k).Ok?
    {
    }
  }

  /** Merging into an empty dict gives the update itself. */
  lemma {:induction false} MergedIntoEmpty(upd: Dict)
    ensures Merged(JObj(map[]), upd) == Ok(JObj(upd))
    decreases JObj(upd)
  {
    if upd != map[] {
      forall k | k in upd
        ensures MergeEntry(map[], upd, k) == Ok(upd[k])
      {
        if upd[k].JObj? {
          MergedIntoEmpty(upd[k].fields);
        }
      }
      var empty: Dict := map[];
      var m := map k | k in empty.Keys + upd.Keys ::
        if k in upd then MergeEntry(empty, upd, k).value else empty[k];
      assert m == upd;
    }
  }

  /** Applying the same update twice is the same as applying it once. */
  lemma {:induction false} MergedIdempotent(prior: Json, upd: Dict)
    requires Merged(prior, upd).Ok?
    ensures Merged(Merged(prior, upd).value, upd) == Merged(prior, upd)
    decreases JObj(upd)
  {
    if upd != map[] {
      MergedShape(prior, upd);
      var once := Merged(prior, upd).value;
      forall k | k in upd
        ensures MergeEntry(once.fields, upd, k) == Ok(once.fields[k])
      {
        if upd[k].JObj? {
          MergedIdempotent(Get(prior.fields, k, JObj(map[])), upd[k].fields);
        }
      }
      var m := map k | k in once.fields.Keys + upd.Keys ::
        if k in upd then MergeEntry(once.fields, upd, k).value else once.fields[k];
      assert m == once.fields;
    }
  }

  /** `update_dict(old_dict, new_dict)`: merges key by key, recursing into mappings. */
  method UpdateDict(prior: Json, upd: Dict) returns (r: Result<Json, Failure>)
    ensures r == Merged(prior, upd)
    decreases JObj(upd)
  {
    if upd == map[] {
      return Ok(prior);
    }
    if !prior.JObj? {
      return Err(TypeError);
    }
    var acc := prior.fields;
    var todo := upd.Keys;
    while todo != {}
      invariant todo <= upd.Keys
      invariant forall k :: k in upd && k !in todo ==> MergeEntry(prior.fields, upd, k).Ok?
      invariant acc.Keys == prior.fields.Keys + (upd.Keys - todo)
      invariant forall k :: k in acc && k in upd && k !in todo ==> acc[k] == MergeEntry(prior.fields, upd, k).value
      invariant forall k :: k in acc && (k !in upd || k in todo) ==> acc[k] == prior.fields[k]
      decreases todo
    {
      var k :| k in todo;
      var entry: Result<Json, Failure>;
      if upd[k].JObj? {
        assert Get(acc, k, JObj(map[])) == Get(prior.fields, k, JObj(map[]));
        entry := UpdateDict(Get(acc, k, JObj(map[])), upd[k].fields);
      } else {
        entry := Ok(upd[k]);
      }
      assert entry == MergeEntry(prior.fields, upd, k);
      if entry.Err? {
        return Err(TypeError);
      }
      acc := acc[k := entry.value];
      todo := todo - {k};
    }
    r := Ok(JObj(acc));
    assert acc == map k | k in prior.fields.Keys + upd.Keys ::
      if k in upd then MergeEntry(prior.fields, upd, k).value else prior.fields[k];
  }

  // ---------------------------------------------------------------------------
  // structure_torrent_data

  /** The record kept for a torrent: its hash, name and url, with the hash given and `None`
      standing in for what the data lacks. */
  function TorrentRecord(hash: string, data: Dict): Dict {
    map["hash" := Get(data, "hash", JStr(hash)), "name" := Get(data, "name", JNull), "url" := Get(data, "url", JNull)]
  }

  /** A stored record, structured again under the same hash, stays as it is. */
  lemma TorrentRecordStable(hash: string, data: Dict)
    ensures TorrentRecord(hash, TorrentRecord(hash, data)) == TorrentRecord(hash, data)
  {
  }

  /** `structure_torrent_data(target_dict, hash_str, data)`: fills the missing fields on a
      copy of `data`, then stores the three-field record under the hash. */
  method StructureTorrentData(target: Dict, hash: string, data: Dict) returns (r: Dict)
    ensures r.Keys == target.Keys + {hash}
    ensures forall k :: k in target && k != hash ==> r[k] == target[k]
    ensures r[hash].JObj? && r[hash].fields.Keys == {"hash", "name", "url"}
    ensures r[hash].fields["hash"] == (if "hash" in data then data["hash"] else JStr(hash))
    ensures r[hash].fields["name"] == (if "name" in data then data["name"] else JNull)
    ensures r[hash].fields["url"] == (if "url" in data then data["url"] else JNull)
    ensures r[hash] == JObj(TorrentRecord(hash, data))
  {
    var copy := data;
    if "hash" !in copy {
      copy := copy["hash" := JStr(hash)];
    }
    if "name" !in copy {
      copy := copy["name" := JNull];
    }
    if "url" !in copy {
      copy := copy["url" := JNull];
    }
    r := target[hash := JObj(map["hash" := copy["hash"], "name" := copy["name"], "url" := copy["url"]])];
  }

  // ---------------------------------------------------------------------------
  // ObjectsRegistry and iter_rpc

  /** `get_for_string` picks an entry when its object can handle the string or its alias
      occurs in the string. */
  predicate Matches<T>(entry: (string, T), handles: (T, string) -> bool, s: string) {
    handles(entry.1, s) || Contains(s, entry.0)
  }

  /** The first entry at or after `from` that matches. */
  function FirstMatch<T>(items: ODict<string, T>, handles: (T, string) -> bool, s: string, from: nat)
    : (r: Option<nat>)
    requires from <= |items|
    ensures r.Some? ==> from <= r.value < |items| && Matches(items[r.value], handles, s)
    ensures r.Some? ==> forall j :: from <= j < r.value ==> !Matches(items[j], handles, s)
    ensures r.None? ==> forall j :: from <= j < |items| ==> !Matches(items[j], handles, s)
    decreases |items| - from
  {
    if from == |items| then None
    else if Matches(items[from], handles, s) then Some(from)
    else FirstMatch(items, handles, s, from + 1)
  }

  /** The object `get_for_string` returns. */
  function ForString<T>(items: ODict<string, T>, handles: (T, string) -> bool, s: string): Option<T> {
    match FirstMatch(items, handles, s, 0)
    case None => None
    case Some(i) => Some(items[i].1)
  }

  /** `iter_rpc()`: the enabled entries, in registration order. */
  function EnabledEntries<T>(items: ODict<string, T>, enabled: T -> bool): (r: ODict<string, T>)
    ensures |r| <= |items|
    ensures forall k :: 0 <= k < |r| ==> enabled(r[k].1)
    decreases |items|
  {
    if items == [] then []
    else
      var rest := EnabledEntries(items[1..], enabled);
      if enabled(items[0].1) then [items[0]] + rest else rest
  }

  /** The registry positions of the enabled entries, counted from `base`. */
  function Positions<T>(items: ODict<string, T>, enabled: T -> bool, base: nat): (pos: seq<nat>)
    ensures |pos| == |EnabledEntries(items, enabled)|
    decreases |items|
  {
    if items == [] then []
    else
      var rest := Positions(items[1..], enabled, base + 1);
      if enabled(items[0].1) then [base] + rest else rest
  }

  /** Entry `k` of `iter_rpc` is the registry entry at the `k`-th position. */
  lemma {:induction false} PositionsMatch<T>(items: ODict<string, T>, enabled: T -> bool, base: nat)
    ensures forall k :: 0 <= k < |Positions(items, enabled, base)| ==>
      var p := Positions(items, enabled, base)[k];
      base <= p < base + |items| && EnabledEntries(items, enabled)[k] == items[p - base]
    decreases |items|
  {
    if items != [] {
      PositionsMatch(items[1..], enabled, base + 1);
    }
  }

  /** The positions increase: `iter_rpc` keeps the registry's order. */
  lemma {:induction false} PositionsIncrease<T>(items: ODict<string, T>, enabled: T -> bool, base: nat)
    ensures forall k, l :: 0 <= k < l < |Positions(items, enabled, base)| ==>
      Positions(items, enabled, base)[k] < Positions(items, enabled, base)[l]
    decreases |items|
  {
    if items != [] {
      PositionsIncrease(items[1..], enabled, base + 1);
      PositionsMatch(items[1..], enabled, base + 1);
    }
  }

  /** Every enabled entry is at one of the positions: `iter_rpc` skips only disabled ones. */
  lemma {:induction false} PositionsComplete<T>(items: ODict<string, T>, enabled: T -> bool, base: nat, j: nat)
    requires j < |items| && enabled(items[j].1)
    ensures base + j in Positions(items, enabled, base)
    decreases |items|
  {
    if j > 0 {
      assert items[1..][j - 1] == items[j];
      PositionsComplete(items[1..], enabled, base + 1, j - 1);
    }
  }

  /** `ObjectsRegistry`: objects by alias, in registration order. */
  class ObjectsRegistry<T> {
    /** `obj.alias` */
    const aliasOf: T -> string
    /** `obj.can_handle(string)`; false for an object without that method. */
    const handles: (T, string) -> bool
    var items: ODict<string, T>

    /** No alias is registered twice. */
    ghost predicate Valid()
      reads this
    {
      DistinctKeys(items)
    }

    constructor (aliasOf: T -> string, handles: (T, string) -> bool)
      ensures Valid()
      ensures items == []
      ensures this.aliasOf == aliasOf && this.handles == handles
    {
      this.aliasOf := aliasOf;
      this.handles := handles;
      items := [];
    }

    /** `add(obj)`: registers the object under its alias; a second object with the same alias
      takes the first one's place, and the other entries stay. */
    method Add(obj: T)
      requires Valid()
      modifies this
      ensures Valid()
      ensures items == Put(old(items), aliasOf(obj), obj)
      ensures Lookup(items, aliasOf(obj)) == Some(obj)
      ensures forall a :: a != aliasOf(obj) ==> Lookup(items, a) == Lookup(old(items), a)
      ensures Keys(items) == if aliasOf(obj) in Keys(old(items)) then Keys(old(items)) else Keys(old(items)) + [aliasOf(obj)]
    {
      items := Put(items, aliasOf(obj), obj);
    }

    /** `get(alias)`: the object registered under the alias, or `None`. */
    function Get(alias: string): (r: Option<T>)
      requires Valid()
      reads this
      ensures r.None? <==> forall i :: 0 <= i < |items| ==> items[i].0 != alias
      ensures r.Some? ==> exists i :: 0 <= i < |items| && items[i] == (alias, r.value)
    {
      var r := Lookup(items, alias);
      if r.Some? then
        var i := IndexOf(Keys(items), alias);
        LookupAt(items, i);
        r
      else
        r
    }

    /** `get()` without an alias: the whole registry. */
    function GetAll(): ODict<string, T>
      reads this
    {
      items
    }

    /** `get_for_string(string)`: walks the registry in order and returns the first object that
      can handle the string, or else the object registered under the first alias the string
      contains. */
    method GetForString(s: string) returns (r: Option<T>)
      requires Valid()
      ensures r == ForString(items, handles, s)
    {
      for i := 0 to |items|
        invariant FirstMatch(items, handles, s, 0) == FirstMatch(items, handles, s, i)
      {
        var (name, obj) := items[i];
        if handles(obj, s) {
          return Some(obj);
        } else if Contains(s, name) {
          LookupAt(items, i);
          return Some(Lookup(items, name).value);
        }
      }
      return None;
    }
  }

  /** `get_for_string` returns the object of the leftmost matching entry, and `None` exactly
      when no entry matches. */
  lemma ForStringSpec<T>(items: ODict<string, T>, handles: (T, string) -> bool, s: string)
    ensures ForString(items, handles, s).None? <==> forall j :: 0 <= j < |items| ==> !Matches(items[j], handles, s)
    ensures ForString(items, handles, s).Some? ==>
      exists i :: 0 <= i < |items| && Matches(items[i], handles, s) && ForString(items, handles, s) == Some(items[i].1)
        && forall j :: 0 <= j < i ==> !Matches(items[j], handles, s)
  {
  }
}
