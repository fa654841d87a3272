/** The anilibria.tv tracker: from the release API's answer, pick the most recent batch of
    episodes and, within it, the download link of the preferred quality. */
module Anilibria {
  import opened Wrappers
  import opened Errors
  import opened Text
  import opened OrderedDict

  const HOST: string := "https://www.anilibria.tv"
  const RELEASE_PREFIX: string := HOST + "/release/"
  const PAGE_SUFFIX: string := ".html"
  const DEFAULT_PREFS: seq<string> := ["HDTVRip 1080p", "HDTVRip 720p", "WEBRip 720p"]

  /** One torrent of a release: its episode range (`series`), quality label and relative URL. */
  datatype Variant = Variant(series: string, quality: Option<string>, url: string)

  /** The decoded answer of the release API: the truthiness of `status` (false when the key
      is missing) and `data.torrents`. */
  datatype Release = Release(status: bool, torrents: seq<Variant>)

  // ---------------------------------------------------------------------------
  // Release code

  /** `s.replace(pat, '')`: every non-overlapping occurrence, scanned left to right, removed. */
  function RemoveAll(s: string, pat: string): string
    requires pat != []
    decreases |s|
  {
    if pat <= s then RemoveAll(s[|pat|..], pat)
    else if s == [] then []
    else [s[0]] + RemoveAll(s[1..], pat)
  }

  /** The release code in a release page URL. */
  function ExtractReleaseCode(url: string): string {
    RemoveAll(RemoveAll(url, RELEASE_PREFIX), PAGE_SUFFIX)
  }

  lemma {:induction false} RemoveAllAbsent(s: string, pat: string)
    requires pat != []
    requires forall i :: !OccursAt(s, pat, i)
    ensures RemoveAll(s, pat) == s
    decreases |s|
  {
    assert !OccursAt(s, pat, 0);
    if s != [] {
      forall i ensures !OccursAt(s[1..], pat, i) {
        if OccursAt(s[1..], pat, i) {
          assert s[1..][i..i + |pat|] == s[i + 1..i + 1 + |pat|];
          assert OccursAt(s, pat, i + 1);
        }
      }
      RemoveAllAbsent(s[1..], pat);
      assert [s[0]] + s[1..] == s;
    }
  }

  lemma {:induction false} RemoveSuffix(code: string)
    requires '.' !in code
    ensures RemoveAll(code + PAGE_SUFFIX, PAGE_SUFFIX) == code
    decreases |code|
  {
    var s := code + PAGE_SUFFIX;
    if code == [] {
      assert s == PAGE_SUFFIX;
      assert s[|PAGE_SUFFIX|..] == [];
    } else {
      assert s[0] == code[0] != '.';
      assert !(PAGE_SUFFIX <= s);
      assert s[1..] == code[1..] + PAGE_SUFFIX;
      RemoveSuffix(code[1..]);
      assert [code[0]] + code[1..] == code;
    }
  }

  /** A release page URL built from a code without `.` or `:` gives that code back. */
  lemma ExtractReleaseCodeOfPage(code: string)
    requires '.' !in code && ':' !in code
    ensures ExtractReleaseCode(RELEASE_PREFIX + code + PAGE_SUFFIX) == code
  {
    var url := RELEASE_PREFIX + code + PAGE_SUFFIX;
    var rest := code + PAGE_SUFFIX;
    assert url == RELEASE_PREFIX + rest;
    assert RELEASE_PREFIX <= url;
    assert url[|RELEASE_PREFIX|..] == rest;
    forall i ensures !OccursAt(rest, RELEASE_PREFIX, i) {
      if 0 <= i && i + |RELEASE_PREFIX| <= |rest| {
        assert rest[i + 5] == code[i + 5];
        assert rest[i..i + |RELEASE_PREFIX|][5] == rest[i + 5] != ':';
      }
    }
    RemoveAllAbsent(rest, RELEASE_PREFIX);
    RemoveSuffix(code);
  }

  lemma ExtractReleaseCodeExample()
    ensures ExtractReleaseCode("https://www.anilibria.tv/release/kabukichou-sherlock.html")
         == "kabukichou-sherlock"
  {
    var code := "kabukichou-sherlock";
    assert forall k :: 0 <= k < |code| ==> code[k] != '.' && code[k] != ':';
    assert "https://www.anilibria.tv/release/kabukichou-sherlock.html"
        == RELEASE_PREFIX + code + PAGE_SUFFIX;
    ExtractReleaseCodeOfPage(code);
  }

  // ---------------------------------------------------------------------------
  // Quality keys

  /** A character that survives `sanitize_quality`: a lower-case letter or a digit. */
  predicate IsKeyChar(c: char) { IsDigit(c) || IsLowerLetter(c) }

  /** Drop non-word characters and underscores, then lower-case. */
  function Clean(s: string): (r: string)
    ensures |r| <= |s|
    ensures forall k :: 0 <= k < |r| ==> IsKeyChar(r[k])
    decreases |s|
  {
    if s == [] then []
    else (if IsAlnum(s[0]) then [Lower(s[0])] else []) + Clean(s[1..])
  }

  /** `sanitize_quality`: the comparison key of a quality label; `None` and `''` give `''`. */
  function SanitizeQuality(quality: Option<string>): (r: string)
    ensures quality.None? || quality == Some("") ==> r == ""
    ensures forall k :: 0 <= k < |r| ==> IsKeyChar(r[k])
  {
    if quality.Some? && quality.value != "" then Clean(quality.value) else ""
  }

  lemma {:induction false} CleanAppend(a: string, b: string)
    ensures Clean(a + b) == Clean(a) + Clean(b)
    decreases |a|
  {
    if a != [] {
      assert (a + b)[1..] == a[1..] + b;
      CleanAppend(a[1..], b);
    } else {
      assert a + b == b;
    }
  }

  lemma {:induction false} CleanFixpoint(s: string)
    requires forall k :: 0 <= k < |s| ==> IsKeyChar(s[k])
    ensures Clean(s) == s
    decreases |s|
  {
    if s != [] {
      CleanFixpoint(s[1..]);
      assert [s[0]] + s[1..] == s;
    }
  }

  /** Sanitizing twice is sanitizing once. */
  lemma SanitizeIdempotent(quality: Option<string>)
    ensures SanitizeQuality(Some(SanitizeQuality(quality))) == SanitizeQuality(quality)
  {
    CleanFixpoint(SanitizeQuality(quality));
  }

  /** Separators (spaces, hyphens, underscores, punctuation) do not affect the key. */
  lemma SanitizeIgnoresSeparator(a: string, sep: char, b: string)
    requires !IsAlnum(sep)
    ensures SanitizeQuality(Some(a + [sep] + b)) == SanitizeQuality(Some(a + b))
  {
    CleanIgnoresSeparator(a, sep, b);
    if a + b == [] {
      assert Clean(a + b) == [];
    }
  }

  lemma CleanIgnoresSeparator(a: string, sep: char, b: string)
    requires !IsAlnum(sep)
    ensures Clean(a + [sep] + b) == Clean(a + b)
  {
    assert Clean([sep]) == [] by { assert [sep][1..] == []; }
    CleanAppend(a, [sep]);
    CleanAppend(a + [sep], b);
    CleanAppend(a, b);
  }

  /** `WEBRip 1080p`, `WEBRip-1080p` and `WEBRip_1080p` all give the key `webrip1080p`. */
  lemma SanitizeExample(word: string, num: string, sep: char)
    requires word == "WEBRip" && num == "1080p"
    requires sep == ' ' || sep == '-' || sep == '_'
    ensures SanitizeQuality(Some(word + [sep] + num)) == "webrip1080p"
  {
    assert Clean(word) == "webrip" by {
      assert Clean("p") == "p";
      assert Clean("ip") == "ip";
      assert Clean("Rip") == "rip";
      assert Clean("BRip") == "brip";
      assert Clean("EBRip") == "ebrip";
    }
    CleanFixpoint(num);
    CleanAppend(word, num);
    SanitizeIgnoresSeparator(word, sep, num);
  }

  // ---------------------------------------------------------------------------
  // Episode ranges

  /** The length of the run of digits at the start of `s`. */
  function LeadingDigits(s: string): (n: nat)
    ensures n <= |s|
    ensures forall k :: 0 <= k < n ==> IsDigit(s[k])
    ensures n < |s| ==> !IsDigit(s[n])
    decreases |s|
  {
    if s != [] && IsDigit(s[0]) then 1 + LeadingDigits(s[1..]) else 0
  }

  /** The pattern matches with its run of leading digits ending at `i`. */
  predicate RangeAt(s: string, i: int) {
    && 1 <= i && i + 1 < |s| && s[i] == '-' && IsDigit(s[i + 1])
    && forall k :: 0 <= k < i ==> IsDigit(s[k])
  }

  /** `REGEX_RANGE.match(s)`: `s` starts with digits, a hyphen and a digit. The match is
      anchored at the start only, so anything may follow. */
  predicate RangeMatch(s: string) {
    RangeAt(s, LeadingDigits(s))
  }

  /** The pattern matches exactly when some run of leading digits is followed by `-` and a
      digit. */
  lemma RangeMatchIff(s: string)
    ensures RangeMatch(s) <==> exists i :: RangeAt(s, i)
  {
    var n := LeadingDigits(s);
    forall i | RangeAt(s, i) ensures i == n {
      assert i >= n;
      assert i <= n;
    }
  }

  /** `to_tuple`: split on `-` and convert every part with `int`; `None` where Python raises
      `ValueError`. */
  function ToTuple(rangeStr: string): Option<seq<int>> {
    TryMap(Split(rangeStr, '-'), ParseInt)
  }

  /** `to_tuple('A-B') == (A, B)` for natural numbers written in decimal. */
  lemma ToTupleOfRange(a: nat, b: nat)
    ensures ToTuple(NatToString(a) + "-" + NatToString(b)) == Some([a, b])
  {
    var sa, sb := NatToString(a), NatToString(b);
    assert '-' !in sa && '-' !in sb by {
      assert forall k :: 0 <= k < |sa| ==> IsDigit(sa[k]);
      assert forall k :: 0 <= k < |sb| ==> IsDigit(sb[k]);
    }
    var parts := [sa, sb];
    assert Join(parts, '-') == sa + "-" + sb;
    SplitJoin(parts, '-');
    ParseIntOfIntToString(a);
    ParseIntOfIntToString(b);
    assert ParseInt(parts[0]) == Some(a) && ParseInt(parts[1]) == Some(b);
    var r := TryMap(parts, ParseInt);
    assert r.Some?;
    assert r.value == [a, b];
  }

  lemma ToTupleExample()
    ensures ToTuple("1-10") == Some([1, 10])
  {
    ToTupleOfRange(1, 10);
    assert NatToString(1) + "-" + NatToString(10) == "1-10";
  }

  /** Python's `<` on tuples of integers: lexicographic, a proper prefix being smaller. */
  predicate TupleLess(a: seq<int>, b: seq<int>)
    decreases |a|
  {
    if a == [] then b != []
    else if b == [] then false
    else if a[0] != b[0] then a[0] < b[0]
    else TupleLess(a[1..], b[1..])
  }

  lemma {:induction false} TupleLessIrreflexive(a: seq<int>)
    ensures !TupleLess(a, a)
    decreases |a|
  {
    if a != [] { TupleLessIrreflexive(a[1..]); }
  }

  lemma {:induction false} TupleLessTransitive(a: seq<int>, b: seq<int>, c: seq<int>)
    requires TupleLess(a, b) && TupleLess(b, c)
    ensures TupleLess(a, c)
    decreases |a|
  {
    if a != [] && b != [] && c != [] && a[0] == b[0] && b[0] == c[0] {
      TupleLessTransitive(a[1..], b[1..], c[1..]);
    }
  }

  lemma {:induction false} TupleLessAsymmetric(a: seq<int>, b: seq<int>)
    requires TupleLess(a, b)
    ensures !TupleLess(b, a)
    decreases |a|
  {
    if a != [] && b != [] && a[0] == b[0] {
      TupleLessAsymmetric(a[1..], b[1..]);
    }
  }

  /** Distinct tuples are comparable. */
  lemma {:induction false} TupleLessTotal(a: seq<int>, b: seq<int>)
    requires a != b
    ensures TupleLess(a, b) || TupleLess(b, a)
    decreases |a|
  {
    if a != [] && b != [] && a[0] == b[0] {
      assert a == [a[0]] + a[1..] && b == [b[0]] + b[1..];
      TupleLessTotal(a[1..], b[1..]);
    }
  }

  /** The index of the first largest tuple. */
  function FirstMax(ts: seq<seq<int>>): (m: nat)
    requires ts != []
    ensures m < |ts|
    ensures forall j :: 0 <= j < |ts| ==> !TupleLess(ts[m], ts[j])
    ensures forall j :: 0 <= j < m ==> TupleLess(ts[j], ts[m])
    decreases |ts|
  {
    if |ts| == 1 then
      TupleLessIrreflexive(ts[0]);
      0
    else
      var init := ts[..|ts| - 1];
      var b := FirstMax(init);
      var last := |ts| - 1;
      assert forall j :: 0 <= j < last ==> ts[j] == init[j];
      if TupleLess(ts[b], ts[last]) then
        forall j | 0 <= j < last ensures TupleLess(ts[j], ts[last]) {
          if ts[j] != ts[b] {
            TupleLessTotal(ts[b], ts[j]);
            TupleLessTransitive(ts[j], ts[b], ts[last]);
          }
        }
        forall j | 0 <= j < |ts| ensures !TupleLess(ts[last], ts[j]) {
          if j == last {
            TupleLessIrreflexive(ts[last]);
          } else {
            TupleLessAsymmetric(ts[j], ts[last]);
          }
        }
        last
      else
        b
  }

  /** `sorted(keys, key=to_tuple, reverse=True)[0]`. Every key is converted first, so one
      malformed key raises `ValueError`; no key at all raises `IndexError`; Python's sort is
      stable under `reverse=True`, so among equal tuples the first-seen key comes first. */
  function LatestSeries(keys: seq<string>): (r: Result<string, Failure>)
    ensures r == Err(ValueError) <==> exists k :: 0 <= k < |keys| && ToTuple(keys[k]).None?
    ensures r == Err(IndexError) <==> keys == []
    ensures r.Ok? ==> exists m ::
      && 0 <= m < |keys| && keys[m] == r.value
      && (forall j :: 0 <= j < |keys| ==> !TupleLess(ToTuple(keys[m]).value, ToTuple(keys[j]).value))
      && (forall j :: 0 <= j < m ==> TupleLess(ToTuple(keys[j]).value, ToTuple(keys[m]).value))
  {
    match TryMap(keys, ToTuple)
    case None => Err(ValueError)
    case Some(ts) =>
      if keys == [] then Err(IndexError)
      else
        var m := FirstMax(ts);
        Ok(keys[m])
  }

  // ---------------------------------------------------------------------------
  // Grouping by series

  /** The distinct range series in the order they are first seen: the keys of
      `series2torrents`. */
  function SeriesOrder(ts: seq<Variant>): (keys: seq<string>)
    ensures forall k :: 0 <= k < |keys| ==> RangeMatch(keys[k])
    ensures forall i, j :: 0 <= i < j < |keys| ==> keys[i] != keys[j]
    decreases |ts|
  {
    if ts == [] then []
    else
      var keys := SeriesOrder(ts[..|ts| - 1]);
      var s := ts[|ts| - 1].series;
      if RangeMatch(s) && s !in keys then keys + [s] else keys
  }

  /** The series keys are exactly the range series of the torrents. */
  lemma {:induction false} SeriesOrderMembers(ts: seq<Variant>, s: string)
    ensures s in SeriesOrder(ts) <==> RangeMatch(s) && exists i :: 0 <= i < |ts| && ts[i].series == s
    decreases |ts|
  {
    if ts != [] {
      var init := ts[..|ts| - 1];
      SeriesOrderMembers(init, s);
      assert forall i :: 0 <= i < |init| ==> init[i] == ts[i];
      if s == ts[|ts| - 1].series {
        assert ts[|ts| - 1].series == s;
      } else if exists i :: 0 <= i < |ts| && ts[i].series == s {
        var i :| 0 <= i < |ts| && ts[i].series == s;
        assert init[i].series == s;
      }
    }
  }

  /** The torrents of series `key`, in their original order: `series2torrents[key]`. */
  function SameSeries(ts: seq<Variant>, key: string): (g: seq<Variant>)
    ensures forall k :: 0 <= k < |g| ==> g[k].series == key
    decreases |ts|
  {
    if ts == [] then []
    else
      var g := SameSeries(ts[..|ts| - 1], key);
      if ts[|ts| - 1].series == key then g + [ts[|ts| - 1]] else g
  }

  /** The loop that fills `series2torrents`. */
  method GroupBySeries(ts: seq<Variant>) returns (groups: ODict<string, seq<Variant>>)
    ensures Keys(groups) == SeriesOrder(ts)
    ensures forall key :: key in Keys(groups) ==> Lookup(groups, key) == Some(SameSeries(ts, key))
  {
    groups := [];
    var i := 0;
    while i < |ts|
      invariant 0 <= i <= |ts|
      invariant Keys(groups) == SeriesOrder(ts[..i])
      invariant forall key :: key in Keys(groups) ==> Lookup(groups, key) == Some(SameSeries(ts[..i], key))
    {
      var t := ts[i];
      assert ts[..i + 1][..i] == ts[..i];
      if RangeMatch(t.series) {
        var current := match Lookup(groups, t.series) case Some(g) => g case None => [];
        assert current == SameSeries(ts[..i], t.series) by {
          if t.series !in Keys(groups) {
            SeriesOrderMembers(ts[..i], t.series);
            SameSeriesAbsent(ts[..i], t.series);
          }
        }
        groups := Put(groups, t.series, current + [t]);
      }
      i := i + 1;
    }
    assert ts[..i] == ts;
  }

  lemma {:induction false} SameSeriesAbsent(ts: seq<Variant>, key: string)
    requires forall j :: 0 <= j < |ts| ==> ts[j].series != key
    ensures SameSeries(ts, key) == []
    decreases |ts|
  {
    if ts != [] {
      SameSeriesAbsent(ts[..|ts| - 1], key);
    }
  }

  // ---------------------------------------------------------------------------
  // Qualities of the chosen batch

  /** The key a torrent is stored under. */
  function QualityKey(v: Variant): string {
    SanitizeQuality(v.quality)
  }

  /** `available_qualities` after the loop over `group`: `HOST + url` under each quality key,
      a later torrent overwriting an earlier one with the same key in place. */
  function Qualities(group: seq<Variant>): (d: ODict<string, string>)
    ensures DistinctKeys(d)
    decreases |group|
  {
    if group == [] then []
    else
      var t := group[|group| - 1];
      Put(Qualities(group[..|group| - 1]), QualityKey(t), HOST + t.url)
  }

  /** The loop that fills `available_qualities`. */
  method CollectQualities(group: seq<Variant>) returns (available: ODict<string, string>)
    ensures available == Qualities(group)
  {
    available := [];
    var i := 0;
    while i < |group|
      invariant 0 <= i <= |group|
      invariant available == Qualities(group[..i])
    {
      assert group[..i + 1][..i] == group[..i];
      var quality := SanitizeQuality(group[i].quality);
      available := Put(available, quality, HOST + group[i].url);
      i := i + 1;
    }
    assert group[..i] == group;
  }

  /** The index of the last torrent of `group` with quality key `key`, or -1. */
  function LastWithKey(group: seq<Variant>, key: string): (j: int)
    ensures -1 <= j < |group|
    ensures j >= 0 ==> QualityKey(group[j]) == key
    ensures forall j' :: j < j' < |group| ==> QualityKey(group[j']) != key
    decreases |group|
  {
    if group == [] then -1
    else if QualityKey(group[|group| - 1]) == key then |group| - 1
    else LastWithKey(group[..|group| - 1], key)
  }

  /** The table holds, under each key, the link of the last torrent with that key. */
  lemma {:induction false} QualitiesLast(group: seq<Variant>, key: string)
    ensures var j := LastWithKey(group, key);
      Lookup(Qualities(group), key) == if j < 0 then None else Some(HOST + group[j].url)
    decreases |group|
  {
    if group != [] {
      var n := |group| - 1;
      QualitiesStep(group, key);
      if QualityKey(group[n]) != key {
        QualitiesLast(group[..n], key);
        var j := LastWithKey(group[..n], key);
        if j >= 0 {
          assert group[..n][j] == group[j];
        }
      }
    }
  }

  /** Each key's link is the one of the LAST torrent of the batch with that key. */
  lemma QualitiesLookup(group: seq<Variant>, key: string)
    ensures Lookup(Qualities(group), key).Some? <==>
      exists j :: 0 <= j < |group| && QualityKey(group[j]) == key
    ensures Lookup(Qualities(group), key).Some? ==>
      exists j :: 0 <= j < |group| && QualityKey(group[j]) == key &&
        Lookup(Qualities(group), key).value == HOST + group[j].url &&
        forall j' :: j < j' < |group| ==> QualityKey(group[j']) != key
  {
    QualitiesLast(group, key);
  }

  /** The last torrent of the batch decides its own key; the others keep their links. */
  lemma QualitiesStep(group: seq<Variant>, key: string)
    requires group != []
    ensures var n := |group| - 1;
      Lookup(Qualities(group), key)
        == if QualityKey(group[n]) == key then Some(HOST + group[n].url) else Lookup(Qualities(group[..n]), key)
  {
    var n := |group| - 1;
    var t := group[n];
    var prior := Qualities(group[..n]);
    var d := Put(prior, QualityKey(t), HOST + t.url);
    assert Qualities(group) == d;
    if QualityKey(t) != key && key !in Keys(prior) {
      assert Keys(d) == Keys(prior) || Keys(d) == Keys(prior) + [QualityKey(t)];
      assert key !in Keys(d);
    }
  }

  /** The first entry, the fallback of `get_download_link`, is keyed by the first torrent's
      quality. */
  lemma {:induction false} QualitiesFirstKey(group: seq<Variant>)
    requires group != []
    ensures Qualities(group) != [] && Qualities(group)[0].0 == QualityKey(group[0])
    decreases |group|
  {
    if |group| > 1 {
      var init := group[..|group| - 1];
      QualitiesFirstKey(init);
      assert init[0] == group[0];
      assert Keys(Qualities(init))[0] == QualityKey(group[0]);
    }
  }

  /** Every link is `HOST` followed by a torrent's relative URL. */
  lemma {:induction false} QualitiesLinks(group: seq<Variant>)
    ensures forall i :: 0 <= i < |Qualities(group)| ==> HOST <= Qualities(group)[i].1
    decreases |group|
  {
    if group != [] {
      var init := group[..|group| - 1];
      QualitiesLinks(init);
      var d := Qualities(group);
      forall i | 0 <= i < |d| ensures HOST <= d[i].1 {
        LookupAt(d, i);
        var key := d[i].0;
        var t := group[|group| - 1];
        if key != QualityKey(t) {
          assert key in Keys(Qualities(init));
          var i' := IndexOf(Keys(Qualities(init)), key);
          LookupAt(Qualities(init), i');
        } else {
          assert HOST <= HOST + t.url;
        }
      }
    }
  }

  // ---------------------------------------------------------------------------
  // find_available_qualities

  /** What `find_available_qualities` returns or raises for a decoded API answer. */
  function AvailableQualities(release: Release): Result<ODict<string, string>, Failure> {
    if !release.status then Ok([])
    else
      match LatestSeries(SeriesOrder(release.torrents))
      case Err(e) => Err(e)
      case Ok(latest) => Ok(Qualities(SameSeries(release.torrents, latest)))
  }

  method FindAvailableQualities(release: Release) returns (r: Result<ODict<string, string>, Failure>)
    ensures r == AvailableQualities(release)
    ensures !release.status ==> r == Ok([])
  {
    if !release.status {
      return Ok([]);
    }
    var groups := GroupBySeries(release.torrents);
    var latest :- LatestSeries(Keys(groups));
    var group := Lookup(groups, latest).value;
    var available := CollectQualities(group);
    return Ok(available);
  }

  lemma {:induction false} SeriesOrderRangeOnly(ts: seq<Variant>)
    ensures SeriesOrder(ts) == SeriesOrder(RangeOnly(ts))
    decreases |ts|
  {
    if ts != [] {
      var init := ts[..|ts| - 1];
      var t := ts[|ts| - 1];
      var r := RangeOnly(init);
      SeriesOrderRangeOnly(init);
      if RangeMatch(t.series) {
        assert RangeOnly(ts) == r + [t];
        assert (r + [t])[..|r|] == r;
      } else {
        assert RangeOnly(ts) == r + [];
        assert r + [] == r;
      }
    }
  }

  lemma {:induction false} SameSeriesRangeOnly(ts: seq<Variant>, key: string)
    requires RangeMatch(key)
    ensures SameSeries(ts, key) == SameSeries(RangeOnly(ts), key)
    decreases |ts|
  {
    if ts != [] {
      var init := ts[..|ts| - 1];
      var t := ts[|ts| - 1];
      var r := RangeOnly(init);
      SameSeriesRangeOnly(init, key);
      if RangeMatch(t.series) {
        assert RangeOnly(ts) == r + [t];
        assert (r + [t])[..|r|] == r;
      } else {
        assert RangeOnly(ts) == r + [];
        assert r + [] == r;
        assert t.series != key;
      }
    }
  }

  /** The torrents whose series is an episode range. */
  function RangeOnly(ts: seq<Variant>): (r: seq<Variant>)
    ensures forall k :: 0 <= k < |r| ==> RangeMatch(r[k].series)
    decreases |ts|
  {
    if ts == [] then []
    else
      var t := ts[|ts| - 1];
      RangeOnly(ts[..|ts| - 1]) + (if RangeMatch(t.series) then [t] else [])
  }

  /** Torrents whose series is not an episode range (trailers and the like) change nothing. */
  lemma NonRangeTorrentsIgnored(release: Release)
    ensures AvailableQualities(release)
         == AvailableQualities(Release(release.status, RangeOnly(release.torrents)))
  {
    var ts := release.torrents;
    SeriesOrderRangeOnly(ts);
    if release.status {
      var r := LatestSeries(SeriesOrder(ts));
      if r.Ok? {
        var m :| 0 <= m < |SeriesOrder(ts)| && SeriesOrder(ts)[m] == r.value;
        SameSeriesRangeOnly(ts, r.value);
      }
    }
  }

  /** What the chosen batch is: a range series of the release whose tuple no other range
      series exceeds. */
  lemma AvailableQualitiesChoice(release: Release)
    requires release.status && AvailableQualities(release).Ok?
    ensures var ts := release.torrents;
      var latest := LatestSeries(SeriesOrder(ts)).value;
      && RangeMatch(latest)
      && (exists i :: 0 <= i < |ts| && ts[i].series == latest)
      && ToTuple(latest).Some?
      && (forall i :: 0 <= i < |ts| && RangeMatch(ts[i].series) ==>
            ToTuple(ts[i].series).Some? &&
            !TupleLess(ToTuple(latest).value, ToTuple(ts[i].series).value))
      && AvailableQualities(release) == Ok(Qualities(SameSeries(ts, latest)))
  {
    var ts := release.torrents;
    var keys := SeriesOrder(ts);
    var latest := LatestSeries(keys).value;
    var m :| 0 <= m < |keys| && keys[m] == latest &&
      (forall j :: 0 <= j < |keys| ==> !TupleLess(ToTuple(keys[m]).value, ToTuple(keys[j]).value));
    SeriesOrderMembers(ts, latest);
    forall i | 0 <= i < |ts| && RangeMatch(ts[i].series)
      ensures ToTuple(ts[i].series).Some?
      ensures !TupleLess(ToTuple(latest).value, ToTuple(ts[i].series).value)
    {
      var s := ts[i].series;
      SeriesOrderMembers(ts, s);
      var j :| 0 <= j < |keys| && keys[j] == s;
    }
  }

  /** A release with a true status and no episode-range torrent raises `IndexError`. */
  lemma NoRangeSeriesRaises(ts: seq<Variant>)
    requires forall i :: 0 <= i < |ts| ==> !RangeMatch(ts[i].series)
    ensures AvailableQualities(Release(true, ts)) == Err(IndexError)
  {
    SeriesOrderNone(ts);
  }

  lemma {:induction false} SeriesOrderNone(ts: seq<Variant>)
    requires forall i :: 0 <= i < |ts| ==> !RangeMatch(ts[i].series)
    ensures SeriesOrder(ts) == []
    decreases |ts|
  {
    if ts != [] {
      SeriesOrderNone(ts[..|ts| - 1]);
    }
  }

  /** `1-20x` passes the anchored range match, then `int('20x')` raises `ValueError`. */
  lemma TrailingGarbageRaises(quality: Option<string>, url: string)
    ensures RangeMatch("1-20x")
    ensures AvailableQualities(Release(true, [Variant("1-20x", quality, url)])) == Err(ValueError)
  {
    var s := "1-20x";
    TrailingGarbageMatches();
    TrailingGarbageNotTuple();
    var ts := [Variant(s, quality, url)];
    assert ts[..0] == [];
    assert SeriesOrder(ts) == [s];
  }

  lemma TrailingGarbageMatches()
    ensures RangeMatch("1-20x")
  {
    var s := "1-20x";
    assert LeadingDigits(s) == 1 by {
      assert LeadingDigits(s[1..]) == 0;
    }
  }

  lemma TrailingGarbageNotTuple()
    ensures ToTuple("1-20x").None?
  {
    var s := "1-20x";
    assert Split(s, '-') == ["1", "20x"] by {
      assert Join(["1", "20x"], '-') == s;
      SplitJoin(["1", "20x"], '-');
    }
    assert ParseInt("20x").None? by {
      assert Strip("20x") == "20x" by {
        assert StripLeft("20x") == "20x";
        assert StripRight("20x") == "20x";
      }
      assert !IsDigitGroup("20x");
    }
  }

  lemma {:induction false} LeadingDigitsOfDigits(ds: string, rest: string)
    requires forall k :: 0 <= k < |ds| ==> IsDigit(ds[k])
    requires rest != [] && !IsDigit(rest[0])
    ensures LeadingDigits(ds + rest) == |ds|
    decreases |ds|
  {
    if ds != [] {
      assert (ds + rest)[1..] == ds[1..] + rest;
      LeadingDigitsOfDigits(ds[1..], rest);
    } else {
      assert ds + rest == rest;
    }
  }

  /** `A-B` written in decimal passes the range match and converts to `(A, B)`. */
  lemma RangeOfNats(a: nat, b: nat)
    ensures RangeMatch(NatToString(a) + "-" + NatToString(b))
    ensures ToTuple(NatToString(a) + "-" + NatToString(b)) == Some([a, b])
  {
    var sa, sb := NatToString(a), NatToString(b);
    var s := sa + "-" + sb;
    assert s == sa + ("-" + sb);
    LeadingDigitsOfDigits(sa, "-" + sb);
    assert s[|sa|] == '-' && s[|sa| + 1] == sb[0];
    assert forall k :: 0 <= k < |sa| ==> s[k] == sa[k];
    ToTupleOfRange(a, b);
  }

  /** Of two keys, the one with the larger tuple is chosen whichever comes first. */
  lemma LatestOfTwo(x: string, y: string)
    requires ToTuple(x).Some? && ToTuple(y).Some?
    requires TupleLess(ToTuple(x).value, ToTuple(y).value)
    ensures LatestSeries([x, y]) == Ok(y) && LatestSeries([y, x]) == Ok(y)
  {
    TupleLessAsymmetric(ToTuple(x).value, ToTuple(y).value);
    var ts := TryMap([x, y], ToTuple).value;
    assert ts[0] == ToTuple(x).value && ts[1] == ToTuple(y).value;
    var ts' := TryMap([y, x], ToTuple).value;
    assert ts'[0] == ToTuple(y).value && ts'[1] == ToTuple(x).value;
  }

  lemma SeriesOrderOfTwo(first: Variant, second: Variant)
    requires RangeMatch(first.series) && RangeMatch(second.series)
    requires first.series != second.series
    ensures SeriesOrder([first, second]) == [first.series, second.series]
  {
    assert [first][..0] == [];
    assert SeriesOrder([first]) == [first.series];
    assert [first, second][..1] == [first];
  }

  /** Ranking is numeric: of two batches `A1-B1` and `A2-B2` with `(A1, B1) < (A2, B2)`, the
      second is chosen in either order (so `21-41` beats `1-20`, and `10-20` beats `9-30`). */
  lemma LaterBatchChosen(early: Variant, late: Variant, a1: nat, b1: nat, a2: nat, b2: nat)
    requires early.series == NatToString(a1) + "-" + NatToString(b1)
    requires late.series == NatToString(a2) + "-" + NatToString(b2)
    requires a1 < a2 || (a1 == a2 && b1 < b2)
    ensures LatestSeries(SeriesOrder([early, late])) == Ok(late.series)
    ensures LatestSeries(SeriesOrder([late, early])) == Ok(late.series)
  {
    RangeOfNats(a1, b1);
    RangeOfNats(a2, b2);
    assert TupleLess([a1, b1], [a2, b2]) by {
      assert [a1, b1][1..] == [b1] && [a2, b2][1..] == [b2];
    }
    assert early.series != late.series;
    SeriesOrderOfTwo(early, late);
    SeriesOrderOfTwo(late, early);
    LatestOfTwo(early.series, late.series);
  }

  /** Distinct keys with equal tuples (`01-20` and `1-20`): the first seen is chosen. */
  lemma TieKeepsFirst(x: string, y: string)
    requires ToTuple(x).Some? && ToTuple(x) == ToTuple(y)
    ensures LatestSeries([x, y]) == Ok(x)
  {
    TupleLessIrreflexive(ToTuple(x).value);
    var ts := TryMap([x, y], ToTuple).value;
    assert ts[0] == ToTuple(x).value && ts[1] == ToTuple(y).value;
  }

  // ---------------------------------------------------------------------------
  // get_download_link

  /** `quality_prefs` after the constructor: the defaults when none are given. */
  function QualityPrefs(prefs: Option<seq<string>>): seq<string> {
    if prefs.None? then DEFAULT_PREFS else prefs.value
  }

  /** The sanitised preference list without repetitions, first occurrence kept. */
  function SanitizedPrefs(prefs: seq<string>): (r: seq<string>)
    ensures forall q :: q in r <==> exists i :: 0 <= i < |prefs| && SanitizeQuality(Some(prefs[i])) == q
    ensures forall i, j :: 0 <= i < j < |r| ==> r[i] != r[j]
    decreases |prefs|
  {
    if prefs == [] then []
    else
      var init := prefs[..|prefs| - 1];
      var r := SanitizedPrefs(init);
      var q := SanitizeQuality(Some(prefs[|prefs| - 1]));
      assert forall i :: 0 <= i < |init| ==> init[i] == prefs[i];
      if q in r then r else r + [q]
  }

  /** `[quality for quality in quality_prefs if quality in available_qualities]`. */
  function Preferred(prefs: seq<string>, available: ODict<string, string>): (r: seq<string>)
    ensures forall q :: q in r <==> q in prefs && q in Keys(available)
    ensures prefs != [] && prefs[0] in Keys(available) ==> r != [] && r[0] == prefs[0]
    ensures prefs != [] && prefs[0] !in Keys(available) ==> r == Preferred(prefs[1..], available)
    decreases |prefs|
  {
    if prefs == [] then []
    else (if prefs[0] in Keys(available) then [prefs[0]] else []) + Preferred(prefs[1..], available)
  }

  /** The link chosen among `available` for a de-duplicated preference list. */
  function ChooseLink(prefs: seq<string>, available: ODict<string, string>): string {
    if available == [] then ""
    else
      var preferred := Preferred(prefs, available);
      if preferred == [] then available[0].1 else Lookup(available, preferred[0]).value
  }

  /** The link of the first preference that is available, else the first inserted entry,
      and `''` only when nothing is available. */
  lemma {:induction false} ChooseLinkSpec(prefs: seq<string>, available: ODict<string, string>, i: nat)
    requires i <= |prefs|
    requires forall j :: 0 <= j < i ==> prefs[j] !in Keys(available)
    ensures available == [] ==> ChooseLink(prefs, available) == ""
    ensures available != [] && i < |prefs| && prefs[i] in Keys(available) ==>
      ChooseLink(prefs, available) == Lookup(available, prefs[i]).value
    ensures available != [] && (forall q :: q in prefs ==> q !in Keys(available)) ==>
      ChooseLink(prefs, available) == available[0].1
    decreases i
  {
    if i > 0 {
      assert prefs[0] !in Keys(available);
      ChooseLinkSpec(prefs[1..], available, i - 1);
      assert Preferred(prefs, available) == Preferred(prefs[1..], available);
      assert forall q :: q in prefs[1..] ==> q in prefs;
    } else if available != [] && |prefs| > 0 && prefs[0] in Keys(available) {
      assert Preferred(prefs, available)[0] == prefs[0];
    } else if available != [] && (forall q :: q in prefs ==> q !in Keys(available)) {
      assert forall q :: q !in Preferred(prefs, available);
    }
  }

  /** With `hdtvrip1080p -> l1` and `webrip720p -> l2` available, preferring `WEBRip 720p`
      then `HDTVRip 1080p` gives `l2`: a preference beats insertion order. */
  lemma ChooseLinkExample(l1: string, l2: string)
    ensures ChooseLink(["webrip720p", "hdtvrip1080p"], [("hdtvrip1080p", l1), ("webrip720p", l2)]) == l2
  {
    var available := [("hdtvrip1080p", l1), ("webrip720p", l2)];
    assert Keys(available) == ["hdtvrip1080p", "webrip720p"];
    assert "webrip720p" in Keys(available);
    ChooseLinkSpec(["webrip720p", "hdtvrip1080p"], available, 0);
    LookupAt(available, 1);
  }

  /** What `get_download_link(url)` returns or raises, `fetch` standing for the API call with
      the release code. */
  function DownloadLink(prefs: seq<string>, url: string, fetch: string -> Result<Release, Failure>)
    : Result<string, Failure>
  {
    match fetch(ExtractReleaseCode(url))
    case Err(e) => Err(e)
    case Ok(release) =>
      match AvailableQualities(release)
      case Err(e) => Err(e)
      case Ok(available) => Ok(ChooseLink(SanitizedPrefs(prefs), available))
  }

  /** A successful lookup gives `''` exactly when no quality is available. */
  lemma DownloadLinkEmpty(prefs: seq<string>, url: string, fetch: string -> Result<Release, Failure>)
    requires DownloadLink(prefs, url, fetch).Ok?
    ensures DownloadLink(prefs, url, fetch).value == "" <==>
      AvailableQualities(fetch(ExtractReleaseCode(url)).value).value == []
  {
    var release := fetch(ExtractReleaseCode(url)).value;
    var available := AvailableQualities(release).value;
    if release.status && available != [] {
      var latest := LatestSeries(SeriesOrder(release.torrents)).value;
      QualitiesLinks(SameSeries(release.torrents, latest));
      var chosen := ChooseLink(SanitizedPrefs(prefs), available);
      var preferred := Preferred(SanitizedPrefs(prefs), available);
      if preferred != [] {
        var i := IndexOf(Keys(available), preferred[0]);
        LookupAt(available, i);
      }
      assert HOST <= chosen;
    }
  }

  /** The loop of `get_download_link` that sanitises the preferences and drops repeats. */
  method DedupePrefs(qualityPrefs: seq<string>) returns (prefs: seq<string>)
    ensures prefs == SanitizedPrefs(qualityPrefs)
  {
    prefs := [];
    var i := 0;
    while i < |qualityPrefs|
      invariant 0 <= i <= |qualityPrefs|
      invariant prefs == SanitizedPrefs(qualityPrefs[..i])
    {
      assert qualityPrefs[..i + 1][..i] == qualityPrefs[..i];
      var pref := SanitizeQuality(Some(qualityPrefs[i]));
      if pref !in prefs {
        prefs := prefs + [pref];
      }
      i := i + 1;
    }
    assert qualityPrefs[..i] == qualityPrefs;
  }

  class AnilibriaTracker {
    const qualityPrefs: seq<string>

    constructor (prefs: Option<seq<string>>)
      ensures qualityPrefs == QualityPrefs(prefs)
    {
      qualityPrefs := QualityPrefs(prefs);
    }

    /** `get_download_link`: errors of the fetch and of `find_available_qualities` propagate. */
    method GetDownloadLink(url: string, fetch: string -> Result<Release, Failure>)
      returns (r: Result<string, Failure>)
      ensures r == DownloadLink(qualityPrefs, url, fetch)
    {
      var release :- fetch(ExtractReleaseCode(url));
      var available :- FindAvailableQualities(release);
      if available == [] {
        return Ok("");
      }
      var prefs := DedupePrefs(qualityPrefs);
      var preferred := Preferred(prefs, available);
      if preferred == [] {
        return Ok(available[0].1);
      }
      return Ok(Lookup(available, preferred[0]).value);
    }
  }
}
