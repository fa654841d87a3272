/** What every RPC backend shares: renaming the client's torrent fields to torrt's names. */
module BaseRpc {
  import opened Wrappers
  import opened Json
  import opened Errors
  import opened Text

  /** `torrent_fields_map`: pairs (client name, torrt name) in declaration order. */
  type FieldsMap = seq<(string, string)>

  /** No torrt name is also a client name. */
  ghost predicate Disjoint(fm: FieldsMap) {
    forall i, j :: 0 <= i < |fm| && 0 <= j < |fm| ==> fm[i].1 != fm[j].0
  }

  /** No two client names are renamed to the same torrt name. */
  ghost predicate DistinctTargets(fm: FieldsMap) {
    forall i, j :: 0 <= i < j < |fm| ==> fm[i].1 != fm[j].1
  }

  ghost predicate IsTarget(fm: FieldsMap, k: string) {
    exists i :: 0 <= i < |fm| && fm[i].1 == k
  }

  /** `torrent_info` after `normalize_field_names`: for each pair in order, a present client
      field is copied under its torrt name; the client field stays. */
  function Normalized(fm: FieldsMap, info: Dict): Dict
    decreases |fm|
  {
    if fm == [] then info
    else
      var prev := Normalized(fm[..|fm| - 1], info);
      var (src, dst) := fm[|fm| - 1];
      if src in prev then prev[dst := prev[src]] else prev
  }

  /** `normalize_field_names` on any decoded value: a dict is renamed as above; for other
      values the `in` test raises `TypeError` (numbers, `None`, bytes), or finds nothing and
      leaves the value alone (strings and lists), or finds a client name and then raises
      `TypeError` on the item assignment. */
  function NormalizeAny(fm: FieldsMap, j: Json): (r: Result<Json, Failure>)
    ensures j.JObj? ==> r == Ok(JObj(Normalized(fm, j.fields)))
    ensures r.Err? ==> r.error == TypeError
    ensures r.Ok? && !j.JObj? ==> r.value == j
  {
    if fm == [] then Ok(j)
    else
      match j
      case JObj(m) => Ok(JObj(Normalized(fm, m)))
      case JStr(s) =>
        if exists i :: 0 <= i < |fm| && Contains(s, fm[i].0) then Err(TypeError) else Ok(j)
      case JList(xs) =>
        if exists i :: 0 <= i < |fm| && JStr(fm[i].0) in xs then Err(TypeError) else Ok(j)
      case _ => Err(TypeError)
  }

  /** `normalize_field_names`, updating the dict one pair at a time. */
  method NormalizeFieldNames(fm: FieldsMap, info: Dict) returns (r: Dict)
    ensures r == Normalized(fm, info)
  {
    r := info;
    for i := 0 to |fm|
      invariant r == Normalized(fm[..i], info)
    {
      assert fm[..i + 1][..i] == fm[..i];
      var (src, dst) := fm[i];
      if src in r {
        r := r[dst := r[src]];
      }
    }
    assert fm[..|fm|] == fm;
  }

  /** A field that is no pair's torrt name is untouched: present exactly when it was, with
      the same value. */
  lemma {:induction false} NormalizedOthers(fm: FieldsMap, info: Dict, k: string)
    requires !IsTarget(fm, k)
    ensures k in Normalized(fm, info) <==> k in info
    ensures k in info ==> Normalized(fm, info)[k] == info[k]
    decreases |fm|
  {
    if fm != [] {
      var init := fm[..|fm| - 1];
      assert !IsTarget(init, k) by {
        forall i | 0 <= i < |init| ensures init[i].1 != k {
          assert init[i] == fm[i];
        }
      }
      NormalizedOthers(init, info, k);
      assert fm[|fm| - 1].1 != k;
    }
  }

  /** With a disjoint map, every client name keeps its value, since no pair writes it. */
  lemma NormalizedKeepsSources(fm: FieldsMap, info: Dict, i: nat)
    requires Disjoint(fm)
    requires i < |fm|
    ensures fm[i].0 in Normalized(fm, info) <==> fm[i].0 in info
    ensures fm[i].0 in info ==> Normalized(fm, info)[fm[i].0] == info[fm[i].0]
  {
    assert !IsTarget(fm, fm[i].0);
    NormalizedOthers(fm, info, fm[i].0);
  }

  /** For a disjoint map with distinct torrt names, the torrt name of pair `i` holds the
      client field's value when the client field is present, and is untouched otherwise. */
  lemma {:induction false} NormalizedTarget(fm: FieldsMap, info: Dict, i: nat)
    requires Disjoint(fm) && DistinctTargets(fm)
    requires i < |fm|
    ensures fm[i].0 in info ==> fm[i].1 in Normalized(fm, info)
    ensures fm[i].0 in info ==> Normalized(fm, info)[fm[i].1] == info[fm[i].0]
    ensures fm[i].0 !in info ==> (fm[i].1 in Normalized(fm, info) <==> fm[i].1 in info)
    ensures fm[i].0 !in info && fm[i].1 in info ==> Normalized(fm, info)[fm[i].1] == info[fm[i].1]
    decreases |fm|
  {
    var init := fm[..|fm| - 1];
    var prev := Normalized(init, info);
    var (src, dst) := fm[|fm| - 1];
    assert Disjoint(init) && DistinctTargets(init) by {
      assert forall j :: 0 <= j < |init| ==> init[j] == fm[j];
    }
    if i == |fm| - 1 {
      assert !IsTarget(init, dst) by {
        forall j | 0 <= j < |init| ensures init[j].1 != dst {
          assert init[j] == fm[j];
        }
      }
      NormalizedOthers(init, info, dst);
      assert !IsTarget(init, src) by {
        forall j | 0 <= j < |init| ensures init[j].1 != src {
          assert init[j] == fm[j];
        }
      }
      NormalizedOthers(init, info, src);
    } else {
      assert init[i] == fm[i];
      NormalizedTarget(init, info, i);
      assert fm[i].1 != dst;
    }
  }

  /** Normalizing twice is the same as once, for a disjoint map with distinct torrt names. */
  lemma NormalizedIdempotent(fm: FieldsMap, info: Dict)
    requires Disjoint(fm) && DistinctTargets(fm)
    ensures Normalized(fm, Normalized(fm, info)) == Normalized(fm, info)
  {
    var once := Normalized(fm, info);
    var twice := Normalized(fm, once);
    forall k ensures (k in twice <==> k in once) && (k in once ==> twice[k] == once[k]) {
      if IsTarget(fm, k) {
        var i :| 0 <= i < |fm| && fm[i].1 == k;
        NormalizedTarget(fm, info, i);
        NormalizedTarget(fm, once, i);
        NormalizedKeepsSources(fm, info, i);
      } else {
        NormalizedOthers(fm, once, k);
      }
    }
  }
}
