/** Ordered parameter dictionaries: a key order plus a map from key to the
    list of per-instance entries.  The same shape carries parameter values
    (`real`), fixed flags (`bool`) and bound pairs (`Bound`), so everything
    here is generic in the entry type. */
module ParamDict {
  import opened Results
  import opened Tables

  datatype PDict<T> = PDict(keys: seq<Param>, vals: map<Param, seq<T>>)

  ghost predicate Distinct<X>(s: seq<X>) {
    forall i, j :: 0 <= i < j < |s| ==> s[i] != s[j]
  }

  /** What every Python dict guarantees: each key once, in insertion order. */
  ghost predicate WellFormed<T>(d: PDict<T>) {
    && Distinct(d.keys)
    && forall k :: k in d.vals <==> k in d.keys
  }

  /** Same keys in the same order, and the same list length under each key. */
  ghost predicate SameShape<T, U>(a: PDict<T>, b: PDict<U>) {
    && a.keys == b.keys
    && a.vals.Keys == b.vals.Keys
    && forall k :: k in a.vals ==> |a.vals[k]| == |b.vals[k]|
  }

  function Empty<T>(): PDict<T> {
    PDict([], map[])
  }

  function Repeat<T>(x: T, n: nat): (r: seq<T>)
    ensures |r| == n
    ensures forall i :: 0 <= i < n ==> r[i] == x
  {
    seq(n, _ => x)
  }

  /** Python's `d[k] = v`: a new key goes to the end, an existing key keeps
      its place. */
  function SetKey<T>(d: PDict<T>, k: Param, v: seq<T>): (r: PDict<T>)
    requires WellFormed(d)
    ensures WellFormed(r)
    ensures r.vals == d.vals[k := v]
    ensures k in d.vals ==> r.keys == d.keys
    ensures k !in d.vals ==> r.keys == d.keys + [k]
  {
    if k in d.vals then PDict(d.keys, d.vals[k := v]) else PDict(d.keys + [k], d.vals[k := v])
  }

  /** Assigning a key never moves the keys already there. */
  lemma SetKeyKeepsOrder<T>(d: PDict<T>, k: Param, v: seq<T>)
    requires WellFormed(d)
    ensures |d.keys| <= |SetKey(d, k, v).keys|
    ensures forall j :: 0 <= j < |d.keys| ==> SetKey(d, k, v).keys[j] == d.keys[j]
  {
  }

  /** A dict of the same shape whose every entry under `k` is `f(k)`, the
      pattern `for idx in range(len(v)): v[idx] = ...` used for masks and bounds. */
  function Relabel<T, U>(d: PDict<T>, f: Param -> U): (r: PDict<U>)
    requires WellFormed(d)
    ensures WellFormed(r) && SameShape(r, d)
    ensures forall k, i :: k in r.vals && 0 <= i < |r.vals[k]| ==> r.vals[k][i] == f(k)
  {
    PDict(d.keys, map k | k in d.vals :: Repeat(f(k), |d.vals[k]|))
  }

  /** The list loop of `update_params`: overrides land at indices below the
      base length, later override values are dropped. */
  function Overlay<T>(base: seq<T>, extra: seq<T>): seq<T> {
    seq(|base|, i requires 0 <= i < |base| => if i < |extra| then extra[i] else base[i])
  }

  /** Position of the first key of `ks` that `d` lacks. */
  function FirstUnknown<T>(ks: seq<Param>, d: PDict<T>): (r: Option<nat>)
    ensures r.None? <==> forall j :: 0 <= j < |ks| ==> ks[j] in d.vals
    ensures r.Some? ==> r.value < |ks| && ks[r.value] !in d.vals
    ensures r.Some? ==> forall j :: 0 <= j < r.value ==> ks[j] in d.vals
  {
    if |ks| == 0 then None
    else if ks[0] !in d.vals then Some(0)
    else match FirstUnknown(ks[1..], d)
      case None => None
      case Some(j) => Some(j + 1)
  }

  /** `update_params(p_old, p_new)` (saxskit/saxs_fit.py:38-44).  The walk
      over `p_new` raises `KeyError` at the first key `p_old` lacks;
      otherwise `p_old` keeps its keys and lengths and takes the overrides. */
  function UpdateParams<T>(base: PDict<T>, over: PDict<T>): (r: Result<PDict<T>>)
    requires WellFormed(base) && WellFormed(over)
    ensures r.Err? <==> exists k :: k in over.vals && k !in base.vals
    ensures r.Err? ==> exists j :: 0 <= j < |over.keys| && r.error == KeyError(Name(over.keys[j]))
                                   && over.keys[j] !in base.vals
                                   && forall i :: 0 <= i < j ==> over.keys[i] in base.vals
    ensures r.Ok? ==> WellFormed(r.value) && SameShape(r.value, base)
    ensures r.Ok? ==> forall k, i :: k in base.vals && 0 <= i < |base.vals[k]| ==>
              r.value.vals[k][i] == (if k in over.vals && i < |over.vals[k]| then over.vals[k][i] else base.vals[k][i])
  {
    match FirstUnknown(over.keys, base)
    case Some(j) => Err(KeyError(Name(over.keys[j])))
    case None =>
      Ok(PDict(base.keys, map k | k in base.vals ::
                           if k in over.vals then Overlay(base.vals[k], over.vals[k]) else base.vals[k]))
  }

  /** An override of exactly the base's shape replaces every entry. */
  lemma UpdateSameShape<T>(base: PDict<T>, over: PDict<T>)
    requires WellFormed(base) && WellFormed(over) && SameShape(over, base)
    ensures UpdateParams(base, over) == Ok(over)
  {
    var r := UpdateParams(base, over);
    assert r.Ok?;
    forall k | k in base.vals
      ensures r.value.vals[k] == over.vals[k]
    {
    }
    assert r.value.vals == over.vals;
  }

  /** Merging the same override twice changes nothing more, which is why
      `fit` may merge its initial guess before `lmfit_params` merges it again. */
  lemma UpdateIdempotent<T>(base: PDict<T>, over: PDict<T>)
    requires WellFormed(base) && WellFormed(over)
    requires UpdateParams(base, over).Ok?
    ensures UpdateParams(base, UpdateParams(base, over).value) == UpdateParams(base, over)
  {
    UpdateSameShape(base, UpdateParams(base, over).value);
  }

  ghost predicate OptWellFormed<T>(o: Option<PDict<T>>) {
    o.Some? ==> WellFormed(o.value)
  }

  /** `update_params(base, o)` when an override was passed, `base` otherwise. */
  function MergeOpt<T>(base: PDict<T>, o: Option<PDict<T>>): Result<PDict<T>>
    requires WellFormed(base) && OptWellFormed(o)
  {
    if o.None? then Ok(base) else UpdateParams(base, o.value)
  }

  /** The entry an override dict supplies for `(k, i)`, or `dflt` when it has none. */
  function Pick<T>(o: Option<PDict<T>>, k: Param, i: nat, dflt: T): T {
    if o.Some? && k in o.value.vals && i < |o.value.vals[k]| then o.value.vals[k][i] else dflt
  }

  /** A successful optional merge keeps the base's shape and takes, entry by
      entry, the override where there is one. */
  lemma MergeOptEntries<T>(base: PDict<T>, o: Option<PDict<T>>)
    requires WellFormed(base) && OptWellFormed(o)
    ensures MergeOpt(base, o).Err? <==> o.Some? && exists k :: k in o.value.vals && k !in base.vals
    ensures MergeOpt(base, o).Ok? ==> WellFormed(MergeOpt(base, o).value) && SameShape(MergeOpt(base, o).value, base)
    ensures MergeOpt(base, o).Ok? ==>
              forall k, i :: k in base.vals && 0 <= i < |base.vals[k]| ==>
                MergeOpt(base, o).value.vals[k][i] == Pick(o, k, i, base.vals[k][i])
  {
  }
}
