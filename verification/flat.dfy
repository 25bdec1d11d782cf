/** The optimizer-facing representation: one named slot per (key, index)
    of the default schema (`lmfit_params`, saxskit/saxs_fit.py:218-243), and
    the way back (`saxskit_params`, saxskit/saxs_fit.py:245-250). */
module Flat {
  import opened Results
  import opened Decimal
  import opened Tables
  import opened ParamDict
  import opened Schema

  /** One `lmfit` parameter: its name, value, vary flag and `(min, max)`. */
  datatype Slot = Slot(name: string, value: real, vary: bool, bound: Bound)

  /** `pkey + str(i)`. */
  function SlotName(k: Param, i: nat): string {
    Name(k) + NatToString(i)
  }

  /** Slot names never collide: the key name ends in a letter and the index
      suffix is all digits, so the split point is fixed, and both halves are
      injective. */
  lemma SlotNameInjective(j: Param, a: nat, k: Param, b: nat)
    ensures SlotName(j, a) == SlotName(k, b) ==> j == k && a == b
  {
    if SlotName(j, a) == SlotName(k, b) {
      var s := SlotName(j, a);
      var m, n := |Name(j)|, |Name(k)|;
      NameEndsInNonDigit(j);
      NameEndsInNonDigit(k);
      assert Name(j) == s[..m] == Name(k);
      NameInjective(j, k);
      assert NatToString(a) == s[m..] == NatToString(b);
      NatToStringInjective(a, b);
    }
  }

  /** `parameters[name]` on the ordered parameter collection: the first slot
      carrying the name, or nothing (where Python raises `KeyError`). */
  function Lookup(slots: seq<Slot>, name: string): (r: Option<Slot>)
    ensures r.None? <==> forall j :: 0 <= j < |slots| ==> slots[j].name != name
    ensures r.Some? ==> r.value in slots && r.value.name == name
  {
    if |slots| == 0 then None
    else if slots[0].name == name then Some(slots[0])
    else Lookup(slots[1..], name)
  }

  ghost predicate NamesDistinct(slots: seq<Slot>) {
    forall a, b :: 0 <= a < b < |slots| ==> slots[a].name != slots[b].name
  }

  /** With distinct names, a lookup finds exactly the slot of that name. */
  lemma {:induction false} LookupDistinct(slots: seq<Slot>, j: nat)
    requires NamesDistinct(slots) && j < |slots|
    ensures Lookup(slots, slots[j].name) == Some(slots[j])
  {
    if j > 0 {
      assert slots[0].name != slots[j].name;
      assert NamesDistinct(slots[1..]) by {
        forall a, b | 0 <= a < b < |slots[1..]| ensures slots[1..][a].name != slots[1..][b].name {
          assert slots[1..][a] == slots[a + 1] && slots[1..][b] == slots[b + 1];
        }
      }
      assert slots[1..][j - 1] == slots[j];
      LookupDistinct(slots[1..], j - 1);
    }
  }

  /** The three dicts that `lmfit_params` walks together: values, fixed
      flags and bounds, all of one shape. */
  ghost predicate Aligned(p: PDict<real>, fp: PDict<bool>, pb: PDict<Bound>) {
    && WellFormed(p) && SameShape(fp, p) && SameShape(pb, p)
  }

  /** The slot for entry `i` of key `k`: `vary` is the negation of the fixed flag. */
  function Entry(p: PDict<real>, fp: PDict<bool>, pb: PDict<Bound>, k: Param, i: nat): Slot
    requires Aligned(p, fp, pb) && k in p.vals && i < |p.vals[k]|
  {
    Slot(SlotName(k, i), p.vals[k][i], !fp.vals[k][i], pb.vals[k][i])
  }

  /** The slots of one key, in index order. */
  function KeySlots(p: PDict<real>, fp: PDict<bool>, pb: PDict<Bound>, k: Param): (r: seq<Slot>)
    requires Aligned(p, fp, pb) && k in p.vals
    ensures |r| == |p.vals[k]|
    ensures forall i :: 0 <= i < |r| ==> r[i] == Entry(p, fp, pb, k, i)
  {
    seq(|p.vals[k]|, i requires 0 <= i < |p.vals[k]| => Entry(p, fp, pb, k, i))
  }

  /** How many entries the keys `ks` hold in `p`. */
  function Size(p: PDict<real>, ks: seq<Param>): nat
    requires forall k :: k in ks ==> k in p.vals
  {
    if |ks| == 0 then 0 else |p.vals[ks[0]]| + Size(p, ks[1..])
  }

  /** The nested loop over keys and indices that adds the slots. */
  function Flatten(p: PDict<real>, fp: PDict<bool>, pb: PDict<Bound>, ks: seq<Param>): (r: seq<Slot>)
    requires Aligned(p, fp, pb) && Distinct(ks)
    requires forall k :: k in ks ==> k in p.vals
    ensures |r| == Size(p, ks)
    ensures NamesDistinct(r)
    ensures forall k, i :: k in ks && 0 <= i < |p.vals[k]| ==> Entry(p, fp, pb, k, i) in r
    ensures forall k, i: nat, j :: k !in ks && 0 <= j < |r| ==> r[j].name != SlotName(k, i)
    decreases |ks|
  {
    if |ks| == 0 then []
    else
      TailOfDistinct(ks);
      var head := KeySlots(p, fp, pb, ks[0]);
      var tail := Flatten(p, fp, pb, ks[1..]);
      HeadNames(p, fp, pb, ks[0], head);
      FlattenDistinct(ks[0], head, tail);
      FlattenCovers(p, fp, pb, ks, head, tail);
      head + tail
  }

  lemma HeadNames(p: PDict<real>, fp: PDict<bool>, pb: PDict<Bound>, k0: Param, head: seq<Slot>)
    requires Aligned(p, fp, pb) && k0 in p.vals
    requires head == KeySlots(p, fp, pb, k0)
    ensures forall a :: 0 <= a < |head| ==> head[a].name == SlotName(k0, a)
    ensures NamesDistinct(head)
    ensures forall k, i: nat, j :: k != k0 && 0 <= j < |head| ==> head[j].name != SlotName(k, i)
  {
    forall a, b | 0 <= a < b < |head| ensures head[a].name != head[b].name {
      SlotNameInjective(k0, a, k0, b);
    }
    forall k, i: nat, j | k != k0 && 0 <= j < |head| ensures head[j].name != SlotName(k, i) {
      SlotNameInjective(k0, j, k, i);
    }
  }

  lemma FlattenDistinct(k0: Param, head: seq<Slot>, tail: seq<Slot>)
    requires forall a :: 0 <= a < |head| ==> head[a].name == SlotName(k0, a)
    requires NamesDistinct(head) && NamesDistinct(tail)
    requires forall i: nat, j :: 0 <= j < |tail| ==> tail[j].name != SlotName(k0, i)
    ensures NamesDistinct(head + tail)
  {
    var r := head + tail;
    forall a, b | 0 <= a < b < |r| ensures r[a].name != r[b].name {
      if b < |head| {
        assert r[a] == head[a] && r[b] == head[b];
      } else if a < |head| {
        assert r[a].name == SlotName(k0, a) && r[b] == tail[b - |head|];
      } else {
        assert r[a] == tail[a - |head|] && r[b] == tail[b - |head|];
      }
    }
  }

  lemma FlattenCovers(p: PDict<real>, fp: PDict<bool>, pb: PDict<Bound>, ks: seq<Param>, head: seq<Slot>, tail: seq<Slot>)
    requires Aligned(p, fp, pb) && |ks| > 0
    requires forall k :: k in ks ==> k in p.vals
    requires forall x :: x in ks <==> x == ks[0] || x in ks[1..]
    requires head == KeySlots(p, fp, pb, ks[0])
    requires forall k, i :: k in ks[1..] && 0 <= i < |p.vals[k]| ==> Entry(p, fp, pb, k, i) in tail
    requires forall k, i: nat, j :: k !in ks[1..] && 0 <= j < |tail| ==> tail[j].name != SlotName(k, i)
    requires forall k, i: nat, j :: k != ks[0] && 0 <= j < |head| ==> head[j].name != SlotName(k, i)
    ensures forall k, i :: k in ks && 0 <= i < |p.vals[k]| ==> Entry(p, fp, pb, k, i) in head + tail
    ensures forall k, i: nat, j :: k !in ks && 0 <= j < |head + tail| ==> (head + tail)[j].name != SlotName(k, i)
  {
    var r := head + tail;
    forall k, i | k in ks && 0 <= i < |p.vals[k]| ensures Entry(p, fp, pb, k, i) in r {
      if k == ks[0] {
        assert r[i] == head[i];
      } else {
        assert Entry(p, fp, pb, k, i) in tail;
      }
    }
    forall k, i: nat, j | k !in ks && 0 <= j < |r| ensures r[j].name != SlotName(k, i) {
      if j < |head| {
        assert r[j] == head[j];
      } else {
        assert r[j] == tail[j - |head|];
      }
    }
  }

  /** The override mentions a key the defaults lack, which makes `update_params` raise. */
  ghost predicate Strays<T, U>(d: PDict<T>, o: Option<PDict<U>>) {
    o.Some? && exists k :: k in o.value.vals && k !in d.vals
  }

  /** The fixed mask `lmfit_params` starts from: every entry free. */
  function FreeMask(d: PDict<real>): (r: PDict<bool>)
    requires WellFormed(d)
    ensures WellFormed(r) && SameShape(r, d)
    ensures forall k, i :: k in r.vals && 0 <= i < |r.vals[k]| ==> !r.vals[k][i]
  {
    Relabel(d, _ => false)
  }

  /** The bounds `lmfit_params` starts from: `param_limits[key]` everywhere. */
  function DefaultBounds(d: PDict<real>): (r: PDict<Bound>)
    requires WellFormed(d)
    ensures WellFormed(r) && SameShape(r, d)
    ensures forall k, i :: k in r.vals && 0 <= i < |r.vals[k]| ==> r.vals[k][i] == Limit(k)
  {
    Relabel(d, Limit)
  }

  /** The slot `lmfit_params` emits for entry `i` of key `k`: the value,
      fixed flag and bound of the override where it has one, else the default. */
  function ExpectedSlot(params: Option<PDict<real>>, fixed: Option<PDict<bool>>, bounds: Option<PDict<Bound>>,
                        k: Param, i: nat): Slot
  {
    Slot(SlotName(k, i), Pick(params, k, i, Default(k)), !Pick(fixed, k, i, false), Pick(bounds, k, i, Limit(k)))
  }

  /** `lmfit_params(params, fixed_params, param_bounds)`: merge each
      argument into its default (values, then fixed flags, then bounds; the
      first stray key raises) and emit one slot per schema entry. */
  function LmfitParams(pops: PopSpec, params: Option<PDict<real>>, fixed: Option<PDict<bool>>,
                       bounds: Option<PDict<Bound>>): (r: Result<seq<Slot>>)
    requires ValidPops(pops)
    requires OptWellFormed(params) && OptWellFormed(fixed) && OptWellFormed(bounds)
    ensures var d := DefaultParams(pops);
            r.Err? <==> Strays(d, params) || Strays(d, fixed) || Strays(d, bounds)
    ensures r.Ok? ==> NamesDistinct(r.value)
    ensures var d := DefaultParams(pops);
            r.Ok? ==> |r.value| == Size(d, d.keys)
    ensures var d := DefaultParams(pops);
            r.Ok? ==> forall k, i :: k in d.vals && 0 <= i < |d.vals[k]| ==>
              Lookup(r.value, SlotName(k, i)) == Some(ExpectedSlot(params, fixed, bounds, k, i))
  {
    var d := DefaultParams(pops);
    MergeOptEntries(d, params);
    MergeOptEntries(FreeMask(d), fixed);
    MergeOptEntries(DefaultBounds(d), bounds);
    match MergeOpt(d, params)
    case Err(e) => Err(e)
    case Ok(p) =>
      match MergeOpt(FreeMask(d), fixed)
      case Err(e) => Err(e)
      case Ok(fp) =>
        match MergeOpt(DefaultBounds(d), bounds)
        case Err(e) => Err(e)
        case Ok(pb) =>
          var slots := Flatten(p, fp, pb, p.keys);
          LmfitLookups(d, params, fixed, bounds, p, fp, pb, slots);
          SizeOfShape(p, d, p.keys);
          Ok(slots)
  }

  lemma {:induction false} SizeOfShape(p: PDict<real>, d: PDict<real>, ks: seq<Param>)
    requires SameShape(p, d) && forall k :: k in ks ==> k in p.vals
    ensures Size(p, ks) == Size(d, ks)
    decreases |ks|
  {
    if |ks| > 0 {
      SizeOfShape(p, d, ks[1..]);
    }
  }

  lemma LmfitLookups(d: PDict<real>, params: Option<PDict<real>>, fixed: Option<PDict<bool>>,
                     bounds: Option<PDict<Bound>>, p: PDict<real>, fp: PDict<bool>, pb: PDict<Bound>, slots: seq<Slot>)
    requires WellFormed(d)
    requires forall k, i :: k in d.vals && 0 <= i < |d.vals[k]| ==> d.vals[k][i] == Default(k)
    requires OptWellFormed(params) && OptWellFormed(fixed) && OptWellFormed(bounds)
    requires MergeOpt(d, params) == Ok(p)
    requires MergeOpt(FreeMask(d), fixed) == Ok(fp)
    requires MergeOpt(DefaultBounds(d), bounds) == Ok(pb)
    requires Aligned(p, fp, pb) && Distinct(p.keys)
    requires slots == Flatten(p, fp, pb, p.keys)
    ensures forall k, i :: k in d.vals && 0 <= i < |d.vals[k]| ==>
              Lookup(slots, SlotName(k, i)) == Some(ExpectedSlot(params, fixed, bounds, k, i))
  {
    MergeOptEntries(d, params);
    MergeOptEntries(FreeMask(d), fixed);
    MergeOptEntries(DefaultBounds(d), bounds);
    forall k, i | k in d.vals && 0 <= i < |d.vals[k]|
      ensures Lookup(slots, SlotName(k, i)) == Some(ExpectedSlot(params, fixed, bounds, k, i))
    {
      var e := Entry(p, fp, pb, k, i);
      assert e in slots;
      var j :| 0 <= j < |slots| && slots[j] == e;
      LookupDistinct(slots, j);
    }
  }

  /** Reads `slots[key + str(i)].value` for `i` in `[from, n)`, raising at
      the first name that is missing. */
  function ReadValues(slots: seq<Slot>, k: Param, from: nat, n: nat): (r: Result<seq<real>>)
    requires from <= n
    ensures r.Ok? <==> forall i :: from <= i < n ==> Lookup(slots, SlotName(k, i)).Some?
    ensures r.Ok? ==> |r.value| == n - from
    ensures r.Ok? ==> forall j :: 0 <= j < |r.value| ==> r.value[j] == Lookup(slots, SlotName(k, from + j)).value.value
    ensures r.Err? ==> MissingName(slots, k, from, n, r.error)
    decreases n - from
  {
    if from == n then Ok([])
    else
      var head := Lookup(slots, SlotName(k, from));
      var tail := ReadValues(slots, k, from + 1, n);
      ReadValuesStep(slots, k, from, n);
      if head.None? then Err(KeyError(SlotName(k, from)))
      else if tail.Err? then MissingNameWiden(slots, k, from, n, tail.error); tail
      else
        var vs := [head.value.value] + tail.value;
        assert forall j :: 0 < j < |vs| ==> vs[j] == tail.value[j - 1];
        Ok(vs)
  }

  lemma ReadValuesStep(slots: seq<Slot>, k: Param, from: nat, n: nat)
    requires from < n
    ensures (forall i :: from <= i < n ==> Lookup(slots, SlotName(k, i)).Some?) <==>
            Lookup(slots, SlotName(k, from)).Some? && forall i :: from + 1 <= i < n ==> Lookup(slots, SlotName(k, i)).Some?
  {
  }

  /** The error names a slot `key + str(i)`, `from <= i < n`, that is missing. */
  ghost predicate MissingName(slots: seq<Slot>, k: Param, from: nat, n: nat, e: Error) {
    exists i :: from <= i < n && e == KeyError(SlotName(k, i)) && Lookup(slots, SlotName(k, i)).None?
  }

  lemma MissingNameWiden(slots: seq<Slot>, k: Param, from: nat, n: nat, e: Error)
    requires MissingName(slots, k, from + 1, n, e)
    ensures MissingName(slots, k, from, n, e)
  {
  }

  /** The outer loop of `saxskit_params`: overwrite the entries of `acc`
      under each key of `ks` with the values read back. */
  function ReadKeys(slots: seq<Slot>, ks: seq<Param>, acc: PDict<real>): (r: Result<PDict<real>>)
    requires WellFormed(acc) && Distinct(ks)
    requires forall k :: k in ks ==> k in acc.vals
    ensures r.Ok? <==> forall k, i :: k in ks && 0 <= i < |acc.vals[k]| ==> Lookup(slots, SlotName(k, i)).Some?
    ensures r.Ok? ==> WellFormed(r.value) && SameShape(r.value, acc)
    ensures r.Ok? ==> forall k, i :: k in ks && 0 <= i < |acc.vals[k]| ==>
              r.value.vals[k][i] == Lookup(slots, SlotName(k, i)).value.value
    ensures r.Ok? ==> forall k :: k in acc.vals && k !in ks ==> r.value.vals[k] == acc.vals[k]
    ensures r.Err? ==> exists k, i: nat :: k in ks && i < |acc.vals[k]| && r.error == KeyError(SlotName(k, i))
                                        && Lookup(slots, SlotName(k, i)).None?
    decreases |ks|
  {
    if |ks| == 0 then Ok(acc)
    else
      var k0 := ks[0];
      TailOfDistinct(ks);
      match ReadValues(slots, k0, 0, |acc.vals[k0]|)
      case Err(e) => Err(e)
      case Ok(vs) =>
        var acc' := PDict(acc.keys, acc.vals[k0 := vs]);
        ReadKeys(slots, ks[1..], acc')
  }

  /** `saxskit_params(slots)`: the default schema with every entry read back
      from the slot of its name. */
  function SaxskitParams(pops: PopSpec, slots: seq<Slot>): (r: Result<PDict<real>>)
    requires ValidPops(pops)
    ensures var d := DefaultParams(pops);
            r.Ok? <==> forall k, i :: k in d.vals && 0 <= i < |d.vals[k]| ==> Lookup(slots, SlotName(k, i)).Some?
    ensures r.Ok? ==> WellFormed(r.value) && SameShape(r.value, DefaultParams(pops))
    ensures var d := DefaultParams(pops);
            r.Ok? ==> forall k, i :: k in d.vals && 0 <= i < |d.vals[k]| ==>
              r.value.vals[k][i] == Lookup(slots, SlotName(k, i)).value.value
  {
    var d := DefaultParams(pops);
    ReadKeys(slots, d.keys, d)
  }

  /** Two dicts of one shape that agree entry by entry are equal. */
  lemma EntrywiseEqual(a: PDict<real>, b: PDict<real>)
    requires SameShape(a, b)
    requires forall k, i :: k in a.vals && 0 <= i < |a.vals[k]| ==> a.vals[k][i] == b.vals[k][i]
    ensures a == b
  {
    forall k | k in a.vals ensures a.vals[k] == b.vals[k] {
    }
    assert a.vals == b.vals;
  }

  /** Reading back the slots `lmfit_params` emitted gives the default schema
      merged with the initial guess: `saxskit_params(lmfit_params(p, f, b))
      == update_params(default_params(), p)`. */
  lemma RoundTrip(pops: PopSpec, params: Option<PDict<real>>, fixed: Option<PDict<bool>>, bounds: Option<PDict<Bound>>)
    requires ValidPops(pops)
    requires OptWellFormed(params) && OptWellFormed(fixed) && OptWellFormed(bounds)
    requires LmfitParams(pops, params, fixed, bounds).Ok?
    ensures MergeOpt(DefaultParams(pops), params).Ok?
    ensures SaxskitParams(pops, LmfitParams(pops, params, fixed, bounds).value) == MergeOpt(DefaultParams(pops), params)
  {
    var d := DefaultParams(pops);
    var slots := LmfitParams(pops, params, fixed, bounds).value;
    MergeOptEntries(d, params);
    var m := MergeOpt(d, params).value;
    var r := SaxskitParams(pops, slots);
    assert r.Ok?;
    EntrywiseEqual(r.value, m);
  }

  /** With no `params` and no `param_bounds`, every slot starts inside its
      own bound, so lmfit has nothing to clip: the defaults lie within
      `param_limits`. */
  lemma DefaultStartInBounds(pops: PopSpec, fixed: Option<PDict<bool>>)
    requires ValidPops(pops) && OptWellFormed(fixed)
    requires LmfitParams(pops, None, fixed, None).Ok?
    ensures var d := DefaultParams(pops);
            var slots := LmfitParams(pops, None, fixed, None).value;
            forall k, i :: k in d.vals && 0 <= i < |d.vals[k]| ==>
              && Lookup(slots, SlotName(k, i)).Some?
              && Within(Lookup(slots, SlotName(k, i)).value.value, Lookup(slots, SlotName(k, i)).value.bound)
  {
    var d := DefaultParams(pops);
    var slots := LmfitParams(pops, None, fixed, None).value;
    forall k, i | k in d.vals && 0 <= i < |d.vals[k]|
      ensures Lookup(slots, SlotName(k, i)) == Some(ExpectedSlot(None, fixed, None, k, i))
      ensures Within(ExpectedSlot(None, fixed, None, k, i).value, ExpectedSlot(None, fixed, None, k, i).bound)
    {
      DefaultsWithinLimits(k);
    }
  }

  /** What the optimizer is assumed to do with the slots: keep every name,
      and leave the value of every slot whose `vary` flag is off. */
  ghost predicate KeepsFixed(before: seq<Slot>, after: seq<Slot>) {
    forall n :: Lookup(before, n).Some? ==>
      && Lookup(after, n).Some?
      && (!Lookup(before, n).value.vary ==> Lookup(after, n).value.value == Lookup(before, n).value.value)
  }

  /** Fixed entries come through an optimizer that respects the vary flags
      unchanged: whatever it does to the free slots, every entry flagged
      fixed reads back as the initial guess. */
  lemma FixedSurvive(pops: PopSpec, params: Option<PDict<real>>, fixed: Option<PDict<bool>>,
                     bounds: Option<PDict<Bound>>, after: seq<Slot>)
    requires ValidPops(pops)
    requires OptWellFormed(params) && OptWellFormed(fixed) && OptWellFormed(bounds)
    requires LmfitParams(pops, params, fixed, bounds).Ok?
    requires KeepsFixed(LmfitParams(pops, params, fixed, bounds).value, after)
    ensures SaxskitParams(pops, after).Ok?
    ensures var d := DefaultParams(pops);
            forall k, i :: k in d.vals && 0 <= i < |d.vals[k]| && Pick(fixed, k, i, false) ==>
              SaxskitParams(pops, after).value.vals[k][i] == Pick(params, k, i, Default(k))
  {
    var d := DefaultParams(pops);
    var before := LmfitParams(pops, params, fixed, bounds).value;
    forall k, i | k in d.vals && 0 <= i < |d.vals[k]|
      ensures Lookup(after, SlotName(k, i)).Some?
      ensures Pick(fixed, k, i, false) ==> Lookup(after, SlotName(k, i)).value.value == Pick(params, k, i, Default(k))
    {
      assert Lookup(before, SlotName(k, i)) == Some(ExpectedSlot(params, fixed, bounds, k, i));
    }
  }
}
