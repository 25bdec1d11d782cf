/** The population spec and the default parameter schema built from it
    (`SaxsFitter.default_params`, saxskit/saxs_fit.py:165-176). */
module Schema {
  import opened Results
  import opened Tables
  import opened ParamDict

  /** The `populations` dict: its key order and the count stored under each
      key.  A count of `None` behaves as 0, because the code only uses a
      count after `bool(v)` found it truthy. */
  datatype PopSpec = PopSpec(order: seq<Population>, count: map<Population, int>)

  /** The dict names every population type exactly once, as the fitter's
      docstring asks ("the number of distinct populations for each of the
      various scatterer types"). */
  ghost predicate ValidPops(pops: PopSpec) {
    && Distinct(pops.order)
    && (forall p :: p in pops.count <==> p in pops.order)
    && (forall p: Population :: p in pops.count)
  }

  predicate Truthy(v: int) {
    v != 0
  }

  /** Length of `range(v)`: a negative count yields no entries. */
  function Copies(v: int): nat {
    if v > 0 then v else 0
  }

  /** The keys contributed by the truthy populations of `order`, in order. */
  function OwnedKeys(order: seq<Population>, count: map<Population, int>): seq<Param>
    requires forall p :: p in order ==> p in count
  {
    if |order| == 0 then []
    else (if Truthy(count[order[0]]) then ParameterKeys(order[0]) else [])
         + OwnedKeys(order[1..], count)
  }

  /** The inner loop: `pd[pk] = [param_defaults[pk]] * v` for each key of one population. */
  function AddKeys(pd: PDict<real>, ks: seq<Param>, v: int): (r: PDict<real>)
    requires WellFormed(pd) && Distinct(ks)
    requires forall k :: k in ks ==> k !in pd.vals
    ensures WellFormed(r)
    ensures r.keys == pd.keys + ks
    ensures r.vals == pd.vals + map k | k in ks :: Repeat(Default(k), Copies(v))
    decreases |ks|
  {
    if |ks| == 0 then
      assert pd.keys + ks == pd.keys;
      pd
    else
      var pd' := SetKey(pd, ks[0], Repeat(Default(ks[0]), Copies(v)));
      AddKeysStep(pd, ks, v, pd');
      AddKeys(pd', ks[1..], v)
  }

  lemma AddKeysStep(pd: PDict<real>, ks: seq<Param>, v: int, pd': PDict<real>)
    requires WellFormed(pd) && Distinct(ks) && |ks| > 0
    requires forall k :: k in ks ==> k !in pd.vals
    requires pd' == SetKey(pd, ks[0], Repeat(Default(ks[0]), Copies(v)))
    ensures Distinct(ks[1..])
    ensures forall k :: k in ks[1..] ==> k !in pd'.vals
    ensures pd.keys + ks == pd'.keys + ks[1..]
    ensures pd.vals + (map k | k in ks :: Repeat(Default(k), Copies(v)))
         == pd'.vals + (map k | k in ks[1..] :: Repeat(Default(k), Copies(v)))
  {
    TailOfDistinct(ks);
    assert pd'.keys == pd.keys + [ks[0]];
    ConsKeys(pd.keys, ks);
    ConsMap(pd.vals, ks, Repeat(Default(ks[0]), Copies(v)), v);
  }

  lemma ConsKeys(front: seq<Param>, ks: seq<Param>)
    requires |ks| > 0
    ensures front + ks == (front + [ks[0]]) + ks[1..]
  {
    assert ks == [ks[0]] + ks[1..];
  }

  lemma ConsMap(m: map<Param, seq<real>>, ks: seq<Param>, head: seq<real>, v: int)
    requires |ks| > 0 && head == Repeat(Default(ks[0]), Copies(v))
    requires forall x :: x in ks <==> x == ks[0] || x in ks[1..]
    ensures m + (map k | k in ks :: Repeat(Default(k), Copies(v)))
         == m[ks[0] := head] + (map k | k in ks[1..] :: Repeat(Default(k), Copies(v)))
  {
  }

  /** Whether a key belongs to the schema of `pops`. */
  ghost predicate InSchema(pops: PopSpec, k: Param)
    requires ValidPops(pops)
  {
    && !Truthy(pops.count[Unidentified])
    && (k == I0Floor || (Owner(k).Some? && Truthy(pops.count[Owner(k).value])))
  }

  /** How many entries the schema holds under `k`. */
  function Width(pops: PopSpec, k: Param): nat
    requires ValidPops(pops)
  {
    if Owner(k).None? then 1 else Copies(pops.count[Owner(k).value])
  }

  /** The outer loop over the populations in dict order. */
  function AddPopulations(pd: PDict<real>, order: seq<Population>, count: map<Population, int>): (r: PDict<real>)
    requires WellFormed(pd) && Distinct(order)
    requires forall p :: p in order ==> p in count
    requires forall k :: k in pd.vals ==> Owner(k).None? || Owner(k).value !in order
    ensures WellFormed(r)
    ensures r.keys == pd.keys + OwnedKeys(order, count)
    ensures forall k :: k in r.vals <==> k in pd.vals || Contributes(k, order, count)
    ensures forall k :: k in r.vals && k !in pd.vals ==>
              Contributes(k, order, count) && r.vals[k] == Repeat(Default(k), Copies(count[Owner(k).value]))
    ensures forall k :: k in pd.vals ==> r.vals[k] == pd.vals[k]
    decreases |order|
  {
    if |order| == 0 then
      assert pd.keys + OwnedKeys(order, count) == pd.keys;
      pd
    else
      var p := order[0];
      var ks := if Truthy(count[p]) then ParameterKeys(p) else [];
      AddPopulationsFresh(pd, order, count, ks);
      var pd' := AddKeys(pd, ks, count[p]);
      assert forall k :: k in pd'.vals <==> k in pd.vals || k in ks;
      AddPopulationsStep(pd, order, count, ks, pd');
      AddPopulations(pd', order[1..], count)
  }

  /** Key `k` is owned by a population of `order` whose count is truthy. */
  ghost predicate Contributes(k: Param, order: seq<Population>, count: map<Population, int>)
    requires forall p :: p in order ==> p in count
  {
    Owner(k).Some? && Owner(k).value in order && Truthy(count[Owner(k).value])
  }

  lemma AddPopulationsFresh(pd: PDict<real>, order: seq<Population>, count: map<Population, int>, ks: seq<Param>)
    requires |order| > 0 && order[0] in count
    requires forall k :: k in pd.vals ==> Owner(k).None? || Owner(k).value !in order
    requires ks == if Truthy(count[order[0]]) then ParameterKeys(order[0]) else []
    ensures Distinct(ks)
    ensures forall k :: k in ks ==> k !in pd.vals && Owner(k) == Some(order[0])
    ensures forall k :: Owner(k) == Some(order[0]) && Truthy(count[order[0]]) ==> k in ks
  {
    ParameterKeysDistinct(order[0]);
    forall k ensures k in ParameterKeys(order[0]) <==> Owner(k) == Some(order[0]) {
      OwnerAgrees(k, order[0]);
    }
  }

  lemma AddPopulationsStep(pd: PDict<real>, order: seq<Population>, count: map<Population, int>,
                           ks: seq<Param>, pd': PDict<real>)
    requires |order| > 0 && Distinct(order)
    requires forall p :: p in order ==> p in count
    requires ks == if Truthy(count[order[0]]) then ParameterKeys(order[0]) else []
    requires forall k :: k in ks ==> Owner(k) == Some(order[0])
    requires forall k :: Owner(k) == Some(order[0]) && Truthy(count[order[0]]) ==> k in ks
    requires forall k :: k in pd.vals ==> Owner(k).None? || Owner(k).value !in order
    requires pd'.keys == pd.keys + ks
    requires forall k :: k in pd'.vals <==> k in pd.vals || k in ks
    ensures Distinct(order[1..])
    ensures forall k :: k in pd'.vals ==> Owner(k).None? || Owner(k).value !in order[1..]
    ensures pd.keys + OwnedKeys(order, count) == pd'.keys + OwnedKeys(order[1..], count)
    ensures forall k :: Contributes(k, order, count) <==> k in ks || Contributes(k, order[1..], count)
  {
    TailOfDistinct(order);
    FreshInTail(pd.vals.Keys, pd'.vals.Keys, order, ks);
    OwnedKeysCons(pd.keys, order, count, ks);
    ContributesStep(order, count, ks);
  }

  lemma OwnedKeysCons(front: seq<Param>, order: seq<Population>, count: map<Population, int>, ks: seq<Param>)
    requires |order| > 0
    requires forall p :: p in order ==> p in count
    requires ks == if Truthy(count[order[0]]) then ParameterKeys(order[0]) else []
    ensures front + OwnedKeys(order, count) == (front + ks) + OwnedKeys(order[1..], count)
  {
    assert OwnedKeys(order, count) == ks + OwnedKeys(order[1..], count);
  }

  lemma FreshInTail(before: set<Param>, after: set<Param>, order: seq<Population>, ks: seq<Param>)
    requires |order| > 0 && order[0] !in order[1..]
    requires forall k :: k in ks ==> Owner(k) == Some(order[0])
    requires forall k :: k in before ==> Owner(k).None? || Owner(k).value !in order
    requires forall k :: k in after <==> k in before || k in ks
    ensures forall k :: k in after ==> Owner(k).None? || Owner(k).value !in order[1..]
  {
    forall k | k in after ensures Owner(k).None? || Owner(k).value !in order[1..] {
      if k in ks {
        assert Owner(k) == Some(order[0]);
      } else {
        assert forall p :: p in order[1..] ==> p in order;
      }
    }
  }

  lemma ContributesStep(order: seq<Population>, count: map<Population, int>, ks: seq<Param>)
    requires |order| > 0
    requires forall p :: p in order ==> p in count
    requires forall x :: x in order <==> x == order[0] || x in order[1..]
    requires forall k :: k in ks ==> Owner(k) == Some(order[0]) && Truthy(count[order[0]])
    requires forall k :: Owner(k) == Some(order[0]) && Truthy(count[order[0]]) ==> k in ks
    ensures forall k :: Contributes(k, order, count) <==> k in ks || Contributes(k, order[1..], count)
  {
  }

  lemma TailOfDistinct<X>(s: seq<X>)
    requires |s| > 0 && Distinct(s)
    ensures Distinct(s[1..])
    ensures s[0] !in s[1..]
    ensures forall x :: x in s <==> x == s[0] || x in s[1..]
  {
    assert s == [s[0]] + s[1..];
    forall j | 0 <= j < |s[1..]| ensures s[1..][j] != s[0] {
      assert s[1..][j] == s[j + 1];
    }
    forall i, j | 0 <= i < j < |s[1..]| ensures s[1..][i] != s[1..][j] {
      assert s[1..][i] == s[i + 1] && s[1..][j] == s[j + 1];
    }
  }

  /** `default_params()`: empty when the `unidentified` count is truthy;
      otherwise `I0_floor = [0.0]` followed, population by population, by
      `count` copies of the default of each owned key. */
  function DefaultParams(pops: PopSpec): (r: PDict<real>)
    requires ValidPops(pops)
    ensures WellFormed(r)
    ensures Truthy(pops.count[Unidentified]) ==> r == Empty()
    ensures !Truthy(pops.count[Unidentified]) ==> r.keys == [I0Floor] + OwnedKeys(pops.order, pops.count)
    ensures forall k :: k in r.vals <==> InSchema(pops, k)
    ensures forall k :: k in r.vals ==> r.vals[k] == Repeat(Default(k), Width(pops, k))
  {
    if Truthy(pops.count[Unidentified]) then Empty()
    else
      var pd := Seed();
      var r := AddPopulations(pd, pops.order, pops.count);
      DefaultParamsContents(pops, r);
      r
  }

  /** The dict `{'I0_floor': [0.0]}` the population loop starts from. */
  function Seed(): (pd: PDict<real>)
    ensures WellFormed(pd) && pd.keys == [I0Floor]
    ensures forall k :: k in pd.vals <==> k == I0Floor
    ensures pd.vals[I0Floor] == Repeat(Default(I0Floor), 1)
  {
    var pd := PDict([I0Floor], map[I0Floor := [Default(I0Floor)]]);
    assert Repeat(Default(I0Floor), 1) == [Default(I0Floor)];
    pd
  }

  lemma DefaultParamsContents(pops: PopSpec, r: PDict<real>)
    requires ValidPops(pops) && !Truthy(pops.count[Unidentified])
    requires forall k :: k in r.vals <==> k in Seed().vals || Contributes(k, pops.order, pops.count)
    requires forall k :: k in r.vals && k !in Seed().vals ==>
               Contributes(k, pops.order, pops.count) && r.vals[k] == Repeat(Default(k), Copies(pops.count[Owner(k).value]))
    requires forall k :: k in Seed().vals ==> r.vals[k] == Seed().vals[k]
    ensures forall k :: k in r.vals <==> InSchema(pops, k)
    ensures forall k :: k in r.vals ==> r.vals[k] == Repeat(Default(k), Width(pops, k))
  {
  }

  /** Every default value lies within the default bound of its key. */
  lemma DefaultParamsWithinLimits(pops: PopSpec)
    requires ValidPops(pops)
    ensures forall k, i :: k in DefaultParams(pops).vals && 0 <= i < |DefaultParams(pops).vals[k]| ==>
              Within(DefaultParams(pops).vals[k][i], Limit(k))
  {
    forall k | k in DefaultParams(pops).vals {
      DefaultsWithinLimits(k);
    }
  }
}
