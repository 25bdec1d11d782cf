/** Peak seeding (`estimate_peak_params`, saxskit/saxs_fit.py:264-297):
    walk the window-scan candidates from most to least confident and turn
    the first `count` of them into initial peak parameters.  The window scan
    itself (`peak_finder.peaks_by_window`) and the quadratic width estimate
    are foreign; the candidates are an input and the width is a function of
    the candidate's spectrum index. */
module Peaks {
  import opened Results
  import opened Tables
  import opened ParamDict
  import opened Schema
  import opened Fitter

  /** One window-scan candidate: its index into the spectrum and its confidence. */
  datatype Candidate = Candidate(index: nat, confidence: real)

  /** `s` lists candidate positions, each confidence at least the next one's. */
  ghost predicate Sorted(cands: seq<Candidate>, s: seq<nat>) {
    && (forall j :: 0 <= j < |s| ==> s[j] < |cands|)
    && (forall j :: 0 < j < |s| ==> cands[s[j - 1]].confidence >= cands[s[j]].confidence)
  }

  /** What `np.argsort(pk_conf)[::-1]` returns: every candidate position once,
      by non-increasing confidence.  Ties may come in any order. */
  ghost predicate IsRanking(cands: seq<Candidate>, order: seq<nat>) {
    && |order| == |cands|
    && Distinct(order)
    && Sorted(cands, order)
  }

  function Insert(cands: seq<Candidate>, s: seq<nat>, x: nat): (r: seq<nat>)
    requires x < |cands| && Sorted(cands, s)
    ensures |r| == |s| + 1
    ensures forall e :: e in r <==> e in s || e == x
    ensures Sorted(cands, r)
    ensures |s| > 0 ==> r[0] == x || r[0] == s[0]
    ensures Distinct(s) && x !in s ==> Distinct(r)
  {
    if |s| == 0 || cands[x].confidence >= cands[s[0]].confidence then
      var r := [x] + s;
      assert forall j :: 0 < j < |r| ==> r[j] == s[j - 1];
      r
    else
      var rest := Insert(cands, s[1..], x);
      var r := [s[0]] + rest;
      assert forall j :: 0 < j < |r| ==> r[j] == rest[j - 1];
      assert forall e :: e in s <==> e == s[0] || e in s[1..] by {
        assert s == [s[0]] + s[1..];
      }
      assert Distinct(s) ==> Distinct(s[1..]) && s[0] !in s[1..] by {
        if Distinct(s) {
          TailOfDistinct(s);
        }
      }
      r
  }

  /** A ranking of the first `m` candidates, built by insertion. */
  function Rank(cands: seq<Candidate>, m: nat): (r: seq<nat>)
    requires m <= |cands|
    ensures |r| == m
    ensures forall e :: e in r <==> 0 <= e < m
    ensures Distinct(r) && Sorted(cands, r)
  {
    if m == 0 then [] else Insert(cands, Rank(cands, m - 1), m - 1)
  }

  /** Every candidate list has a ranking, so the seeding below can always run. */
  lemma RankingExists(cands: seq<Candidate>)
    ensures IsRanking(cands, Rank(cands, |cands|))
  {
  }

  /** Along a ranking, an earlier candidate is at least as confident as any later one. */
  lemma {:induction false} RankingDominates(cands: seq<Candidate>, order: seq<nat>, a: nat, b: nat)
    requires Sorted(cands, order) && a <= b < |order|
    ensures cands[order[a]].confidence >= cands[order[b]].confidence
    decreases b - a
  {
    if a < b {
      RankingDominates(cands, order, a + 1, b);
      assert cands[order[a]].confidence >= cands[order[a + 1]].confidence;
    }
  }

  function Min(a: nat, b: nat): nat {
    if a <= b then a else b
  }

  /** The selection loop: for each candidate in ranking order, while fewer
      than `count` peaks are taken, record `q`, a tenth of `I`, and the
      width estimate at the candidate's spectrum index. */
  method SeedPeaks(q: seq<real>, I: seq<real>, cands: seq<Candidate>, order: seq<nat>, count: int,
                   hwhm: nat -> real)
    returns (qs: seq<real>, Is: seq<real>, ws: seq<real>)
    requires |q| == |I| && IsRanking(cands, order)
    requires forall c :: c in cands ==> c.index < |q|
    ensures |qs| == |Is| == |ws| == Min(|cands|, Copies(count))
    ensures forall j :: 0 <= j < |qs| ==>
              && qs[j] == q[cands[order[j]].index]
              && Is[j] == 0.1 * I[cands[order[j]].index]
              && ws[j] == hwhm(cands[order[j]].index)
  {
    qs, Is, ws := [], [], [];
    var npk := 0;
    for t := 0 to |order|
      invariant npk == Min(t, Copies(count))
      invariant |qs| == npk && |Is| == npk && |ws| == npk
      invariant forall j :: 0 <= j < npk ==>
                  && qs[j] == q[cands[order[j]].index]
                  && Is[j] == 0.1 * I[cands[order[j]].index]
                  && ws[j] == hwhm(cands[order[j]].index)
    {
      if npk < count {
        var c := cands[order[t]];
        qs := qs + [q[c.index]];
        Is := Is + [0.1 * I[c.index]];
        ws := ws + [hwhm(c.index)];
        npk := npk + 1;
      }
    }
  }

  /** The peaks seeded are the most confident candidates: none left out is
      more confident than one taken. */
  lemma SeedsAreMostConfident(cands: seq<Candidate>, order: seq<nat>, n: nat)
    requires IsRanking(cands, order) && n <= |order|
    ensures forall a, b :: 0 <= a < n <= b < |order| ==> cands[order[a]].confidence >= cands[order[b]].confidence
  {
    forall a, b | 0 <= a < n <= b < |order|
      ensures cands[order[a]].confidence >= cands[order[b]].confidence
    {
      RankingDominates(cands, order, a, b);
    }
  }

  /** `estimate_peak_params(params)`: with no `diffraction_peaks` population
      the dict comes back as it was; otherwise its `q_pkcenter`,
      `I_pkcenter` and `pk_hwhm` lists are replaced by the seeds (a key the
      dict lacks is appended) and nothing else changes. */
  method EstimatePeakParams(f: SaxsFitter, params: Option<PDict<real>>, cands: seq<Candidate>,
                            order: seq<nat>, hwhm: nat -> real)
    returns (r: PDict<real>)
    requires ValidPops(f.pops) && OptWellFormed(params) && |f.q| == |f.I|
    requires IsRanking(cands, order)
    requires forall c :: c in cands ==> c.index < |f.q|
    ensures var base := if params.None? then DefaultParams(f.pops) else params.value;
            !Truthy(f.pops.count[DiffractionPeaks]) ==> r == base
    ensures var base := if params.None? then DefaultParams(f.pops) else params.value;
            Truthy(f.pops.count[DiffractionPeaks]) ==>
              && WellFormed(r)
              && |base.keys| <= |r.keys| && (forall j :: 0 <= j < |base.keys| ==> r.keys[j] == base.keys[j])
              && (forall k :: k in r.vals <==> k in base.vals || k == QPkCenter || k == IPkCenter || k == PkHwhm)
              && (forall k :: k in base.vals && k != QPkCenter && k != IPkCenter && k != PkHwhm ==> r.vals[k] == base.vals[k])
    ensures Truthy(f.pops.count[DiffractionPeaks]) ==>
              var n := Min(|cands|, Copies(f.pops.count[DiffractionPeaks]));
              && QPkCenter in r.vals && IPkCenter in r.vals && PkHwhm in r.vals
              && |r.vals[QPkCenter]| == n && |r.vals[IPkCenter]| == n && |r.vals[PkHwhm]| == n
              && forall j :: 0 <= j < n ==>
                   && r.vals[QPkCenter][j] == f.q[cands[order[j]].index]
                   && r.vals[IPkCenter][j] == 0.1 * f.I[cands[order[j]].index]
                   && r.vals[PkHwhm][j] == hwhm(cands[order[j]].index)
  {
    var base := if params.None? then DefaultParams(f.pops) else params.value;
    r := base;
    if Truthy(f.pops.count[DiffractionPeaks]) {
      var qs, Is, ws := SeedPeaks(f.q, f.I, cands, order, f.pops.count[DiffractionPeaks], hwhm);
      r := SetPeakLists(base, qs, Is, ws);
    }
  }

  /** The three assignments `params['q_pkcenter'] = ...` and so on. */
  function SetPeakLists(base: PDict<real>, qs: seq<real>, Is: seq<real>, ws: seq<real>): (r: PDict<real>)
    requires WellFormed(base)
    ensures WellFormed(r)
    ensures |base.keys| <= |r.keys| && forall j :: 0 <= j < |base.keys| ==> r.keys[j] == base.keys[j]
    ensures r.vals == base.vals[QPkCenter := qs][IPkCenter := Is][PkHwhm := ws]
  {
    var r1 := SetKey(base, QPkCenter, qs);
    var r2 := SetKey(r1, IPkCenter, Is);
    var r3 := SetKey(r2, PkHwhm, ws);
    SetKeyKeepsOrder(base, QPkCenter, qs);
    SetKeyKeepsOrder(r1, IPkCenter, Is);
    SetKeyKeepsOrder(r2, PkHwhm, ws);
    assert forall j :: 0 <= j < |base.keys| ==> r3.keys[j] == r2.keys[j] == r1.keys[j] == base.keys[j];
    r3
  }
}
