/** The target selection of the page: the formulary filter, the zip filter and
    the call-capacity cut, each rebinding the boolean row mask in turn. */
module Targeting {
  import opened Text
  import opened Roster
  import opened Ranking

  /** A payer's share must exceed this for the physician to count as covered. */
  const ShareThreshold: real := 0.5

  /** The payer whose share column gates the target filter, by fixed
      priority and not by position in the text: UnitedHealthcare if the
      formulary-win text names it, else Aetna if named, else Cigna if named,
      else none. */
  function WinningPayer(formularyWin: string): (r: Option<Payer>)
    ensures r.None? <==>
      !Contains(formularyWin, "UnitedHealthcare") && !Contains(formularyWin, "Aetna") &&
      !Contains(formularyWin, "Cigna")
    ensures r == Some(UHC) <==> Contains(formularyWin, "UnitedHealthcare")
    ensures r == Some(Aetna) <==> !Contains(formularyWin, "UnitedHealthcare") && Contains(formularyWin, "Aetna")
    ensures r == Some(Cigna) ==> Contains(formularyWin, "Cigna")
  {
    if Contains(formularyWin, "UnitedHealthcare") then Some(UHC)
    else if Contains(formularyWin, "Aetna") then Some(Aetna)
    else if Contains(formularyWin, "Cigna") then Some(Cigna)
    else None
  }

  /** The row passes the formulary filter (no filter when no payer is named). */
  predicate PassesFormulary(p: Physician, formularyWin: string) {
    match WinningPayer(formularyWin)
    case None => true
    case Some(payer) => ShareOf(p, payer) > ShareThreshold
  }

  /** The row passes the zip filter (no filter when no zip is selected). */
  predicate PassesZip(p: Physician, selectedZips: seq<string>) {
    |selectedZips| == 0 || p.zip in selectedZips
  }

  /** The row survives both filters, before the capacity cut. */
  predicate Eligible(p: Physician, config: Config) {
    PassesFormulary(p, config.formularyWin) && PassesZip(p, config.selectedZips)
  }

  /** Reference definition of the mask after the two filters. */
  function FilterMask(roster: seq<Physician>, config: Config): seq<bool> {
    seq(|roster|, i requires 0 <= i < |roster| => Eligible(roster[i], config))
  }

  // ---- masks -------------------------------------------------------------

  /** Number of rows a mask keeps. */
  function CountTrue(m: seq<bool>): nat {
    if |m| == 0 then 0
    else CountTrue(m[..|m| - 1]) + (if m[|m| - 1] then 1 else 0)
  }

  /** Element-wise `&` of two masks. */
  function AndMask(a: seq<bool>, b: seq<bool>): (r: seq<bool>)
    requires |a| == |b|
  {
    seq(|a|, i requires 0 <= i < |a| => a[i] && b[i])
  }

  /** `df[share column] > 0.5` */
  function ShareMask(roster: seq<Physician>, payer: Payer): seq<bool> {
    seq(|roster|, i requires 0 <= i < |roster| => ShareOf(roster[i], payer) > ShareThreshold)
  }

  /** `df['Zip Code'].isin(selected_zips)` */
  function ZipMask(roster: seq<Physician>, zips: seq<string>): seq<bool> {
    seq(|roster|, i requires 0 <= i < |roster| => roster[i].zip in zips)
  }

  /** `df.index.isin(indices)` over a table of `n` rows: row `i` is kept
      exactly when `i` is one of the indices, so no more rows are kept than
      there are indices, whatever duplicates or out-of-range positions they hold. */
  function IndexMask(indices: seq<nat>, n: nat): (r: seq<bool>)
    ensures |r| == n
    ensures forall i :: 0 <= i < n ==> (r[i] <==> i in indices)
    ensures CountTrue(r) <= |indices|
  {
    var r := seq(n, i requires 0 <= i < n => i in indices);
    MembershipCountAtMost(indices, r);
    r
  }

  /** A mask that keeps exactly the rows whose positions are listed keeps at
      most as many rows as there are entries in the list. */
  lemma {:induction false} MembershipCountAtMost(indices: seq<nat>, m: seq<bool>)
    requires forall i :: 0 <= i < |m| ==> (m[i] <==> i in indices)
    ensures CountTrue(m) <= |indices|
    decreases |indices|
  {
    if |indices| == 0 {
      assert m == seq(|m|, _ => false);
      CountTrueNone(|m|);
    } else {
      var init := indices[..|indices| - 1];
      var x := indices[|indices| - 1];
      assert indices == init + [x];
      var m0 := seq(|m|, i requires 0 <= i < |m| => i in init);
      MembershipCountAtMost(init, m0);
      if x < |m| && x !in init {
        assert m == m0[x := true];
        CountTrueSet(m0, x);
      } else {
        assert m == m0;
      }
    }
  }

  /** The row positions a mask keeps (`df[mask].index`), each once, in roster order. */
  function IndicesOf(m: seq<bool>): (r: seq<nat>)
    ensures |r| == CountTrue(m)
    ensures forall x :: x in r <==> 0 <= x < |m| && m[x]
    ensures forall x :: multiset(r)[x] <= 1
  {
    if |m| == 0 then []
    else
      var init := IndicesOf(m[..|m| - 1]);
      assert |m| - 1 !in init;
      init + (if m[|m| - 1] then [|m| - 1] else [])
  }

  /** The rows a mask keeps, in roster order (`df[mask]`). */
  function Select<T>(s: seq<T>, m: seq<bool>): (r: seq<T>)
    requires |s| == |m|
    ensures |r| == CountTrue(m)
    ensures forall x :: x in r ==> exists i :: 0 <= i < |s| && m[i] && s[i] == x
  {
    if |s| == 0 then []
    else
      var r := Select(s[..|s| - 1], m[..|m| - 1]);
      r + (if m[|m| - 1] then [s[|s| - 1]] else [])
  }

  /** The kept positions are listed in increasing (roster) order. */
  lemma {:induction false} IndicesIncrease(m: seq<bool>)
    ensures forall a, b :: 0 <= a < b < |IndicesOf(m)| ==> IndicesOf(m)[a] < IndicesOf(m)[b]
  {
    if |m| > 0 {
      var init := IndicesOf(m[..|m| - 1]);
      IndicesIncrease(m[..|m| - 1]);
      assert forall a :: 0 <= a < |init| ==> init[a] in init;
    }
  }

  /** `df[mask]` is the roster subsequence the mask picks: its k-th row is the
      row at the k-th kept position, and those positions increase. */
  lemma {:induction false} SelectFollowsIndices<T>(s: seq<T>, m: seq<bool>)
    requires |s| == |m|
    ensures |Select(s, m)| == |IndicesOf(m)|
    ensures forall k :: 0 <= k < |Select(s, m)| ==> IndicesOf(m)[k] < |s| && Select(s, m)[k] == s[IndicesOf(m)[k]]
  {
    if |s| > 0 {
      var n := |s| - 1;
      SelectFollowsIndices(s[..n], m[..n]);
      forall k | 0 <= k < |Select(s, m)|
        ensures IndicesOf(m)[k] < |s| && Select(s, m)[k] == s[IndicesOf(m)[k]]
      {
        assert IndicesOf(m)[k] in IndicesOf(m);
        if k < |Select(s[..n], m[..n])| {
          assert IndicesOf(m)[k] == IndicesOf(m[..n])[k];
          assert s[..n][IndicesOf(m[..n])[k]] == s[IndicesOf(m[..n])[k]];
        }
      }
    }
  }

  /** The options of the formulary-win control name UnitedHealthcare, Aetna
      and Cigna respectively. */
  lemma UnitedHealthcareOptionSelectsUHC()
    ensures WinningPayer("UnitedHealthcare - National Preferred") == Some(UHC)
  {
    var option := "UnitedHealthcare - National Preferred";
    assert forall k :: 0 <= k < 16 ==> option[k] == "UnitedHealthcare"[k];
    assert option[..16] == "UnitedHealthcare";
  }

  lemma AetnaOptionSelectsAetna()
    ensures WinningPayer("Aetna - Silver Tier") == Some(Aetna)
  {
    MissingFirstCharNotContained("Aetna - Silver Tier", "UnitedHealthcare");
    assert "Aetna - Silver Tier"[..5] == "Aetna";
  }

  lemma CignaOptionSelectsCigna()
    ensures WinningPayer("Cigna - Bronze") == Some(Cigna)
  {
    MissingFirstCharNotContained("Cigna - Bronze", "UnitedHealthcare");
    MissingFirstCharNotContained("Cigna - Bronze", "Aetna");
    assert "Cigna - Bronze"[..5] == "Cigna";
  }

  /** The volume of row `i`, the ranking key of the capacity cut. */
  function VolumeAt(roster: seq<Physician>, i: nat): int {
    if i < |roster| then roster[i].volume else 0
  }

  // ---- the pipeline ------------------------------------------------------

  /** Steps 1 and 2 of the selection: start with every row, apply the
      formulary filter of the first payer named, then the zip filter when zips
      are selected. */
  method ApplyFilters(roster: seq<Physician>, config: Config) returns (mask: seq<bool>)
    ensures |mask| == |roster|
    ensures forall i :: 0 <= i < |roster| ==> (mask[i] <==> Eligible(roster[i], config))
  {
    var n := |roster|;
    mask := seq(n, _ => true);

    // 1. Filter by formulary
    if Contains(config.formularyWin, "UnitedHealthcare") {
      mask := AndMask(mask, ShareMask(roster, UHC));
    } else if Contains(config.formularyWin, "Aetna") {
      mask := AndMask(mask, ShareMask(roster, Aetna));
    } else if Contains(config.formularyWin, "Cigna") {
      mask := AndMask(mask, ShareMask(roster, Cigna));
    }

    // 2. Filter by zip
    if |config.selectedZips| > 0 {
      mask := AndMask(mask, ZipMask(roster, config.selectedZips));
    }
  }

  /** The target mask: the two filters, then, when more rows survive than the
      call capacity, only the `callCapacity` highest-volume survivors. */
  method ComputeTargetMask(roster: seq<Physician>, config: Config) returns (mask: seq<bool>)
    ensures |mask| == |roster|
    // Soundness: every target passed both filters.
    ensures forall i :: 0 <= i < |roster| && mask[i] ==> Eligible(roster[i], config)
    ensures CoveredByColumns(roster, config, mask)
    // The capacity bound, met exactly when the filters leave too many rows.
    ensures CountTrue(mask) <= config.callCapacity
    ensures CountTrue(FilterMask(roster, config)) > config.callCapacity ==>
      CountTrue(mask) == config.callCapacity
    // No unnecessary truncation.
    ensures CountTrue(FilterMask(roster, config)) <= config.callCapacity ==>
      mask == FilterMask(roster, config)
    // With no payer named, no zip selected and room for everyone, every row is a target.
    ensures (WinningPayer(config.formularyWin).None? && |config.selectedZips| == 0 &&
             |roster| <= config.callCapacity) ==> forall i :: 0 <= i < |roster| ==> mask[i]
    // Top-N: a filtered row that was cut has no more volume than any target.
    ensures KeepsHighestVolume(roster, config, mask)
  {
    var n := |roster|;
    mask := ApplyFilters(roster, config);
    assert mask == FilterMask(roster, config);
    ghost var filtered := mask;

    // 3. Apply the call capacity
    var ranked := SortDesc(IndicesOf(mask), i => VolumeAt(roster, i));
    if |ranked| > config.callCapacity {
      var top := ranked[..config.callCapacity];
      CapacityCut(roster, filtered, ranked, config.callCapacity);
      mask := IndexMask(top, n);
    }
    EligibleMeansCovered(roster, config, mask);
    CountTrueAtMost(filtered);
  }

  /** Top-N: no row that passed the filters but was left out of `mask` has
      more volume than a row `mask` keeps. */
  ghost predicate KeepsHighestVolume(roster: seq<Physician>, config: Config, mask: seq<bool>) {
    && |mask| == |roster|
    && forall i, j ::
      (0 <= i < |roster| && 0 <= j < |roster| && Eligible(roster[i], config) && !mask[i] && mask[j]) ==>
      roster[i].volume <= roster[j].volume
  }

  /** What passing the filters means column by column: a kept row has a
      UnitedHealthcare share above 0.5 when UnitedHealthcare is named, else an
      Aetna share above 0.5 when Aetna is named, else a Cigna share above 0.5
      when Cigna is named, and a selected zip when some zip is selected. */
  ghost predicate CoveredByColumns(roster: seq<Physician>, config: Config, mask: seq<bool>) {
    && |mask| == |roster|
    && (Contains(config.formularyWin, "UnitedHealthcare") ==>
        forall i :: 0 <= i < |roster| && mask[i] ==> roster[i].uhcShare > 0.5)
    && ((!Contains(config.formularyWin, "UnitedHealthcare") && Contains(config.formularyWin, "Aetna")) ==>
        forall i :: 0 <= i < |roster| && mask[i] ==> roster[i].aetnaShare > 0.5)
    && ((!Contains(config.formularyWin, "UnitedHealthcare") &&
         !Contains(config.formularyWin, "Aetna") && Contains(config.formularyWin, "Cigna")) ==>
        forall i :: 0 <= i < |roster| && mask[i] ==> roster[i].cignaShare > 0.5)
    && (|config.selectedZips| > 0 ==>
        forall i :: 0 <= i < |roster| && mask[i] ==> roster[i].zip in config.selectedZips)
  }

  /** What passing the filters means column by column. */
  lemma EligibleMeansCovered(roster: seq<Physician>, config: Config, mask: seq<bool>)
    requires |mask| == |roster|
    requires forall i :: 0 <= i < |roster| && mask[i] ==> Eligible(roster[i], config)
    ensures CoveredByColumns(roster, config, mask)
  {
  }

  /** The capacity cut keeps the first `k` rows of the volume ranking of the
      filtered rows: exactly `k` of them, all filtered, none with less volume
      than a filtered row it leaves out. */
  lemma CapacityCut(roster: seq<Physician>, filtered: seq<bool>, ranked: seq<nat>, k: nat)
    requires |filtered| == |roster|
    requires multiset(ranked) == multiset(IndicesOf(filtered))
    requires NonIncreasing(ranked, i => VolumeAt(roster, i))
    requires k < |ranked|
    ensures CountTrue(IndexMask(ranked[..k], |roster|)) == k
    ensures forall i :: 0 <= i < |roster| && IndexMask(ranked[..k], |roster|)[i] ==> filtered[i]
    ensures forall i, j ::
      0 <= i < |roster| && 0 <= j < |roster| && filtered[i] &&
      !IndexMask(ranked[..k], |roster|)[i] && IndexMask(ranked[..k], |roster|)[j] ==>
      roster[i].volume <= roster[j].volume
  {
    var n := |roster|;
    var top := ranked[..k];
    var mask := IndexMask(top, n);
    TopIsDistinctAndInRange(ranked, k, n, IndicesOf(filtered));
    IndexMaskCount(top, n);
    forall i | 0 <= i < n && mask[i] ensures filtered[i] {
      assert i in ranked;
      assert i in multiset(IndicesOf(filtered));
    }
    forall i, j | 0 <= i < n && 0 <= j < n && filtered[i] && !mask[i] && mask[j]
      ensures roster[i].volume <= roster[j].volume
    {
      assert i in multiset(IndicesOf(filtered));
      assert i in multiset(ranked);
      var p :| 0 <= p < |ranked| && ranked[p] == i;
      var q :| 0 <= q < |top| && top[q] == j;
      assert p >= k;
      assert VolumeAt(roster, ranked[q]) >= VolumeAt(roster, ranked[p]);
    }
  }

  /** The first `k` entries of a ranking of distinct row positions below `n`
      are themselves distinct and below `n`. */
  lemma TopIsDistinctAndInRange(ranked: seq<nat>, k: nat, n: nat, indices: seq<nat>)
    requires multiset(ranked) == multiset(indices)
    requires forall x :: multiset(indices)[x] <= 1
    requires forall x :: x in indices ==> x < n
    requires k <= |ranked|
    ensures forall x :: multiset(ranked[..k])[x] <= 1
    ensures forall x :: x in ranked[..k] ==> x < n
  {
    assert ranked == ranked[..k] + ranked[k..];
    assert multiset(ranked) == multiset(ranked[..k]) + multiset(ranked[k..]);
    forall x ensures multiset(ranked[..k])[x] <= 1 {
      assert multiset(ranked[..k])[x] <= multiset(ranked)[x];
    }
    forall x | x in ranked[..k] ensures x < n {
      assert x in multiset(ranked[..k]);
      assert x in multiset(ranked);
      assert x in multiset(indices);
      assert x in indices;
    }
  }

  /** A mask keeps at most all of its rows. */
  lemma {:induction false} CountTrueAtMost(m: seq<bool>)
    ensures CountTrue(m) <= |m|
  {
    if |m| > 0 {
      CountTrueAtMost(m[..|m| - 1]);
    }
  }

  /** Setting one unset entry of a mask keeps one more row. */
  lemma {:induction false} CountTrueSet(m: seq<bool>, x: nat)
    requires x < |m| && !m[x]
    ensures CountTrue(m[x := true]) == CountTrue(m) + 1
    decreases |m|
  {
    var last := |m| - 1;
    if x == last {
      assert m[x := true][..last] == m[..last];
    } else {
      assert m[x := true][..last] == m[..last][x := true];
      CountTrueSet(m[..last], x);
    }
  }

  /** A mask that keeps no row counts zero. */
  lemma {:induction false} CountTrueNone(n: nat)
    ensures CountTrue(seq(n, _ => false)) == 0
  {
    if n > 0 {
      assert seq(n, _ => false)[..n - 1] == seq(n - 1, _ => false);
      CountTrueNone(n - 1);
    }
  }

  /** `df.index.isin(indices)` keeps exactly as many rows as there are
      (distinct, in range) indices. */
  lemma {:induction false} IndexMaskCount(indices: seq<nat>, n: nat)
    requires forall x :: multiset(indices)[x] <= 1
    requires forall x :: x in indices ==> x < n
    ensures CountTrue(IndexMask(indices, n)) == |indices|
    decreases |indices|
  {
    if |indices| == 0 {
      assert IndexMask(indices, n) == seq(n, _ => false);
      CountTrueNone(n);
    } else {
      var init := indices[..|indices| - 1];
      var x := indices[|indices| - 1];
      assert indices == init + [x];
      assert multiset(indices) == multiset(init) + multiset{x};
      assert x !in init by {
        assert multiset(indices)[x] <= 1;
      }
      forall y ensures multiset(init)[y] <= 1 {
        assert multiset(init)[y] <= multiset(indices)[y];
      }
      forall y | y in init ensures y < n {
        assert y in indices;
      }
      assert x < n by {
        assert x in indices;
      }
      IndexMaskCount(init, n);
      assert IndexMask(indices, n) == IndexMask(init, n)[x := true];
      CountTrueSet(IndexMask(init, n), x);
    }
  }
}
