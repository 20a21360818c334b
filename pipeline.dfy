/** The whole computation behind the targeting page, from the physician table
    and the scenario inputs to everything the page shows about the targets. */
module Pipeline {
  import opened Text
  import opened Roster
  import opened Ranking
  import opened Targeting
  import opened Metrics
  import opened Messaging
  import opened CallList

  /** The map colour of a row. */
  datatype Color = Target | Other

  /** The map tags: a row is tagged Target exactly when the mask keeps it,
      and Other exactly when the mask drops it, so the map shows as many
      Target rows as the mask keeps (the "Target Doctors" count). */
  function ColorTags(mask: seq<bool>): (r: seq<Color>)
    ensures |r| == |mask|
    ensures forall i :: 0 <= i < |mask| ==> (r[i] == Target <==> mask[i])
    ensures forall i :: 0 <= i < |mask| ==> (r[i] == Other <==> !mask[i])
    ensures CountTargetTags(r) == CountTrue(mask)
  {
    var r := seq(|mask|, i requires 0 <= i < |mask| => if mask[i] then Target else Other);
    TargetTagsFollowMask(mask, r);
    r
  }

  /** The number of rows tagged Target. */
  function CountTargetTags(c: seq<Color>): nat {
    if |c| == 0 then 0
    else CountTargetTags(c[..|c| - 1]) + (if c[|c| - 1] == Target then 1 else 0)
  }

  /** Tags that mark exactly the kept rows count the kept rows. */
  lemma {:induction false} TargetTagsFollowMask(mask: seq<bool>, c: seq<Color>)
    requires |c| == |mask|
    requires forall i :: 0 <= i < |mask| ==> (c[i] == Target <==> mask[i])
    ensures CountTargetTags(c) == CountTrue(mask)
  {
    if |mask| > 0 {
      TargetTagsFollowMask(mask[..|mask| - 1], c[..|c| - 1]);
    }
  }

  datatype TargetingResult = TargetingResult(
    mask: seq<bool>,
    colors: seq<Color>,
    targets: seq<Physician>,
    targetCount: nat,
    potentialLift: real,
    revenueImpact: real,
    topName: string,
    message: Message,
    payerMix: Option<PayerMix>,
    displayColumns: seq<Column>,
    callList: seq<seq<Cell>>,
    csvHeader: seq<string>,
    csvRows: seq<seq<Cell>>)

  /** The target selection and the map tags (the page's filtering logic). */
  method SelectTargets(roster: seq<Physician>, config: Config)
    returns (mask: seq<bool>, colors: seq<Color>, targets: seq<Physician>)
    ensures |mask| == |colors| == |roster|
    ensures targets == Select(roster, mask)
    ensures colors == ColorTags(mask)
    ensures |targets| <= config.callCapacity
    ensures forall t :: t in targets ==> Eligible(t, config)
    ensures CountTrue(FilterMask(roster, config)) <= config.callCapacity ==>
      targets == Select(roster, FilterMask(roster, config))
    ensures CountTrue(FilterMask(roster, config)) > config.callCapacity ==>
      |targets| == config.callCapacity
    ensures KeepsHighestVolume(roster, config, mask)
    ensures |IndicesOf(mask)| == |targets|
    ensures forall k :: 0 <= k < |targets| ==>
      IndicesOf(mask)[k] < |roster| && targets[k] == roster[IndicesOf(mask)[k]]
  {
    mask := ComputeTargetMask(roster, config);
    colors := ColorTags(mask);
    targets := Select(roster, mask);
    forall t | t in targets ensures Eligible(t, config) {
      var i :| 0 <= i < |roster| && mask[i] && roster[i] == t;
    }
    SelectFollowsIndices(roster, mask);
  }

  /** The three metric cards and the payer-mix chart. */
  method Summarise(targets: seq<Physician>)
    returns (count: nat, lift: real, revenue: real, mix: Option<PayerMix>)
    ensures count == |targets|
    ensures lift == PotentialLift(targets) && revenue == RevenueImpact(lift)
    ensures lift == 0.15 * (SumVolumes(targets) as real)
    ensures revenue == 500.0 * lift
    ensures revenue == 75.0 * (SumVolumes(targets) as real)
    ensures mix == PayerMixOf(targets)
    ensures mix.Some? <==> |targets| > 0
    ensures mix.Some? ==> mix.value.uhc + mix.value.aetna + mix.value.cigna + mix.value.other == 1.0
  {
    count := |targets|;
    lift := PotentialLift(targets);
    revenue := RevenueImpact(lift);
    RevenueIsSeventyFivePerUnit(targets);
    mix := PayerMixOf(targets);
  }

  /** The messaging panel. */
  method Brief(targets: seq<Physician>, strategy: string) returns (topName: string, message: Message)
    ensures topName == TopName(targets) && NamesTopTarget(targets, topName)
    ensures message == StrategyMessage(strategy, topName) && FollowsStrategy(message, strategy, topName)
  {
    topName := TopName(targets);
    message := StrategyMessage(strategy, topName);
  }

  /** The priority call list and its CSV download. */
  method BuildCallList(targets: seq<Physician>, formularyWin: string)
    returns (cols: seq<Column>, callList: seq<seq<Cell>>, header: seq<string>, csvRows: seq<seq<Cell>>)
    ensures ShowsWinnerColumns(cols, formularyWin)
    ensures header == HeaderRow(cols)
    ensures callList == DisplayedCallList(targets, cols) && RankedByVolume(callList)
    ensures csvRows == ExportRows(targets, cols)
    ensures |csvRows| == |callList| == |targets|
    ensures multiset(callList) == multiset(csvRows)
  {
    cols := DisplayColumns(formularyWin);
    callList := DisplayedCallList(targets, cols);
    header := HeaderRow(cols);
    csvRows := ExportRows(targets, cols);
    assert |callList| == |multiset(callList)| == |csvRows|;
  }

  /** Selects the targets, then derives the summary figures, the messaging
      panel, the payer mix, the displayed call list and the CSV rows. */
  method ComputeTargets(roster: seq<Physician>, config: Config) returns (res: TargetingResult)
    ensures |res.mask| == |res.colors| == |roster|
    ensures res.targets == Select(roster, res.mask)
    ensures res.colors == ColorTags(res.mask)
    ensures res.targetCount == |res.targets| <= config.callCapacity
    ensures CountTargetTags(res.colors) == res.targetCount
    ensures forall t :: t in res.targets ==> Eligible(t, config)
    ensures CountTrue(FilterMask(roster, config)) <= config.callCapacity ==>
      res.targets == Select(roster, FilterMask(roster, config))
    ensures CountTrue(FilterMask(roster, config)) > config.callCapacity ==>
      res.targetCount == config.callCapacity
    ensures KeepsHighestVolume(roster, config, res.mask)
    ensures res.potentialLift == PotentialLift(res.targets)
    ensures res.revenueImpact == 500.0 * res.potentialLift == 75.0 * (SumVolumes(res.targets) as real)
    ensures res.payerMix == PayerMixOf(res.targets)
    ensures res.payerMix.Some? <==> |res.targets| > 0
    ensures res.topName == TopName(res.targets) && NamesTopTarget(res.targets, res.topName)
    ensures res.message == StrategyMessage(config.strategy, res.topName)
    ensures FollowsStrategy(res.message, config.strategy, res.topName)
    ensures ShowsWinnerColumns(res.displayColumns, config.formularyWin)
    ensures res.csvHeader == HeaderRow(res.displayColumns)
    ensures res.callList == DisplayedCallList(res.targets, res.displayColumns)
    ensures RankedByVolume(res.callList)
    ensures res.csvRows == ExportRows(res.targets, res.displayColumns)
    ensures |res.csvRows| == |res.callList| == res.targetCount
    ensures multiset(res.callList) == multiset(res.csvRows)
    ensures forall k :: 0 <= k < |res.csvRows| ==>
      IndicesOf(res.mask)[k] < |roster| &&
      res.csvRows[k] == ProjectRow(roster[IndicesOf(res.mask)[k]], res.displayColumns)
  {
    var mask, colors, targets := SelectTargets(roster, config);
    var count, lift, revenue, mix := Summarise(targets);
    var topName, message := Brief(targets, config.strategy);
    var cols, callList, header, csvRows := BuildCallList(targets, config.formularyWin);
    res := TargetingResult(mask, colors, targets, count, lift, revenue, topName, message, mix,
                           cols, callList, header, csvRows);
  }

  /** A small territory: three physicians, the UnitedHealthcare formulary win
      and zip 19103. A passes both filters, B is outside the zip and C is under
      the share threshold. */
  function SmallRoster(): seq<Physician> {
    [ Physician("A", "Cardiology", 100, 0.9, 0.1, 0.0, "Gold", "19103"),
      Physician("B", "Cardiology", 300, 0.6, 0.2, 0.1, "Silver", "19104"),
      Physician("C", "Endocrinology", 50, 0.2, 0.3, 0.4, "Bronze", "19103") ]
  }

  function SmallConfig(capacity: nat, strategy: string): Config {
    Config("UnitedHealthcare - National Preferred", ["19103"], capacity, strategy)
  }

  /** In the small territory the two filters keep A alone, whatever the
      capacity and strategy. */
  lemma SmallTerritoryFilters(capacity: nat, strategy: string)
    ensures FilterMask(SmallRoster(), SmallConfig(capacity, strategy)) == [true, false, false]
    ensures CountTrue([true, false, false]) == 1
  {
    var roster := SmallRoster();
    var config := SmallConfig(capacity, strategy);
    UnitedHealthcareOptionSelectsUHC();
    assert Eligible(roster[0], config);
    assert !Eligible(roster[1], config);
    assert !Eligible(roster[2], config);
    assert [true, false, false][..2] == [true, false];
    assert [true, false][..1] == [true];
    assert [true][..0] == [];
  }

  /** Selecting A alone from the small territory gives a volume of 100. */
  lemma SmallTerritorySelectsA()
    ensures Select(SmallRoster(), [true, false, false]) == [SmallRoster()[0]]
    ensures SumVolumes([SmallRoster()[0]]) == 100
  {
    var roster := SmallRoster();
    var a := roster[0];
    assert Select([a], [true]) == [a] by {
      assert [a][..0] == [];
      assert [true][..0] == [];
    }
    assert Select(roster[..2], [true, false]) == [a] by {
      assert roster[..2][..1] == [a];
      assert [true, false][..1] == [true];
    }
    assert [true, false, false][..2] == [true, false];
  }

  /** With a capacity of 10, A alone is targeted, for a lift of 15 and a
      revenue impact of 7500, and the messaging panel names A. */
  method SmallTerritoryTargetsA()
  {
    var roster := SmallRoster();
    SmallTerritoryFilters(10, "Defensive (Protect)");
    SmallTerritorySelectsA();
    var config := SmallConfig(10, "Defensive (Protect)");
    assert CountTrue(FilterMask(roster, config)) == 1;
    var mask, colors, targets := SelectTargets(roster, config);
    assert targets == [roster[0]];
    assert SumVolumes(targets) == 100;
    assert |targets| == 1 && targets[0].name == "A";
    var count, lift, revenue, mix := Summarise(targets);
    assert lift == 15.0 && revenue == 7500.0;
    assert TopName(targets) == "A";
  }

  /** With no call capacity nothing is targeted: no lift, no revenue, no
      payer mix, and the panel names the placeholder. */
  method SmallTerritoryNoCapacity()
  {
    var mask, colors, targets := SelectTargets(SmallRoster(), SmallConfig(0, "Offensive (Switch)"));
    assert targets == [];
    var count, lift, revenue, mix := Summarise(targets);
    assert lift == 0.0 && revenue == 0.0 && mix == None;
    assert TopName(targets) == "Target Physician";
  }
}
