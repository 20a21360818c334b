# Pull-through targeting: a Dafny model

This project models the targeting logic of the "Pull-Through Targeting Tool"
page of a pharmaceutical sales dashboard. The page takes a table of
physicians and four scenario inputs: the formulary win, the selected zip
codes, the call capacity and the strategy. From these it computes:

- a target mask over the table;
- the target count, the potential volume lift and the revenue impact;
- the name of the top physician and a messaging template;
- the payer-mix averages of the targets;
- the priority call list, as displayed and as downloaded.

The model has eight modules:

- `Text`: Python's `needle in text` test on strings. The page uses it to find
  the winning payer and the strategy.
- `Roster`: the physician record, the payers and the scenario inputs.
- `Ranking`: sorting by a key with the largest first (`sort_values(...,
  ascending=False)`). The contract promises a permutation in non-increasing key
  order and nothing about the order of equal keys.
- `Targeting`: the mask. The formulary filter picks a payer by fixed
  priority, whatever the word order of the formulary-win text:
  UnitedHealthcare if named, else Aetna if named, else Cigna if named. It keeps
  a row when that payer's share is above 0.5. When no payer is named, nothing
  is filtered. Next comes the zip filter, applied only when some zip is
  selected. Last comes the capacity cut: when more rows survive than the
  capacity, only the positions of the `capacity` highest-volume survivors are
  kept, by `isin` over the roster. The two filters are a method that rebinds
  the mask step by step, proved against a declarative reference
  (`Eligible`, `FilterMask`).
- `Metrics`: the lift is 15% of the targets' total volume, and 0 without
  targets. The revenue is 500 times the lift. The payer-mix means are computed
  only over a non-empty target list. "Other" is 1 minus the three means and is
  not clamped.
- `Messaging`: the top physician's name, or "Target Physician" when there is no
  target. The Offensive template is used when the strategy text mentions
  "Offensive", and the Defensive template otherwise.
- `CallList`: the shown columns are Dr Name, Specialty, Zip Code and TRx
  Volume, plus only the share column of the winning payer. The displayed list
  is ranked by volume. The CSV rows keep roster order.
- `Pipeline`: the page's computation in four sections: selection, summary,
  messaging and call list. It ends with two worked scenarios on a
  three-physician territory.

The physician table is an input sequence. Shares are `real`, volumes are `nat`
and 0.15 is the exact rational 15/100.

Equal volumes: a stable sort would keep tied physicians in roster order, but
the code does not use one. It calls pandas' default sort, which is not stable,
so the code promises no order among ties. The contracts here promise no order
among equal volumes either. The insertion sort that defines `Ranking.SortDesc`
happens to keep tied rows in roster order, but no contract relies on that.

"The lift is zero exactly when there is no target" holds only when every
target has a positive volume. The generated volumes are always between 50 and
500, so the page never shows a counterexample. `Metrics.LiftZeroIffNoTargets`
proves the claim under that assumption, and `Metrics.ZeroVolumeTargetHasNoLift`
shows why the assumption is needed.

## Model

| member | source | states |
|---|---|---|
| `Targeting.WinningPayer` | pages/4_Pulse_Targeting.py:186-191 | the gating payer is UHC exactly when the text names UnitedHealthcare, Aetna exactly when it names Aetna but not UnitedHealthcare, Cigna only when it names Cigna, and none exactly when it names none of the three |
| `Text.ContainsIffOccurs` | pages/4_Pulse_Targeting.py:186-191 | the substring test used by the formulary and strategy branches holds exactly when the needle occurs at some position of the text |
| `Targeting.UnitedHealthcareOptionSelectsUHC` | pages/4_Pulse_Targeting.py:149-152 | the "UnitedHealthcare - National Preferred" option makes UHC the gating payer |
| `Targeting.AetnaOptionSelectsAetna` | pages/4_Pulse_Targeting.py:149-152 | the "Aetna - Silver Tier" option names no UnitedHealthcare and makes Aetna the gating payer |
| `Targeting.CignaOptionSelectsCigna` | pages/4_Pulse_Targeting.py:149-152 | the "Cigna - Bronze" option names neither earlier payer and makes Cigna the gating payer |
| `Targeting.ApplyFilters` | pages/4_Pulse_Targeting.py:183-195 | after the formulary and zip steps a row is kept exactly when its winning-payer share is above 0.5 (no share test when no payer is named) and its zip is selected (no zip test when none is selected) |
| `Targeting.ComputeTargetMask` | pages/4_Pulse_Targeting.py:183-201 | every target passed both filters, with UHC, then Aetna, then Cigna share above 0.5 by priority, and zip in the selection when one is made; the target count is at most the capacity and equals it when more rows pass; when they fit, the targets are exactly the filtered rows; a filtered row that was cut has no more volume than any target |
| `Targeting.CapacityCut` | pages/4_Pulse_Targeting.py:198-201 | `isin` over the first `capacity` positions of the volume ranking keeps exactly `capacity` rows, all of them filtered, none below a filtered row it leaves out |
| `Targeting.IndexMask` | pages/4_Pulse_Targeting.py:201 | `isin` keeps row `i` of the table exactly when `i` is one of the given positions, and never keeps more rows than there are positions, even with duplicate or out-of-range positions |
| `Targeting.MembershipCountAtMost` | pages/4_Pulse_Targeting.py:201 | a mask keeping exactly the listed positions keeps at most as many rows as the list has entries |
| `Targeting.IndexMaskCount` | pages/4_Pulse_Targeting.py:200-201 | `isin` over distinct in-range positions keeps exactly as many rows as there are positions |
| `Targeting.IndicesOf` | pages/4_Pulse_Targeting.py:198 | the index of `df[mask]` lists each kept position once and only kept positions, one per kept row |
| `Targeting.IndicesIncrease` | pages/4_Pulse_Targeting.py:198 | the kept positions are listed in roster order |
| `Targeting.Select` | pages/4_Pulse_Targeting.py:206 | `df[mask]` has one row per kept position, each a kept roster row |
| `Targeting.SelectFollowsIndices` | pages/4_Pulse_Targeting.py:206 | the k-th target is the roster row at the k-th kept position, so the target list is in roster order |
| `Ranking.SortDesc` | pages/4_Pulse_Targeting.py:198 | sorting by volume, descending, returns a permutation of its input in non-increasing key order |
| `Ranking.HeadIsMaximal` | pages/4_Pulse_Targeting.py:246 | the first row after the descending sort has a key at least that of every input row |
| `Metrics.PotentialLift` | pages/4_Pulse_Targeting.py:210 | the lift is 15% of the targets' total volume, including the empty case where the code short-cuts to 0 |
| `Metrics.RevenueImpact` | pages/4_Pulse_Targeting.py:211 | dividing the revenue impact by 500 gives back the lift; the impact is zero exactly when the lift is, and never negative for a non-negative lift |
| `Metrics.RevenueIsSeventyFivePerUnit` | pages/4_Pulse_Targeting.py:210-211 | the revenue impact is 75 per unit of target volume |
| `Metrics.SumVolumesBounds` | pages/4_Pulse_Targeting.py:210 | with each volume in [lo, hi], the total volume of n rows lies in [lo·n, hi·n] |
| `Metrics.LiftBounds` | pages/4_Pulse_Targeting.py:210 | with each volume in [lo, hi], the lift lies between 15% of lo and 15% of hi per target |
| `Metrics.GeneratedVolumesBoundLift` | pages/4_Pulse_Targeting.py:210-211 | with the generated table's volumes, all in [50, 500], each target adds between 7.5 and 75 to the lift and between 3750 and 37500 to the revenue impact, and at most `capacity` targets lift at most 75·capacity |
| `Metrics.LiftZeroIffNoTargets` | pages/4_Pulse_Targeting.py:210-211 | when all volumes are positive, lift and revenue are zero exactly when there is no target |
| `Metrics.ZeroVolumeTargetHasNoLift` | pages/4_Pulse_Targeting.py:210-211 | one zero-volume target gives zero lift and revenue, so the previous claim needs its assumption |
| `Metrics.MeanShare` | pages/4_Pulse_Targeting.py:293-295 | a payer's mean share times the target count is the sum of that payer's shares |
| `Metrics.PayerMixOf` | pages/4_Pulse_Targeting.py:291-297 | the mix exists exactly when there are targets; its three means are the column means; the four slices add up to 1 |
| `Metrics.SumSharesBounds` | pages/4_Pulse_Targeting.py:292-295 | a share column whose values lie in [0, 1] sums to between 0 and the row count |
| `Metrics.MeanShareBounds` | pages/4_Pulse_Targeting.py:292-295 | the mean of a share column whose values lie in [0, 1] lies in [0, 1] |
| `Metrics.PayerMixBounds` | pages/4_Pulse_Targeting.py:292-297 | with shares in [0, 1] the means lie in [0, 1] and "Other" in [-2, 1], negative exactly when the means sum above 1 |
| `Metrics.OtherShareCanBeNegative` | pages/4_Pulse_Targeting.py:296 | "Other" is not clamped: one target with 60% of each payer gives -0.8 |
| `Messaging.TopName` | pages/4_Pulse_Targeting.py:246 | the top name is the name of a target whose volume no target exceeds, or "Target Physician" when there is no target |
| `Messaging.RankedHeadIsMaximal` | pages/4_Pulse_Targeting.py:246 | the first row of the targets sorted by volume is one of the targets, with a volume no target exceeds |
| `Messaging.StrategyMessage` | pages/4_Pulse_Targeting.py:248-261 | the Offensive title is shown exactly when the strategy mentions "Offensive", the Defensive one exactly otherwise, and the body names the top physician |
| `Messaging.StrategyOptionsSelectTemplates` | pages/4_Pulse_Targeting.py:175 | the "Offensive (Switch)" option selects the Offensive template and "Defensive (Protect)" the Defensive one |
| `CallList.DisplayColumns` | pages/4_Pulse_Targeting.py:316-322 | the columns are the four base columns plus a fifth exactly when a payer is named; that fifth is the winning payer's share column and no other share column appears |
| `CallList.ExportRows` | pages/4_Pulse_Targeting.py:331 | the CSV has one row per target, in target order, each the target's projection; under the base columns row k starts with target k's name and shows its volume |
| `CallList.HeaderRow` | pages/4_Pulse_Targeting.py:331 | the CSV header has one title per column, starts with Dr Name, Specialty, Zip Code and TRx Volume, and no two columns share a title |
| `CallList.DisplayedCallList` | pages/4_Pulse_Targeting.py:324-325 | the displayed list is a reordering of the CSV rows with non-increasing TRx Volume |
| `CallList.DisplayedListIsRankedExport` | pages/4_Pulse_Targeting.py:324-331 | the displayed list has one row per target, each the projection of a target showing that target's volume, in non-increasing volume |
| `Pipeline.ColorTags` | pages/4_Pulse_Targeting.py:203 | a row is tagged Target exactly when the mask keeps it and Other exactly when it drops it, so the map shows as many Target rows as the mask keeps |
| `Pipeline.TargetTagsFollowMask` | pages/4_Pulse_Targeting.py:203 | tags marking exactly the kept rows as Target number as many as the kept rows |
| `Pipeline.SelectTargets` | pages/4_Pulse_Targeting.py:183-206 | the targets are the rows the mask keeps, in roster order, tagged Target on the map exactly when kept; at most the capacity, all eligible, all filtered rows when they fit, exactly the capacity otherwise; no eligible row left out has more volume than a target |
| `Pipeline.Summarise` | pages/4_Pulse_Targeting.py:209-211 | the count is the number of targets, the lift 15% of their volume, the revenue 500 times the lift and 75 times the volume; the payer mix is that of the targets, exists exactly when there are targets, and sums to 1 |
| `Pipeline.Brief` | pages/4_Pulse_Targeting.py:246-261 | the panel names a target of maximal volume, or the placeholder when there is none; it uses the Offensive template exactly when the strategy mentions "Offensive", the Defensive one exactly otherwise, and its body names the top physician |
| `Pipeline.BuildCallList` | pages/4_Pulse_Targeting.py:316-331 | base columns plus a fifth exactly when a payer is named, and then only the winner's share column; the header has the column titles; one CSV row per target in roster order; the displayed list is those rows ranked by volume |
| `Pipeline.ComputeTargets` | pages/4_Pulse_Targeting.py:183-331 | the page's outputs together: capacity bound, filter soundness, no unnecessary truncation, exact capacity when rows are cut, and no cut row with more volume than a target; map tags, as many Target tags as targets; lift, revenue and payer mix of the targets; the top name and the template chosen by the strategy, both ways; the winner-only columns and their header; the call list ranked by volume as a reordering of the roster-order CSV rows |
| `Pipeline.SmallTerritoryFilters` | pages/4_Pulse_Targeting.py:183-195 | in a three-physician territory with the UnitedHealthcare win and zip 19103, the filters keep only the physician who has both a UHC share above 0.5 and that zip |
| `Pipeline.SmallTerritorySelectsA` | pages/4_Pulse_Targeting.py:206-210 | that territory's target list is that one physician, with a total volume of 100, so the lift is 15 and the revenue 7500 |

## Left out

- Page layout, CSS, header buttons and metric-card HTML (lines 7-177, 213-244). The two file uploaders only show a message, and their files are never parsed (145-159). The competitor-access control is read but never used (166-169).
- The random roster (95-119): the table is an input. Latitude and longitude appear only in the map, so they are not fields of the record.
- The map, the pie chart, the physician deep-dive selector and the random trend line (268-306, 339-360): these are charting and randomness.
- Number formatting in the metric cards (230, 238), the `st.info` text layout (263), and the CSV text encoding (331). The CSV is modelled as its header and the projected cells of its rows.
- Floating point: shares and lift are exact reals, so IEEE rounding in the means and in the lift is not modelled.
- Tie order among equal volumes (198, 246, 325): pandas' default sort promises none, and the model promises none either.
- The Color column (203) is added to the table in place. The model returns it as a sequence of tags over the roster instead.
- The call-capacity slider's range of 10 to 50 (171): the model accepts any natural capacity, including 0.
