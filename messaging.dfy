/** The messaging panel: the physician it names and the template the strategy
    selects. */
module Messaging {
  import opened Text
  import opened Roster
  import opened Ranking

  /** The name shown when there is no target. */
  const Placeholder: string := "Target Physician"

  /** The ranking key of the messaging panel: a physician's TRx volume. */
  function Volume(p: Physician): int {
    p.volume
  }

  /** The highest-volume target's name: the first row of the targets ranked by
      volume. It is the name of a target of maximal volume, or the placeholder
      when there is no target to name. */
  function TopName(targets: seq<Physician>): (r: string)
    ensures NamesTopTarget(targets, r)
  {
    if |targets| == 0 then Placeholder
    else
      var ranked := SortDesc(targets, Volume);
      RankedHeadIsMaximal(targets);
      ranked[0].name
  }

  /** `name` is the placeholder when there is no target, and otherwise the
      name of a target whose volume no other target exceeds. */
  ghost predicate NamesTopTarget(targets: seq<Physician>, name: string) {
    && (|targets| == 0 ==> name == Placeholder)
    && (|targets| > 0 ==>
      exists k :: 0 <= k < |targets| && targets[k].name == name &&
        forall j :: 0 <= j < |targets| ==> targets[j].volume <= targets[k].volume)
  }

  /** The head of the targets ranked by volume is one of them, of maximal volume. */
  lemma RankedHeadIsMaximal(targets: seq<Physician>)
    requires |targets| > 0
    ensures var ranked := SortDesc(targets, Volume);
      && |ranked| == |targets|
      && (exists k ::
            0 <= k < |targets| && targets[k] == ranked[0] &&
            forall j :: 0 <= j < |targets| ==> targets[j].volume <= targets[k].volume)
  {
    var ranked := SortDesc(targets, Volume);
    assert |ranked| == |multiset(ranked)| == |targets|;
    HeadIsMaximal(targets, Volume);
    assert ranked[0] in multiset(targets);
    var k :| 0 <= k < |targets| && targets[k] == ranked[0];
    forall j | 0 <= j < |targets| ensures targets[j].volume <= targets[k].volume {
      assert targets[j] in targets;
    }
  }

  /** The title and the bullet text of the messaging panel. */
  datatype Message = Message(title: string, body: string)

  const OffensiveTitle: string := "Offensive Strategy: Switch Opportunity"
  const DefensiveTitle: string := "Defensive Strategy: Protect Volume"

  const OffensiveLead: string :=
    "- **Primary Message:** Great news! We have secured Preferred Status. This removes the PA hurdle for your new patients.\n"
    + "- **Context:** "
  const OffensiveTail: string :=
    " is a high-volume prescriber of the competitor, likely due to previous access barriers.\n"
    + "- **Action:** Ask for the next 3 new patient starts. Highlight the simplified intake form and hub support."

  const DefensiveLead: string :=
    "- **Primary Message:** Clinical stability is paramount. Don't let a formulary change disrupt your patients' success.\n"
    + "- **Context:** Competitor X has gained access. "
  const DefensiveTail: string :=
    " has stable patients who may be targeted for switching.\n"
    + "- **Action:** Review 'Clinical Efficacy' data. Remind them that existing patients are grandfathered and do NOT need to switch."

  /** The Offensive title exactly when the strategy text mentions "Offensive",
      the Defensive title exactly otherwise, and a body that names `topName`. */
  predicate FollowsStrategy(m: Message, strategy: string, topName: string) {
    && (m.title == OffensiveTitle <==> Contains(strategy, "Offensive"))
    && (m.title == DefensiveTitle <==> !Contains(strategy, "Offensive"))
    && Contains(m.body, topName)
  }

  /** The Offensive template when and only when the strategy text mentions
      "Offensive", the Defensive one otherwise; either names `topName`. */
  function StrategyMessage(strategy: string, topName: string): (m: Message)
    ensures FollowsStrategy(m, strategy, topName)
  {
    assert OffensiveTitle[0] != DefensiveTitle[0];
    if Contains(strategy, "Offensive") then
      SplicedIsContained(OffensiveLead, topName, OffensiveTail);
      Message(OffensiveTitle, OffensiveLead + topName + OffensiveTail)
    else
      SplicedIsContained(DefensiveLead, topName, DefensiveTail);
      Message(DefensiveTitle, DefensiveLead + topName + DefensiveTail)
  }

  /** The two options of the strategy control select the two templates. */
  lemma StrategyOptionsSelectTemplates(topName: string)
    ensures StrategyMessage("Offensive (Switch)", topName).title == OffensiveTitle
    ensures StrategyMessage("Defensive (Protect)", topName).title == DefensiveTitle
  {
    SplicedIsContained("", "Offensive", " (Switch)");
    assert "" + "Offensive" + " (Switch)" == "Offensive (Switch)";
    MissingFirstCharNotContained("Defensive (Protect)", "Offensive");
  }
}
