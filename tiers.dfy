/**
 * Priority tiers. Scrapers label a lead "Tier 1 - Urgent", "Tier 2 - High Priority" or
 * "Tier 3 - Standard" and sort by `0 if 'Tier 1' in tier else (1 if 'Tier 2' in tier else 2)`
 * and then by deadline.
 */
module Tiers {
  import opened Strings
  import opened Ordering

  datatype Tier = Urgent | HighPriority | Standard

  function Label(t: Tier): string {
    match t
    case Urgent => "Tier 1 - Urgent"
    case HighPriority => "Tier 2 - High Priority"
    case Standard => "Tier 3 - Standard"
  }

  /** The position of a tier in priority order. */
  function Rank(t: Tier): nat {
    match t
    case Urgent => 0
    case HighPriority => 1
    case Standard => 2
  }

  /** The rank a sort key computes from a tier text by substring tests. */
  function TierRank(tier: string): (r: nat)
    ensures r <= 2
    ensures r == 0 <==> Contains(tier, "Tier 1")
    ensures r == 1 <==> !Contains(tier, "Tier 1") && Contains(tier, "Tier 2")
    ensures r == 2 <==> !Contains(tier, "Tier 1") && !Contains(tier, "Tier 2")
  {
    if Contains(tier, "Tier 1") then 0 else if Contains(tier, "Tier 2") then 1 else 2
  }

  /** Reading the rank back from a label gives the tier's rank. */
  lemma RankOfLabel(t: Tier)
    ensures TierRank(Label(t)) == Rank(t)
  {
    match t
    case Urgent =>
      OccursAtContains(Label(t), "Tier 1", 0);
    case HighPriority =>
      LabelMisses(Label(t), "Tier 1");
      OccursAtContains(Label(t), "Tier 2", 0);
    case Standard =>
      LabelMisses(Label(t), "Tier 1");
      LabelMisses(Label(t), "Tier 2");
  }

  /**
   * A six-character pattern that agrees with the text's first five characters but not
   * its sixth, and whose first two characters occur nowhere else in the text, is missed.
   */
  lemma LabelMisses(text: string, pattern: string)
    requires |pattern| == 6 && |text| >= 6 && text[..5] == pattern[..5] && text[5] != pattern[5]
    requires forall i :: 0 < i <= |text| - 6 ==> text[i] != pattern[0] || text[i + 1] != pattern[1]
    ensures !Contains(text, pattern)
  {
    forall i | 0 <= i <= |text| - |pattern| ensures !OccursAt(text, pattern, i) {
      if i == 0 {
        assert text[i..i + |pattern|][5] != pattern[5];
      } else {
        assert text[i..i + |pattern|][0] == text[i] && text[i..i + |pattern|][1] == text[i + 1];
      }
    }
  }

  /** Each label holds "Tier n" for its own n and for no other. */
  lemma LabelTiers(t: Tier)
    ensures Contains(Label(t), "Tier 1") <==> t == Urgent
    ensures Contains(Label(t), "Tier 2") <==> t == HighPriority
    ensures Contains(Label(t), "Tier 3") <==> t == Standard
  {
    match t
    case Urgent => UrgentLabelTiers();
    case HighPriority => HighPriorityLabelTiers();
    case Standard => StandardLabelTiers();
  }

  lemma UrgentLabelTiers()
    ensures Contains(Label(Urgent), "Tier 1") && !Contains(Label(Urgent), "Tier 2") && !Contains(Label(Urgent), "Tier 3")
  {
    OccursAtContains(Label(Urgent), "Tier 1", 0);
    LabelMisses(Label(Urgent), "Tier 2");
    LabelMisses(Label(Urgent), "Tier 3");
  }

  lemma HighPriorityLabelTiers()
    ensures !Contains(Label(HighPriority), "Tier 1") && Contains(Label(HighPriority), "Tier 2")
    ensures !Contains(Label(HighPriority), "Tier 3")
  {
    LabelMisses(Label(HighPriority), "Tier 1");
    OccursAtContains(Label(HighPriority), "Tier 2", 0);
    LabelMisses(Label(HighPriority), "Tier 3");
  }

  lemma StandardLabelTiers()
    ensures !Contains(Label(Standard), "Tier 1") && !Contains(Label(Standard), "Tier 2")
    ensures Contains(Label(Standard), "Tier 3")
  {
    LabelMisses(Label(Standard), "Tier 1");
    LabelMisses(Label(Standard), "Tier 2");
    OccursAtContains(Label(Standard), "Tier 3", 0);
  }

  /** A lowered label holds "tier n" for its own n and for no other. */
  lemma LowerLabelTiers(t: Tier)
    ensures Contains(Lower(Label(t)), "tier 1") <==> t == Urgent
    ensures Contains(Lower(Label(t)), "tier 2") <==> t == HighPriority
    ensures Contains(Lower(Label(t)), "tier 3") <==> t == Standard
  {
    match t
    case Urgent => LowerUrgentTiers();
    case HighPriority => LowerHighPriorityTiers();
    case Standard => LowerStandardTiers();
  }

  lemma LowerUrgentTiers()
    ensures Contains(Lower(Label(Urgent)), "tier 1") && !Contains(Lower(Label(Urgent)), "tier 2")
    ensures !Contains(Lower(Label(Urgent)), "tier 3")
  {
    var s := "tier 1 - urgent";
    LoweredUrgent();
    OccursAtContains(s, "tier 1", 0);
    LabelMisses(s, "tier 2");
    LabelMisses(s, "tier 3");
  }

  lemma LowerHighPriorityTiers()
    ensures !Contains(Lower(Label(HighPriority)), "tier 1") && Contains(Lower(Label(HighPriority)), "tier 2")
    ensures !Contains(Lower(Label(HighPriority)), "tier 3")
  {
    var s := "tier 2 - high priority";
    LoweredHighPriority();
    LabelMisses(s, "tier 1");
    OccursAtContains(s, "tier 2", 0);
    LabelMisses(s, "tier 3");
  }

  lemma LowerStandardTiers()
    ensures !Contains(Lower(Label(Standard)), "tier 1") && !Contains(Lower(Label(Standard)), "tier 2")
    ensures Contains(Lower(Label(Standard)), "tier 3")
  {
    var s := "tier 3 - standard";
    LoweredStandard();
    LabelMisses(s, "tier 1");
    LabelMisses(s, "tier 2");
    OccursAtContains(s, "tier 3", 0);
  }

  lemma LoweredUrgent()
    ensures Lower(Label(Urgent)) == "tier 1 - urgent"
  {
  }

  lemma LoweredHighPriority()
    ensures Lower(Label(HighPriority)) == "tier 2 - high priority"
  {
  }

  lemma LoweredStandard()
    ensures Lower(Label(Standard)) == "tier 3 - standard"
  {
  }

  /** The sort key `(tier rank, deadline)`. */
  function TierDeadlineKey(tier: string, deadline: string): (k: Key)
    ensures k.rank <= 2 && k.text == deadline
  {
    Key(TierRank(tier), deadline)
  }

  /** Ordering by that key puts every "Tier 1" lead before every lead without it. */
  lemma UrgentFirst(t1: string, d1: string, t2: string, d2: string)
    requires Contains(t1, "Tier 1") && !Contains(t2, "Tier 1")
    ensures KeyLe(TierDeadlineKey(t1, d1), TierDeadlineKey(t2, d2))
    ensures !KeyLe(TierDeadlineKey(t2, d2), TierDeadlineKey(t1, d1))
  {
  }
}
