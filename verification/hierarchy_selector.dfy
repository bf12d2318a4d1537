// The cascading selector (src/components/HierarchySelector.tsx): which options each level
// offers, which value it shows, and what choosing an option does. The lookup tables are
// those of src/data/fixtures.ts:5-33.

module HierarchySelector {
  import opened Types
  import opened ParameterStore

  const Industries: seq<HierarchyLevel> := [
    HierarchyLevel("datacenter", "Data Centre", "Mission-critical computing infrastructure"),
    HierarchyLevel("manufacturing", "Manufacturing", "Industrial production facilities"),
    HierarchyLevel("healthcare", "Healthcare", "Medical and pharmaceutical facilities")
  ]

  const Technologies: map<string, seq<HierarchyLevel>> := map[
    "datacenter" := [
      HierarchyLevel("cooling", "Cooling Systems", "Temperature and humidity control"),
      HierarchyLevel("power", "Power Distribution", "Electrical power management"),
      HierarchyLevel("monitoring", "Environmental Monitoring", "Real-time facility monitoring")
    ]
  ]

  const Solutions: map<string, seq<HierarchyLevel>> := map[
    "cooling" := [
      HierarchyLevel("air-cooling", "Air Cooling", "Traditional air-based cooling systems"),
      HierarchyLevel("liquid-cooling", "Liquid Cooling", "Direct liquid cooling solutions"),
      HierarchyLevel("hybrid-cooling", "Hybrid Cooling", "Combined air and liquid cooling")
    ]
  ]

  const Variants: map<string, seq<HierarchyLevel>> := map[
    "air-cooling" := [
      HierarchyLevel("crac", "CRAC Units", "Computer Room Air Conditioning"),
      HierarchyLevel("crah", "CRAH Units", "Computer Room Air Handling"),
      HierarchyLevel("inrow", "InRow Cooling", "Close-coupled cooling solutions")
    ]
  ]

  /** The table keyed by the parent of level 2, 3 or 4. */
  function ChildTable(level: int): map<string, seq<HierarchyLevel>>
    requires 2 <= level <= 4
  {
    if level == 2 then Technologies else if level == 3 then Solutions else Variants
  }

  /** `parentId ? table[parentId] || [] : []`: an absent or empty parent id, or one the table
      lacks, offers nothing. */
  function ChildOptions(table: map<string, seq<HierarchyLevel>>, parentId: Option<string>)
    : (r: seq<HierarchyLevel>)
    ensures parentId.Some? && parentId.value != "" && parentId.value in table ==> r == table[parentId.value]
    ensures parentId.None? || parentId.value == "" || parentId.value !in table ==> r == []
  {
    match parentId
    case Some(p) => if p != "" && p in table then table[p] else []
    case None => []
  }

  /** `getOptions` (lines 15-28). */
  function Options(h: Hierarchy, level: int): (r: seq<HierarchyLevel>)
    ensures level == 1 ==> r == Industries
    ensures 2 <= level <= 4 ==> r == ChildOptions(ChildTable(level), Slot(h, level - 1))
    ensures !(1 <= level <= 4) ==> r == []
  {
    if level == 1 then Industries
    else if level == 2 then ChildOptions(Technologies, h.industryId)
    else if level == 3 then ChildOptions(Solutions, h.technologyId)
    else if level == 4 then ChildOptions(Variants, h.solutionId)
    else []
  }

  /** `getCurrentValue() || ''` (lines 30-43, 73): the level's slot, empty when unset. */
  function CurrentValue(h: Hierarchy, level: int): (r: string)
    ensures 1 <= level <= 4 && Slot(h, level).Some? ==> r == Slot(h, level).value
    ensures !(1 <= level <= 4) || Slot(h, level).None? ==> r == ""
  {
    if level == 1 then h.industryId.OrElse("")
    else if level == 2 then h.technologyId.OrElse("")
    else if level == 3 then h.solutionId.OrElse("")
    else if level == 4 then h.variantId.OrElse("")
    else ""
  }

  /** `onValueChange` (line 74): choosing an option stores it at this level. */
  method OnValueChange(store: Store, level: int, optionId: string)
    modifies store
    ensures store.hierarchy == WithLevel(old(store.hierarchy), level, optionId)
    ensures store.parameters == old(store.parameters) && store.calculations == old(store.calculations)
    ensures store.patches == old(store.patches) && store.currentStep == old(store.currentStep)
  {
    store.SetHierarchy(level, optionId);
  }

  /** The selector shows what was chosen at its level. */
  lemma ChosenValueIsShown(h: Hierarchy, level: int, id: string)
    requires 1 <= level <= 4
    ensures CurrentValue(WithLevel(h, level, id), level) == id
  {
  }

  /** Choosing an option at level 1..3 makes the next level offer that option's table entry,
      whatever was chosen before. */
  lemma ChoiceDrivesNextLevel(h: Hierarchy, level: int, id: string)
    requires 1 <= level <= 3 && id != ""
    ensures Options(WithLevel(h, level, id), level + 1)
         == if id in ChildTable(level + 1) then ChildTable(level + 1)[id] else []
  {
  }

  /** Choosing at one level leaves the other levels' choices, downstream ones included. */
  lemma ChoiceKeepsOtherLevels(h: Hierarchy, level: int, id: string, other: int)
    requires other != level
    ensures CurrentValue(WithLevel(h, level, id), other) == CurrentValue(h, other)
  {
  }
}
