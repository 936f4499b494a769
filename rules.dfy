/** The rules engine of the character sheet (src/App.tsx): the attribute modifier, the two point
    budgets, the attribute and skill adjustments, the initial sheet and class eligibility.

    A sheet is the pair of records the page holds: attribute scores and skill points. An adjustment
    either yields the new sheet or is rejected (where the page raises an alert), in which case the page
    keeps the sheet it had (`After`). */
module Rules {
  import opened Totals
  import opened Catalog

  /** Most points a character may have across all six attributes. */
  const AttributeBudget: int := 70

  /** Skill points available with an Intelligence modifier of 0. */
  const BaseSkillPoints: int := 10

  /** Skill points gained (or lost) per point of Intelligence modifier. */
  const SkillPointsPerModifier: int := 4

  // ---------------------------------------------------------------------------------------------
  // Modifier

  /** `calcModifiedAttribute`: a score below 10 gives `score - 10`; any other score gives
      `floor((score - 10) / 2)`, characterised here without division. */
  function Modifier(score: int): (m: int)
    ensures score < 10 ==> m == score - 10
    ensures score >= 10 ==> 2 * m <= score - 10 < 2 * m + 2
  {
    if score < 10 then score - 10 else (score - 10) / 2
  }

  /** Sample values of the modifier, on both sides of the boundary at 10. */
  lemma ModifierValues()
    ensures Modifier(0) == -10 && Modifier(8) == -2 && Modifier(9) == -1
    ensures Modifier(10) == 0 && Modifier(11) == 0 && Modifier(12) == 1 && Modifier(15) == 2
  {
  }

  /** The modifier never decreases as the score grows. */
  lemma ModifierMonotone(lo: int, hi: int)
    requires lo <= hi
    ensures Modifier(lo) <= Modifier(hi)
  {
  }

  /** `maxSkillPoints`, the total skill points allowed: `10 + 4 * modifier(Intelligence)`. In terms of
      the Intelligence score itself: below 10 the cap is `4 * score - 30`; from 10 up it is 10 plus the
      largest multiple of 4 not above `2 * (score - 10)`. */
  function SkillCap(attributes: map<Attribute, int>): (cap: int)
    requires Intelligence in attributes
    ensures attributes[Intelligence] < 10 ==> cap == 4 * attributes[Intelligence] - 30
    ensures attributes[Intelligence] >= 10 ==>
      2 * (attributes[Intelligence] - 10) - 4 < cap - BaseSkillPoints <= 2 * (attributes[Intelligence] - 10)
    ensures attributes[Intelligence] >= 10 ==> (cap - BaseSkillPoints) % 4 == 0
  {
    BaseSkillPoints + SkillPointsPerModifier * Modifier(attributes[Intelligence])
  }

  /** Raising Intelligence never lowers the skill cap. */
  lemma SkillCapMonotone(before: map<Attribute, int>, after: map<Attribute, int>)
    requires Intelligence in before && Intelligence in after
    requires before[Intelligence] <= after[Intelligence]
    ensures SkillCap(before) <= SkillCap(after)
  {
    ModifierMonotone(before[Intelligence], after[Intelligence]);
  }

  // ---------------------------------------------------------------------------------------------
  // Sheet, outcomes and the initial sheet

  datatype Sheet = Sheet(attributes: map<Attribute, int>, skills: map<string, int>)

  /** Why an increment was refused: the attribute budget or the skill budget was already spent. */
  datatype Rejection = AttributeBudgetExceeded | SkillBudgetExceeded

  datatype Outcome = Accepted(sheet: Sheet) | Rejected(reason: Rejection)

  /** The sheet the page holds after an adjustment: the new one, or the old one after a rejection. */
  function After(sheet: Sheet, outcome: Outcome): Sheet
  {
    if outcome.Accepted? then outcome.sheet else sheet
  }

  /** A change button adds one (`+`) or takes one away (`-`). */
  function Delta(increment: bool): int
  {
    if increment then 1 else -1
  }

  /** All six attributes start at 10. */
  const InitialAttributes: map<Attribute, int> :=
    map[Strength := 10, Dexterity := 10, Constitution := 10, Intelligence := 10, Wisdom := 10, Charisma := 10]

  /** The skill record built from the skill list by a left fold: one entry per skill name, all 0. */
  function InitialSkills(skillList: seq<SkillDefinition>): (skills: map<string, int>)
    ensures skills.Keys == SkillNames(skillList)
    ensures forall n :: n in skills ==> skills[n] == 0
  {
    if skillList == [] then map[]
    else
      var last := skillList[|skillList| - 1];
      assert skillList == skillList[..|skillList| - 1] + [last];
      InitialSkills(skillList[..|skillList| - 1])[last.name := 0]
  }

  function InitialSheet(skillList: seq<SkillDefinition>): Sheet
  {
    Sheet(InitialAttributes, InitialSkills(skillList))
  }

  /** Every attribute has an entry of 10 in the initial record. */
  lemma InitialAttributesAt(a: Attribute)
    ensures a in InitialAttributes && InitialAttributes[a] == 10
    ensures InitialAttributes[a := 10] == InitialAttributes
  {
    match a
    case Strength => case Dexterity => case Constitution =>
    case Intelligence => case Wisdom => case Charisma =>
  }

  /** The six initial attributes add up to 60. */
  lemma InitialAttributesTotal()
    ensures |InitialAttributes| == 6
    ensures Total(InitialAttributes) == 60
  {
    var keys := InitialAttributes.Keys;
    assert keys == {Strength, Dexterity, Constitution, Intelligence, Wisdom, Charisma};
    assert |{Strength, Dexterity, Constitution}| == 3;
    assert |{Intelligence, Wisdom, Charisma}| == 3;
    assert keys == {Strength, Dexterity, Constitution} + {Intelligence, Wisdom, Charisma};
    TotalConstant(InitialAttributes, 10);
  }

  /** The initial sheet has every attribute at 10 (60 points in all), every catalog skill at 0
      and a skill cap of 10. */
  lemma InitialSheetBudgets(skillList: seq<SkillDefinition>)
    ensures forall a: Attribute :: a in InitialSheet(skillList).attributes
    ensures forall a: Attribute :: InitialSheet(skillList).attributes[a] == 10
    ensures InitialSheet(skillList).skills.Keys == SkillNames(skillList)
    ensures Total(InitialSheet(skillList).attributes) == 60
    ensures Total(InitialSheet(skillList).skills) == 0
    ensures SkillCap(InitialSheet(skillList).attributes) == 10
  {
    InitialAttributesTotal();
    forall a: Attribute ensures a in InitialAttributes && InitialAttributes[a] == 10 {
      InitialAttributesAt(a);
    }
    TotalConstant(InitialSkills(skillList), 0);
  }

  // ---------------------------------------------------------------------------------------------
  // Attribute adjustment

  /** `next` differs from `sheet` only in the score of `attribute`, which moved by `delta`. */
  ghost predicate ChangedOnlyAttribute(sheet: Sheet, next: Sheet, attribute: Attribute, delta: int)
    requires attribute in sheet.attributes
  {
    && next.skills == sheet.skills
    && next.attributes.Keys == sheet.attributes.Keys
    && next.attributes[attribute] == sheet.attributes[attribute] + delta
    && forall a :: a in sheet.attributes && a != attribute ==> next.attributes[a] == sheet.attributes[a]
  }

  /** `handleAttributeChange`: an increment is refused when the attributes already hold 70 points or
      more; otherwise the named attribute moves by one, with no floor on a decrement. */
  ghost function AdjustAttribute(sheet: Sheet, attribute: Attribute, increment: bool): (r: Outcome)
    requires attribute in sheet.attributes
    ensures r.Rejected? <==> increment && Total(sheet.attributes) >= AttributeBudget
    ensures r.Rejected? ==> r.reason == AttributeBudgetExceeded
    ensures r.Accepted? ==> ChangedOnlyAttribute(sheet, r.sheet, attribute, Delta(increment))
  {
    if increment && Total(sheet.attributes) >= AttributeBudget then
      Rejected(AttributeBudgetExceeded)
    else
      var attributes := sheet.attributes;
      Accepted(sheet.(attributes := attributes[attribute := attributes[attribute] + Delta(increment)]))
  }

  /** An accepted attribute change moves the attribute total by exactly the change. */
  lemma AdjustAttributeTotal(sheet: Sheet, attribute: Attribute, increment: bool)
    requires attribute in sheet.attributes
    requires AdjustAttribute(sheet, attribute, increment).Accepted?
    ensures Total(AdjustAttribute(sheet, attribute, increment).sheet.attributes)
         == Total(sheet.attributes) + Delta(increment)
  {
    var attributes := sheet.attributes;
    TotalUpdate(attributes, attribute, attributes[attribute] + Delta(increment));
  }

  /** No attribute change takes the total above 70 when it was at most 70. */
  lemma AdjustAttributeKeepsBudget(sheet: Sheet, attribute: Attribute, increment: bool)
    requires attribute in sheet.attributes
    requires Total(sheet.attributes) <= AttributeBudget
    ensures Total(After(sheet, AdjustAttribute(sheet, attribute, increment)).attributes) <= AttributeBudget
  {
    if AdjustAttribute(sheet, attribute, increment).Accepted? {
      AdjustAttributeTotal(sheet, attribute, increment);
    }
  }

  // ---------------------------------------------------------------------------------------------
  // Skill adjustment

  /** `next` differs from `sheet` only in the points of `skill`, which moved by `delta`. */
  ghost predicate ChangedOnlySkill(sheet: Sheet, next: Sheet, skill: string, delta: int)
    requires skill in sheet.skills
  {
    && next.attributes == sheet.attributes
    && next.skills.Keys == sheet.skills.Keys
    && next.skills[skill] == sheet.skills[skill] + delta
    && forall s :: s in sheet.skills && s != skill ==> next.skills[s] == sheet.skills[s]
  }

  /** `handleSkillChange`: an increment is refused when the skill points already reach the cap derived
      from Intelligence; otherwise the named skill moves by one, with no floor on a decrement. */
  ghost function AdjustSkill(sheet: Sheet, skill: string, increment: bool): (r: Outcome)
    requires skill in sheet.skills && Intelligence in sheet.attributes
    ensures r.Rejected? <==> increment && Total(sheet.skills) >= SkillCap(sheet.attributes)
    ensures r.Rejected? ==> r.reason == SkillBudgetExceeded
    ensures r.Accepted? ==> ChangedOnlySkill(sheet, r.sheet, skill, Delta(increment))
  {
    if increment && Total(sheet.skills) >= SkillCap(sheet.attributes) then
      Rejected(SkillBudgetExceeded)
    else
      var skills := sheet.skills;
      Accepted(sheet.(skills := skills[skill := skills[skill] + Delta(increment)]))
  }

  /** An accepted skill change moves the skill total by exactly the change. */
  lemma AdjustSkillTotal(sheet: Sheet, skill: string, increment: bool)
    requires skill in sheet.skills && Intelligence in sheet.attributes
    requires AdjustSkill(sheet, skill, increment).Accepted?
    ensures Total(AdjustSkill(sheet, skill, increment).sheet.skills) == Total(sheet.skills) + Delta(increment)
  {
    var skills := sheet.skills;
    TotalUpdate(skills, skill, skills[skill] + Delta(increment));
  }

  /** No skill change takes the skill total above the cap when it was at most the cap; skill changes
      leave the attributes, and so the cap, as they were. */
  lemma AdjustSkillKeepsBudget(sheet: Sheet, skill: string, increment: bool)
    requires skill in sheet.skills && Intelligence in sheet.attributes
    requires Total(sheet.skills) <= SkillCap(sheet.attributes)
    ensures After(sheet, AdjustSkill(sheet, skill, increment)).attributes == sheet.attributes
    ensures Total(After(sheet, AdjustSkill(sheet, skill, increment)).skills) <= SkillCap(sheet.attributes)
  {
    if AdjustSkill(sheet, skill, increment).Accepted? {
      AdjustSkillTotal(sheet, skill, increment);
    }
  }

  // ---------------------------------------------------------------------------------------------
  // Class eligibility

  /** The colour a class name is shown in: red when the character qualifies, white otherwise. */
  datatype Color = Red | White

  /** Every attribute the class names is present in the character's record and at least the minimum.
      An attribute missing from the record compares as unmet. */
  predicate MeetsRequirements(requirements: ClassRequirements, attributes: map<Attribute, int>)
  {
    forall a | a in requirements :: a in attributes && requirements[a] <= attributes[a]
  }

  /** `checkColor`: red exactly when every requirement of the class is met, white as soon as one
      required attribute falls short. */
  function CheckColor(classes: ClassTable, characterClass: string, attributes: map<Attribute, int>): (color: Color)
    requires characterClass in classes
    ensures color == Red ==>
      forall a :: a in classes[characterClass] ==> a in attributes && classes[characterClass][a] <= attributes[a]
    ensures color == White ==>
      exists a :: a in classes[characterClass] && (a !in attributes || attributes[a] < classes[characterClass][a])
  {
    if MeetsRequirements(classes[characterClass], attributes) then Red else White
  }

  /** Raising attribute scores never turns a red class white. */
  lemma EligibilityMonotone(classes: ClassTable, characterClass: string, before: map<Attribute, int>,
                            after: map<Attribute, int>)
    requires characterClass in classes
    requires forall a :: a in before ==> a in after && before[a] <= after[a]
    requires CheckColor(classes, characterClass, before) == Red
    ensures CheckColor(classes, characterClass, after) == Red
  {
  }
}
