/** The state the character page component holds: the attribute record and the skill record, created
    with their defaults and replaced by the change handlers. Each handler sums the record it guards,
    checks the budget and either refuses (the page's alert) or replaces the record with one entry moved
    by one. Both read and write the same snapshot, so each press is one atomic step. */
module Editor {
  import opened Totals
  import opened Catalog
  import opened Rules

  class CharacterEditor {
    var attributes: map<Attribute, int>
    var skills: map<string, int>

    /** The sheet the component currently holds. */
    function Current(): Sheet
      reads this
    {
      Sheet(attributes, skills)
    }

    /** The default sheet: every attribute at 10, one entry of 0 per skill of the skill list. */
    constructor (skillList: seq<SkillDefinition>)
      ensures Current() == InitialSheet(skillList)
      ensures Total(attributes) == 60 && Total(skills) == 0 && SkillCap(attributes) == 10
    {
      attributes := InitialAttributes;
      skills := InitialSkills(skillList);
      InitialSheetBudgets(skillList);
    }

    /** `calcModifiedAttribute`: the modifier of one of the current attribute scores. */
    function CalcModifiedAttribute(attribute: Attribute): (m: int)
      reads this
      requires attribute in attributes
      ensures m == Modifier(attributes[attribute])
      ensures m >= 0 <==> attributes[attribute] >= 10
    {
      Modifier(attributes[attribute])
    }

    /** `handleAttributeChange`: behaves as `AdjustAttribute` on the current sheet, and the component
        then holds the sheet `After` gives. */
    method HandleAttributeChange(attribute: Attribute, increment: bool) returns (outcome: Outcome)
      requires attribute in attributes
      modifies this
      ensures outcome == AdjustAttribute(old(Current()), attribute, increment)
      ensures Current() == After(old(Current()), outcome)
      ensures outcome.Rejected? ==> attributes == old(attributes) && skills == old(skills)
      ensures old(Total(attributes)) <= AttributeBudget ==> Total(attributes) <= AttributeBudget
    {
      if Total(attributes) <= AttributeBudget {
        AdjustAttributeKeepsBudget(Current(), attribute, increment);
      }
      var totalPoints := SumValues(attributes);
      if increment && totalPoints >= AttributeBudget {
        return Rejected(AttributeBudgetExceeded);
      }
      attributes := attributes[attribute := attributes[attribute] + Delta(increment)];
      outcome := Accepted(Current());
    }

    /** `handleSkillChange`: behaves as `AdjustSkill` on the current sheet, and the component then
        holds the sheet `After` gives. */
    method HandleSkillChange(skill: string, increment: bool) returns (outcome: Outcome)
      requires skill in skills && Intelligence in attributes
      modifies this
      ensures outcome == AdjustSkill(old(Current()), skill, increment)
      ensures Current() == After(old(Current()), outcome)
      ensures outcome.Rejected? ==> skills == old(skills)
      ensures attributes == old(attributes)
      ensures old(Total(skills)) <= SkillCap(attributes) ==> Total(skills) <= SkillCap(attributes)
    {
      if Total(skills) <= SkillCap(attributes) {
        AdjustSkillKeepsBudget(Current(), skill, increment);
      }
      var totalPoints := SumValues(skills);
      var maxSkillPoints := BaseSkillPoints + SkillPointsPerModifier * CalcModifiedAttribute(Intelligence);
      if increment && totalPoints >= maxSkillPoints {
        return Rejected(SkillBudgetExceeded);
      }
      skills := skills[skill := skills[skill] + Delta(increment)];
      outcome := Accepted(Current());
    }
  }
}
