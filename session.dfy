/** A session on the character page: the user presses `+` and `-` buttons one after another, and each
    press is one atomic adjustment of the sheet the page holds (a rejected press leaves it as it was).
    The lemmas here state what holds across any such sequence of presses, and worked scenarios from
    the default sheet. */
module Session {
  import opened Totals
  import opened Catalog
  import opened Rules

  /** One button press. */
  datatype Action =
    | ChangeAttribute(attribute: Attribute, increment: bool)
    | ChangeSkill(skill: string, increment: bool)

  /** The press names keys that the sheet has (the skill rule also reads Intelligence). */
  predicate Applicable(sheet: Sheet, action: Action)
  {
    match action
    case ChangeAttribute(a, _) => a in sheet.attributes
    case ChangeSkill(s, _) => s in sheet.skills && Intelligence in sheet.attributes
  }

  ghost function Perform(sheet: Sheet, action: Action): Outcome
    requires Applicable(sheet, action)
  {
    match action
    case ChangeAttribute(a, up) => AdjustAttribute(sheet, a, up)
    case ChangeSkill(s, up) => AdjustSkill(sheet, s, up)
  }

  /** The sheet after one press; no press adds or removes a key. */
  ghost function Step(sheet: Sheet, action: Action): (next: Sheet)
    requires Applicable(sheet, action)
    ensures next.attributes.Keys == sheet.attributes.Keys && next.skills.Keys == sheet.skills.Keys
  {
    After(sheet, Perform(sheet, action))
  }

  /** A refused press leaves the sheet exactly as it was. */
  lemma RefusedPressKeepsSheet(sheet: Sheet, action: Action)
    requires Applicable(sheet, action)
    requires Perform(sheet, action).Rejected?
    ensures Step(sheet, action) == sheet
  {
  }

  ghost predicate AllApplicable(sheet: Sheet, actions: seq<Action>)
  {
    forall i :: 0 <= i < |actions| ==> Applicable(sheet, actions[i])
  }

  /** The sheet after a sequence of presses, applied from first to last. */
  ghost function Run(sheet: Sheet, actions: seq<Action>): (final: Sheet)
    requires AllApplicable(sheet, actions)
    ensures final.attributes.Keys == sheet.attributes.Keys && final.skills.Keys == sheet.skills.Keys
    decreases |actions|
  {
    if actions == [] then sheet
    else
      var prior := Run(sheet, actions[..|actions| - 1]);
      Step(prior, actions[|actions| - 1])
  }

  /** The same press `n` times. */
  function Repeat(action: Action, n: nat): seq<Action>
  {
    seq(n, _ => action)
  }

  lemma RepeatPrefix(action: Action, n: nat)
    requires n > 0
    ensures Repeat(action, n)[..n - 1] == Repeat(action, n - 1)
  {
  }

  /** A press the sheet can take can be repeated any number of times. */
  lemma RepeatApplicable(sheet: Sheet, action: Action, n: nat)
    requires Applicable(sheet, action)
    ensures AllApplicable(sheet, Repeat(action, n))
  {
  }

  function Min(a: int, b: int): int
  {
    if a <= b then a else b
  }

  // ---------------------------------------------------------------------------------------------
  // Invariants

  /** Starting from at most 70 attribute points, no sequence of presses ends above 70. */
  lemma {:induction false} AttributeBudgetInvariant(sheet: Sheet, actions: seq<Action>)
    requires AllApplicable(sheet, actions)
    requires Total(sheet.attributes) <= AttributeBudget
    ensures Total(Run(sheet, actions).attributes) <= AttributeBudget
    decreases |actions|
  {
    if actions != [] {
      var prefix := actions[..|actions| - 1];
      var last := actions[|actions| - 1];
      AttributeBudgetInvariant(sheet, prefix);
      var prior := Run(sheet, prefix);
      match last
      case ChangeAttribute(a, up) =>
        AdjustAttributeKeepsBudget(prior, a, up);
      case ChangeSkill(s, up) =>
        assert Step(prior, last).attributes == prior.attributes;
    }
  }

  /** The press that lowers Intelligence, the only one that can lower the skill cap. */
  predicate LowersIntelligence(action: Action)
  {
    action.ChangeAttribute? && action.attribute == Intelligence && !action.increment
  }

  ghost predicate SkillsWithinCap(sheet: Sheet)
    requires Intelligence in sheet.attributes
  {
    Total(sheet.skills) <= SkillCap(sheet.attributes)
  }

  /** One press that does not lower Intelligence keeps the skill points within the cap. */
  lemma StepKeepsSkillsWithinCap(sheet: Sheet, action: Action)
    requires Applicable(sheet, action) && Intelligence in sheet.attributes
    requires !LowersIntelligence(action)
    requires SkillsWithinCap(sheet)
    ensures SkillsWithinCap(Step(sheet, action))
  {
    var next := Step(sheet, action);
    match action
    case ChangeSkill(s, up) =>
      AdjustSkillKeepsBudget(sheet, s, up);
    case ChangeAttribute(a, up) =>
      assert next.skills == sheet.skills;
      SkillCapMonotone(sheet.attributes, next.attributes);
  }

  /** Starting within the skill cap, every sequence of presses that never lowers Intelligence ends
      within the cap. */
  lemma {:induction false} SkillBudgetInvariant(sheet: Sheet, actions: seq<Action>)
    requires AllApplicable(sheet, actions) && Intelligence in sheet.attributes
    requires forall i :: 0 <= i < |actions| ==> !LowersIntelligence(actions[i])
    requires SkillsWithinCap(sheet)
    ensures SkillsWithinCap(Run(sheet, actions))
    decreases |actions|
  {
    if actions != [] {
      var prefix := actions[..|actions| - 1];
      SkillBudgetInvariant(sheet, prefix);
      StepKeepsSkillsWithinCap(Run(sheet, prefix), actions[|actions| - 1]);
    }
  }

  // ---------------------------------------------------------------------------------------------
  // Scenarios from the default sheet

  /** The default attribute record with one attribute set to `v` adds up to `50 + v`. */
  lemma DefaultShapeTotal(attribute: Attribute, v: int)
    ensures attribute in InitialAttributes
    ensures Total(InitialAttributes[attribute := v]) == 50 + v
  {
    InitialAttributesAt(attribute);
    InitialAttributesTotal();
    TotalUpdate(InitialAttributes, attribute, v);
  }

  /** One `+` on an attribute of a default sheet whose attribute is at `10 + k`, with `k < 10`: the
      total is below 70, so the press is accepted and raises the attribute by one. */
  lemma AttributePressStep(prior: Sheet, attribute: Attribute, k: int)
    requires 0 <= k < 10
    requires prior.attributes == InitialAttributes[attribute := 10 + k]
    ensures Applicable(prior, ChangeAttribute(attribute, true))
    ensures Step(prior, ChangeAttribute(attribute, true)) == prior.(attributes := InitialAttributes[attribute := 10 + k + 1])
  {
    var attributes := prior.attributes;
    DefaultShapeTotal(attribute, 10 + k);
    assert attributes[attribute := attributes[attribute] + 1] == InitialAttributes[attribute := 10 + k + 1];
  }

  /** One `+` on an attribute of a default sheet whose attribute is at 20: the total is 70, so the
      press is refused and the sheet stays as it was. */
  lemma AttributePressRefused(prior: Sheet, attribute: Attribute)
    requires prior.attributes == InitialAttributes[attribute := 20]
    ensures Applicable(prior, ChangeAttribute(attribute, true))
    ensures Perform(prior, ChangeAttribute(attribute, true)).Rejected?
    ensures Step(prior, ChangeAttribute(attribute, true)) == prior
  {
    DefaultShapeTotal(attribute, 20);
  }

  /** The sheet after `n` presses of `+` on one attribute from the default sheet. */
  lemma {:induction false} AttributePressesFromDefault(skillList: seq<SkillDefinition>, attribute: Attribute, n: nat)
    ensures AllApplicable(InitialSheet(skillList), Repeat(ChangeAttribute(attribute, true), n))
    ensures Run(InitialSheet(skillList), Repeat(ChangeAttribute(attribute, true), n))
         == Sheet(InitialAttributes[attribute := 10 + Min(n, 10)], InitialSkills(skillList))
  {
    var press := ChangeAttribute(attribute, true);
    var sheet := InitialSheet(skillList);
    InitialAttributesAt(attribute);
    var presses := Repeat(press, n);
    RepeatApplicable(sheet, press, n);
    if n > 0 {
      AttributePressesFromDefault(skillList, attribute, n - 1);
      RepeatPrefix(press, n);
      var prior := Run(sheet, Repeat(press, n - 1));
      assert presses[n - 1] == press;
      assert Run(sheet, presses) == Step(prior, press);
      if n - 1 < 10 {
        AttributePressStep(prior, attribute, n - 1);
      } else {
        AttributePressRefused(prior, attribute);
      }
    }
  }

  /** Pressing `+` on one attribute `n` times from the default sheet: the first ten presses are
      accepted, the eleventh and later are refused, and the total stops at 70. */
  lemma AttributeIncrementsFromDefault(skillList: seq<SkillDefinition>, attribute: Attribute, n: nat)
    ensures AllApplicable(InitialSheet(skillList), Repeat(ChangeAttribute(attribute, true), n))
    ensures var s := Run(InitialSheet(skillList), Repeat(ChangeAttribute(attribute, true), n));
      && s.attributes[attribute] == 10 + Min(n, 10)
      && Total(s.attributes) == 60 + Min(n, 10)
      && s.skills == InitialSkills(skillList)
      && (Perform(s, ChangeAttribute(attribute, true)).Rejected? <==> n >= 10)
  {
    AttributePressesFromDefault(skillList, attribute, n);
    DefaultShapeTotal(attribute, 10 + Min(n, 10));
  }

  /** Raising Intelligence five times from the default sheet gives 15, a modifier of 2 and a skill
      cap of 18. */
  lemma IntelligenceScenario(skillList: seq<SkillDefinition>)
    ensures AllApplicable(InitialSheet(skillList), Repeat(ChangeAttribute(Intelligence, true), 5))
    ensures var s := Run(InitialSheet(skillList), Repeat(ChangeAttribute(Intelligence, true), 5));
      s.attributes[Intelligence] == 15 && Modifier(s.attributes[Intelligence]) == 2 && SkillCap(s.attributes) == 18
  {
    AttributeIncrementsFromDefault(skillList, Intelligence, 5);
  }

  /** One `+` on a skill of a sheet with the default attributes (cap 10) whose skill points, all on
      that skill, number `k`: accepted below 10, refused at 10. */
  lemma SkillPressStep(prior: Sheet, skill: string, k: int)
    requires 0 <= k <= 10
    requires prior.attributes == InitialAttributes
    requires skill in prior.skills && prior.skills[skill] == k && Total(prior.skills) == k
    ensures Applicable(prior, ChangeSkill(skill, true))
    ensures Perform(prior, ChangeSkill(skill, true)).Rejected? <==> k == 10
    ensures var next := Step(prior, ChangeSkill(skill, true));
      && next.attributes == InitialAttributes
      && next.skills[skill] == Min(k + 1, 10)
      && Total(next.skills) == Min(k + 1, 10)
  {
    InitialAttributesAt(Intelligence);
    assert SkillCap(prior.attributes) == 10;
    if k < 10 {
      AdjustSkillTotal(prior, skill, true);
    }
  }

  /** Pressing `+` on one catalog skill `n` times from the default sheet (cap 10): the first ten presses
      are accepted, the eleventh and later are refused, and the skill stops at 10. */
  lemma {:induction false} SkillIncrementsFromDefault(skillList: seq<SkillDefinition>, skill: string, n: nat)
    requires skill in SkillNames(skillList)
    ensures AllApplicable(InitialSheet(skillList), Repeat(ChangeSkill(skill, true), n))
    ensures var s := Run(InitialSheet(skillList), Repeat(ChangeSkill(skill, true), n));
      && s.attributes == InitialAttributes
      && s.skills[skill] == Min(n, 10)
      && Total(s.skills) == Min(n, 10)
      && (Perform(s, ChangeSkill(skill, true)).Rejected? <==> n >= 10)
  {
    var sheet := InitialSheet(skillList);
    var press := ChangeSkill(skill, true);
    var presses := Repeat(press, n);
    InitialSheetBudgets(skillList);
    RepeatApplicable(sheet, press, n);
    if n > 0 {
      SkillIncrementsFromDefault(skillList, skill, n - 1);
      RepeatPrefix(press, n);
      var prior := Run(sheet, Repeat(press, n - 1));
      assert presses[n - 1] == press;
      assert Run(sheet, presses) == Step(prior, press);
      SkillPressStep(prior, skill, Min(n - 1, 10));
    }
    SkillPressStep(Run(sheet, presses), skill, Min(n, 10));
  }

  /** The skill cap is not a global invariant: after spending all ten default skill points, lowering
      Intelligence to 9 drops the cap to 6, below the ten points already spent. */
  lemma SkillBudgetNotGlobal(skillList: seq<SkillDefinition>, skill: string)
    requires skill in SkillNames(skillList)
    ensures AllApplicable(InitialSheet(skillList), Repeat(ChangeSkill(skill, true), 10) + [ChangeAttribute(Intelligence, false)])
    ensures var s := Run(InitialSheet(skillList), Repeat(ChangeSkill(skill, true), 10) + [ChangeAttribute(Intelligence, false)]);
      Total(s.skills) == 10 && SkillCap(s.attributes) == 6 && !SkillsWithinCap(s)
  {
    var presses := Repeat(ChangeSkill(skill, true), 10);
    var actions := presses + [ChangeAttribute(Intelligence, false)];
    SkillIncrementsFromDefault(skillList, skill, 10);
    assert actions[..|actions| - 1] == presses;
  }

  /** `-` on an attribute is never refused and has no floor: `n` presses lower it by exactly `n`, even
      below zero. */
  lemma {:induction false} AttributeDecrementsUnbounded(sheet: Sheet, attribute: Attribute, n: nat)
    requires attribute in sheet.attributes
    ensures AllApplicable(sheet, Repeat(ChangeAttribute(attribute, false), n))
    ensures Run(sheet, Repeat(ChangeAttribute(attribute, false), n)).attributes[attribute]
         == sheet.attributes[attribute] - n
  {
    if n > 0 {
      AttributeDecrementsUnbounded(sheet, attribute, n - 1);
      RepeatPrefix(ChangeAttribute(attribute, false), n);
    }
  }
}
