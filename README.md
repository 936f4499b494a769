# Character sheet rules engine

A Dafny model of the rules behind the character-sheet page of a tabletop role-playing game
(`src/App.tsx`). The page holds two records:

- the six attribute scores (Strength, Dexterity, Constitution, Intelligence, Wisdom, Charisma), all 10
  at the start;
- the skill points, one entry of 0 per skill of the skill list at the start.

The rules over those records are:

- the **modifier** of a score: `score - 10` below 10, and `floor((score - 10) / 2)` from 10 up;
- the **attribute change**: `+` is refused once the attributes hold 70 points or more. Otherwise one
  attribute moves by one, and `-` has no floor;
- the **skill change**: `+` is refused once the skill points reach `10 + 4 * modifier(Intelligence)`.
  Otherwise one skill moves by one, and `-` has no floor;
- **class eligibility**: a class name is shown red exactly when every minimum the class names is met,
  and white otherwise.

Layout:

- `totals.dfy` (module `Totals`): the sum of all values of a record. `Total` is the reference
  definition, one key at a time in any order. `TotalRemove` shows that the order of the keys does not
  matter. `SumValues` is the summing loop, proved against `Total`.
- `catalog.dfy` (module `Catalog`): attribute names, skill definitions and class requirements. The
  concrete catalog (the skill list and the class table) is not part of this model. Both are parameters.
- `rules.dfy` (module `Rules`): the modifier, the skill cap, the initial sheet, the two adjustments as
  functions from a sheet to `Accepted(new sheet)` or `Rejected(reason)`, and `CheckColor`. `After` gives
  the sheet the page holds after an adjustment. After a rejection that is the unchanged sheet.
- `session.dfy` (module `Session`): a sequence of button presses (`Run`). It holds the budget
  invariants over any sequence, and the worked scenarios from the default sheet.
- `editor.dfy` (module `Editor`): the page component's state as a class with the two records. Its
  change handlers are proved to behave as the `Rules` functions.

The two alerts raised on a refused increment become the values `Rejected(AttributeBudgetExceeded)` and
`Rejected(SkillBudgetExceeded)`. A name passed to a handler must already be a key of its record. An
unknown name gives `NaN` in `src/App.tsx` (`prev[attribute] + 1` on a missing key), so this is a
precondition. For the same reason the skill handler requires an Intelligence entry. Without one, the
cap would be `NaN` and every increment would be let through.

## Model

| member | source | states |
|---|---|---|
| `Totals.TotalRemove` | src/App.tsx:117 | The sum of a record's values does not depend on the order in which its keys are visited: any key can be taken out first |
| `Totals.TotalUpdate` | src/App.tsx:122-125 | Replacing the value under one existing key changes the sum by exactly the new value minus the old |
| `Totals.TotalConstant` | src/App.tsx:98-109 | A record whose every value is `c` sums to `c` times its number of entries |
| `Totals.SumValues` | src/App.tsx:117 | The summing loop over the record's keys returns the sum of all its values |
| `Rules.Modifier` | src/App.tsx:111-114 | Below 10 the modifier is `score - 10`. From 10 up it is the floor of `(score - 10) / 2`, stated as `2m <= score - 10 < 2m + 2` |
| `Rules.ModifierValues` | src/App.tsx:111-114 | modifier(0) = -10, modifier(8) = -2, modifier(9) = -1, modifier(10) = 0, modifier(11) = 0, modifier(12) = 1 and modifier(15) = 2 |
| `Rules.ModifierMonotone` | src/App.tsx:111-114 | The modifier never decreases as the score grows |
| `Rules.SkillCap` | src/App.tsx:130 | `maxSkillPoints` in terms of the Intelligence score: `4 * score - 30` below 10, and from 10 up 10 plus the largest multiple of 4 not above `2 * (score - 10)`. Its growth with Intelligence is `Rules.SkillCapMonotone` |
| `Rules.SkillCapMonotone` | src/App.tsx:130 | Raising Intelligence never lowers the skill cap `10 + 4 * modifier(Intelligence)` |
| `Rules.InitialSkills` | src/App.tsx:107-109 | The fold over the skill list gives one entry per skill name and no other key, each entry 0 |
| `Rules.InitialAttributesAt` | src/App.tsx:98-105 | Every one of the six attributes starts at 10 |
| `Rules.InitialAttributesTotal` | src/App.tsx:98-105 | The initial attribute record has six entries that add up to 60 |
| `Rules.InitialSheetBudgets` | src/App.tsx:98-109 | The default sheet has all six attributes at 10 (sum 60), every catalog skill at 0 (sum 0) and a skill cap of 10 |
| `Rules.AdjustAttribute` | src/App.tsx:116-126 | An attribute change is refused (attribute-budget reason) exactly when it is an increment and the attribute sum is at least 70. A decrement is never refused. An accepted change moves only the named attribute, by +1 or -1. The other attributes, the key set and the skills stay the same |
| `Rules.AdjustAttributeTotal` | src/App.tsx:122-125 | An accepted attribute change moves the attribute sum by exactly +1 or -1 |
| `Rules.AdjustAttributeKeepsBudget` | src/App.tsx:117-125 | If the attribute sum is at most 70 before a change, accepted or refused, it is at most 70 after |
| `Rules.AdjustSkill` | src/App.tsx:128-139 | A skill change is refused (skill-budget reason) exactly when it is an increment and the skill sum is at least `10 + 4 * modifier(Intelligence)`. A decrement is never refused. An accepted change moves only the named skill, by +1 or -1. The other skills, the key set and all attributes stay the same |
| `Rules.AdjustSkillTotal` | src/App.tsx:135-138 | An accepted skill change moves the skill sum by exactly +1 or -1 |
| `Rules.AdjustSkillKeepsBudget` | src/App.tsx:128-139 | A skill change leaves the attributes, and so the cap, unchanged. If the skill sum was at most the cap, it still is |
| `Rules.CheckColor` | src/App.tsx:48-53 | Red implies every attribute the class names is present and at least the minimum. White implies some named attribute is missing or below its minimum |
| `Rules.EligibilityMonotone` | src/App.tsx:48-53 | Raising attribute scores never turns a red class white |
| `Session.RefusedPressKeepsSheet` | src/App.tsx:118-121 | A refused press (the alert path) leaves the sheet exactly as it was |
| `Session.Step` | src/App.tsx:122-125 | One press, accepted or refused, never adds or removes a key of either record |
| `Session.Run` | src/App.tsx:116-139 | Any sequence of presses keeps the key sets of both records |
| `Session.AttributeBudgetInvariant` | src/App.tsx:116-126 | From an attribute sum of at most 70, no sequence of attribute and skill presses ends above 70 |
| `Session.StepKeepsSkillsWithinCap` | src/App.tsx:128-139 | A press that does not lower Intelligence keeps the skill sum within the cap |
| `Session.SkillBudgetInvariant` | src/App.tsx:128-139 | From a skill sum within the cap, a sequence of presses that never lowers Intelligence ends within the cap |
| `Session.DefaultShapeTotal` | src/App.tsx:98-105 | The default attribute record with one attribute set to `v` adds up to `50 + v` |
| `Session.AttributePressStep` | src/App.tsx:116-125 | From the default sheet with one attribute at `10 + k` (0 <= k < 10), the total is below 70 and one `+` on it gives `10 + k + 1`, with everything else unchanged |
| `Session.AttributePressRefused` | src/App.tsx:117-121 | From the default sheet with one attribute at 20, the total is 70, so one `+` on it is refused and the sheet stays as it was |
| `Session.SkillPressStep` | src/App.tsx:128-139 | With the default attributes (cap 10) and `k` points all on one skill, one `+` on it is refused exactly when `k` is 10. Otherwise the skill and the skill sum become `k + 1`, and the attributes stay the same |
| `Session.AttributePressesFromDefault` | src/App.tsx:116-126 | From the default sheet, `n` presses of `+` on one attribute leave it at `10 + min(n, 10)`, with everything else at its default |
| `Session.AttributeIncrementsFromDefault` | src/App.tsx:116-126 | From the default sheet the first ten `+` on one attribute are accepted and the eleventh is refused. The sum stops at 70 |
| `Session.IntelligenceScenario` | src/App.tsx:130 | Five `+` on Intelligence from the default sheet give 15, a modifier of 2 and a skill cap of 18 |
| `Session.SkillIncrementsFromDefault` | src/App.tsx:128-139 | From the default sheet (cap 10) the first ten `+` on one skill are accepted and the eleventh is refused. The skill and the skill sum stop at 10 and the attributes are untouched |
| `Session.SkillBudgetNotGlobal` | src/App.tsx:128-139 | The cap is not a global invariant. After ten skill points are spent, one `-` on Intelligence drops the cap to 6, below the sum of 10 |
| `Session.AttributeDecrementsUnbounded` | src/App.tsx:122-125 | `-` on an attribute is never refused and has no floor. `n` presses lower it by exactly `n`, below zero if need be |
| `Editor.CharacterEditor.constructor` | src/App.tsx:98-109 | The component starts with the default sheet: attribute sum 60, skill sum 0, skill cap 10 |
| `Editor.CharacterEditor.CalcModifiedAttribute` | src/App.tsx:111-114 | The name-keyed modifier of the current state is `Modifier` of that attribute's score, and it is non-negative exactly when the score is at least 10. Its values and monotonicity are `Rules.Modifier`, `Rules.ModifierValues` and `Rules.ModifierMonotone` |
| `Editor.CharacterEditor.HandleAttributeChange` | src/App.tsx:116-126 | The handler returns what `AdjustAttribute` gives on the old state and holds the resulting sheet. After a refusal both records are unchanged. It keeps the attribute sum at most 70 if it was |
| `Editor.CharacterEditor.HandleSkillChange` | src/App.tsx:128-139 | The handler returns what `AdjustSkill` gives on the old state and holds the resulting sheet. After a refusal the skills are unchanged. It always leaves the attributes alone and keeps the skill sum within the cap if it was |

## Left out

- Loading and saving the character (`loadCharacter`, `saveCharacter`, src/App.tsx:8-45) are left
  out. They are HTTP requests, JSON encoding and alerts. The save path also announces success after a
  non-success status.
- Replacing the sheet with a loaded payload (`updateCharacterStats`, src/App.tsx:141-149) is left out.
  It is asynchronous I/O that overwrites both records wholesale, without validation. Because of it,
  `Session.SkillBudgetInvariant` and `Session.AttributeBudgetInvariant` only cover presses, not loads.
- Rendering is left out: the class list and requirements views, the buttons, and the displayed
  modifiers and "total skill points available" line (src/App.tsx:56-93, src/App.tsx:151-199). The
  displayed skill modifier is `Modifier` applied to the skill's `attributeModifier`. The
  `showRequirements` state only drives the view (src/App.tsx:171-173). `characterClass` (src/App.tsx:97) is
  declared but never read or set.
- The concrete catalog (`ATTRIBUTE_LIST`, `CLASS_LIST`, `SKILL_LIST`) is not part of this model. The
  skill list and the class table are parameters, and the six attribute names are a closed datatype.
- Batching of state updates by the UI framework is left out. Each press is modelled as one atomic step
  whose budget check and update read the same snapshot.
- Unknown attribute or skill names (which yield `NaN` in `src/App.tsx`) are excluded by preconditions
  rather than modelled.
- Rules.CheckColor: requires the class name to be a key of the class table. An unknown name makes
  `src/App.tsx` throw a `TypeError` (`Object.keys(undefined)`), and every call passes a key of the class
  table, so that throw is not modelled.
- Integer width is not modelled: scores are unbounded integers. In `src/App.tsx` they are
  floating-point numbers, exact for every value reachable by single-step presses.
