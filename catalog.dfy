/** The rules catalog that the character sheet is built from: the six attribute names, the skill list
    (each skill with the attribute that governs its displayed modifier) and the class table (each class
    with minimum scores for some of the attributes). The concrete catalog is not part of this model, so
    the skill list and the class table are parameters of the operations that use them. */
module Catalog {

  /** The six attribute names; no other name can be used as an attribute key. */
  datatype Attribute = Strength | Dexterity | Constitution | Intelligence | Wisdom | Charisma

  /** One entry of the skill list. */
  datatype SkillDefinition = SkillDefinition(name: string, attributeModifier: Attribute)

  /** Minimum scores a class asks for, for some (not necessarily all) of the attributes. */
  type ClassRequirements = map<Attribute, int>

  /** The class table: class name to its requirements. */
  type ClassTable = map<string, ClassRequirements>

  /** The names that the skill list defines. */
  function SkillNames(skillList: seq<SkillDefinition>): set<string>
  {
    set s | s in skillList :: s.name
  }
}
