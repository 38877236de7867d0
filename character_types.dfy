/**
 * The character record, the partial update the assistant sends, and the
 * chat message, as declared in app/src/types/character.ts.
 *
 * The declared interface has thirteen fields.  The state merger also reads
 * and writes eight more (saving-throw and skill proficiencies, languages,
 * features, attacks, death saves, spellcasting and currency) that the
 * interface does not declare; they are kept here as extra fields that are
 * missing unless an update set them.
 *
 * Numbers are unbounded integers.  Nested objects that the merger combines
 * key by key are records of optional keys, because after a merge they hold
 * exactly the keys that some update sent.
 */
module CharacterTypes {
  import opened Wrappers

  datatype AbilityScores = AbilityScores(
    strength: int,
    dexterity: int,
    constitution: int,
    intelligence: int,
    wisdom: int,
    charisma: int)

  /** An `abilityScores` object in an update: any subset of the six keys. */
  datatype ScoresPatch = ScoresPatch(
    strength: Option<int>,
    dexterity: Option<int>,
    constitution: Option<int>,
    intelligence: Option<int>,
    wisdom: Option<int>,
    charisma: Option<int>)

  datatype DeathSaves = DeathSaves(successes: Option<int>, failures: Option<int>)

  datatype Currency = Currency(
    cp: Option<int>,
    sp: Option<int>,
    ep: Option<int>,
    gp: Option<int>,
    pp: Option<int>)

  /** Spellcasting keys; `spellSlots` maps a spell level to a slot count. */
  datatype Spellcasting = Spellcasting(
    spellcastingAbility: Option<string>,
    cantripsKnown: Option<seq<string>>,
    spellsKnown: Option<seq<string>>,
    spellSlots: Option<map<int, int>>)

  datatype Attack = Attack(name: string, bonus: string, damage: string)

  datatype Character = Character(
    name: string,
    race: string,
    charClass: string,
    level: int,
    abilityScores: AbilityScores,
    hitPoints: int,
    proficiencies: seq<string>,
    equipment: seq<string>,
    background: string,
    backstory: string,
    appearance: string,
    edition: string,
    portraitUrl: string,
    // written by the merger, not declared by the interface
    savingThrowProficiencies: Option<seq<string>>,
    skillProficiencies: Option<seq<string>>,
    languages: Option<seq<string>>,
    features: Option<seq<string>>,
    attacks: Option<seq<Attack>>,
    deathSaves: Option<DeathSaves>,
    spellcasting: Field<Spellcasting>,
    currency: Option<Currency>)

  const NoScores := AbilityScores(0, 0, 0, 0, 0, 0)

  const DefaultCharacter := Character(
    "", "", "", 1, NoScores, 0, [], [], "", "", "", "5e", "",
    None, None, None, None, None, None, Missing, None)

  /**
   * `Partial<Character>`: every key may be missing.  Keys that the merger
   * reads with `??` or a truthiness test may also be `null`; scalar keys are
   * either missing or carry a value.
   */
  datatype CharacterUpdate = CharacterUpdate(
    name: Option<string>,
    race: Option<string>,
    charClass: Option<string>,
    level: Option<int>,
    abilityScores: Field<ScoresPatch>,
    hitPoints: Option<int>,
    proficiencies: Field<seq<string>>,
    equipment: Field<seq<string>>,
    background: Option<string>,
    backstory: Option<string>,
    appearance: Option<string>,
    edition: Option<string>,
    portraitUrl: Option<string>,
    savingThrowProficiencies: Field<seq<string>>,
    skillProficiencies: Field<seq<string>>,
    languages: Field<seq<string>>,
    features: Field<seq<string>>,
    attacks: Field<seq<Attack>>,
    deathSaves: Field<DeathSaves>,
    spellcasting: Field<Spellcasting>,
    currency: Field<Currency>)

  /** `{}`: the update that names no field (well-typed, since every key is optional). */
  const EmptyUpdate := CharacterUpdate(
    None, None, None, None, Missing, None, Missing, Missing, None, None, None, None, None,
    Missing, Missing, Missing, Missing, Missing, Missing, Missing, Missing)

  datatype Role = User | Assistant

  datatype ChatMessage = ChatMessage(
    id: string,
    role: Role,
    content: string,
    characterUpdates: Option<CharacterUpdate>)

  /** The default character is blank: level 1, edition "5e", empty text fields. */
  lemma {:induction false} DefaultCharacterIsBlank()
    ensures DefaultCharacter.level == 1 && DefaultCharacter.edition == "5e"
    ensures DefaultCharacter.name == "" && DefaultCharacter.race == "" && DefaultCharacter.charClass == ""
    ensures DefaultCharacter.background == "" && DefaultCharacter.backstory == ""
    ensures DefaultCharacter.appearance == "" && DefaultCharacter.portraitUrl == ""
    ensures DefaultCharacter.abilityScores == AbilityScores(0, 0, 0, 0, 0, 0)
    ensures DefaultCharacter.proficiencies == [] && DefaultCharacter.equipment == []
    ensures DefaultCharacter.hitPoints == 0
  {
  }
}
