/**
 * The character state merger of app/src/lib/character-context.tsx: the
 * reducer behind `useReducer` and the provider's initial state.
 *
 * The reducer builds a new record from `{ ...state, ...updates, <overrides> }`:
 * a scalar key present in the update replaces the previous value; ability
 * scores, death saves and currency are merged key by key when the update's
 * object is truthy; lists fall back with `??`; spellcasting distinguishes a
 * missing key, `null`, and an object to merge.
 */
module CharacterContext {
  import opened Wrappers
  import opened CharacterTypes

  datatype Action =
    | UpdateCharacter(payload: CharacterUpdate)
    | Reset
    | Unrecognised(tag: string)   // the reducer's `default` branch

  /** `{ ...prev, ...patch }` for one optional key. */
  function Pick<T>(patch: Option<T>, prev: T): T {
    patch.GetOr(prev)
  }

  function PickOpt<T>(patch: Option<T>, prev: Option<T>): Option<T> {
    if patch.Some? then patch else prev
  }

  function MergeScores(prev: AbilityScores, p: ScoresPatch): AbilityScores {
    AbilityScores(
      Pick(p.strength, prev.strength),
      Pick(p.dexterity, prev.dexterity),
      Pick(p.constitution, prev.constitution),
      Pick(p.intelligence, prev.intelligence),
      Pick(p.wisdom, prev.wisdom),
      Pick(p.charisma, prev.charisma))
  }

  /** `{ ...state.deathSaves, ...patch }`; spreading `undefined` adds no keys. */
  function MergeDeathSaves(prev: Option<DeathSaves>, p: DeathSaves): DeathSaves {
    var o := prev.GetOr(DeathSaves(None, None));
    DeathSaves(PickOpt(p.successes, o.successes), PickOpt(p.failures, o.failures))
  }

  function MergeCurrency(prev: Option<Currency>, p: Currency): Currency {
    var o := prev.GetOr(Currency(None, None, None, None, None));
    Currency(PickOpt(p.cp, o.cp), PickOpt(p.sp, o.sp), PickOpt(p.ep, o.ep),
             PickOpt(p.gp, o.gp), PickOpt(p.pp, o.pp))
  }

  /** `{ ...state.spellcasting, ...patch }`; spreading `undefined` or `null` adds no keys. */
  function MergeSpellcasting(prev: Field<Spellcasting>, p: Spellcasting): Spellcasting {
    var o := prev.OrElse(Spellcasting(None, None, None, None));
    Spellcasting(
      PickOpt(p.spellcastingAbility, o.spellcastingAbility),
      PickOpt(p.cantripsKnown, o.cantripsKnown),
      PickOpt(p.spellsKnown, o.spellsKnown),
      PickOpt(p.spellSlots, o.spellSlots))
  }

  /** `list ?? prev`, for the extra list fields that may be missing from the state. */
  function ListOrOld<T>(patch: Field<seq<T>>, prev: Option<seq<T>>): Option<seq<T>> {
    if patch.Value? then Some(patch.value) else prev
  }

  /** The body of the UPDATE_CHARACTER case. */
  function ApplyUpdate(state: Character, u: CharacterUpdate): Character {
    Character(
      name := Pick(u.name, state.name),
      race := Pick(u.race, state.race),
      charClass := Pick(u.charClass, state.charClass),
      level := Pick(u.level, state.level),
      abilityScores := if u.abilityScores.Value? then MergeScores(state.abilityScores, u.abilityScores.value)
                       else state.abilityScores,
      hitPoints := Pick(u.hitPoints, state.hitPoints),
      proficiencies := u.proficiencies.OrElse(state.proficiencies),
      equipment := u.equipment.OrElse(state.equipment),
      background := Pick(u.background, state.background),
      backstory := Pick(u.backstory, state.backstory),
      appearance := Pick(u.appearance, state.appearance),
      edition := Pick(u.edition, state.edition),
      portraitUrl := Pick(u.portraitUrl, state.portraitUrl),
      savingThrowProficiencies := ListOrOld(u.savingThrowProficiencies, state.savingThrowProficiencies),
      skillProficiencies := ListOrOld(u.skillProficiencies, state.skillProficiencies),
      languages := ListOrOld(u.languages, state.languages),
      features := ListOrOld(u.features, state.features),
      attacks := ListOrOld(u.attacks, state.attacks),
      deathSaves := if u.deathSaves.Value? then Some(MergeDeathSaves(state.deathSaves, u.deathSaves.value))
                    else state.deathSaves,
      spellcasting := match u.spellcasting
                      case Missing => state.spellcasting
                      case Null => Null
                      case Value(p) => Value(MergeSpellcasting(state.spellcasting, p)),
      currency := if u.currency.Value? then Some(MergeCurrency(state.currency, u.currency.value))
                  else state.currency)
  }

  /** `characterReducer`. */
  function Reduce(state: Character, action: Action): Character {
    match action
    case UpdateCharacter(u) => ApplyUpdate(state, u)
    case Reset => DefaultCharacter
    case Unrecognised(_) => state
  }

  /** `Partial<Character>`: the initial character the provider may be given; every declared key is optional. */
  datatype InitialCharacter = InitialCharacter(
    name: Option<string>,
    race: Option<string>,
    charClass: Option<string>,
    level: Option<int>,
    abilityScores: Option<AbilityScores>,
    hitPoints: Option<int>,
    proficiencies: Option<seq<string>>,
    equipment: Option<seq<string>>,
    background: Option<string>,
    backstory: Option<string>,
    appearance: Option<string>,
    edition: Option<string>,
    portraitUrl: Option<string>)

  /** `{ ...base, ...init }`: each key init carries replaces base's, whole. */
  function Overlay(base: Character, init: InitialCharacter): Character {
    base.(
      name := Pick(init.name, base.name),
      race := Pick(init.race, base.race),
      charClass := Pick(init.charClass, base.charClass),
      level := Pick(init.level, base.level),
      abilityScores := Pick(init.abilityScores, base.abilityScores),
      hitPoints := Pick(init.hitPoints, base.hitPoints),
      proficiencies := Pick(init.proficiencies, base.proficiencies),
      equipment := Pick(init.equipment, base.equipment),
      background := Pick(init.background, base.background),
      backstory := Pick(init.backstory, base.backstory),
      appearance := Pick(init.appearance, base.appearance),
      edition := Pick(init.edition, base.edition),
      portraitUrl := Pick(init.portraitUrl, base.portraitUrl))
  }

  /** The provider's initial state: `{ ...DEFAULT_CHARACTER, ...initialCharacter }`, or the default without one. */
  function InitialState(initial: Option<InitialCharacter>): (c: Character)
    ensures initial.None? ==> c == DefaultCharacter
    ensures c.savingThrowProficiencies.None? && c.skillProficiencies.None? && c.languages.None?
            && c.features.None? && c.attacks.None? && c.deathSaves.None?
            && c.spellcasting.Missing? && c.currency.None?
  {
    match initial
    case None => DefaultCharacter
    case Some(init) => Overlay(DefaultCharacter, init)
  }

  /** Every declared key of the character, as an initial character. */
  function AllKeys(ch: Character): InitialCharacter {
    InitialCharacter(Some(ch.name), Some(ch.race), Some(ch.charClass), Some(ch.level), Some(ch.abilityScores),
                     Some(ch.hitPoints), Some(ch.proficiencies), Some(ch.equipment), Some(ch.background),
                     Some(ch.backstory), Some(ch.appearance), Some(ch.edition), Some(ch.portraitUrl))
  }

  /** The initial character's keys win; the keys it lacks take the default's values. */
  lemma {:induction false} InitialKeysWin(init: InitialCharacter)
    ensures var c := InitialState(Some(init));
      && c.name == (if init.name.Some? then init.name.value else "")
      && c.race == (if init.race.Some? then init.race.value else "")
      && c.charClass == (if init.charClass.Some? then init.charClass.value else "")
      && c.level == (if init.level.Some? then init.level.value else 1)
      && c.abilityScores == (if init.abilityScores.Some? then init.abilityScores.value else AbilityScores(0, 0, 0, 0, 0, 0))
      && c.hitPoints == (if init.hitPoints.Some? then init.hitPoints.value else 0)
      && c.proficiencies == (if init.proficiencies.Some? then init.proficiencies.value else [])
      && c.equipment == (if init.equipment.Some? then init.equipment.value else [])
      && c.background == (if init.background.Some? then init.background.value else "")
      && c.backstory == (if init.backstory.Some? then init.backstory.value else "")
      && c.appearance == (if init.appearance.Some? then init.appearance.value else "")
      && c.edition == (if init.edition.Some? then init.edition.value else "5e")
      && c.portraitUrl == (if init.portraitUrl.Some? then init.portraitUrl.value else "")
  {
  }

  /** An initial character with no keys gives the default character. */
  lemma {:induction false} EmptyInitialIsDefault()
    ensures InitialState(Some(InitialCharacter(None, None, None, None, None, None, None, None,
                                               None, None, None, None, None))) == DefaultCharacter
  {
  }

  /**
   * Overlaying a complete character gives that character back, as long as
   * it has none of the keys only the merger writes.
   */
  lemma {:induction false} CompleteInitialIsItself(ch: Character)
    requires ch.savingThrowProficiencies.None? && ch.skillProficiencies.None? && ch.languages.None?
             && ch.features.None? && ch.attacks.None? && ch.deathSaves.None?
             && ch.spellcasting.Missing? && ch.currency.None?
    ensures InitialState(Some(AllKeys(ch))) == ch
  {
  }

  // -----------------------------------------------------------------------
  // Properties of the merger

  /** A key absent from the update keeps its previous value. */
  lemma {:induction false} AbsentFieldsUnchanged(state: Character, u: CharacterUpdate)
    ensures var r := ApplyUpdate(state, u);
      && (u.name.None? ==> r.name == state.name)
      && (u.race.None? ==> r.race == state.race)
      && (u.charClass.None? ==> r.charClass == state.charClass)
      && (u.level.None? ==> r.level == state.level)
      && (u.hitPoints.None? ==> r.hitPoints == state.hitPoints)
      && (u.background.None? ==> r.background == state.background)
      && (u.backstory.None? ==> r.backstory == state.backstory)
      && (u.appearance.None? ==> r.appearance == state.appearance)
      && (u.edition.None? ==> r.edition == state.edition)
      && (u.portraitUrl.None? ==> r.portraitUrl == state.portraitUrl)
      && (u.abilityScores.Missing? ==> r.abilityScores == state.abilityScores)
      && (u.proficiencies.Missing? ==> r.proficiencies == state.proficiencies)
      && (u.equipment.Missing? ==> r.equipment == state.equipment)
      && (u.languages.Missing? ==> r.languages == state.languages)
      && (u.features.Missing? ==> r.features == state.features)
      && (u.attacks.Missing? ==> r.attacks == state.attacks)
      && (u.savingThrowProficiencies.Missing? ==> r.savingThrowProficiencies == state.savingThrowProficiencies)
      && (u.skillProficiencies.Missing? ==> r.skillProficiencies == state.skillProficiencies)
      && (u.deathSaves.Missing? ==> r.deathSaves == state.deathSaves)
      && (u.spellcasting.Missing? ==> r.spellcasting == state.spellcasting)
      && (u.currency.Missing? ==> r.currency == state.currency)
  {
  }

  /** A scalar key present in the update replaces the previous value, "" and 0 included. */
  lemma {:induction false} PresentScalarsReplace(state: Character, u: CharacterUpdate)
    ensures var r := ApplyUpdate(state, u);
      && (u.name.Some? ==> r.name == u.name.value)
      && (u.race.Some? ==> r.race == u.race.value)
      && (u.charClass.Some? ==> r.charClass == u.charClass.value)
      && (u.level.Some? ==> r.level == u.level.value)
      && (u.hitPoints.Some? ==> r.hitPoints == u.hitPoints.value)
      && (u.background.Some? ==> r.background == u.background.value)
      && (u.backstory.Some? ==> r.backstory == u.backstory.value)
      && (u.appearance.Some? ==> r.appearance == u.appearance.value)
      && (u.edition.Some? ==> r.edition == u.edition.value)
      && (u.portraitUrl.Some? ==> r.portraitUrl == u.portraitUrl.value)
  {
  }

  /** An update naming only strength leaves the other five scores as they were. */
  lemma {:induction false} StrengthOnlyKeepsOtherScores(state: Character, x: int)
    ensures var u := EmptyUpdate.(abilityScores := Value(ScoresPatch(Some(x), None, None, None, None, None)));
      ApplyUpdate(state, u).abilityScores == state.abilityScores.(strength := x)
  {
  }

  /** Ability scores merge key by key; a `null` object changes nothing. */
  lemma {:induction false} ScoresMergeKeyByKey(state: Character, u: CharacterUpdate)
    ensures var r := ApplyUpdate(state, u).abilityScores;
      && (u.abilityScores.Null? ==> r == state.abilityScores)
      && (u.abilityScores.Value? ==>
            var p := u.abilityScores.value;
            && r.strength == p.strength.GetOr(state.abilityScores.strength)
            && r.dexterity == p.dexterity.GetOr(state.abilityScores.dexterity)
            && r.constitution == p.constitution.GetOr(state.abilityScores.constitution)
            && r.intelligence == p.intelligence.GetOr(state.abilityScores.intelligence)
            && r.wisdom == p.wisdom.GetOr(state.abilityScores.wisdom)
            && r.charisma == p.charisma.GetOr(state.abilityScores.charisma))
  {
  }

  /** Lists are replaced wholesale; `null` and a missing key both keep the prev list. */
  lemma {:induction false} ListsReplacedWholesale(state: Character, u: CharacterUpdate)
    ensures var r := ApplyUpdate(state, u);
      && r.proficiencies == (if u.proficiencies.Value? then u.proficiencies.value else state.proficiencies)
      && r.equipment == (if u.equipment.Value? then u.equipment.value else state.equipment)
      && r.languages == (if u.languages.Value? then Some(u.languages.value) else state.languages)
      && r.features == (if u.features.Value? then Some(u.features.value) else state.features)
      && r.attacks == (if u.attacks.Value? then Some(u.attacks.value) else state.attacks)
      && r.savingThrowProficiencies ==
           (if u.savingThrowProficiencies.Value? then Some(u.savingThrowProficiencies.value) else state.savingThrowProficiencies)
      && r.skillProficiencies ==
           (if u.skillProficiencies.Value? then Some(u.skillProficiencies.value) else state.skillProficiencies)
  {
  }

  /**
   * Death saves and currency merge key by key when present and are untouched
   * otherwise; merged onto nothing, the result holds exactly the update's keys.
   */
  lemma {:induction false} NestedRecordsMergeByKey(state: Character, u: CharacterUpdate)
    ensures var r := ApplyUpdate(state, u);
      && (!u.deathSaves.Value? ==> r.deathSaves == state.deathSaves)
      && (u.deathSaves.Value? ==>
            r.deathSaves.Some?
            && (u.deathSaves.value.successes.Some? ==> r.deathSaves.value.successes == u.deathSaves.value.successes)
            && (u.deathSaves.value.successes.None? && state.deathSaves.Some? ==>
                  r.deathSaves.value.successes == state.deathSaves.value.successes)
            && (u.deathSaves.value.failures.Some? ==> r.deathSaves.value.failures == u.deathSaves.value.failures)
            && (u.deathSaves.value.failures.None? && state.deathSaves.Some? ==>
                  r.deathSaves.value.failures == state.deathSaves.value.failures))
      && (u.deathSaves.Value? && state.deathSaves.None? ==> r.deathSaves == Some(u.deathSaves.value))
      && (!u.currency.Value? ==> r.currency == state.currency)
      && (u.currency.Value? && state.currency.None? ==> r.currency == Some(u.currency.value))
      && (u.currency.Value? && state.currency.Some? ==>
            var p, o, c := u.currency.value, state.currency.value, r.currency.value;
            r.currency.Some?
            && c.cp == (if p.cp.Some? then p.cp else o.cp)
            && c.sp == (if p.sp.Some? then p.sp else o.sp)
            && c.ep == (if p.ep.Some? then p.ep else o.ep)
            && c.gp == (if p.gp.Some? then p.gp else o.gp)
            && c.pp == (if p.pp.Some? then p.pp else o.pp))
  {
  }

  /** Spellcasting: missing keeps, `null` clears, an object shallow-merges onto the prev value. */
  lemma {:induction false} SpellcastingThreeWays(state: Character, u: CharacterUpdate)
    ensures var r := ApplyUpdate(state, u).spellcasting;
      && (u.spellcasting.Missing? ==> r == state.spellcasting)
      && (u.spellcasting.Null? ==> r == Null)
      && (u.spellcasting.Value? ==>
            var p := u.spellcasting.value;
            && r.Value?
            && (p.spellcastingAbility.Some? ==> r.value.spellcastingAbility == p.spellcastingAbility)
            && (p.cantripsKnown.Some? ==> r.value.cantripsKnown == p.cantripsKnown)
            && (p.spellsKnown.Some? ==> r.value.spellsKnown == p.spellsKnown)
            && (p.spellSlots.Some? ==> r.value.spellSlots == p.spellSlots)
            && (state.spellcasting.Value? ==>
                  var o := state.spellcasting.value;
                  && (p.spellcastingAbility.None? ==> r.value.spellcastingAbility == o.spellcastingAbility)
                  && (p.cantripsKnown.None? ==> r.value.cantripsKnown == o.cantripsKnown)
                  && (p.spellsKnown.None? ==> r.value.spellsKnown == o.spellsKnown)
                  && (p.spellSlots.None? ==> r.value.spellSlots == o.spellSlots))
            && (!state.spellcasting.Value? ==> r.value == p))
  {
  }

  /** Applying the empty update returns an equal character. */
  lemma {:induction false} EmptyUpdateIsIdentity(state: Character)
    ensures ApplyUpdate(state, EmptyUpdate) == state
  {
  }

  /** Applying the same update twice is the same as applying it once. */
  lemma {:induction false} ApplyUpdateIdempotent(state: Character, u: CharacterUpdate)
    ensures ApplyUpdate(ApplyUpdate(state, u), u) == ApplyUpdate(state, u)
  {
  }

  /** RESET yields the default character; an unrecognised action changes nothing. */
  lemma {:induction false} ReduceOtherActions(state: Character, tag: string)
    ensures Reduce(state, Reset) == DefaultCharacter
    ensures Reduce(state, Unrecognised(tag)) == state
  {
  }
}
