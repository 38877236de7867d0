/**
 * Game-rule arithmetic and lookup tables of the fifth-edition rules, as in
 * app/src/lib/character-utils.ts.
 *
 * Scores, levels and bonuses are integers.  `Math.floor(x / 2)` and
 * `Math.ceil(x / 4)` are floor and ceiling divisions; Dafny's `/` with a
 * positive divisor already rounds toward negative infinity, so
 * `Math.floor(x / d) == x / d` and `Math.ceil(x / d) == (x + d - 1) / d`.
 */
module CharacterUtils {
  import opened Wrappers
  import opened Text
  import opened CharacterTypes

  // ---------------------------------------------------------------------
  // Bonuses

  /** `Math.ceil(level / 4) + 1`: the smallest r with level <= 4 * (r - 1). */
  function ProficiencyBonus(level: int): (r: int)
    ensures 4 * (r - 2) < level <= 4 * (r - 1)
  {
    (level + 3) / 4 + 1
  }

  /** Levels 1-4 give +2, 5-8 +3, 9-12 +4, 13-16 +5 and 17-20 +6. */
  lemma {:induction false} ProficiencyBonusTiers(level: int)
    requires 1 <= level <= 20
    ensures 1 <= level <= 4 ==> ProficiencyBonus(level) == 2
    ensures 5 <= level <= 8 ==> ProficiencyBonus(level) == 3
    ensures 9 <= level <= 12 ==> ProficiencyBonus(level) == 4
    ensures 13 <= level <= 16 ==> ProficiencyBonus(level) == 5
    ensures 17 <= level <= 20 ==> ProficiencyBonus(level) == 6
  {
  }

  /** The bonus never falls as the level rises. */
  lemma {:induction false} ProficiencyBonusMonotone(a: int, b: int)
    requires a <= b
    ensures ProficiencyBonus(a) <= ProficiencyBonus(b)
  {
  }

  /** 0 for an unset score (<= 0), otherwise `Math.floor((score - 10) / 2)`. */
  function AbilityModifier(score: int): (r: int)
    ensures score <= 0 ==> r == 0
    ensures score > 0 ==> 2 * r <= score - 10 < 2 * r + 2
  {
    if score <= 0 then 0 else (score - 10) / 2
  }

  lemma {:induction false} AbilityModifierExamples()
    ensures AbilityModifier(10) == 0 && AbilityModifier(11) == 0
    ensures AbilityModifier(8) == -1 && AbilityModifier(9) == -1
    ensures AbilityModifier(20) == 5 && AbilityModifier(1) == -5
    ensures AbilityModifier(0) == 0 && AbilityModifier(-3) == 0
  {
  }

  /** `+N` for N >= 0; a negative value keeps its own minus sign. */
  function FormatModifier(m: int): (r: string)
    ensures |r| >= 2
    ensures r[0] == (if m >= 0 then '+' else '-')
    ensures AllDigits(r[1..])
  {
    if m >= 0 then "+" + NatToString(m) else IntToString(m)
  }

  /** The sign and the digits of the rendering give the modifier back. */
  lemma {:induction false} FormatModifierRoundTrip(m: int)
    ensures var r := FormatModifier(m);
      (if r[0] == '+' then 1 else -1) * DigitsValue(r[1..]) == m
  {
    var r := FormatModifier(m);
    if m >= 0 {
      assert r[1..] == NatToString(m);
      DigitsValueOfNatToString(m);
    } else {
      assert r[1..] == NatToString(-m);
      DigitsValueOfNatToString(-m);
    }
  }

  lemma {:induction false} FormatModifierExamples()
    ensures FormatModifier(0) == "+0" && FormatModifier(3) == "+3" && FormatModifier(-1) == "-1"
  {
  }

  function SavingThrow(score: int, isProficient: bool, profBonus: int): (r: int)
    ensures r - AbilityModifier(score) == (if isProficient then profBonus else 0)
  {
    var m := AbilityModifier(score);
    if isProficient then m + profBonus else m
  }

  function SkillBonus(abilityScore: int, isProficient: bool, profBonus: int): (r: int)
    ensures r - AbilityModifier(abilityScore) == (if isProficient then profBonus else 0)
  {
    var m := AbilityModifier(abilityScore);
    if isProficient then m + profBonus else m
  }

  /** Saving throws and skill checks are computed by the same rule. */
  lemma {:induction false} SavingThrowIsSkillBonus(score: int, isProficient: bool, profBonus: int)
    ensures SavingThrow(score, isProficient, profBonus) == SkillBonus(score, isProficient, profBonus)
  {
  }

  /** Proficiency adds exactly the proficiency bonus, nothing else. */
  lemma {:induction false} ProficiencyAddsBonus(score: int, profBonus: int)
    ensures SkillBonus(score, true, profBonus) == SkillBonus(score, false, profBonus) + profBonus
    ensures SavingThrow(score, true, profBonus) == SavingThrow(score, false, profBonus) + profBonus
  {
  }

  /** Ten plus the Wisdom modifier, plus the bonus when proficient. */
  function PassivePerception(wisdomScore: int, isProficient: bool, profBonus: int): (r: int)
    ensures r - 10 - AbilityModifier(wisdomScore) == (if isProficient then profBonus else 0)
  {
    10 + SkillBonus(wisdomScore, isProficient, profBonus)
  }

  /** An average or unset Wisdom gives 10; proficiency adds the bonus on top. */
  lemma {:induction false} PassivePerceptionExamples()
    ensures PassivePerception(10, false, 2) == 10 && PassivePerception(0, false, 2) == 10
    ensures PassivePerception(14, true, 2) == 14 && PassivePerception(8, false, 3) == 9
  {
  }

  function SpellAttackBonus(abilityScore: int, profBonus: int): (r: int)
    ensures r == SkillBonus(abilityScore, true, profBonus)
  {
    profBonus + AbilityModifier(abilityScore)
  }

  function SpellSaveDC(abilityScore: int, profBonus: int): (r: int)
    ensures r == 8 + SpellAttackBonus(abilityScore, profBonus)
  {
    8 + profBonus + AbilityModifier(abilityScore)
  }

  /** The hit die's maximum plus the Constitution modifier. */
  function HitPointsAtLevel1(hitDieMax: int, conScore: int): (r: int)
    ensures r - hitDieMax == AbilityModifier(conScore)
    ensures conScore <= 11 ==> r <= hitDieMax
    ensures conScore >= 10 ==> r >= hitDieMax
  {
    hitDieMax + AbilityModifier(conScore)
  }

  /** A d10 with Constitution 14 gives 12, a d6 with 8 gives 5, and an unset score adds nothing. */
  lemma {:induction false} HitPointsExamples()
    ensures HitPointsAtLevel1(10, 14) == 12 && HitPointsAtLevel1(6, 8) == 5
    ensures HitPointsAtLevel1(12, 0) == 12 && HitPointsAtLevel1(8, 20) == 13
  {
  }

  // ---------------------------------------------------------------------
  // Hit dice

  const ClassHitDice: map<string, string> := map[
    "barbarian" := "1d12", "bard" := "1d8", "cleric" := "1d8", "druid" := "1d8",
    "fighter" := "1d10", "monk" := "1d8", "paladin" := "1d10", "ranger" := "1d10",
    "rogue" := "1d8", "sorcerer" := "1d6", "warlock" := "1d8", "wizard" := "1d6"]

  /** The table entry for the lower-cased class name, or "" when it has none. */
  function HitDieForClass(className: string): (r: string)
    ensures ToLower(className) in ClassHitDice ==> r == ClassHitDice[ToLower(className)]
    ensures r == "" <==> ToLower(className) !in ClassHitDice
  {
    var key := ToLower(className);
    if key in ClassHitDice then ClassHitDice[key] else ""
  }

  /** The lookup ignores the case of ASCII letters. */
  lemma {:induction false} HitDieCaseInsensitive(className: string)
    ensures HitDieForClass(ToLower(className)) == HitDieForClass(className)
  {
    ToLowerIdempotent(className);
  }

  /** Some i at which a "d" is followed by a digit: where `/d(\d+)/` can match. */
  predicate DieAt(s: string, i: int) {
    0 <= i && i + 1 < |s| && s[i] == 'd' && IsDigit(s[i + 1])
  }

  /**
   * `/d(\d+)/` matches at the first "d" followed by a digit and takes every
   * digit after it; `parseInt` reads them.  0 when there is no such "d".
   */
  function HitDieMax(hitDice: string): (r: nat)
    ensures (forall i :: !DieAt(hitDice, i)) ==> r == 0
  {
    if |hitDice| < 2 then 0
    else if hitDice[0] == 'd' && IsDigit(hitDice[1]) then
      assert DieAt(hitDice, 0);
      DigitsValue(DigitRun(hitDice[1..]))
    else
      var r := HitDieMax(hitDice[1..]);
      DieShift(hitDice);
      r
  }

  lemma {:induction false} DieShift(s: string)
    requires |s| >= 2 && !DieAt(s, 0)
    ensures forall i :: DieAt(s[1..], i) <==> DieAt(s, i + 1)
  {
  }

  /** The digits read are those after the first "d" that a digit follows. */
  lemma {:induction false} HitDieMaxFirstMatch(hitDice: string, i: nat)
    requires DieAt(hitDice, i)
    requires forall j :: 0 <= j < i ==> !DieAt(hitDice, j)
    ensures HitDieMax(hitDice) == DigitsValue(DigitRun(hitDice[i + 1..]))
    decreases i
  {
    if i > 0 {
      assert !DieAt(hitDice, 0);
      DieShift(hitDice);
      assert hitDice[1..][i - 1 + 1..] == hitDice[i + 1..];
      forall j | 0 <= j < i - 1 ensures !DieAt(hitDice[1..], j) {
        assert !DieAt(hitDice, j + 1);
      }
      HitDieMaxFirstMatch(hitDice[1..], i - 1);
    }
  }

  /** A die string "<p>d<n>" whose prefix has no "d" yields n. */
  lemma {:induction false} HitDieMaxOfDie(p: string, n: nat, rest: string)
    requires 'd' !in p
    requires rest == [] || !IsDigit(rest[0])
    ensures HitDieMax(p + "d" + NatToString(n) + rest) == n
    decreases |p|
  {
    var s := p + "d" + NatToString(n) + rest;
    if p == [] {
      assert s == "d" + (NatToString(n) + rest);
      assert s[1..] == NatToString(n) + rest;
      DigitRunOfDigits(NatToString(n), rest);
      DigitsValueOfNatToString(n);
    } else {
      assert s[0] == p[0] != 'd';
      assert s[1..] == p[1..] + "d" + NatToString(n) + rest;
      HitDieMaxOfDie(p[1..], n, rest);
    }
  }

  /** Every class in the table has a d6, d8, d10 or d12 hit die. */
  lemma {:induction false} KnownHitDiceMax(className: string)
    requires ToLower(className) in ClassHitDice
    ensures HitDieMax(HitDieForClass(className)) in {6, 8, 10, 12}
  {
    var s := HitDieForClass(className);
    assert s in {"1d6", "1d8", "1d10", "1d12"};
    assert "1d6" == "1" + "d" + NatToString(6) + "";
    assert "1d8" == "1" + "d" + NatToString(8) + "";
    assert "1d10" == "1" + "d" + NatToString(10) + "";
    assert "1d12" == "1" + "d" + NatToString(12) + "";
    HitDieMaxOfDie("1", 6, "");
    HitDieMaxOfDie("1", 8, "");
    HitDieMaxOfDie("1", 10, "");
    HitDieMaxOfDie("1", 12, "");
  }

  // ---------------------------------------------------------------------
  // Spellcasting ability

  const ClassSpellcastingAbility: map<string, string> := map[
    "bard" := "charisma", "cleric" := "wisdom", "druid" := "wisdom", "paladin" := "charisma",
    "ranger" := "wisdom", "sorcerer" := "charisma", "warlock" := "charisma", "wizard" := "intelligence"]

  /** The table entry for the lower-cased class name, or null. */
  function SpellcastingAbility(className: string): (r: Option<string>)
    ensures r.Some? <==> ToLower(className) in ClassSpellcastingAbility
    ensures r.Some? ==> r.value == ClassSpellcastingAbility[ToLower(className)]
  {
    var key := ToLower(className);
    if key in ClassSpellcastingAbility then Some(ClassSpellcastingAbility[key]) else None
  }

  lemma {:induction false} SpellcastingCaseInsensitive(className: string)
    ensures SpellcastingAbility(ToLower(className)) == SpellcastingAbility(className)
  {
    ToLowerIdempotent(className);
  }

  /** The martial classes cast no spells. */
  lemma {:induction false} MartialClassesCastNothing(className: string)
    requires className in {"fighter", "barbarian", "monk", "rogue"}
    ensures SpellcastingAbility(className) == None
  {
    LowercaseFixed(className);
    NotACaster(className);
  }

  lemma {:induction false} NotACaster(className: string)
    requires className in {"fighter", "barbarian", "monk", "rogue"}
    ensures className !in ClassSpellcastingAbility
  {
    if className == "fighter" {
      assert "fighter" !in ClassSpellcastingAbility;
    } else if className == "barbarian" {
      assert "barbarian" !in ClassSpellcastingAbility;
    } else if className == "monk" {
      assert "monk" !in ClassSpellcastingAbility;
    } else {
      assert "rogue" !in ClassSpellcastingAbility;
    }
  }

  lemma {:induction false} WizardCastsWithIntelligence()
    ensures SpellcastingAbility("wizard") == Some("intelligence")
  {
    LowercaseFixed("wizard");
  }

  lemma {:induction false} SpellcastingAbilities(className: string)
    ensures var r := SpellcastingAbility(className);
      r.Some? ==> r.value in {"charisma", "wisdom", "intelligence"}
  {
  }

  // ---------------------------------------------------------------------
  // Skills and abilities

  datatype Ability = Strength | Dexterity | Constitution | Intelligence | Wisdom | Charisma

  function ScoreOf(s: AbilityScores, a: Ability): int {
    match a
    case Strength => s.strength
    case Dexterity => s.dexterity
    case Constitution => s.constitution
    case Intelligence => s.intelligence
    case Wisdom => s.wisdom
    case Charisma => s.charisma
  }

  datatype AbilityName = AbilityName(key: Ability, displayName: string, abbr: string)

  const AbilityNames: seq<AbilityName> := [
    AbilityName(Strength, "Strength", "STR"),
    AbilityName(Dexterity, "Dexterity", "DEX"),
    AbilityName(Constitution, "Constitution", "CON"),
    AbilityName(Intelligence, "Intelligence", "INT"),
    AbilityName(Wisdom, "Wisdom", "WIS"),
    AbilityName(Charisma, "Charisma", "CHA")]

  datatype SkillEntry = SkillEntry(skill: string, ability: Ability, displayName: string, abilityAbbr: string)

  const SkillAbilityMap: seq<SkillEntry> := [
    SkillEntry("acrobatics", Dexterity, "Acrobatics", "DEX"),
    SkillEntry("animal handling", Wisdom, "Animal Handling", "WIS"),
    SkillEntry("arcana", Intelligence, "Arcana", "INT"),
    SkillEntry("athletics", Strength, "Athletics", "STR"),
    SkillEntry("deception", Charisma, "Deception", "CHA"),
    SkillEntry("history", Intelligence, "History", "INT"),
    SkillEntry("insight", Wisdom, "Insight", "WIS"),
    SkillEntry("intimidation", Charisma, "Intimidation", "CHA"),
    SkillEntry("investigation", Intelligence, "Investigation", "INT"),
    SkillEntry("medicine", Wisdom, "Medicine", "WIS"),
    SkillEntry("nature", Intelligence, "Nature", "INT"),
    SkillEntry("perception", Wisdom, "Perception", "WIS"),
    SkillEntry("performance", Charisma, "Performance", "CHA"),
    SkillEntry("persuasion", Charisma, "Persuasion", "CHA"),
    SkillEntry("religion", Intelligence, "Religion", "INT"),
    SkillEntry("sleight of hand", Dexterity, "Sleight of Hand", "DEX"),
    SkillEntry("stealth", Dexterity, "Stealth", "DEX"),
    SkillEntry("survival", Wisdom, "Survival", "WIS")]

  /** Where an ability sits in ABILITY_NAMES. */
  function AbilityIndex(a: Ability): (k: nat)
    ensures k < |AbilityNames| && AbilityNames[k].key == a
  {
    match a
    case Strength => 0
    case Dexterity => 1
    case Constitution => 2
    case Intelligence => 3
    case Wisdom => 4
    case Charisma => 5
  }

  /** The abbreviation ABILITY_NAMES gives an ability. */
  function AbbrOf(a: Ability): string {
    AbilityNames[AbilityIndex(a)].abbr
  }

  /** ABILITY_NAMES lists each of the six abilities once, with distinct abbreviations. */
  lemma {:induction false} AbilityNamesComplete()
    ensures |AbilityNames| == 6
    ensures forall i, j :: 0 <= i < j < 6 ==> AbilityNames[i].key != AbilityNames[j].key
    ensures forall i, j :: 0 <= i < j < 6 ==> AbilityNames[i].abbr != AbilityNames[j].abbr
    ensures forall i :: 0 <= i < 6 ==> AbilityIndex(AbilityNames[i].key) == i
  {
  }

  /** Eighteen skills, each named once, each abbreviated as its ability is in ABILITY_NAMES. */
  lemma {:induction false} SkillTableConsistent()
    ensures |SkillAbilityMap| == 18
    ensures forall i, j :: 0 <= i < j < 18 ==> SkillAbilityMap[i].skill != SkillAbilityMap[j].skill
    ensures forall i :: 0 <= i < 18 ==> SkillAbilityMap[i].abilityAbbr == AbbrOf(SkillAbilityMap[i].ability)
  {
  }
}
