/**
 * The portrait fallback chain shared by three copies in the application:
 * `findReferencePortrait` (app/src/app/api/portrait/route.ts),
 * `findBestPortrait` (app/src/components/character-preview.tsx) and
 * `findPortrait` (app/src/components/my-characters.tsx).
 *
 * Each copy holds the same eight race/class pairs in the same order, each
 * with its own payload, and the same class-family aliases.  The chain is
 * defined here once, over the pairs, and picks a table position; each copy
 * turns the position into its payload.
 */
module Portraits {
  import opened Wrappers
  import opened Text

  datatype PortraitKey = PortraitKey(race: string, charClass: string)

  /** The race/class pairs of the three tables, in table order. */
  const Keys: seq<PortraitKey> := [
    PortraitKey("halfling", "rogue"),
    PortraitKey("human", "fighter"),
    PortraitKey("elf", "ranger"),
    PortraitKey("dwarf", "cleric"),
    PortraitKey("tiefling", "warlock"),
    PortraitKey("half-orc", "barbarian"),
    PortraitKey("dragonborn", "paladin"),
    PortraitKey("elf", "wizard")]

  /** The public folder the static portraits of the two client tables are served from. */
  const PublicDir := "/characters/"

  /** A class without a portrait of its own borrows one from a related class. */
  const ClassFamily: map<string, string> := map[
    "sorcerer" := "wizard", "bard" := "rogue", "monk" := "fighter", "druid" := "cleric"]

  /** The three `find` predicates, over the lower-cased race r and class c. */
  datatype Criterion = Exact(r: string, c: string) | ClassIs(c: string) | RaceIn(r: string)

  predicate Meets(k: PortraitKey, crit: Criterion) {
    match crit
    case Exact(r, c) => Contains(r, k.race) && c == k.charClass
    case ClassIs(c) => c == k.charClass
    case RaceIn(r) => Contains(r, k.race)
  }

  /** `Array.prototype.find`, as a position: the first key that meets the criterion. */
  function First(keys: seq<PortraitKey>, crit: Criterion): (r: Option<nat>)
    ensures r.Some? ==> r.value < |keys| && Meets(keys[r.value], crit)
    ensures r.Some? ==> forall j :: 0 <= j < r.value ==> !Meets(keys[j], crit)
    ensures r.None? ==> forall j :: 0 <= j < |keys| ==> !Meets(keys[j], crit)
  {
    if keys == [] then None
    else if Meets(keys[0], crit) then Some(0)
    else match First(keys[1..], crit)
      case None => None
      case Some(i) => Some(i + 1)
  }

  /** The first key that meets the criterion is the one `find` returns. */
  lemma {:induction false} FirstIs(keys: seq<PortraitKey>, crit: Criterion, i: nat)
    requires i < |keys| && Meets(keys[i], crit)
    requires forall j :: 0 <= j < i ==> !Meets(keys[j], crit)
    ensures First(keys, crit) == Some(i)
  {
  }

  /** When no key meets the criterion, `find` returns nothing. */
  lemma {:induction false} FirstNone(keys: seq<PortraitKey>, crit: Criterion)
    requires forall j :: 0 <= j < |keys| ==> !Meets(keys[j], crit)
    ensures First(keys, crit) == None
  {
    if keys != [] {
      assert !Meets(keys[0], crit);
      assert forall j :: 0 <= j < |keys[1..]| ==> keys[1..][j] == keys[j + 1];
      FirstNone(keys[1..], crit);
    }
  }

  /** Exact, then class, then race, then the class family; None when nothing matches. */
  function Chain(keys: seq<PortraitKey>, race: string, charClass: string): (r: Option<nat>)
    ensures r.Some? ==> r.value < |keys|
  {
    var r, c := ToLower(race), ToLower(charClass);
    var exact := First(keys, Exact(r, c));
    if exact.Some? then exact
    else
      var classMatch := First(keys, ClassIs(c));
      if classMatch.Some? then classMatch
      else
        var raceMatch := First(keys, RaceIn(r));
        if raceMatch.Some? then raceMatch
        else if c in ClassFamily then First(keys, ClassIs(ClassFamily[c]))
        else None
  }

  // ---------------------------------------------------------------------
  // An independent statement of the chain: the best-ranked entry

  /**
   * How well a table entry fits: 0 exact, 1 same class, 2 race contained,
   * 3 the class family's class, 4 no fit.
   */
  function Rank(k: PortraitKey, race: string, charClass: string): nat {
    var r, c := ToLower(race), ToLower(charClass);
    if Contains(r, k.race) && c == k.charClass then 0
    else if c == k.charClass then 1
    else if Contains(r, k.race) then 2
    else if c in ClassFamily && k.charClass == ClassFamily[c] then 3
    else 4
  }

  /** Entry i fits, and no entry fits better or equally well earlier in the table. */
  predicate Best(keys: seq<PortraitKey>, race: string, charClass: string, i: nat) {
    i < |keys| && Rank(keys[i], race, charClass) < 4
    && forall j :: 0 <= j < |keys| ==>
         Rank(keys[i], race, charClass) < Rank(keys[j], race, charClass)
         || (Rank(keys[i], race, charClass) == Rank(keys[j], race, charClass) && i <= j)
  }

  /**
   * The chain picks the best-ranked entry, the first in table order among
   * equals, and nothing exactly when no entry fits at all.
   */
  lemma {:induction false} ChainPicksBest(keys: seq<PortraitKey>, race: string, charClass: string)
    ensures var r := Chain(keys, race, charClass);
      && (r.Some? ==> Best(keys, race, charClass, r.value))
      && (r.None? <==> forall j :: 0 <= j < |keys| ==> Rank(keys[j], race, charClass) == 4)
  {
    var r, c := ToLower(race), ToLower(charClass);
    var exact := First(keys, Exact(r, c));
    var classMatch := First(keys, ClassIs(c));
    var raceMatch := First(keys, RaceIn(r));
    if exact.Some? {
    } else if classMatch.Some? {
    } else if raceMatch.Some? {
    } else if c in ClassFamily {
      var family := First(keys, ClassIs(ClassFamily[c]));
      if family.Some? {
        assert Rank(keys[family.value], race, charClass) == 3;
      }
    }
  }

  /** The class family is consulted only when no entry shares the class or is contained in the race. */
  lemma {:induction false} FamilyOnlyAsLastResort(keys: seq<PortraitKey>, race: string, charClass: string)
    requires Chain(keys, race, charClass).Some?
    requires Rank(keys[Chain(keys, race, charClass).value], race, charClass) == 3
    ensures forall j :: 0 <= j < |keys| ==> Rank(keys[j], race, charClass) >= 3
  {
    ChainPicksBest(keys, race, charClass);
  }

  /** The chain ignores the case of ASCII letters in both inputs. */
  lemma {:induction false} ChainCaseInsensitive(keys: seq<PortraitKey>, race: string, charClass: string)
    ensures Chain(keys, ToLower(race), ToLower(charClass)) == Chain(keys, race, charClass)
  {
    ToLowerIdempotent(race);
    ToLowerIdempotent(charClass);
  }

  // ---------------------------------------------------------------------
  // Worked examples over the application's table

  lemma {:induction false} ContainsItself(s: string)
    ensures Contains(s, s)
  {
    assert OccursAt(s, s, 0);
  }

  /** A pattern with a character the string lacks does not occur in it. */
  lemma {:induction false} MissingChar(s: string, sub: string, c: char)
    requires c in sub && c !in s
    ensures !Contains(s, sub)
  {
    var k :| 0 <= k < |sub| && sub[k] == c;
    forall i: nat | i + |sub| <= |s| ensures !OccursAt(s, sub, i) {
      assert s[i..i + |sub|][k] == s[i + k] != c;
    }
  }

  lemma {:induction false} HalfOrcLower()
    ensures ToLower("Half-Orc") == "half-orc" && ToLower("Barbarian") == "barbarian"
  {
    RaceLower();
    ClassLower();
  }

  /** Lower-casing character by character fixes the whole string. */
  lemma {:induction false} LowerIs(s: string, t: string)
    requires |s| == |t| && forall i :: 0 <= i < |s| ==> LowerChar(s[i]) == t[i]
    ensures ToLower(s) == t
  {
    var l := ToLower(s);
    assert forall i :: 0 <= i < |s| ==> l[i] == t[i];
  }

  lemma {:induction false} RaceLower()
    ensures ToLower("Half-Orc") == "half-orc"
  {
    LowerIs("Half-Orc", "half-orc");
  }

  lemma {:induction false} ClassLower()
    ensures ToLower("Barbarian") == "barbarian"
  {
    LowerIs("Barbarian", "barbarian");
  }

  /** The sorcerer borrows the wizard's portrait. */
  lemma {:induction false} SorcererFamily()
    ensures "sorcerer" in ClassFamily && ClassFamily["sorcerer"] == "wizard"
  {
  }

  /** A juggler has no class family. */
  lemma {:induction false} JugglerHasNoFamily()
    ensures "juggler" !in ClassFamily
  {
    assert ClassFamily.Keys == {"sorcerer", "bard", "monk", "druid"};
  }

  /** The chain stops at the exact match when there is one. */
  lemma {:induction false} ChainExact(keys: seq<PortraitKey>, race: string, charClass: string, r: string, c: string, i: nat)
    requires ToLower(race) == r && ToLower(charClass) == c
    requires First(keys, Exact(r, c)) == Some(i)
    ensures Chain(keys, race, charClass) == Some(i)
  {
  }

  /** Without an exact or class match, the chain takes the first race match. */
  lemma {:induction false} ChainByRace(keys: seq<PortraitKey>, race: string, charClass: string, r: string, c: string, i: nat)
    requires ToLower(race) == r && ToLower(charClass) == c
    requires First(keys, Exact(r, c)).None? && First(keys, ClassIs(c)).None?
    requires First(keys, RaceIn(r)) == Some(i)
    ensures Chain(keys, race, charClass) == Some(i)
  {
  }

  /** Without an exact, class or race match, the chain takes the class family's entry. */
  lemma {:induction false} ChainByFamily(keys: seq<PortraitKey>, race: string, charClass: string, r: string, c: string, i: nat)
    requires ToLower(race) == r && ToLower(charClass) == c
    requires First(keys, Exact(r, c)).None? && First(keys, ClassIs(c)).None? && First(keys, RaceIn(r)).None?
    requires c in ClassFamily && First(keys, ClassIs(ClassFamily[c])) == Some(i)
    ensures Chain(keys, race, charClass) == Some(i)
  {
  }

  /** With no match and no class family, the chain finds nothing. */
  lemma {:induction false} ChainFindsNothing(keys: seq<PortraitKey>, race: string, charClass: string, r: string, c: string)
    requires ToLower(race) == r && ToLower(charClass) == c
    requires First(keys, Exact(r, c)).None? && First(keys, ClassIs(c)).None? && First(keys, RaceIn(r)).None?
    requires c !in ClassFamily
    ensures Chain(keys, race, charClass) == None
  {
  }

  lemma {:induction false} HalfOrcBarbarianExact()
    ensures First(Keys, Exact("half-orc", "barbarian")) == Some(5)
  {
    ContainsItself("half-orc");
    forall j | 0 <= j < 5 ensures !Meets(Keys[j], Exact("half-orc", "barbarian")) {
      assert Keys[j].charClass in {"rogue", "fighter", "ranger", "cleric", "warlock"};
    }
    FirstIs(Keys, Exact("half-orc", "barbarian"), 5);
  }

  /** "Half-Orc" and "Barbarian" match the half-orc barbarian exactly. */
  lemma {:induction false} HalfOrcBarbarian()
    ensures Chain(Keys, "Half-Orc", "Barbarian") == Some(5)
  {
    HalfOrcLower();
    HalfOrcBarbarianExact();
    ChainExact(Keys, "Half-Orc", "Barbarian", "half-orc", "barbarian", 5);
  }

  /** No entry of the table has one of these classes (or no class). */
  lemma {:induction false} NoSuchClass(r: string, c: string)
    requires c in {"bard", "sorcerer", "juggler", ""}
    ensures First(Keys, ClassIs(c)) == None
    ensures First(Keys, Exact(r, c)) == None
  {
    forall j | 0 <= j < |Keys| ensures Keys[j].charClass != c {
    }
    FirstNone(Keys, ClassIs(c));
    FirstNone(Keys, Exact(r, c));
  }

  lemma {:induction false} ElfRace()
    ensures First(Keys, RaceIn("elf")) == Some(2)
  {
    ContainsItself("elf");
    MissingChar("elf", "halfling", 'h');
    MissingChar("elf", "human", 'h');
    FirstIs(Keys, RaceIn("elf"), 2);
  }

  /** An elf bard finds no bard, so the race picks the elf ranger before any family alias. */
  lemma {:induction false} ElfBard()
    ensures Chain(Keys, "elf", "bard") == Some(2)
  {
    LowercaseFixed("elf");
    LowercaseFixed("bard");
    NoSuchClass("elf", "bard");
    ElfRace();
    ChainByRace(Keys, "elf", "bard", "elf", "bard", 2);
  }

  /** No race of the table occurs in "gnome". */
  lemma {:induction false} GnomeFitsNoRace()
    ensures First(Keys, RaceIn("gnome")) == None
  {
    GnomeLacksH();
    GnomeLacksOthers();
    FirstNone(Keys, RaceIn("gnome"));
  }

  /** "gnome" has no 'h', which every other race but three has. */
  lemma {:induction false} GnomeLacksH()
    ensures !Contains("gnome", "halfling") && !Contains("gnome", "human") && !Contains("gnome", "half-orc")
  {
    MissingChar("gnome", "halfling", 'h');
    MissingChar("gnome", "human", 'h');
    MissingChar("gnome", "half-orc", 'h');
  }

  lemma {:induction false} GnomeLacksOthers()
    ensures !Contains("gnome", "elf") && !Contains("gnome", "dwarf")
            && !Contains("gnome", "tiefling") && !Contains("gnome", "dragonborn")
  {
    MissingChar("gnome", "elf", 'l');
    MissingChar("gnome", "dwarf", 'd');
    MissingChar("gnome", "tiefling", 't');
    MissingChar("gnome", "dragonborn", 'd');
  }

  /** The only wizard is the last entry. */
  lemma {:induction false} WizardIsLast()
    ensures First(Keys, ClassIs("wizard")) == Some(7)
  {
    forall j | 0 <= j < 7 ensures !Meets(Keys[j], ClassIs("wizard")) {
      assert Keys[j].charClass in {"rogue", "fighter", "ranger", "cleric", "warlock", "barbarian", "paladin"};
    }
    FirstIs(Keys, ClassIs("wizard"), 7);
  }

  /** A gnome sorcerer matches neither class nor race, so the wizard family gives the elf wizard. */
  lemma {:induction false} GnomeSorcerer()
    ensures Chain(Keys, "gnome", "sorcerer") == Some(7)
  {
    LowercaseFixed("gnome");
    LowercaseFixed("sorcerer");
    NoSuchClass("gnome", "sorcerer");
    GnomeFitsNoRace();
    WizardIsLast();
    SorcererFamily();
    ChainByFamily(Keys, "gnome", "sorcerer", "gnome", "sorcerer", 7);
  }

  /** A gnome juggler fits nothing. */
  lemma {:induction false} GnomeJuggler()
    ensures Chain(Keys, "gnome", "juggler") == None
  {
    LowercaseFixed("gnome");
    LowercaseFixed("juggler");
    NoSuchClass("gnome", "juggler");
    GnomeFitsNoRace();
    JugglerHasNoFamily();
    ChainFindsNothing(Keys, "gnome", "juggler", "gnome", "juggler");
  }
}
