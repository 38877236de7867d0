/**
 * The saved-characters screen of app/src/components/my-characters.tsx: its
 * portrait lookup, the age of a save, the read-back of a table row, the
 * two stats a card shows, the header initials, and the list state that
 * loading and deleting change.
 *
 * Time enters as the elapsed milliseconds since the save (the clock and the
 * date parser are outside the model) and the locale's date text as a
 * parameter.  A row arrives as the JSON object the API returns: every
 * column may be missing or null, which is None.
 */
module MyCharacters {
  import opened Wrappers
  import opened Text
  import opened Portraits
  import opened CharacterTypes
  import CharacterPreview
  import CharactersRoute

  // ---------------------------------------------------------------------
  // Card portrait

  datatype CardPortrait = CardPortrait(race: string, charClass: string, image: string)

  const CardPortraits: seq<CardPortrait> := [
    CardPortrait("halfling", "rogue", PublicDir + "halfling-rogue.png"),
    CardPortrait("human", "fighter", PublicDir + "human-fighter.png"),
    CardPortrait("elf", "ranger", PublicDir + "elf-ranger.png"),
    CardPortrait("dwarf", "cleric", PublicDir + "dwarf-cleric.png"),
    CardPortrait("tiefling", "warlock", PublicDir + "tiefling-warlock.png"),
    CardPortrait("half-orc", "barbarian", PublicDir + "halforc-barbarian.png"),
    CardPortrait("dragonborn", "paladin", PublicDir + "dragonborn-paladin.png"),
    CardPortrait("elf", "wizard", PublicDir + "elf-wizard.png")]

  function CardKeys(): (keys: seq<PortraitKey>)
    ensures |keys| == |CardPortraits|
  {
    seq(|CardPortraits|, i requires 0 <= i < |CardPortraits| =>
      PortraitKey(CardPortraits[i].race, CardPortraits[i].charClass))
  }

  lemma {:induction false} CardKeysAreKeys()
    ensures CardKeys() == Keys
  {
  }

  /** `findPortrait`: the chain's image, or null. */
  function FindPortrait(race: string, charClass: string): (image: Option<string>)
    ensures image.Some? ==> exists i :: 0 <= i < |CardPortraits| && CardPortraits[i].image == image.value
  {
    match Chain(CardKeys(), race, charClass)
    case Some(i) => Some(CardPortraits[i].image)
    case None => None
  }

  /** The card and the preview show the same static image for every race and class. */
  lemma {:induction false} CardAgreesWithPreview(race: string, charClass: string)
    ensures FindPortrait(race, charClass)
            == match CharacterPreview.FindBestPortrait(race, charClass)
               case Some(p) => Some(p.image)
               case None => None
  {
    CardKeysAreKeys();
    CharacterPreview.PreviewKeysAreKeys();
    assert forall i :: 0 <= i < |CardPortraits| ==>
             CardPortraits[i].image == CharacterPreview.PreviewPortraits[i].image;
  }

  // ---------------------------------------------------------------------
  // Age of a save

  const Minute := 60000
  const Hour := 60 * Minute
  const Day := 24 * Hour
  const Week := 7 * Day

  /** Whole hours of whole minutes are whole hours, and so on up to weeks. */
  lemma {:induction false} FloorsCompose(d: int)
    ensures (d / Minute) / 60 == d / Hour
    ensures (d / Hour) / 24 == d / Day
    ensures (d / Day) / 7 == d / Week
  {
  }

  /**
   * `timeAgo`: whole minutes, hours, days and weeks, each rounded down,
   * with "Yesterday" for exactly one day; anything under a minute,
   * including a save in the future, is "Just now"; four weeks or more
   * shows the date.
   */
  function TimeAgo(diffMs: int, localeDate: string): (r: string)
    ensures diffMs < Minute ==> r == "Just now"
    ensures Minute <= diffMs < Hour ==> r == NatToString(diffMs / Minute) + "m ago"
    ensures Hour <= diffMs < Day ==> r == NatToString(diffMs / Hour) + "h ago"
    ensures Day <= diffMs < 2 * Day ==> r == "Yesterday"
    ensures 2 * Day <= diffMs < Week ==> r == NatToString(diffMs / Day) + " days ago"
    ensures Week <= diffMs < 4 * Week ==> r == NatToString(diffMs / Week) + "w ago"
    ensures 4 * Week <= diffMs ==> r == localeDate
  {
    FloorsCompose(diffMs);
    var mins := diffMs / Minute;
    if mins < 1 then "Just now"
    else if mins < 60 then NatToString(mins) + "m ago"
    else
      var hours := mins / 60;
      if hours < 24 then NatToString(hours) + "h ago"
      else
        var days := hours / 24;
        if days == 1 then "Yesterday"
        else if days < 7 then NatToString(days) + " days ago"
        else
          var weeks := days / 7;
          if weeks < 4 then NatToString(weeks) + "w ago"
          else localeDate
  }

  /** Boundary cases: a future save, just under a minute, a day and an hour, a month. */
  lemma {:induction false} TimeAgoExamples(localeDate: string)
    ensures TimeAgo(-5000, localeDate) == "Just now"
    ensures TimeAgo(59999, localeDate) == "Just now"
    ensures TimeAgo(Day + Hour, localeDate) == "Yesterday"
    ensures TimeAgo(30 * Day, localeDate) == localeDate
  {
  }

  // ---------------------------------------------------------------------
  // Reading a row back

  /** A row as JSON: every column may be missing or null. */
  datatype RowJson = RowJson(
    id: string,
    name: Option<string>,
    race: Option<string>,
    charClass: Option<string>,
    level: Option<int>,
    abilityScores: Option<AbilityScores>,
    hitPoints: Option<int>,
    proficiencies: Option<seq<string>>,
    equipment: Option<seq<string>>,
    background: Option<string>,
    backstory: Option<string>,
    appearance: Option<string>,
    edition: Option<string>,
    portraitUrl: Option<string>,
    updatedAt: int,
    chatHistory: Option<seq<CharactersRoute.StoredMessage>>)

  /** The JSON of a stored row: every column present, the portrait possibly null. */
  function JsonOf(row: CharactersRoute.Row): RowJson {
    RowJson(row.id, Some(row.name), Some(row.race), Some(row.charClass), Some(row.level),
      Some(row.abilityScores), Some(row.hitPoints), Some(row.proficiencies), Some(row.equipment),
      Some(row.background), Some(row.backstory), Some(row.appearance), Some(row.edition),
      row.portraitUrl, row.updatedAt, Some(row.chatHistory))
  }

  datatype SavedCharacter = SavedCharacter(
    id: string,
    character: Character,
    updatedAt: int,
    chatHistory: seq<ChatMessage>)

  /** A saved message read back: no character updates. */
  function Restored(m: CharactersRoute.StoredMessage): ChatMessage {
    ChatMessage(m.id, m.role, m.content, None)
  }

  function RestoredAll(ms: seq<CharactersRoute.StoredMessage>): (r: seq<ChatMessage>)
    ensures |r| == |ms|
    ensures forall i :: 0 <= i < |ms| ==> r[i] == Restored(ms[i])
  {
    seq(|ms|, i requires 0 <= i < |ms| => Restored(ms[i]))
  }

  /** `dbToCharacter`: each falsy column takes the default the client starts from. */
  function DbToCharacter(row: RowJson): (c: SavedCharacter)
    ensures c.id == row.id && c.updatedAt == row.updatedAt
  {
    var ch := Character(
      CharactersRoute.StringOr(row.name, ""),
      CharactersRoute.StringOr(row.race, ""),
      CharactersRoute.StringOr(row.charClass, ""),
      CharactersRoute.NumberOr(row.level, 1),
      row.abilityScores.GetOr(DefaultCharacter.abilityScores),
      CharactersRoute.NumberOr(row.hitPoints, 0),
      row.proficiencies.GetOr([]),
      row.equipment.GetOr([]),
      CharactersRoute.StringOr(row.background, ""),
      CharactersRoute.StringOr(row.backstory, ""),
      CharactersRoute.StringOr(row.appearance, ""),
      CharactersRoute.StringOr(row.edition, "5e"),
      CharactersRoute.StringOr(row.portraitUrl, ""),
      None, None, None, None, None, None, Missing, None);
    SavedCharacter(row.id, ch, row.updatedAt, RestoredAll(row.chatHistory.GetOr([])))
  }

  /** Missing or falsy columns read back as level 1, edition "5e", no portrait and empty lists. */
  lemma {:induction false} ReadBackDefaults(row: RowJson)
    ensures var c := DbToCharacter(row).character;
      && ((row.level.None? || row.level.value == 0) ==> c.level == 1)
      && ((row.edition.None? || row.edition.value == "") ==> c.edition == "5e")
      && (row.portraitUrl.None? ==> c.portraitUrl == "")
      && (row.proficiencies.None? ==> c.proficiencies == [])
      && (row.equipment.None? ==> c.equipment == [])
      && (row.chatHistory.None? ==> DbToCharacter(row).chatHistory == [])
      && (row.abilityScores.None? ==> c.abilityScores == DefaultCharacter.abilityScores)
      && c.level != 0 && c.edition != ""
  {
  }

  /** An empty row reads back as the default character. */
  lemma {:induction false} EmptyRowIsDefault(id: string, updatedAt: int)
    ensures DbToCharacter(RowJson(id, None, None, None, None, None, None, None, None, None, None, None,
                                  None, None, updatedAt, None)).character == DefaultCharacter
  {
  }

  // ---------------------------------------------------------------------
  // Card details

  /** The stored portrait when there is one, else the static one (or none). */
  function CardImage(c: SavedCharacter): (image: Option<string>)
    ensures c.character.portraitUrl != "" ==> image == Some(c.character.portraitUrl)
    ensures c.character.portraitUrl == "" ==> image == FindPortrait(c.character.race, c.character.charClass)
  {
    if c.character.portraitUrl != "" then Some(c.character.portraitUrl)
    else FindPortrait(c.character.race, c.character.charClass)
  }

  datatype Stat = Stat(abbr: string, value: int)

  function AllStats(s: AbilityScores): (all: seq<Stat>)
    ensures |all| == 6
  {
    [Stat("STR", s.strength), Stat("DEX", s.dexterity), Stat("CON", s.constitution),
     Stat("INT", s.intelligence), Stat("WIS", s.wisdom), Stat("CHA", s.charisma)]
  }

  const StatLabels: set<string> := {"STR", "DEX", "CON", "INT", "WIS", "CHA"}

  /** Each class's two stats; every entry of the table lists exactly two, so they are a pair here. */
  const ClassStats: map<string, (string, string)> := map[
    "fighter" := ("STR", "CON"), "barbarian" := ("STR", "CON"), "paladin" := ("STR", "CHA"),
    "ranger" := ("DEX", "WIS"), "rogue" := ("DEX", "INT"), "monk" := ("DEX", "WIS"),
    "wizard" := ("INT", "CON"), "sorcerer" := ("CHA", "CON"), "warlock" := ("CHA", "CON"),
    "bard" := ("CHA", "DEX"), "cleric" := ("WIS", "STR"), "druid" := ("WIS", "CON")]

  /** Each class names two different stats. */
  lemma {:induction false} ClassStatsArePairs()
    ensures forall c :: c in ClassStats ==>
              ClassStats[c].0 != ClassStats[c].1 && ClassStats[c].0 in StatLabels && ClassStats[c].1 in StatLabels
  {
    forall v | v in ClassStats.Values
      ensures v.0 != v.1 && v.0 in StatLabels && v.1 in StatLabels
    {
    }
    forall c | c in ClassStats ensures ClassStats[c] in ClassStats.Values {
    }
  }

  /** `all.find(a => a.label === abbr)`. */
  function FindStat(all: seq<Stat>, abbr: string): (r: Option<Stat>)
    ensures r.Some? ==> r.value in all && r.value.abbr == abbr
    ensures r.None? ==> forall i :: 0 <= i < |all| ==> all[i].abbr != abbr
  {
    if all == [] then None
    else if all[0].abbr == abbr then Some(all[0])
    else FindStat(all[1..], abbr)
  }

  /** `.map(...find...).filter(Boolean)`: the stats found, in the wanted order. */
  function FoundStats(all: seq<Stat>, wanted: seq<string>): (r: seq<Stat>)
    ensures |r| <= |wanted|
    ensures forall x :: x in r ==> x in all
  {
    if wanted == [] then []
    else
      var rest := FoundStats(all, wanted[1..]);
      match FindStat(all, wanted[0])
      case Some(stat) => [stat] + rest
      case None => rest
  }

  lemma {:induction false} FoundStatsAll(s: AbilityScores, wanted: seq<string>)
    requires forall i :: 0 <= i < |wanted| ==> wanted[i] in StatLabels
    ensures |FoundStats(AllStats(s), wanted)| == |wanted|
    ensures forall i :: 0 <= i < |wanted| ==> FoundStats(AllStats(s), wanted)[i].abbr == wanted[i]
  {
    if wanted != [] {
      FoundStatsAll(s, wanted[1..]);
      var all := AllStats(s);
      assert exists i :: 0 <= i < |all| && all[i].abbr == wanted[0] by {
        var l := wanted[0];
        if l == "STR" { assert all[0].abbr == l; }
        else if l == "DEX" { assert all[1].abbr == l; }
        else if l == "CON" { assert all[2].abbr == l; }
        else if l == "INT" { assert all[3].abbr == l; }
        else if l == "WIS" { assert all[4].abbr == l; }
        else { assert all[5].abbr == l; }
      }
    }
  }

  /** `getPrimaryStats`: the class's two stats, or STR and DEX. */
  function PrimaryStats(charClass: string, s: AbilityScores): (r: seq<Stat>)
    ensures |r| == 2 && r[0].abbr != r[1].abbr
    ensures forall i :: 0 <= i < 2 ==> r[i] in AllStats(s)
    ensures ToLower(charClass) in ClassStats ==>
              r[0].abbr == ClassStats[ToLower(charClass)].0 && r[1].abbr == ClassStats[ToLower(charClass)].1
    ensures ToLower(charClass) !in ClassStats ==> r == [Stat("STR", s.strength), Stat("DEX", s.dexterity)]
  {
    var c := ToLower(charClass);
    var pair := if c in ClassStats then ClassStats[c] else ("STR", "DEX");
    var preferred := [pair.0, pair.1];
    ClassStatsArePairs();
    assert |preferred| == 2 && preferred[0] != preferred[1]
           && forall i :: 0 <= i < 2 ==> preferred[i] in StatLabels;
    FoundStatsAll(s, preferred);
    FoundStats(AllStats(s), preferred)
  }

  /** The stats depend on the class only up to the case of its ASCII letters. */
  lemma {:induction false} PrimaryStatsCaseInsensitive(charClass: string, s: AbilityScores)
    ensures PrimaryStats(ToLower(charClass), s) == PrimaryStats(charClass, s)
  {
    ToLowerIdempotent(charClass);
  }

  /** A wizard's card shows intelligence and constitution. */
  lemma {:induction false} WizardStats(s: AbilityScores)
    ensures PrimaryStats("wizard", s) == [Stat("INT", s.intelligence), Stat("CON", s.constitution)]
  {
    LowercaseFixed("wizard");
    WizardPair();
    var r := PrimaryStats("wizard", s);
    var all := AllStats(s);
    assert r[0] in all && r[0].abbr == "INT" && r[1] in all && r[1].abbr == "CON";
  }

  lemma {:induction false} WizardPair()
    ensures "wizard" in ClassStats && ClassStats["wizard"] == ("INT", "CON")
  {
  }

  // ---------------------------------------------------------------------
  // Initials

  const LocalSeparators: set<char> := {'.', '-', '_'}

  /** `s[0]?.toUpperCase() || ""`. */
  function Lead(piece: string): (r: string)
    ensures |r| <= 1 && (r == "" <==> piece == "")
    ensures r != "" ==> r[0] == UpperChar(piece[0])
  {
    if piece == "" then "" else [UpperChar(piece[0])]
  }

  /**
   * The header initials: the local part of the email, split on ".", "-"
   * and "_", the first two pieces' first characters, upper-cased.
   */
  function Initials(email: string): (r: string)
    ensures |r| <= 2
    ensures forall i :: 0 <= i < |r| ==> !IsAsciiLower(r[i])
  {
    var pieces := SplitAny(Before(email, '@'), LocalSeparators);
    var firstTwo := if |pieces| <= 2 then pieces else pieces[..2];
    if |firstTwo| == 1 then Lead(firstTwo[0])
    else Lead(firstTwo[0]) + Lead(firstTwo[1])
  }

  /** The initials are drawn from the first two pieces, in order. */
  lemma {:induction false} InitialsOfPieces(email: string)
    ensures var pieces := SplitAny(Before(email, '@'), LocalSeparators);
      Initials(email) == Lead(pieces[0]) + (if |pieces| >= 2 then Lead(pieces[1]) else "")
  {
    var pieces := SplitAny(Before(email, '@'), LocalSeparators);
    if |pieces| == 1 {
      assert Lead(pieces[0]) + "" == Lead(pieces[0]);
    }
  }

  // ---------------------------------------------------------------------
  // The list

  /** `prev.filter(c => c.id !== id)`. */
  function WithoutId(cs: seq<SavedCharacter>, id: string): (r: seq<SavedCharacter>)
    ensures |r| <= |cs|
    ensures forall x :: x in r <==> x in cs && x.id != id
  {
    if cs == [] then []
    else if cs[0].id == id then WithoutId(cs[1..], id)
    else [cs[0]] + WithoutId(cs[1..], id)
  }

  /** Filtering keeps the survivors' order: it distributes over concatenation. */
  lemma {:induction false} WithoutIdAppend(a: seq<SavedCharacter>, b: seq<SavedCharacter>, id: string)
    ensures WithoutId(a + b, id) == WithoutId(a, id) + WithoutId(b, id)
    decreases |a|
  {
    if a == [] {
      assert a + b == b;
    } else {
      assert (a + b)[0] == a[0] && (a + b)[1..] == a[1..] + b;
      WithoutIdAppend(a[1..], b, id);
    }
  }

  /** Deleting an id that no entry has changes nothing. */
  lemma {:induction false} WithoutAbsentId(cs: seq<SavedCharacter>, id: string)
    requires forall i :: 0 <= i < |cs| ==> cs[i].id != id
    ensures WithoutId(cs, id) == cs
  {
    if cs != [] {
      WithoutAbsentId(cs[1..], id);
    }
  }

  class CharacterList {
    var characters: seq<SavedCharacter>
    var loading: bool

    constructor ()
      ensures characters == [] && loading
    {
      characters := [];
      loading := true;
    }

    /** The load effect: an array reply replaces the list (None when the reply was not an array or failed). */
    method Load(reply: Option<seq<RowJson>>)
      modifies this
      ensures !loading
      ensures reply.Some? ==> |characters| == |reply.value|
                              && forall i :: 0 <= i < |reply.value| ==> characters[i] == DbToCharacter(reply.value[i])
      ensures reply.None? ==> characters == old(characters)
    {
      if reply.Some? {
        characters := seq(|reply.value|, i requires 0 <= i < |reply.value| => DbToCharacter(reply.value[i]));
      }
      loading := false;
    }

    /**
     * `handleDelete`: after confirmation, send the delete for that id and
     * drop its entries, whatever the response was; nothing happens when the
     * user declines or the request itself throws.
     */
    method HandleDelete(id: string, confirmed: bool, requestThrew: bool) returns (sent: Option<string>)
      modifies this
      ensures sent == if confirmed then Some(id) else None
      ensures characters == if confirmed && !requestThrew then WithoutId(old(characters), id) else old(characters)
      ensures loading == old(loading)
    {
      if !confirmed {
        return None;
      }
      sent := Some(id);
      if !requestThrew {
        characters := WithoutId(characters, id);
      }
    }
  }
}
