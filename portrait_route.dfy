/**
 * The portrait endpoint of app/src/app/api/portrait/route.ts: the style
 * reference lookup, the image prompt, and the POST handler's guards and
 * outcomes.
 *
 * The image service, the file system, the storage bucket and the clock are
 * inputs: whether reading the reference portrait threw, whether requesting
 * the image threw, what the image request returned, whether the upload
 * failed, the bucket's public URL and the current time.
 */
module PortraitRoute {
  import opened Wrappers
  import opened Text
  import opened Portraits

  // ---------------------------------------------------------------------
  // Reference portrait

  datatype ReferencePortrait = ReferencePortrait(race: string, charClass: string, file: string)

  const ReferencePortraits: seq<ReferencePortrait> := [
    ReferencePortrait("halfling", "rogue", "halfling-rogue.png"),
    ReferencePortrait("human", "fighter", "human-fighter.png"),
    ReferencePortrait("elf", "ranger", "elf-ranger.png"),
    ReferencePortrait("dwarf", "cleric", "dwarf-cleric.png"),
    ReferencePortrait("tiefling", "warlock", "tiefling-warlock.png"),
    ReferencePortrait("half-orc", "barbarian", "halforc-barbarian.png"),
    ReferencePortrait("dragonborn", "paladin", "dragonborn-paladin.png"),
    ReferencePortrait("elf", "wizard", "elf-wizard.png")]

  const DefaultReference := "human-fighter.png"

  function ReferenceKeys(): (keys: seq<PortraitKey>)
    ensures |keys| == |ReferencePortraits|
  {
    seq(|ReferencePortraits|, i requires 0 <= i < |ReferencePortraits| =>
      PortraitKey(ReferencePortraits[i].race, ReferencePortraits[i].charClass))
  }

  /** The table holds the shared race/class pairs, in the shared order. */
  lemma {:induction false} ReferenceKeysAreKeys()
    ensures ReferenceKeys() == Keys
  {
  }

  /** `findReferencePortrait`: the chain's file, or the human fighter. */
  function FindReferencePortrait(race: string, charClass: string): (file: string)
    ensures exists i :: 0 <= i < |ReferencePortraits| && ReferencePortraits[i].file == file
  {
    match Chain(ReferenceKeys(), race, charClass)
    case Some(i) => ReferencePortraits[i].file
    case None => assert ReferencePortraits[1].file == DefaultReference; DefaultReference
  }

  /** The file at the chain's position over the shared pairs. */
  lemma {:induction false} ReferenceAt(race: string, charClass: string, i: nat, file: string)
    requires Chain(Keys, race, charClass) == Some(i)
    requires i < |ReferencePortraits| && ReferencePortraits[i].file == file
    ensures FindReferencePortrait(race, charClass) == file
  {
    ReferenceKeysAreKeys();
  }

  lemma {:induction false} ReferenceHalfOrcBarbarian()
    ensures FindReferencePortrait("Half-Orc", "Barbarian") == "halforc-barbarian.png"
  {
    HalfOrcBarbarian();
    ReferenceAt("Half-Orc", "Barbarian", 5, "halforc-barbarian.png");
  }

  lemma {:induction false} ReferenceElfBard()
    ensures FindReferencePortrait("elf", "bard") == "elf-ranger.png"
  {
    ElfBard();
    ReferenceAt("elf", "bard", 2, "elf-ranger.png");
  }

  lemma {:induction false} ReferenceGnomeSorcerer()
    ensures FindReferencePortrait("gnome", "sorcerer") == "elf-wizard.png"
  {
    GnomeSorcerer();
    ReferenceAt("gnome", "sorcerer", 7, "elf-wizard.png");
  }

  /** Nothing fits a gnome juggler, so the reference is the human fighter. */
  lemma {:induction false} ReferenceGnomeJuggler()
    ensures FindReferencePortrait("gnome", "juggler") == DefaultReference
  {
    GnomeJuggler();
    ReferenceKeysAreKeys();
  }

  // ---------------------------------------------------------------------
  // Prompt

  /** The character fields the client sends; a missing string is "" and missing equipment []. */
  datatype PortraitCharacter = PortraitCharacter(
    race: string, charClass: string, name: string, appearance: string, equipment: seq<string>)

  const StyleLines: seq<string> := [
    "Stylized 3D low-poly character portrait with soft matte textures, geometric faceted surfaces.",
    "Full body, centered, facing camera.",
    "Low-poly geometric environment matching character theme.",
    "Moody atmospheric lighting with subtle rim light.",
    "NOT photorealistic, NOT 2D illustration.",
    "Must look like a 3D low-poly game render with matte textures and geometric shapes.",
    ""]

  const MaxPromptItems := 6

  /** "Character: <race> <class>", then " named <name>" only when a name is given. */
  function CharacterLine(ch: PortraitCharacter): (line: string)
    ensures ch.name == "" ==> line == "Character: " + ch.race + " " + ch.charClass
    ensures ch.name != "" ==> line == "Character: " + ch.race + " " + ch.charClass + " named " + ch.name
  {
    "Character: " + ch.race + " " + ch.charClass + (if ch.name != "" then " named " + ch.name else "")
  }

  /** The first six items, or all of them when there are fewer. */
  function PromptItems(equipment: seq<string>): (items: seq<string>)
    ensures |items| <= MaxPromptItems && |items| <= |equipment|
    ensures items == equipment[..|items|]
    ensures |equipment| <= MaxPromptItems ==> items == equipment
  {
    if |equipment| <= MaxPromptItems then equipment else equipment[..MaxPromptItems]
  }

  /** The prompt's lines, as `buildPrompt` assembles them before joining. */
  function PromptLines(ch: PortraitCharacter): (lines: seq<string>)
    ensures |lines| == 8 + (if ch.appearance != "" then 1 else 0) + (if ch.equipment != [] then 1 else 0)
    ensures lines[..7] == StyleLines && lines[7] == CharacterLine(ch)
    ensures ch.appearance != "" ==> lines[8] == "Appearance: " + ch.appearance
    ensures ch.equipment != [] ==> lines[|lines| - 1] == "Equipment: " + Join(PromptItems(ch.equipment), ", ")
  {
    StyleLines + [CharacterLine(ch)]
    + (if ch.appearance != "" then ["Appearance: " + ch.appearance] else [])
    + (if ch.equipment != [] then ["Equipment: " + Join(PromptItems(ch.equipment), ", ")] else [])
  }

  /** `buildPrompt`: push the optional lines, then join with line feeds. */
  method BuildPrompt(ch: PortraitCharacter) returns (prompt: string)
    ensures prompt == Join(PromptLines(ch), "\n")
  {
    var lines := StyleLines + [CharacterLine(ch)];
    if ch.appearance != "" {
      lines := lines + ["Appearance: " + ch.appearance];
    }
    if |ch.equipment| > 0 {
      var items := Join(PromptItems(ch.equipment), ", ");
      lines := lines + ["Equipment: " + items];
    }
    assert lines == PromptLines(ch);
    prompt := Join(lines, "\n");
  }

  /** A character with neither appearance nor equipment gets exactly the eight fixed lines. */
  lemma {:induction false} BarePrompt(ch: PortraitCharacter)
    requires ch.appearance == "" && ch.equipment == []
    ensures PromptLines(ch) == StyleLines + [CharacterLine(ch)]
  {
  }

  // ---------------------------------------------------------------------
  // POST

  datatype PortraitRequest = PortraitRequest(character: Option<PortraitCharacter>, characterId: string)

  /**
   * What the external services do: reading the reference file may throw
   * (before the prompt is built), the image request may throw (after it),
   * the image (None or "" when none came back) and the upload failure.
   */
  datatype Services = Services(
    readThrew: bool,
    generateThrew: bool,
    image: Option<string>,
    uploadFailed: bool,
    publicUrl: string,
    now: nat)

  datatype PortraitResponse =
    | PortraitError(status: int, message: string)
    | PortraitImage(base64: string, portraitUrl: Option<string>)

  /** The response, and what the handler asked of the services on the way. */
  datatype PortraitOutcome = PortraitOutcome(
    response: PortraitResponse,
    referenceFile: Option<string>,
    prompt: Option<string>,
    uploadPath: Option<string>)

  predicate HasRaceAndClass(body: PortraitRequest) {
    body.character.Some? && body.character.value.race != "" && body.character.value.charClass != ""
  }

  /** `portraits/<user>/<characterId or "draft">.png`. */
  function StoragePath(userId: string, characterId: string): (path: string)
    ensures characterId == "" ==> path == "portraits/" + userId + "/draft.png"
    ensures characterId != "" ==> path == "portraits/" + userId + "/" + characterId + ".png"
  {
    "portraits/" + userId + "/" + (if characterId != "" then characterId else "draft") + ".png"
  }

  function DataUrl(image: string): string {
    "data:image/png;base64," + image
  }

  /** The handler, early return by early return. */
  function Post(userId: Option<string>, body: PortraitRequest, sv: Services): (o: PortraitOutcome)
    ensures o.response.PortraitError? ==> o.response.status in {400, 401, 500}
    ensures o.response.PortraitImage? ==>
              userId.Some? && HasRaceAndClass(body) && !sv.readThrew && !sv.generateThrew && sv.image.Some? && sv.image.value != ""
              && o.response.base64 == DataUrl(sv.image.value)
    ensures o.uploadPath.Some? ==> o.response.PortraitImage?
  {
    if userId.None? then PortraitOutcome(PortraitError(401, "Not authenticated"), None, None, None)
    else if !HasRaceAndClass(body) then
      PortraitOutcome(PortraitError(400, "Character needs race and class"), None, None, None)
    else
      var ch := body.character.value;
      var refFile := FindReferencePortrait(ch.race, ch.charClass);
      if sv.readThrew then
        PortraitOutcome(PortraitError(500, "Failed to generate portrait"), Some(refFile), None, None)
      else
        var prompt := Join(PromptLines(ch), "\n");
        if sv.generateThrew then
          PortraitOutcome(PortraitError(500, "Failed to generate portrait"), Some(refFile), Some(prompt), None)
        else if sv.image.None? || sv.image.value == "" then
          PortraitOutcome(PortraitError(500, "No image generated"), Some(refFile), Some(prompt), None)
        else
          var path := StoragePath(userId.value, body.characterId);
          var url := if sv.uploadFailed then None else Some(sv.publicUrl + "?v=" + NatToString(sv.now));
          PortraitOutcome(PortraitImage(DataUrl(sv.image.value), url), Some(refFile), Some(prompt), Some(path))
  }

  /** Without a user the answer is 401 whatever the body and the services: the body is never read. */
  lemma {:induction false} NoUserUnauthorized(body: PortraitRequest, sv: Services)
    ensures Post(None, body, sv) == PortraitOutcome(PortraitError(401, "Not authenticated"), None, None, None)
  {
  }

  /** A missing character, race or class is a 400 before any service is used. */
  lemma {:induction false} MissingRaceOrClass(userId: string, body: PortraitRequest, sv: Services)
    requires body.character.None? || body.character.value.race == "" || body.character.value.charClass == ""
    ensures Post(Some(userId), body, sv).response == PortraitError(400, "Character needs race and class")
    ensures Post(Some(userId), body, sv).referenceFile == None
  {
  }

  /** A failed upload still returns the image, with no portrait URL. */
  lemma {:induction false} StorageFailureKeepsImage(userId: string, body: PortraitRequest, sv: Services)
    requires HasRaceAndClass(body) && !sv.readThrew && !sv.generateThrew && sv.image.Some? && sv.image.value != "" && sv.uploadFailed
    ensures Post(Some(userId), body, sv).response == PortraitImage(DataUrl(sv.image.value), None)
    ensures Post(Some(userId), body, sv).uploadPath == Some(StoragePath(userId, body.characterId))
  {
  }

  /** A stored image's URL is the public URL with a cache-busting timestamp. */
  lemma {:induction false} StoredImageUrl(userId: string, body: PortraitRequest, sv: Services)
    requires HasRaceAndClass(body) && !sv.readThrew && !sv.generateThrew && sv.image.Some? && sv.image.value != "" && !sv.uploadFailed
    ensures Post(Some(userId), body, sv).response.portraitUrl == Some(sv.publicUrl + "?v=" + NatToString(sv.now))
  {
  }

  /** The reference portrait and the prompt come from the character in the body. */
  lemma {:induction false} ReferenceAndPrompt(userId: string, body: PortraitRequest, sv: Services)
    requires HasRaceAndClass(body)
    ensures var ch := body.character.value;
      && Post(Some(userId), body, sv).referenceFile == Some(FindReferencePortrait(ch.race, ch.charClass))
      && Post(Some(userId), body, sv).prompt == (if sv.readThrew then None else Some(Join(PromptLines(ch), "\n")))
  {
  }

  /**
   * Either throw is caught as a 500; a failed reference read comes before
   * the prompt is built, a failed image request after it.
   */
  lemma {:induction false} ThrowsAreServerErrors(userId: string, body: PortraitRequest, sv: Services)
    requires HasRaceAndClass(body) && (sv.readThrew || sv.generateThrew)
    ensures Post(Some(userId), body, sv).response == PortraitError(500, "Failed to generate portrait")
    ensures Post(Some(userId), body, sv).prompt.None? <==> sv.readThrew
    ensures Post(Some(userId), body, sv).uploadPath.None?
  {
  }
}
