/**
 * The character preview of app/src/components/character-preview.tsx: its
 * static portrait lookup, which picture it shows, and what pressing
 * "Generate Portrait" does to its state.
 *
 * The network round trip is an input: what `fetch` and `res.json()`
 * produced.  Rendering is reduced to which of the three branches is shown.
 */
module CharacterPreview {
  import opened Wrappers
  import opened Portraits
  import opened CharacterTypes
  import PortraitRoute

  // ---------------------------------------------------------------------
  // Static portrait

  datatype PreviewPortrait = PreviewPortrait(race: string, charClass: string, image: string, title: string)

  const PreviewPortraits: seq<PreviewPortrait> := [
    PreviewPortrait("halfling", "rogue", PublicDir + "halfling-rogue.png", "The Nimble Trickster"),
    PreviewPortrait("human", "fighter", PublicDir + "human-fighter.png", "The Battle-Hardened Knight"),
    PreviewPortrait("elf", "ranger", PublicDir + "elf-ranger.png", "The Woodland Sentinel"),
    PreviewPortrait("dwarf", "cleric", PublicDir + "dwarf-cleric.png", "The Stoneforge Priest"),
    PreviewPortrait("tiefling", "warlock", PublicDir + "tiefling-warlock.png", "The Pact-Bound Sorcerer"),
    PreviewPortrait("half-orc", "barbarian", PublicDir + "halforc-barbarian.png", "The Raging Berserker"),
    PreviewPortrait("dragonborn", "paladin", PublicDir + "dragonborn-paladin.png", "The Oath-Sworn Dragon"),
    PreviewPortrait("elf", "wizard", PublicDir + "elf-wizard.png", "The Arcane Scholar")]

  function PreviewKeys(): (keys: seq<PortraitKey>)
    ensures |keys| == |PreviewPortraits|
  {
    seq(|PreviewPortraits|, i requires 0 <= i < |PreviewPortraits| =>
      PortraitKey(PreviewPortraits[i].race, PreviewPortraits[i].charClass))
  }

  lemma {:induction false} PreviewKeysAreKeys()
    ensures PreviewKeys() == Keys
  {
  }

  /** `findBestPortrait`: the chain's entry, or null. */
  function FindBestPortrait(race: string, charClass: string): (r: Option<PreviewPortrait>)
    ensures r.Some? ==> r.value in PreviewPortraits
  {
    match Chain(PreviewKeys(), race, charClass)
    case Some(i) => Some(PreviewPortraits[i])
    case None => None
  }

  /** Every preview image is the public copy of the server's reference file at the same position. */
  lemma {:induction false} ImagesAreReferenceFiles()
    ensures |PreviewPortraits| == |PortraitRoute.ReferencePortraits|
    ensures forall i :: 0 <= i < |PreviewPortraits| ==>
              PreviewPortraits[i].image == PublicDir + PortraitRoute.ReferencePortraits[i].file
  {
    forall i | 0 <= i < |PreviewPortraits|
      ensures PreviewPortraits[i].image == PublicDir + PortraitRoute.ReferencePortraits[i].file
    {
      if i == 0 {} else if i == 1 {} else if i == 2 {} else if i == 3 {}
      else if i == 4 {} else if i == 5 {} else if i == 6 {}
    }
  }

  /**
   * The preview and the portrait endpoint agree: the preview shows the file
   * the server uses as its style reference, and where the preview has no
   * portrait the server falls back to the human fighter.
   */
  lemma {:induction false} PreviewAgreesWithReference(race: string, charClass: string)
    ensures FindBestPortrait(race, charClass).Some? ==>
              FindBestPortrait(race, charClass).value.image
              == PublicDir + PortraitRoute.FindReferencePortrait(race, charClass)
    ensures FindBestPortrait(race, charClass).None? ==>
              PortraitRoute.FindReferencePortrait(race, charClass) == PortraitRoute.DefaultReference
  {
    PreviewKeysAreKeys();
    PortraitRoute.ReferenceKeysAreKeys();
    ImagesAreReferenceFiles();
  }

  // ---------------------------------------------------------------------
  // What is shown

  /** `race || class`. */
  predicate HasIdentity(ch: Character) {
    ch.race != "" || ch.charClass != ""
  }

  /** `localPortrait || portraitUrl`: "" when neither is set. */
  function AiPortrait(localPortrait: Option<string>, portraitUrl: string): (src: string)
    ensures localPortrait.Some? && localPortrait.value != "" ==> src == localPortrait.value
    ensures (localPortrait.None? || localPortrait.value == "") ==> src == portraitUrl
  {
    if localPortrait.Some? && localPortrait.value != "" then localPortrait.value else portraitUrl
  }

  /** The three branches: the AI portrait, the static portrait, the placeholder. */
  datatype Display = AiImage(src: string) | StaticImage(entry: PreviewPortrait) | Placeholder

  function DisplayOf(ch: Character, localPortrait: Option<string>): (d: Display)
    ensures d.AiImage? ==> HasIdentity(ch) && d.src != "" && d.src == AiPortrait(localPortrait, ch.portraitUrl)
    ensures d.StaticImage? ==> HasIdentity(ch) && AiPortrait(localPortrait, ch.portraitUrl) == ""
                               && FindBestPortrait(ch.race, ch.charClass) == Some(d.entry)
    ensures d.Placeholder? <==>
              !HasIdentity(ch)
              || (AiPortrait(localPortrait, ch.portraitUrl) == "" && FindBestPortrait(ch.race, ch.charClass).None?)
  {
    var ai := AiPortrait(localPortrait, ch.portraitUrl);
    var portrait := FindBestPortrait(ch.race, ch.charClass);
    if ai != "" && HasIdentity(ch) then AiImage(ai)
    else if portrait.Some? && HasIdentity(ch) then StaticImage(portrait.value)
    else Placeholder
  }

  /** Before race and class are chosen only the placeholder shows, even with a portrait on file. */
  lemma {:induction false} NoIdentityNoPicture(ch: Character, localPortrait: Option<string>)
    requires ch.race == "" && ch.charClass == ""
    ensures DisplayOf(ch, localPortrait) == Placeholder
  {
  }

  /** A freshly generated image is shown in preference to the stored URL. */
  lemma {:induction false} LocalImageFirst(ch: Character, image: string)
    requires HasIdentity(ch) && image != ""
    ensures DisplayOf(ch, Some(image)) == AiImage(image)
  {
  }

  // ---------------------------------------------------------------------
  // Generating a portrait

  /** The body the preview posts: five character fields and the character id ("" when there is none). */
  function GenerateRequest(ch: Character, characterId: string): (req: PortraitRoute.PortraitRequest)
    ensures req.character.Some? && req.characterId == characterId
    ensures req.character.value.race == ch.race && req.character.value.charClass == ch.charClass
    ensures req.character.value.name == ch.name && req.character.value.appearance == ch.appearance
    ensures req.character.value.equipment == ch.equipment
  {
    PortraitRoute.PortraitRequest(
      Some(PortraitRoute.PortraitCharacter(ch.race, ch.charClass, ch.name, ch.appearance, ch.equipment)),
      characterId)
  }

  /** A reply body: not JSON (with the parser's message), or a JSON object whose absent keys read "". */
  datatype ReplyBody =
    | NotJson(parseMessage: string)
    | Json(error: string, base64: string, portraitUrl: string)

  /** What `fetch` gave: it threw (with an Error's message, or a non-Error), or a response. */
  datatype GenerateReply =
    | FetchThrew(message: Option<string>)
    | Answered(ok: bool, body: ReplyBody)

  /** The reply a response of the portrait endpoint arrives as. */
  function ReplyOf(resp: PortraitRoute.PortraitResponse): GenerateReply {
    match resp
    case PortraitError(_, message) => Answered(false, Json(message, "", ""))
    case PortraitImage(base64, url) => Answered(true, Json("", base64, url.GetOr("")))
  }

  /** The error the handler leaves, or None. */
  function GenerateError(reply: GenerateReply): (e: Option<string>)
    ensures e.None? <==> reply.Answered? && reply.ok && reply.body.Json?
  {
    match reply
    case FetchThrew(message) => Some(message.GetOr("Something went wrong"))
    case Answered(ok, body) =>
      if !ok then Some(if body.Json? && body.error != "" then body.error else "Failed to generate portrait")
      else if body.NotJson? then Some(body.parseMessage)
      else None
  }

  /** The image shown at once, when the reply carried one. */
  function ShownImage(reply: GenerateReply): (img: Option<string>)
    ensures img.Some? ==> img.value != "" && GenerateError(reply).None?
  {
    if reply.Answered? && reply.ok && reply.body.Json? && reply.body.base64 != "" then Some(reply.body.base64)
    else None
  }

  /** The URL handed to the persisting callback, when the reply carried one. */
  function StoredUrl(reply: GenerateReply): (url: Option<string>)
    ensures url.Some? ==> url.value != "" && GenerateError(reply).None?
  {
    if reply.Answered? && reply.ok && reply.body.Json? && reply.body.portraitUrl != "" then Some(reply.body.portraitUrl)
    else None
  }

  /** The preview's own state. */
  class PreviewState {
    var imageLoaded: bool
    var generating: bool
    var error: Option<string>
    var localPortrait: Option<string>

    constructor ()
      ensures !imageLoaded && !generating && error.None? && localPortrait.None?
    {
      imageLoaded := false;
      generating := false;
      error := None;
      localPortrait := None;
    }

    /**
     * `handleGenerate`, once the reply is in: the request sent, and the URL
     * passed to the callback (None when there is no callback or no URL).
     */
    method HandleGenerate(ch: Character, characterId: string, reply: GenerateReply, hasCallback: bool)
      returns (request: PortraitRoute.PortraitRequest, notified: Option<string>)
      modifies this
      ensures request == GenerateRequest(ch, characterId)
      ensures !generating
      ensures error == GenerateError(reply)
      ensures localPortrait == if ShownImage(reply).Some? then ShownImage(reply) else old(localPortrait)
      ensures imageLoaded == (ShownImage(reply).Some? || old(imageLoaded))
      ensures notified == if hasCallback then StoredUrl(reply) else None
    {
      generating := true;
      error := None;
      notified := None;
      request := GenerateRequest(ch, characterId);
      match reply {
        case FetchThrew(message) =>
          error := Some(message.GetOr("Something went wrong"));
        case Answered(ok, body) =>
          if !ok {
            var message := if body.Json? && body.error != "" then body.error else "Failed to generate portrait";
            error := Some(message);
          } else if body.NotJson? {
            error := Some(body.parseMessage);
          } else {
            if body.base64 != "" {
              localPortrait := Some(body.base64);
              imageLoaded := true;
            }
            if body.portraitUrl != "" && hasCallback {
              notified := Some(body.portraitUrl);
            }
          }
      }
      generating := false;
    }
  }

  // ---------------------------------------------------------------------
  // The preview against the endpoint

  /** Every error the endpoint answers with is the message the preview shows. */
  lemma {:induction false} ServerErrorShown(status: int, message: string)
    requires message != ""
    ensures GenerateError(ReplyOf(PortraitRoute.PortraitError(status, message))) == Some(message)
  {
  }

  /**
   * A generated image is shown at once; it is persisted only when the upload
   * succeeded and gave a URL.
   */
  lemma {:induction false} ServerImageShown(userId: string, ch: Character, characterId: string, sv: PortraitRoute.Services)
    requires ch.race != "" && ch.charClass != ""
    requires !sv.readThrew && !sv.generateThrew && sv.image.Some? && sv.image.value != ""
    ensures var reply := ReplyOf(PortraitRoute.Post(Some(userId), GenerateRequest(ch, characterId), sv).response);
      && GenerateError(reply).None?
      && ShownImage(reply) == Some(PortraitRoute.DataUrl(sv.image.value))
      && (sv.uploadFailed ==> StoredUrl(reply).None?)
  {
  }

  /**
   * A character with a race but no class (or a class but no race) is given
   * a picture and the generate button, and pressing it ends in the
   * endpoint's "needs race and class" message.
   */
  lemma {:induction false} HalfIdentityRefused(userId: string, ch: Character, characterId: string, sv: PortraitRoute.Services)
    requires ch.race == "" || ch.charClass == ""
    ensures GenerateError(ReplyOf(PortraitRoute.Post(Some(userId), GenerateRequest(ch, characterId), sv).response))
            == Some("Character needs race and class")
  {
  }

  /** For instance a lone elf: the static elf ranger is shown, and generating is refused. */
  lemma {:induction false} LoneElf(userId: string, ch: Character, characterId: string, sv: PortraitRoute.Services)
    requires ch.race == "elf" && ch.charClass == "" && ch.portraitUrl == ""
    ensures DisplayOf(ch, None) == StaticImage(PreviewPortraits[2])
    ensures GenerateError(ReplyOf(PortraitRoute.Post(Some(userId), GenerateRequest(ch, characterId), sv).response))
            == Some("Character needs race and class")
  {
    ElfRangerShown(ch);
    HalfIdentityRefused(userId, ch, characterId, sv);
  }

  lemma {:induction false} ElfRangerShown(ch: Character)
    requires ch.race == "elf" && ch.charClass == "" && ch.portraitUrl == ""
    ensures DisplayOf(ch, None) == StaticImage(PreviewPortraits[2])
  {
    ElfRangerPortrait();
    assert FindBestPortrait(ch.race, ch.charClass) == Some(PreviewPortraits[2]);
    assert HasIdentity(ch) && AiPortrait(None, ch.portraitUrl) == "";
  }

  lemma {:induction false} ElfRangerPortrait()
    ensures FindBestPortrait("elf", "") == Some(PreviewPortraits[2])
  {
    var c := "";
    Text.LowercaseFixed("elf");
    assert Text.ToLower(c) == "";
    NoSuchClass("elf", c);
    ElfRace();
    ChainByRace(Keys, "elf", c, "elf", c, 2);
    PreviewKeysAreKeys();
  }
}
