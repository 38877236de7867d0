/**
 * The page component of app/src/app/page.tsx: which screen is shown, how
 * the sign-in check on mount routes the visitor and restores a pending
 * save, the handlers that move between screens, the mobile peek's top
 * score, and saving the character.  The peek also defines a `modifier`
 * helper that it never displays; the print sheet displays the same rule.
 *
 * The browser's session storage is a map from key to value.  The sign-in
 * check's answer (the user's email), the URL's `action` parameter, what
 * `JSON.parse` made of the pending save and what the save request
 * answered are inputs.
 */
module HomePage {
  import opened Wrappers
  import opened CharacterTypes
  import Text
  import CharacterUtils
  import CharactersRoute
  import MyCharacters

  datatype View = Welcome | CharactersView | Wizard

  /** What the page renders. */
  datatype Screen = Loading | WelcomeScreen | MyCharactersScreen | WizardLayout

  /** A character handed to the wizard, with its saved id and chat when it has them. */
  datatype LoadedCharacter = LoadedCharacter(
    character: Character,
    id: Option<string>,
    chatHistory: Option<seq<ChatMessage>>)

  /** A save response body: unreadable, or an object with (or without) an id. */
  datatype SaveBody = Unreadable | Saved(id: Option<string>)

  /** What a save request did: it threw, or answered. */
  datatype SaveReply = SaveThrew | SaveAnswered(ok: bool, body: SaveBody)

  const PendingSaveKey := "wizard_pending_save"
  const StartedKey := "wizard_started"

  /** `sessionStorage.getItem(key)` is a non-empty string. */
  predicate Stored(session: map<string, string>, key: string) {
    key in session && session[key] != ""
  }

  // ---------------------------------------------------------------------
  // Rendering

  function Render(checkingAuth: bool, view: View, user: Option<string>): (s: Screen)
    ensures checkingAuth <==> s == Loading
    ensures s == MyCharactersScreen <==> !checkingAuth && view == CharactersView && user.Some?
    ensures !checkingAuth && view == Welcome ==> s == WelcomeScreen
    ensures !checkingAuth && view != Welcome && !(view == CharactersView && user.Some?) ==> s == WizardLayout
  {
    if checkingAuth then Loading
    else if view == Welcome then WelcomeScreen
    else if view == CharactersView && user.Some? then MyCharactersScreen
    else WizardLayout
  }

  /** The character restored from a pending save, given what its POST answered. */
  function AfterPendingSave(charData: LoadedCharacter, reply: SaveReply): (r: LoadedCharacter)
    ensures r.character == charData.character && r.chatHistory == charData.chatHistory
    ensures (reply.SaveAnswered? && reply.ok && reply.body.Saved?) ==> r.id == reply.body.id
    ensures !(reply.SaveAnswered? && reply.ok && reply.body.Saved?) ==> r == charData
  {
    if reply.SaveAnswered? && reply.ok && reply.body.Saved? then charData.(id := reply.body.id)
    else charData
  }

  class Home {
    var view: View
    var user: Option<string>
    var initialCharacter: Option<LoadedCharacter>
    var checkingAuth: bool
    var session: map<string, string>

    /** The first render: welcome, waiting for the sign-in check. */
    constructor (session0: map<string, string>)
      ensures view == Welcome && user.None? && initialCharacter.None? && checkingAuth
      ensures session == session0
    {
      view := Welcome;
      user := None;
      initialCharacter := None;
      checkingAuth := true;
      session := session0;
    }

    /**
     * The sign-in check on mount.  `parsed` is what `JSON.parse` gives for
     * the pending save (None when it throws); `reply` is what posting it
     * gave.  Returns the character that was posted, if one was.
     */
    method AuthEffect(email: Option<string>, action: Option<string>, parsed: Option<LoadedCharacter>, reply: SaveReply)
      returns (posted: Option<LoadedCharacter>)
      modifies this
      ensures !checkingAuth
      ensures var signedIn := email.Some? && email.value != "";
              var saving := action == Some("save");
              var pending := Stored(old(session), PendingSaveKey);
        && user == (if signedIn then email else old(user))
        && view == (if signedIn then (if saving then Wizard else CharactersView)
                    else if StartedKey in old(session) && old(session)[StartedKey] == "true" then Wizard
                    else old(view))
        && session == (if signedIn && saving && pending then old(session) - {PendingSaveKey} else old(session))
        && posted == (if signedIn && saving && pending then parsed else None)
        && initialCharacter
           == (if parsed.None? || !pending then old(initialCharacter)
               else if signedIn && saving then Some(AfterPendingSave(parsed.value, reply))
               else if !signedIn && StartedKey in old(session) && old(session)[StartedKey] == "true" then parsed
               else old(initialCharacter))
    {
      posted := None;
      if email.Some? && email.value != "" {
        user := email;
        var pending := Stored(session, PendingSaveKey);
        if action == Some("save") && pending {
          if parsed.Some? {
            posted := parsed;
            initialCharacter := Some(AfterPendingSave(parsed.value, reply));
          }
          session := session - {PendingSaveKey};
          view := Wizard;
        } else if action == Some("save") {
          view := Wizard;
        } else {
          view := CharactersView;
        }
      } else {
        if StartedKey in session && session[StartedKey] == "true" {
          if Stored(session, PendingSaveKey) && parsed.Some? {
            initialCharacter := parsed;
          }
          view := Wizard;
        }
      }
      checkingAuth := false;
    }

    /** `handleStartNew`: a blank wizard, remembered across a sign-in redirect. */
    method HandleStartNew()
      modifies this
      ensures initialCharacter.None? && view == Wizard
      ensures session == old(session)[StartedKey := "true"]
      ensures user == old(user) && checkingAuth == old(checkingAuth)
    {
      initialCharacter := None;
      session := session[StartedKey := "true"];
      view := Wizard;
    }

    /** `handleContinue`: the wizard on a saved character. */
    method HandleContinue(c: LoadedCharacter)
      modifies this
      ensures initialCharacter == Some(c) && view == Wizard
      ensures session == old(session)[StartedKey := "true"]
      ensures user == old(user) && checkingAuth == old(checkingAuth)
    {
      initialCharacter := Some(c);
      session := session[StartedKey := "true"];
      view := Wizard;
    }

    /** `handleSignOut`, once signed out: no user, no wizard session, back to welcome. */
    method HandleSignOut()
      modifies this
      ensures user.None? && view == Welcome
      ensures session == old(session) - {StartedKey}
      ensures initialCharacter == old(initialCharacter) && checkingAuth == old(checkingAuth)
    {
      user := None;
      session := session - {StartedKey};
      view := Welcome;
    }

    method HandleBackToCharacters()
      modifies this
      ensures view == CharactersView
      ensures user == old(user) && session == old(session) && initialCharacter == old(initialCharacter)
      ensures checkingAuth == old(checkingAuth)
    {
      view := CharactersView;
    }
  }

  /** After signing out, a signed-out reload stays on the welcome screen: the wizard mark is gone. */
  method SignOutThenReload(h: Home, parsed: Option<LoadedCharacter>, reply: SaveReply)
    modifies h
    ensures h.view == Welcome && h.user.None?
    ensures Render(h.checkingAuth, h.view, h.user) == WelcomeScreen
  {
    h.HandleSignOut();
    var _ := h.AuthEffect(None, None, parsed, reply);
  }

  // ---------------------------------------------------------------------
  // The mobile peek

  /**
   * The modifier rule of the peek's `modifier` helper, which the peek defines
   * but never displays, and of the print sheet's `mod`, which it displays:
   * nothing for an unset score, otherwise the signed modifier.
   */
  function PeekModifier(v: int): (r: string)
    ensures v <= 0 <==> r == ""
  {
    if v <= 0 then ""
    else
      var m := (v - 10) / 2;
      if m >= 0 then "+" + Text.NatToString(m) else Text.IntToString(m)
  }

  /** For a set score the rule renders what the character sheet renders. */
  lemma {:induction false} PeekAgreesWithSheet(v: int)
    requires v > 0
    ensures PeekModifier(v) == CharacterUtils.FormatModifier(CharacterUtils.AbilityModifier(v))
  {
  }

  /** For an unset score the rule renders nothing where the character sheet renders "+0". */
  lemma {:induction false} UnsetScoreDiffers(v: int)
    requires v <= 0
    ensures PeekModifier(v) == ""
    ensures CharacterUtils.FormatModifier(CharacterUtils.AbilityModifier(v)) == "+0"
  {
    CharacterUtils.FormatModifierExamples();
  }

  /** `.filter(s => s.value > 0)`. */
  function Positive(xs: seq<MyCharacters.Stat>): (r: seq<MyCharacters.Stat>)
    ensures forall x :: x in r <==> x in xs && x.value > 0
  {
    if xs == [] then []
    else if xs[0].value > 0 then [xs[0]] + Positive(xs[1..])
    else Positive(xs[1..])
  }

  /** Insertion for a descending sort: before the first entry that is not larger. */
  function InsertDesc(x: MyCharacters.Stat, sorted: seq<MyCharacters.Stat>): (r: seq<MyCharacters.Stat>)
    ensures |r| == |sorted| + 1
    ensures r != [] && (r[0] == x || (sorted != [] && r[0] == sorted[0]))
    ensures sorted != [] && sorted[0].value <= x.value ==> r[0] == x
    ensures sorted != [] && sorted[0].value > x.value ==> r[0] == sorted[0]
  {
    if sorted == [] || sorted[0].value <= x.value then [x] + sorted
    else [sorted[0]] + InsertDesc(x, sorted[1..])
  }

  /** `.sort((a, b) => b.value - a.value)`, as an insertion sort. */
  function SortDesc(xs: seq<MyCharacters.Stat>): (r: seq<MyCharacters.Stat>)
    ensures |r| == |xs|
  {
    if xs == [] then [] else InsertDesc(xs[0], SortDesc(xs[1..]))
  }

  predicate Descending(xs: seq<MyCharacters.Stat>) {
    forall j, k :: 0 <= j < k < |xs| ==> xs[j].value >= xs[k].value
  }

  lemma ConsDescending(a: MyCharacters.Stat, xs: seq<MyCharacters.Stat>)
    requires Descending(xs) && (xs == [] || a.value >= xs[0].value)
    ensures Descending([a] + xs)
  {
    var ys := [a] + xs;
    forall j, k | 0 <= j < k < |ys| ensures ys[j].value >= ys[k].value {
      if j == 0 && k > 1 {
        assert xs[0].value >= xs[k - 1].value;
      }
    }
  }

  lemma {:induction false} InsertDescSorted(x: MyCharacters.Stat, sorted: seq<MyCharacters.Stat>)
    requires Descending(sorted)
    ensures Descending(InsertDesc(x, sorted))
    decreases |sorted|
  {
    if sorted == [] || sorted[0].value <= x.value {
      ConsDescending(x, sorted);
    } else {
      var rest := sorted[1..];
      assert Descending(rest) by {
        forall j, k | 0 <= j < k < |rest| ensures rest[j].value >= rest[k].value {
          assert rest[j] == sorted[j + 1] && rest[k] == sorted[k + 1];
        }
      }
      InsertDescSorted(x, rest);
      if rest != [] {
        assert sorted[0].value >= rest[0].value by { assert rest[0] == sorted[1]; }
      }
      ConsDescending(sorted[0], InsertDesc(x, rest));
    }
  }

  lemma {:induction false} InsertDescPermutes(x: MyCharacters.Stat, sorted: seq<MyCharacters.Stat>)
    ensures multiset(InsertDesc(x, sorted)) == multiset{x} + multiset(sorted)
    decreases |sorted|
  {
    if sorted != [] && sorted[0].value > x.value {
      InsertDescPermutes(x, sorted[1..]);
      assert sorted == [sorted[0]] + sorted[1..];
    }
  }

  /** The sort returns the same entries, highest value first. */
  lemma {:induction false} SortDescSorted(xs: seq<MyCharacters.Stat>)
    ensures Descending(SortDesc(xs))
    ensures multiset(SortDesc(xs)) == multiset(xs)
    decreases |xs|
  {
    if xs != [] {
      SortDescSorted(xs[1..]);
      InsertDescSorted(xs[0], SortDesc(xs[1..]));
      InsertDescPermutes(xs[0], SortDesc(xs[1..]));
      assert xs == [xs[0]] + xs[1..];
    }
  }

  /** The top score shown: the first of the sorted positive scores, if any. */
  function TopScore(s: AbilityScores): (r: Option<MyCharacters.Stat>)
    ensures r.None? <==> Positive(MyCharacters.AllStats(s)) == []
  {
    var sorted := SortDesc(Positive(MyCharacters.AllStats(s)));
    if sorted == [] then None else Some(sorted[0])
  }

  /** Entry k holds the largest value, and every entry before it is strictly smaller. */
  predicate FirstMaximum(xs: seq<MyCharacters.Stat>, k: int) {
    0 <= k < |xs|
    && (forall j :: 0 <= j < |xs| ==> xs[j].value <= xs[k].value)
    && (forall j :: 0 <= j < k ==> xs[j].value < xs[k].value)
  }

  /** A first maximum of the tail that beats the head is the first maximum of the whole. */
  lemma {:induction false} ShiftFirstMaximum(xs: seq<MyCharacters.Stat>, i: int)
    requires xs != [] && FirstMaximum(xs[1..], i) && xs[0].value < xs[1..][i].value
    ensures FirstMaximum(xs, i + 1) && xs[i + 1] == xs[1..][i]
  {
    forall j | 0 < j < |xs| ensures xs[j] == xs[1..][j - 1] {}
  }

  /**
   * The head of the descending sort of the positive entries is a
   * positive entry and the first maximum of the whole list.
   */
  lemma {:induction false} TopOfPositive(xs: seq<MyCharacters.Stat>)
    requires Positive(xs) != []
    ensures exists k :: FirstMaximum(xs, k) && xs[k] == SortDesc(Positive(xs))[0] && xs[k].value > 0
  {
    if Positive(xs[1..]) != [] {
      TopOfPositive(xs[1..]);
    }
    if xs[0].value > 0 {
      TopWithPositiveHead(xs);
    } else {
      TopWithUnsetHead(xs);
    }
  }

  /** The tail's top, when it has one, as the recursive step gives it. */
  ghost predicate TailTop(xs: seq<MyCharacters.Stat>)
    requires xs != []
  {
    Positive(xs[1..]) != [] ==>
      exists i :: FirstMaximum(xs[1..], i) && xs[1..][i] == SortDesc(Positive(xs[1..]))[0] && xs[1..][i].value > 0
  }

  lemma {:induction false} TopWithPositiveHead(xs: seq<MyCharacters.Stat>)
    requires xs != [] && xs[0].value > 0 && TailTop(xs)
    ensures exists k :: FirstMaximum(xs, k) && xs[k] == SortDesc(Positive(xs))[0] && xs[k].value > 0
  {
    var rest := xs[1..];
    var top := SortDesc(Positive(xs))[0];
    var p := Positive(xs);
    assert p[0] == xs[0] && p[1..] == Positive(rest);
    if Positive(rest) == [] {
      assert top == xs[0];
      forall j | 0 < j < |xs| ensures xs[j].value <= xs[0].value {
        assert xs[j] == rest[j - 1];
        assert rest[j - 1] in rest;
      }
      assert FirstMaximum(xs, 0);
    } else {
      var i :| FirstMaximum(rest, i) && rest[i] == SortDesc(Positive(rest))[0] && rest[i].value > 0;
      if rest[i].value <= xs[0].value {
        assert top == xs[0];
        forall j | 0 < j < |xs| ensures xs[j].value <= xs[0].value {
          assert xs[j] == rest[j - 1];
        }
        assert FirstMaximum(xs, 0);
      } else {
        assert top == rest[i];
        ShiftFirstMaximum(xs, i);
      }
    }
  }

  lemma {:induction false} TopWithUnsetHead(xs: seq<MyCharacters.Stat>)
    requires xs != [] && xs[0].value <= 0 && Positive(xs) != [] && TailTop(xs)
    ensures exists k :: FirstMaximum(xs, k) && xs[k] == SortDesc(Positive(xs))[0] && xs[k].value > 0
  {
    var rest := xs[1..];
    assert Positive(xs) == Positive(rest);
    var i :| FirstMaximum(rest, i) && rest[i] == SortDesc(Positive(rest))[0] && rest[i].value > 0;
    ShiftFirstMaximum(xs, i);
  }


  /**
   * The peek shows the highest positive score, the earliest in STR..CHA
   * order on ties, and nothing when every score is 0 or less.
   */
  lemma {:induction false} TopScoreIsFirstMaximum(s: AbilityScores)
    ensures var all := MyCharacters.AllStats(s);
      && (TopScore(s).None? <==> forall j :: 0 <= j < 6 ==> all[j].value <= 0)
      && (TopScore(s).Some? ==>
            TopScore(s).value.value > 0
            && exists k :: FirstMaximum(all, k) && all[k] == TopScore(s).value)
  {
    var all := MyCharacters.AllStats(s);
    if Positive(all) == [] {
      forall j | 0 <= j < 6 ensures all[j].value <= 0 {
        assert all[j] in all;
      }
    } else {
      TopOfPositive(all);
      var k :| FirstMaximum(all, k) && all[k] == SortDesc(Positive(all))[0] && all[k].value > 0;
      assert TopScore(s).value == all[k];
    }
  }

  // ---------------------------------------------------------------------
  // Saving

  /** A message as saved: id, role and content. */
  function StoredOf(m: ChatMessage): CharactersRoute.StoredMessage {
    CharactersRoute.StoredMessage(m.id, m.role, m.content)
  }

  function StoredAll(ms: seq<ChatMessage>): (r: seq<CharactersRoute.StoredMessage>)
    ensures |r| == |ms|
    ensures forall i :: 0 <= i < |ms| ==> r[i] == StoredOf(ms[i])
  {
    seq(|ms|, i requires 0 <= i < |ms| => StoredOf(ms[i]))
  }

  /** PUT once the character has an id, POST before. */
  function SaveMethod(savedId: Option<string>): (m: string)
    ensures m == "PUT" <==> savedId.Some? && savedId.value != ""
    ensures m == "PUT" || m == "POST"
  {
    if savedId.Some? && savedId.value != "" then "PUT" else "POST"
  }

  /** The save payload: the id only once there is one, the thirteen fields, and the chat without updates. */
  function SavePayload(savedId: Option<string>, c: Character, messages: seq<ChatMessage>): (b: CharactersRoute.CharacterBody)
    ensures b.id.Some? <==> SaveMethod(savedId) == "PUT"
    ensures b.id.Some? ==> b.id == savedId
    ensures b.chatHistory == Some(StoredAll(messages))
  {
    CharactersRoute.CharacterBody(
      if savedId.Some? && savedId.value != "" then savedId else None,
      Some(c.name), Some(c.race), Some(c.charClass), Some(c.level), Some(c.abilityScores),
      Some(c.hitPoints), Some(c.proficiencies), Some(c.equipment), Some(c.background),
      Some(c.backstory), Some(c.appearance), Some(c.edition), Some(StoredAll(messages)),
      Some(c.portraitUrl))
  }

  /** The save state of the wizard layout. */
  class SaveState {
    var savedId: Option<string>
    var saving: bool
    var saveModalOpen: bool
    var toast: Option<string>

    constructor (characterId: Option<string>)
      ensures savedId == characterId && !saving && !saveModalOpen && toast.None?
    {
      savedId := characterId;
      saving := false;
      saveModalOpen := false;
      toast := None;
    }

    /** `handleSave`: the request sent, and the new id taken only from an OK, readable answer. */
    method HandleSave(c: Character, messages: seq<ChatMessage>, reply: SaveReply)
      returns (verb: string, body: CharactersRoute.CharacterBody)
      modifies this
      ensures verb == SaveMethod(old(savedId)) && body == SavePayload(old(savedId), c, messages)
      ensures !saving
      ensures var accepted := reply.SaveAnswered? && reply.ok && reply.body.Saved?;
        && savedId == (if accepted then reply.body.id else old(savedId))
        && saveModalOpen == (if accepted then false else old(saveModalOpen))
        && toast == (if accepted then Some("Character saved") else old(toast))
    {
      saving := true;
      body := SavePayload(savedId, c, messages);
      verb := SaveMethod(savedId);
      if reply.SaveAnswered? && reply.ok && reply.body.Saved? {
        savedId := reply.body.id;
        saveModalOpen := false;
        toast := Some("Character saved");
      }
      saving := false;
    }

    /** `handleSaveClick`: save at once when signed in, otherwise open the sign-in modal. */
    method HandleSaveClick(signedIn: bool, c: Character, messages: seq<ChatMessage>, reply: SaveReply)
      returns (verb: Option<string>, sent: Option<CharactersRoute.CharacterBody>)
      modifies this
      ensures sent.Some? <==> signedIn
      ensures verb.Some? <==> signedIn
      ensures verb.Some? ==> verb.value == SaveMethod(old(savedId))
      ensures sent.Some? ==> sent.value == SavePayload(old(savedId), c, messages)
      ensures signedIn ==>
                var accepted := reply.SaveAnswered? && reply.ok && reply.body.Saved?;
                && !saving
                && savedId == (if accepted then reply.body.id else old(savedId))
                && saveModalOpen == (if accepted then false else old(saveModalOpen))
                && toast == (if accepted then Some("Character saved") else old(toast))
      ensures !signedIn ==> saveModalOpen && savedId == old(savedId) && toast == old(toast) && saving == old(saving)
    {
      if signedIn {
        var v, body := HandleSave(c, messages, reply);
        verb, sent := Some(v), Some(body);
      } else {
        saveModalOpen := true;
        verb, sent := None, None;
      }
    }
  }

  /**
   * After a portrait is generated, a character that already has an id is
   * saved again with the new URL.
   */
  function PortraitAutoSave(savedId: Option<string>, c: Character, url: string, messages: seq<ChatMessage>)
    : (r: Option<CharactersRoute.CharacterBody>)
    ensures r.Some? <==> savedId.Some? && savedId.value != ""
    ensures r.Some? ==> r.value.id == savedId && r.value.portraitUrl == Some(url)
    ensures r.Some? ==> r.value.name == Some(c.name) && r.value.chatHistory == Some(StoredAll(messages))
  {
    if savedId.Some? && savedId.value != "" then Some(SavePayload(savedId, c.(portraitUrl := url), messages))
    else None
  }

  /** The automatic save stores the new portrait's URL in the row. */
  lemma {:induction false} PortraitAutoSaveStoresUrl(prev: CharactersRoute.Row, savedId: string, c: Character, url: string,
                                  messages: seq<ChatMessage>, now: int)
    requires savedId != "" && url != ""
    ensures var body := PortraitAutoSave(Some(savedId), c, url, messages).value;
      CharactersRoute.UpdateRow(prev, body, now).portraitUrl == Some(url)
  {
  }

  // ---------------------------------------------------------------------
  // A save read back

  /** What a saved character looks like when it is read back. */
  function Normalized(c: Character): (n: Character)
    ensures n.level != 0 && n.edition != ""
  {
    Character(c.name, c.race, c.charClass, if c.level != 0 then c.level else 1, c.abilityScores,
      c.hitPoints, c.proficiencies, c.equipment, c.background, c.backstory, c.appearance,
      if c.edition != "" then c.edition else "5e", c.portraitUrl,
      None, None, None, None, None, None, Missing, None)
  }

  /** A character with a level and an edition, and none of the undeclared fields, reads back unchanged. */
  lemma {:induction false} NormalizedIdentity(c: Character)
    requires c.level != 0 && c.edition != ""
    requires c.savingThrowProficiencies.None? && c.skillProficiencies.None? && c.languages.None?
    requires c.features.None? && c.attacks.None? && c.deathSaves.None? && c.spellcasting.Missing?
    requires c.currency.None?
    ensures Normalized(c) == c
  {
  }

  /** A chat message read back has lost its character updates and nothing else. */
  lemma {:induction false} ChatReadBack(messages: seq<ChatMessage>)
    ensures MyCharacters.RestoredAll(StoredAll(messages))
            == seq(|messages|, i requires 0 <= i < |messages| => messages[i].(characterUpdates := None))
  {
  }

  /**
   * A first save round-trips: the row the API inserts for the payload reads
   * back as the character (level 0 becomes 1, a blank edition "5e") with
   * the chat minus its updates.
   */
  lemma {:induction false} FirstSaveReadsBack(c: Character, messages: seq<ChatMessage>, id: string, userId: string, now: int)
    ensures var row := CharactersRoute.InsertRow(id, userId, SavePayload(None, c, messages), now);
      var back := MyCharacters.DbToCharacter(MyCharacters.JsonOf(row));
      && back.id == id && back.updatedAt == now
      && back.character == Normalized(c)
      && back.chatHistory == MyCharacters.RestoredAll(StoredAll(messages))
  {
  }

  /**
   * A later save overwrites every column: whatever the row held, it reads
   * back as the saved character.
   */
  lemma {:induction false} UpdateReadsBack(prev: CharactersRoute.Row, c: Character, messages: seq<ChatMessage>, savedId: string, now: int)
    requires savedId != ""
    ensures var row := CharactersRoute.UpdateRow(prev, SavePayload(Some(savedId), c, messages), now);
      var back := MyCharacters.DbToCharacter(MyCharacters.JsonOf(row));
      && back.character == Normalized(c)
      && back.chatHistory == MyCharacters.RestoredAll(StoredAll(messages))
  {
  }
}
