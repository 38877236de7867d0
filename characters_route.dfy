/**
 * The saved-characters API of app/src/app/api/characters/route.ts: the
 * `characters` table as a map from row id to row, and the four handlers.
 *
 * The signed-in user is an input (None when signed out).  The database is
 * the map; what it does on its own is an input too: the id and the
 * `updated_at` it gives a new row, the current time an update stamps, and
 * a failure it reports instead of answering (its message).
 */
module CharactersRoute {
  import opened Wrappers
  import opened CharacterTypes

  /** A chat message as saved: id, role and content only. */
  datatype StoredMessage = StoredMessage(id: string, role: Role, content: string)

  /** A row of the table; `portrait_url` is the only nullable column. */
  datatype Row = Row(
    id: string,
    userId: string,
    name: string,
    race: string,
    charClass: string,
    level: int,
    abilityScores: AbilityScores,
    hitPoints: int,
    proficiencies: seq<string>,
    equipment: seq<string>,
    background: string,
    backstory: string,
    appearance: string,
    edition: string,
    chatHistory: seq<StoredMessage>,
    portraitUrl: Option<string>,
    updatedAt: int)

  /** A request body: every key may be missing (or null), which is None. */
  datatype CharacterBody = CharacterBody(
    id: Option<string>,
    name: Option<string>,
    race: Option<string>,
    charClass: Option<string>,
    level: Option<int>,
    abilityScores: Option<AbilityScores>,
    hitPoints: Option<int>,
    proficiencies: Option<seq<string>>,
    equipment: Option<seq<string>>,
    background: Option<string>,
    backstory: Option<string>,
    appearance: Option<string>,
    edition: Option<string>,
    chatHistory: Option<seq<StoredMessage>>,
    portraitUrl: Option<string>)

  const EmptyBody := CharacterBody(
    None, None, None, None, None, None, None, None, None, None, None, None, None, None, None)

  datatype Response =
    | ApiError(status: int, message: string)
    | RowList(rows: seq<Row>)
    | OneRow(row: Row)
    | Deleted

  const NotAuthenticated := ApiError(401, "Not authenticated")
  const IdRequired := ApiError(400, "Character ID required")

  // ---------------------------------------------------------------------
  // Falsy values and their replacements

  /** `s || fallback` for a string that may be missing. */
  function StringOr(s: Option<string>, fallback: string): (r: string)
    ensures s.Some? && s.value != "" ==> r == s.value
    ensures (s.None? || s.value == "") ==> r == fallback
  {
    if s.Some? && s.value != "" then s.value else fallback
  }

  /** `n || fallback` for a number that may be missing. */
  function NumberOr(n: Option<int>, fallback: int): (r: int)
    ensures n.Some? && n.value != 0 ==> r == n.value
    ensures (n.None? || n.value == 0) ==> r == fallback
  {
    if n.Some? && n.value != 0 then n.value else fallback
  }

  /** `url || null`. */
  function UrlOrNull(url: Option<string>): (r: Option<string>)
    ensures r.Some? <==> url.Some? && url.value != ""
    ensures r.Some? ==> r == url
  {
    if url.Some? && url.value != "" then url else None
  }

  /** The row POST inserts: falsy or missing fields take their defaults. */
  function InsertRow(id: string, userId: string, body: CharacterBody, now: int): (row: Row)
    ensures row.id == id && row.userId == userId && row.updatedAt == now
    ensures row.level != 0 && row.edition != ""
    ensures row.portraitUrl.Some? ==> row.portraitUrl.value != ""
  {
    Row(id, userId,
      StringOr(body.name, ""), StringOr(body.race, ""), StringOr(body.charClass, ""),
      NumberOr(body.level, 1),
      body.abilityScores.GetOr(NoScores),
      NumberOr(body.hitPoints, 0),
      body.proficiencies.GetOr([]), body.equipment.GetOr([]),
      StringOr(body.background, ""), StringOr(body.backstory, ""), StringOr(body.appearance, ""),
      StringOr(body.edition, "5e"),
      body.chatHistory.GetOr([]),
      UrlOrNull(body.portraitUrl),
      now)
  }

  /**
   * An empty body inserts the default character: the defaults agree with
   * DEFAULT_CHARACTER, except that the portrait column is null rather than "".
   */
  lemma {:induction false} InsertDefaultsAreDefaultCharacter(id: string, userId: string, now: int)
    ensures var row := InsertRow(id, userId, EmptyBody, now);
      && row.name == DefaultCharacter.name && row.race == DefaultCharacter.race
      && row.charClass == DefaultCharacter.charClass && row.level == DefaultCharacter.level
      && row.abilityScores == DefaultCharacter.abilityScores && row.hitPoints == DefaultCharacter.hitPoints
      && row.proficiencies == DefaultCharacter.proficiencies && row.equipment == DefaultCharacter.equipment
      && row.background == DefaultCharacter.background && row.backstory == DefaultCharacter.backstory
      && row.appearance == DefaultCharacter.appearance && row.edition == DefaultCharacter.edition
      && row.chatHistory == [] && row.portraitUrl == None && DefaultCharacter.portraitUrl == ""
  {
  }

  /** The row PUT writes: present fields replace columns, the others stay; the stamp is the current time. */
  function UpdateRow(prev: Row, body: CharacterBody, now: int): (row: Row)
    ensures row.id == prev.id && row.userId == prev.userId && row.updatedAt == now
    ensures row.name == body.name.GetOr(prev.name) && row.level == body.level.GetOr(prev.level)
    ensures row.race == body.race.GetOr(prev.race) && row.charClass == body.charClass.GetOr(prev.charClass)
    ensures row.abilityScores == body.abilityScores.GetOr(prev.abilityScores)
    ensures row.hitPoints == body.hitPoints.GetOr(prev.hitPoints)
    ensures row.proficiencies == body.proficiencies.GetOr(prev.proficiencies)
    ensures row.equipment == body.equipment.GetOr(prev.equipment)
    ensures row.background == body.background.GetOr(prev.background)
    ensures row.backstory == body.backstory.GetOr(prev.backstory)
    ensures row.appearance == body.appearance.GetOr(prev.appearance)
    ensures row.edition == body.edition.GetOr(prev.edition)
    ensures row.chatHistory == body.chatHistory.GetOr([]) && row.portraitUrl == UrlOrNull(body.portraitUrl)
  {
    Row(prev.id, prev.userId,
      body.name.GetOr(prev.name), body.race.GetOr(prev.race), body.charClass.GetOr(prev.charClass),
      body.level.GetOr(prev.level),
      body.abilityScores.GetOr(prev.abilityScores),
      body.hitPoints.GetOr(prev.hitPoints),
      body.proficiencies.GetOr(prev.proficiencies), body.equipment.GetOr(prev.equipment),
      body.background.GetOr(prev.background), body.backstory.GetOr(prev.backstory),
      body.appearance.GetOr(prev.appearance),
      body.edition.GetOr(prev.edition),
      body.chatHistory.GetOr([]),
      UrlOrNull(body.portraitUrl),
      now)
  }

  /** An update that leaves out the chat history or the portrait clears them. */
  lemma {:induction false} UpdateClearsHistoryAndPortrait(prev: Row, body: CharacterBody, now: int)
    requires body.chatHistory.None? && body.portraitUrl.None?
    ensures UpdateRow(prev, body, now).chatHistory == [] && UpdateRow(prev, body, now).portraitUrl == None
  {
  }

  // ---------------------------------------------------------------------
  // Listing order

  predicate NewestFirst(rows: seq<Row>) {
    forall i, j :: 0 <= i < j < |rows| ==> rows[i].updatedAt >= rows[j].updatedAt
  }

  /** Insert one row into a newest-first list. */
  function InsertByRecency(r: Row, sorted: seq<Row>): (out: seq<Row>)
    requires NewestFirst(sorted)
    ensures NewestFirst(out)
    ensures |out| == |sorted| + 1
    ensures forall x :: x in out <==> x in sorted || x == r
  {
    if sorted == [] then [r]
    else if r.updatedAt >= sorted[0].updatedAt then [r] + sorted
    else
      var rest := InsertByRecency(r, sorted[1..]);
      assert forall x :: x in sorted <==> x == sorted[0] || x in sorted[1..] by {
        assert sorted == [sorted[0]] + sorted[1..];
      }
      forall j | 0 <= j < |rest| ensures rest[j].updatedAt <= sorted[0].updatedAt {
        if rest[j] != r {
          assert rest[j] in sorted[1..];
          var m :| 0 <= m < |sorted[1..]| && sorted[1..][m] == rest[j];
          assert sorted[m + 1] == rest[j];
        }
      }
      assert forall j :: 0 < j < |rest| + 1 ==> ([sorted[0]] + rest)[j] == rest[j - 1];
      [sorted[0]] + rest
  }

  /** The ids of the rows the user owns, among the given ids. */
  function OwnedAmong(rows: map<string, Row>, userId: string, ids: set<string>): set<string> {
    set k | k in ids && k in rows && rows[k].userId == userId
  }

  /** Moving one id out of the pending set adds it to the owned ids seen exactly when the caller owns it. */
  lemma {:induction false} OwnedStep(rows: map<string, Row>, userId: string, pending: set<string>, k: string)
    requires k in pending && pending <= rows.Keys
    ensures var before := OwnedAmong(rows, userId, rows.Keys - pending);
            var after := OwnedAmong(rows, userId, rows.Keys - (pending - {k}));
            k !in before
            && (rows[k].userId == userId ==> after == before + {k} && |after| == |before| + 1)
            && (rows[k].userId != userId ==> after == before)
  {
    var before := OwnedAmong(rows, userId, rows.Keys - pending);
    var after := OwnedAmong(rows, userId, rows.Keys - (pending - {k}));
    if rows[k].userId == userId {
      assert after == before + {k};
    } else {
      assert after == before;
    }
  }

  // ---------------------------------------------------------------------
  // The table

  class CharacterStore {
    var rows: map<string, Row>

    /** Each row is filed under its own id. */
    predicate Valid()
      reads this
    {
      forall k :: k in rows ==> rows[k].id == k
    }

    ghost function OwnedIds(userId: string): set<string>
      reads this
    {
      OwnedAmong(rows, userId, rows.Keys)
    }

    constructor ()
      ensures rows == map[] && Valid()
    {
      rows := map[];
    }

    /**
     * GET: each of the caller's rows exactly once, newest first, and no
     * other row.
     */
    method List(user: Option<string>, failure: Option<string>) returns (resp: Response)
      requires Valid()
      ensures user.None? ==> resp == NotAuthenticated
      ensures user.Some? && failure.Some? ==> resp == ApiError(500, failure.value)
      ensures user.Some? && failure.None? ==> resp.RowList?
      ensures resp.RowList? ==>
                && NewestFirst(resp.rows)
                && |resp.rows| == |OwnedIds(user.value)|
                && (forall i :: 0 <= i < |resp.rows| ==>
                      resp.rows[i].id in rows && rows[resp.rows[i].id] == resp.rows[i]
                      && resp.rows[i].userId == user.value)
                && (forall k :: k in OwnedIds(user.value) ==> rows[k] in resp.rows)
    {
      if user.None? {
        return NotAuthenticated;
      }
      if failure.Some? {
        return ApiError(500, failure.value);
      }
      var uid := user.value;
      var pending := rows.Keys;
      var out: seq<Row> := [];
      while pending != {}
        invariant pending <= rows.Keys
        invariant NewestFirst(out)
        invariant |out| == |OwnedAmong(rows, uid, rows.Keys - pending)|
        invariant forall x :: x in out ==> x.id in rows && rows[x.id] == x && x.userId == uid
        invariant forall k :: k in OwnedAmong(rows, uid, rows.Keys - pending) ==> rows[k] in out
        decreases |pending|
      {
        var k :| k in pending;
        OwnedStep(rows, uid, pending, k);
        if rows[k].userId == uid {
          out := InsertByRecency(rows[k], out);
        }
        pending := pending - {k};
      }
      assert rows.Keys - pending == rows.Keys;
      assert forall i :: 0 <= i < |out| ==> out[i] in out;
      return RowList(out);
    }

    /** POST: insert the defaulted row under the id the database gives it. */
    method Create(user: Option<string>, body: CharacterBody, newId: string, now: int, failure: Option<string>)
      returns (resp: Response)
      requires Valid() && newId !in rows
      modifies this
      ensures Valid()
      ensures user.None? ==> resp == NotAuthenticated && rows == old(rows)
      ensures user.Some? && failure.Some? ==> resp == ApiError(500, failure.value) && rows == old(rows)
      ensures user.Some? && failure.None? ==>
                var row := InsertRow(newId, user.value, body, now);
                resp == OneRow(row) && rows == old(rows)[newId := row]
    {
      if user.None? {
        return NotAuthenticated;
      }
      if failure.Some? {
        return ApiError(500, failure.value);
      }
      var row := InsertRow(newId, user.value, body, now);
      rows := rows[newId := row];
      return OneRow(row);
    }

    /**
     * PUT: update the caller's row with the body's id.  When there is no
     * such row the database answers an error (`noRow`) and nothing changes.
     */
    method Update(user: Option<string>, body: CharacterBody, now: int, failure: Option<string>, noRow: string)
      returns (resp: Response)
      requires Valid()
      modifies this
      ensures Valid()
      ensures user.None? ==> resp == NotAuthenticated
      ensures user.Some? && (body.id.None? || body.id.value == "") ==> resp == IdRequired
      ensures resp.ApiError? ==> rows == old(rows)
      ensures resp.OneRow? ==>
                && user.Some? && failure.None? && body.id.Some?
                && body.id.value in old(rows) && old(rows)[body.id.value].userId == user.value
                && resp.row == UpdateRow(old(rows)[body.id.value], body, now)
                && rows == old(rows)[body.id.value := resp.row]
      ensures user.Some? && body.id.Some? && body.id.value != "" && failure.None? ==>
                (resp.OneRow? <==> body.id.value in old(rows) && old(rows)[body.id.value].userId == user.value)
      ensures !resp.OneRow? ==> resp.ApiError?
    {
      if user.None? {
        return NotAuthenticated;
      }
      if body.id.None? || body.id.value == "" {
        return IdRequired;
      }
      if failure.Some? {
        return ApiError(500, failure.value);
      }
      var id := body.id.value;
      if id !in rows || rows[id].userId != user.value {
        return ApiError(500, noRow);
      }
      var row := UpdateRow(rows[id], body, now);
      rows := rows[id := row];
      return OneRow(row);
    }

    /** DELETE: remove the caller's row with that id, if there is one. */
    method Delete(user: Option<string>, id: Option<string>, failure: Option<string>) returns (resp: Response)
      requires Valid()
      modifies this
      ensures Valid()
      ensures user.None? ==> resp == NotAuthenticated && rows == old(rows)
      ensures user.Some? && (id.None? || id.value == "") ==> resp == IdRequired && rows == old(rows)
      ensures user.Some? && id.Some? && id.value != "" && failure.Some? ==>
                resp == ApiError(500, failure.value) && rows == old(rows)
      ensures user.Some? && id.Some? && id.value != "" && failure.None? ==>
                && resp == Deleted
                && rows == if id.value in old(rows) && old(rows)[id.value].userId == user.value
                           then old(rows) - {id.value} else old(rows)
    {
      if user.None? {
        return NotAuthenticated;
      }
      if id.None? || id.value == "" {
        return IdRequired;
      }
      if failure.Some? {
        return ApiError(500, failure.value);
      }
      if id.value in rows && rows[id.value].userId == user.value {
        rows := rows - {id.value};
      }
      return Deleted;
    }
  }
}
