/**
 * The client side of a chat turn, app/src/lib/use-chat.ts.
 *
 * `sendMessage` appends the user's message and an empty assistant message,
 * posts the history, and reads the reply body chunk by chunk.  The text read
 * so far is split on blank lines ("\n\n"); the last piece is kept for the
 * next chunk and each complete frame that starts with "data: " is decoded and
 * applied to the assistant message, found by id.
 *
 * `crypto.randomUUID` is the pair of ids passed in; `fetch` and the reader
 * are a `Transport` value; the bytes are taken as already decoded text;
 * `JSON.parse` of a frame payload is the parameter `decode`, which yields
 * `None` where the parse throws.
 */
module UseChat {
  import opened Wrappers
  import opened CharacterTypes
  import opened Text
  import opened ChatRoute

  const Separator := "\n\n"
  const DataPrefix := "data: "
  const CrystalBallApology := "Apologies, adventurer \U{2014} my crystal ball has gone dark for a moment. Please try again."
  const GenericApology := "Apologies, adventurer \U{2014} something went wrong. Please try again."

  // -----------------------------------------------------------------------
  // `buffer.split("\n\n")`

  function Cons(c: char, pieces: seq<string>): (r: seq<string>)
    requires |pieces| >= 1
    ensures |r| == |pieces|
  {
    [[c] + pieces[0]] + pieces[1..]
  }

  /** The pieces between the occurrences of "\n\n", found left to right. */
  function Split(s: string): (r: seq<string>)
    ensures |r| >= 1
    decreases |s|
  {
    if |s| < 2 then [s]
    else if s[..2] == Separator then [""] + Split(s[2..])
    else Cons(s[0], Split(s[1..]))
  }

  function AllButLast<T>(s: seq<T>): seq<T>
    requires |s| >= 1
  {
    s[..|s| - 1]
  }

  function Last<T>(s: seq<T>): T
    requires |s| >= 1
  {
    s[|s| - 1]
  }

  /** All the text read from a sequence of chunks. */
  function Concat(chunks: seq<string>): string {
    if chunks == [] then "" else chunks[0] + Concat(chunks[1..])
  }

  lemma {:induction false} ConcatConcat(a: seq<string>, b: seq<string>)
    ensures Concat(a + b) == Concat(a) + Concat(b)
  {
    if a == [] {
      assert a + b == b;
    } else {
      assert (a + b)[1..] == a[1..] + b;
      ConcatConcat(a[1..], b);
    }
  }

  lemma {:induction false} JoinCons(c: char, pieces: seq<string>)
    requires |pieces| >= 1
    ensures Join(Cons(c, pieces), Separator) == [c] + Join(pieces, Separator)
  {
    var first, rest := pieces[0], pieces[1..];
    assert pieces == [first] + rest;
    assert Cons(c, pieces) == [[c] + first] + rest;
    if rest != [] {
      JoinMany([c] + first, rest);
      JoinMany(first, rest);
      Associate([c], first, Separator + Join(rest, Separator));
    }
  }

  lemma {:induction false} Associate(a: string, b: string, d: string)
    ensures (a + b) + d == a + (b + d)
  {
  }

  lemma {:induction false} JoinMany(first: string, rest: seq<string>)
    requires rest != []
    ensures Join([first] + rest, Separator) == first + (Separator + Join(rest, Separator))
  {
    assert ([first] + rest)[1..] == rest;
  }

  /** Joining the pieces with "\n\n" gives back the text. */
  lemma {:induction false} JoinSplit(s: string)
    ensures Join(Split(s), Separator) == s
    decreases |s|
  {
    if |s| < 2 {
    } else if s[..2] == Separator {
      JoinSplit(s[2..]);
      assert s == Separator + s[2..];
    } else {
      JoinSplit(s[1..]);
      JoinCons(s[0], Split(s[1..]));
      assert s == [s[0]] + s[1..];
    }
  }

  lemma {:induction false} SplitSingle(s: string)
    requires |Split(s)| == 1
    ensures Split(s) == [s]
  {
    JoinSplit(s);
  }

  /**
   * Splitting more text changes nothing before the last piece: the complete
   * pieces of `s` stay complete, and the rest is the split of the last piece
   * followed by `t`.
   */
  lemma {:induction false} SplitAppend(s: string, t: string)
    ensures Split(s + t) == AllButLast(Split(s)) + Split(Last(Split(s)) + t)
    decreases |s|
  {
    if |s| < 2 {
      assert AllButLast(Split(s)) == [];
    } else if s[..2] == Separator {
      SplitAppend(s[2..], t);
      SplitAppendSeparator(s, t);
    } else {
      SplitAppend(s[1..], t);
      SplitAppendChar(s, t);
    }
  }

  lemma {:induction false} SplitAppendSeparator(s: string, t: string)
    requires |s| >= 2 && s[..2] == Separator
    requires Split(s[2..] + t) == AllButLast(Split(s[2..])) + Split(Last(Split(s[2..])) + t)
    ensures Split(s + t) == AllButLast(Split(s)) + Split(Last(Split(s)) + t)
  {
    var u := s[2..];
    assert s == Separator + u;
    assert s + t == Separator + (u + t);
    SplitAfterSeparator(u + t);
    SplitAfterSeparator(u);
    assert Split(s + t) == [""] + Split(u + t);
    assert Split(s) == [""] + Split(u);
    PiecesCons("", Split(u));
    var front, rest := AllButLast(Split(u)), Split(Last(Split(u)) + t);
    assert [""] + (front + rest) == ([""] + front) + rest;
  }

  lemma {:induction false} SplitAppendChar(s: string, t: string)
    requires |s| >= 2 && s[..2] != Separator
    requires Split(s[1..] + t) == AllButLast(Split(s[1..])) + Split(Last(Split(s[1..])) + t)
    ensures Split(s + t) == AllButLast(Split(s)) + Split(Last(Split(s)) + t)
  {
    var c, u := s[0], s[1..];
    assert s == [c] + u;
    SplitAfterChar(c, u);
    var p := Split(u);
    if |p| == 1 {
      SplitSingle(u);
      assert Split(s) == [s];
    } else {
      assert s + t == [c] + (u + t);
      assert (u + t)[0] == u[0];
      SplitAfterChar(c, u + t);
      ConsPieces(c, AllButLast(p), Split(Last(p) + t));
      ConsLast(c, p);
    }
  }

  lemma {:induction false} ConsLast(c: char, p: seq<string>)
    requires |p| >= 2
    ensures AllButLast(Cons(c, p)) == Cons(c, AllButLast(p)) && Last(Cons(c, p)) == Last(p)
  {
    assert AllButLast(p)[1..] == p[1..|p| - 1];
  }

  lemma {:induction false} SplitAfterSeparator(x: string)
    ensures Split(Separator + x) == [""] + Split(x)
  {
    assert (Separator + x)[..2] == Separator && (Separator + x)[2..] == x;
  }

  lemma {:induction false} SplitAfterChar(c: char, x: string)
    requires |x| >= 1 && !(c == '\n' && x[0] == '\n')
    ensures Split([c] + x) == Cons(c, Split(x))
  {
    var y := [c] + x;
    assert y[..2] != Separator by { assert y[0] == c && y[1] == x[0]; }
    assert y[1..] == x;
  }

  lemma {:induction false} PiecesCons(a: string, p: seq<string>)
    requires |p| >= 1
    ensures AllButLast([a] + p) == [a] + AllButLast(p) && Last([a] + p) == Last(p)
  {
  }

  lemma {:induction false} ConsPieces(c: char, a: seq<string>, b: seq<string>)
    requires |a| >= 1
    ensures Cons(c, a + b) == Cons(c, a) + b
  {
    assert (a + b)[0] == a[0] && (a + b)[1..] == a[1..] + b;
  }

  /** A frame without a line break, then "\n\n": the frame is the first piece. */
  lemma {:induction false} SplitFrame(x: string, r: string)
    requires '\n' !in x
    ensures Split(x + Separator + r) == [x] + Split(r)
    decreases |x|
  {
    if x == [] {
      assert x + Separator + r == Separator + r;
      assert (Separator + r)[2..] == r;
    } else {
      var s := x + Separator + r;
      assert s[0] == x[0] && s[1] == (if |x| > 1 then x[1] else '\n');
      assert s[1..] == x[1..] + Separator + r;
      SplitFrame(x[1..], r);
      assert [x[0]] + x[1..] == x;
    }
  }

  lemma {:induction false} ConcatSnoc(chunks: seq<string>, i: nat)
    requires i < |chunks|
    ensures Concat(chunks[..i + 1]) == Concat(chunks[..i]) + chunks[i]
  {
    assert chunks[..i + 1] == chunks[..i] + [chunks[i]];
    ConcatConcat(chunks[..i], [chunks[i]]);
  }

  /**
   * Reading chunk i onto the kept buffer: what splitting the buffer yields
   * is the next run of complete frames, then the new buffer.
   */
  lemma {:induction false} ChunkStep(chunks: seq<string>, i: nat)
    requires i < |chunks|
    ensures var all := Split(Last(Split(Concat(chunks[..i]))) + chunks[i]);
      |all| >= 1 && Last(all) == Last(Split(Concat(chunks[..i + 1])))
      && CompleteFrames(chunks[..i + 1]) == CompleteFrames(chunks[..i]) + all[..|all| - 1]
  {
    var a := Concat(chunks[..i]);
    var all := Split(Last(Split(a)) + chunks[i]);
    ConcatSnoc(chunks, i);
    SplitAppend(a, chunks[i]);
    var whole := AllButLast(Split(a)) + all;
    assert Split(Concat(chunks[..i + 1])) == whole;
    assert AllButLast(whole) == AllButLast(Split(a)) + all[..|all| - 1];
    assert Last(whole) == Last(all);
  }

  /** The frames complete once all chunks are read; the last piece is never processed. */
  function CompleteFrames(chunks: seq<string>): seq<string> {
    AllButLast(Split(Concat(chunks)))
  }

  /**
   * What the reader has seen is exactly the complete frames, each followed
   * by "\n\n", then the kept buffer.
   */
  lemma {:induction false} Reassembly(chunks: seq<string>)
    ensures Join(CompleteFrames(chunks) + [Last(Split(Concat(chunks)))], Separator) == Concat(chunks)
  {
    var p := Split(Concat(chunks));
    assert CompleteFrames(chunks) + [Last(p)] == p;
    JoinSplit(Concat(chunks));
  }

  /** The complete frames after more chunks extend the complete frames before them. */
  lemma {:induction false} FramesGrow(chunks: seq<string>, i: nat)
    requires i <= |chunks|
    ensures exists more :: CompleteFrames(chunks) == CompleteFrames(chunks[..i]) + more
  {
    assert chunks == chunks[..i] + chunks[i..];
    ConcatConcat(chunks[..i], chunks[i..]);
    SplitAppend(Concat(chunks[..i]), Concat(chunks[i..]));
    var q := Split(Last(Split(Concat(chunks[..i]))) + Concat(chunks[i..]));
    assert CompleteFrames(chunks) == CompleteFrames(chunks[..i]) + AllButLast(q);
  }

  // -----------------------------------------------------------------------
  // Editing the assistant message

  datatype Edit = AppendText(text: string) | Attach(updates: CharacterUpdate) | Replace(content: string)

  function ApplyEdit(m: ChatMessage, e: Edit): (r: ChatMessage)
    ensures r.id == m.id && r.role == m.role
  {
    match e
    case AppendText(t) => m.(content := m.content + t)
    case Attach(u) => m.(characterUpdates := Some(u))
    case Replace(c) => m.(content := c)
  }

  /** `prev.map(m => m.id === id ? edit(m) : m)`. */
  function EditById(msgs: seq<ChatMessage>, id: string, e: Edit): (r: seq<ChatMessage>)
    ensures |r| == |msgs|
    ensures forall k :: 0 <= k < |msgs| && msgs[k].id != id ==> r[k] == msgs[k]
    ensures forall k :: 0 <= k < |msgs| && msgs[k].id == id ==> r[k] == ApplyEdit(msgs[k], e)
  {
    seq(|msgs|, k requires 0 <= k < |msgs| => if msgs[k].id == id then ApplyEdit(msgs[k], e) else msgs[k])
  }

  predicate IdAbsent(msgs: seq<ChatMessage>, id: string) {
    forall k :: 0 <= k < |msgs| ==> msgs[k].id != id
  }

  /** With the id unique and last, an edit by id touches the last message only. */
  lemma {:induction false} EditLast(pre: seq<ChatMessage>, m: ChatMessage, e: Edit)
    requires IdAbsent(pre, m.id)
    ensures EditById(pre + [m], m.id, e) == pre + [ApplyEdit(m, e)]
  {
    var r := EditById(pre + [m], m.id, e);
    forall k | 0 <= k < |pre| ensures r[k] == pre[k] { assert (pre + [m])[k] == pre[k]; }
  }

  // -----------------------------------------------------------------------
  // Processing frames

  /** The message list, the updates handed to `onCharacterUpdate`, and whether a parse threw. */
  datatype Reading = Reading(messages: seq<ChatMessage>, updates: seq<CharacterUpdate>, threw: bool)

  /** One frame. Frames without the prefix, and `done` frames, change nothing. */
  function HandleLine(r: Reading, line: string, id: string, decode: string -> Option<ChatRoute.ClientEvent>): Reading {
    if !StartsWith(line, DataPrefix) then r
    else match decode(line[|DataPrefix|..])
      case None => r.(threw := true)
      case Some(TextEvent(t)) => r.(messages := EditById(r.messages, id, AppendText(t)))
      case Some(UpdateEvent(u)) =>
        r.(messages := EditById(r.messages, id, Attach(u)), updates := r.updates + [u])
      case Some(ErrorEvent(_)) => r.(messages := EditById(r.messages, id, Replace(CrystalBallApology)))
      case Some(DoneEvent) => r
  }

  /** The frames in order, until a parse throws. */
  function HandleLines(r: Reading, lines: seq<string>, id: string, decode: string -> Option<ChatRoute.ClientEvent>): Reading
    decreases |lines|
  {
    if lines == [] || r.threw then r else HandleLines(HandleLine(r, lines[0], id, decode), lines[1..], id, decode)
  }

  lemma {:induction false} HandleLinesConcat(r: Reading, a: seq<string>, b: seq<string>, id: string,
                                             decode: string -> Option<ChatRoute.ClientEvent>)
    ensures HandleLines(r, a + b, id, decode) == HandleLines(HandleLines(r, a, id, decode), b, id, decode)
    decreases |a|
  {
    if a == [] {
      assert a + b == b;
    } else if r.threw {
      if b != [] { assert a + b != []; }
    } else {
      assert (a + b)[0] == a[0] && (a + b)[1..] == a[1..] + b;
      HandleLinesConcat(HandleLine(r, a[0], id, decode), a[1..], b, id, decode);
    }
  }

  lemma {:induction false} HandleLinesThrew(r: Reading, lines: seq<string>, id: string, decode: string -> Option<ChatRoute.ClientEvent>)
    requires r.threw
    ensures HandleLines(r, lines, id, decode) == r
  {
  }

  // -----------------------------------------------------------------------
  // One call of `sendMessage`

  datatype ErrorKind = AbortError | OtherError

  /**
   * What `fetch` and the reader deliver: a rejected fetch, or a response with
   * its status, whether it has a body, the chunks read, and an error the read
   * raises after them (`None` when it reports `done`).
   */
  datatype Transport =
    | FetchFailed(kind: ErrorKind)
    | Response(ok: bool, hasBody: bool, chunks: seq<string>, readFailure: Option<ErrorKind>)

  datatype SendResult = SendResult(
    messages: seq<ChatMessage>,
    updates: seq<CharacterUpdate>,
    request: seq<ChatRoute.ApiMessage>)

  function Send(prev: seq<ChatMessage>, content: string, userId: string, assistantId: string,
                t: Transport, decode: string -> Option<ChatRoute.ClientEvent>): SendResult
  {
    var user := ChatMessage(userId, User, content, None);
    var appended := prev + [user, ChatMessage(assistantId, Assistant, "", None)];
    var request := ChatRoute.ToApi(prev + [user]);
    var r :=
      match t
      case FetchFailed(k) => (Reading(appended, [], false), Some(k))
      case Response(ok, hasBody, chunks, readFailure) =>
        if !ok || !hasBody then (Reading(appended, [], false), Some(OtherError))
        else
          var q := HandleLines(Reading(appended, [], false), CompleteFrames(chunks), assistantId, decode);
          (q, if q.threw then Some(OtherError) else readFailure);
    var msgs := if r.1 == Some(OtherError) then EditById(r.0.messages, assistantId, Replace(GenericApology))
                else r.0.messages;
    SendResult(msgs, r.0.updates, request)
  }

  class ChatSession {
    var messages: seq<ChatMessage>
    var isLoading: bool

    /** `useState(initialMessages || [])`, `useState(false)`. */
    constructor(initialMessages: Option<seq<ChatMessage>>)
      ensures messages == initialMessages.GetOr([]) && !isLoading
    {
      messages := initialMessages.GetOr([]);
      isLoading := false;
    }

    /** The `for (const line of lines)` loop over the complete frames of one chunk. */
    method HandleFrames(lines: seq<string>, id: string, decode: string -> Option<ChatRoute.ClientEvent>,
                        updates0: seq<CharacterUpdate>, threw0: bool)
      returns (updates: seq<CharacterUpdate>, threw: bool)
      modifies this
      ensures Reading(messages, updates, threw) == HandleLines(Reading(old(messages), updates0, threw0), lines, id, decode)
      ensures isLoading == old(isLoading)
    {
      ghost var before := Reading(messages, updates0, threw0);
      updates, threw := updates0, threw0;
      var j := 0;
      assert lines[j..] == lines;
      while j < |lines| && !threw
        invariant 0 <= j <= |lines|
        invariant HandleLines(Reading(messages, updates, threw), lines[j..], id, decode)
                  == HandleLines(before, lines, id, decode)
        invariant isLoading == old(isLoading)
      {
        assert lines[j..][0] == lines[j] && lines[j..][1..] == lines[j + 1..];
        var line := lines[j];
        if StartsWith(line, DataPrefix) {
          var data := decode(line[|DataPrefix|..]);
          match data {
            case None => threw := true;
            case Some(ev) =>
              match ev {
                case TextEvent(t) => messages := EditById(messages, id, AppendText(t));
                case UpdateEvent(u) =>
                  updates := updates + [u];
                  messages := EditById(messages, id, Attach(u));
                case ErrorEvent(_) => messages := EditById(messages, id, Replace(CrystalBallApology));
                case DoneEvent =>
              }
          }
        }
        j := j + 1;
      }
      if j == |lines| {
        assert lines[j..] == [];
      } else {
        HandleLinesThrew(Reading(messages, updates, threw), lines[j..], id, decode);
      }
    }

    /** The `while (true)` loop over the reader, then the frames of each chunk. */
    method ReadFrames(chunks: seq<string>, id: string, decode: string -> Option<ChatRoute.ClientEvent>)
      returns (updates: seq<CharacterUpdate>, threw: bool)
      modifies this
      ensures var r := HandleLines(Reading(old(messages), [], false), CompleteFrames(chunks), id, decode);
        messages == r.messages && updates == r.updates && threw == r.threw
      ensures isLoading == old(isLoading)
    {
      ghost var start := Reading(messages, [], false);
      var buffer := "";
      updates, threw := [], false;
      var i := 0;
      while i < |chunks| && !threw
        invariant 0 <= i <= |chunks|
        invariant buffer == Last(Split(Concat(chunks[..i])))
        invariant Reading(messages, updates, threw) == HandleLines(start, CompleteFrames(chunks[..i]), id, decode)
        invariant isLoading == old(isLoading)
      {
        ChunkStep(chunks, i);
        buffer := buffer + chunks[i];
        var lines := Split(buffer);
        buffer := lines[|lines| - 1];
        lines := lines[..|lines| - 1];
        HandleLinesConcat(start, CompleteFrames(chunks[..i]), lines, id, decode);
        updates, threw := HandleFrames(lines, id, decode, updates, threw);
        i := i + 1;
      }
      if i < |chunks| {
        FramesGrow(chunks, i);
        var more :| CompleteFrames(chunks) == CompleteFrames(chunks[..i]) + more;
        HandleLinesConcat(start, CompleteFrames(chunks[..i]), more, id, decode);
        HandleLinesThrew(Reading(messages, updates, threw), more, id, decode);
      } else {
        assert chunks[..i] == chunks;
      }
    }

    /** `sendMessage(content)` for one transport outcome. */
    method SendMessage(content: string, userId: string, assistantId: string,
                       transport: Transport, decode: string -> Option<ChatRoute.ClientEvent>)
      returns (request: seq<ChatRoute.ApiMessage>, updates: seq<CharacterUpdate>)
      modifies this
      ensures var r := Send(old(messages), content, userId, assistantId, transport, decode);
        messages == r.messages && updates == r.updates && request == r.request
      ensures !isLoading
    {
      var userMessage := ChatMessage(userId, User, content, None);
      var assistantMessage := ChatMessage(assistantId, Assistant, "", None);
      var history := messages;
      messages := messages + [userMessage, assistantMessage];
      isLoading := true;
      request := ChatRoute.ToApi(history + [userMessage]);
      updates := [];
      var failure: Option<ErrorKind> := None;
      match transport {
        case FetchFailed(k) => failure := Some(k);
        case Response(ok, hasBody, chunks, readFailure) =>
          if !ok {
            failure := Some(OtherError);
          } else if !hasBody {
            failure := Some(OtherError);
          } else {
            var threw;
            updates, threw := ReadFrames(chunks, assistantId, decode);
            if threw {
              failure := Some(OtherError);
            } else if readFailure.Some? {
              failure := readFailure;
            }
          }
      }
      if failure == Some(OtherError) {
        messages := EditById(messages, assistantId, Replace(GenericApology));
      }
      isLoading := false;
    }
  }

  // -----------------------------------------------------------------------
  // Properties of one call

  /** Any byte split of the same text gives the same outcome. */
  lemma {:induction false} ChunkingInvariance(prev: seq<ChatMessage>, content: string, userId: string, assistantId: string,
                           ok: bool, hasBody: bool, c1: seq<string>, c2: seq<string>, readFailure: Option<ErrorKind>,
                           decode: string -> Option<ClientEvent>)
    requires Concat(c1) == Concat(c2)
    ensures Send(prev, content, userId, assistantId, Response(ok, hasBody, c1, readFailure), decode)
            == Send(prev, content, userId, assistantId, Response(ok, hasBody, c2, readFailure), decode)
  {
  }

  /** The request is the earlier history and the new user message, as role and content only. */
  lemma {:induction false} RequestCarriesHistory(prev: seq<ChatMessage>, content: string, userId: string, assistantId: string,
                              t: Transport, decode: string -> Option<ClientEvent>)
    ensures var req := Send(prev, content, userId, assistantId, t, decode).request;
      && |req| == |prev| + 1
      && (forall k :: 0 <= k < |prev| ==> req[k] == PlainMessage(prev[k].role, prev[k].content))
      && req[|prev|] == PlainMessage(User, content)
  {
    var all := prev + [ChatMessage(userId, User, content, None)];
    assert forall k :: 0 <= k < |prev| ==> all[k] == prev[k];
  }

  /** Frames keep the assistant message last and leave the others alone. */
  lemma {:induction false} HandleLinesKeepsOthers(r: Reading, lines: seq<string>, pre: seq<ChatMessage>,
                                                  m: ChatMessage, decode: string -> Option<ClientEvent>)
    requires r.messages == pre + [m] && IdAbsent(pre, m.id)
    ensures exists m' :: HandleLines(r, lines, m.id, decode).messages == pre + [m']
                         && m'.id == m.id && m'.role == m.role
    decreases |lines|
  {
    if lines == [] || r.threw {
      assert r.messages == pre + [m];
    } else {
      var r1 := HandleLine(r, lines[0], m.id, decode);
      var m1: ChatMessage :| r1.messages == pre + [m1] && m1.id == m.id && m1.role == m.role by {
        HandleLineEditsLast(r, lines[0], pre, m, decode);
      }
      HandleLinesKeepsOthers(r1, lines[1..], pre, m1, decode);
    }
  }

  lemma {:induction false} HandleLineEditsLast(r: Reading, line: string, pre: seq<ChatMessage>, m: ChatMessage,
                            decode: string -> Option<ClientEvent>)
    requires r.messages == pre + [m] && IdAbsent(pre, m.id)
    ensures exists m' :: HandleLine(r, line, m.id, decode).messages == pre + [m'] && m'.id == m.id && m'.role == m.role
  {
    EditLast(pre, m, AppendText(""));
    if StartsWith(line, DataPrefix) {
      match decode(line[|DataPrefix|..])
      case None =>
      case Some(TextEvent(t)) => EditLast(pre, m, AppendText(t));
      case Some(UpdateEvent(u)) => EditLast(pre, m, Attach(u));
      case Some(ErrorEvent(_)) => EditLast(pre, m, Replace(CrystalBallApology));
      case Some(DoneEvent) =>
    }
  }

  /**
   * With fresh ids, sending appends exactly the user message and one
   * assistant message, and every earlier message is left as it was.
   */
  lemma {:induction false} SendAppendsTwo(prev: seq<ChatMessage>, content: string, userId: string, assistantId: string,
                       t: Transport, decode: string -> Option<ClientEvent>)
    requires userId != assistantId && IdAbsent(prev, assistantId)
    ensures var msgs := Send(prev, content, userId, assistantId, t, decode).messages;
      && |msgs| == |prev| + 2
      && msgs[..|prev|] == prev
      && msgs[|prev|] == ChatMessage(userId, User, content, None)
      && msgs[|prev| + 1].id == assistantId && msgs[|prev| + 1].role == Assistant
  {
    var user := ChatMessage(userId, User, content, None);
    var pre := prev + [user];
    var a := ChatMessage(assistantId, Assistant, "", None);
    assert prev + [user, a] == pre + [a];
    assert IdAbsent(pre, assistantId) by {
      forall k | 0 <= k < |pre| ensures pre[k].id != assistantId { if k < |prev| { assert pre[k] == prev[k]; } }
    }
    var after: seq<ChatMessage> := pre + [a];
    if t.Response? && t.ok && t.hasBody {
      HandleLinesKeepsOthers(Reading(pre + [a], [], false), CompleteFrames(t.chunks), pre, a, decode);
      after := HandleLines(Reading(pre + [a], [], false), CompleteFrames(t.chunks), assistantId, decode).messages;
    }
    var m :| after == pre + [m] && m.id == assistantId && m.role == Assistant;
    EditLast(pre, m, Replace(GenericApology));
    assert (pre + [m])[..|prev|] == prev;
    assert (pre + [ApplyEdit(m, Replace(GenericApology))])[..|prev|] == prev;
  }

  /** An abort leaves the two appended messages as they were; any other failure apologises. */
  lemma {:induction false} FailedRequest(prev: seq<ChatMessage>, content: string, userId: string, assistantId: string,
                      t: Transport, decode: string -> Option<ClientEvent>)
    requires userId != assistantId && IdAbsent(prev, assistantId)
    requires t.FetchFailed? || !t.ok || !t.hasBody
    ensures var r := Send(prev, content, userId, assistantId, t, decode);
      var user := ChatMessage(userId, User, content, None);
      && r.updates == []
      && r.messages == prev + [user, ChatMessage(assistantId, Assistant,
                                                  if t == FetchFailed(AbortError) then "" else GenericApology, None)]
  {
    var user := ChatMessage(userId, User, content, None);
    var a := ChatMessage(assistantId, Assistant, "", None);
    assert prev + [user, a] == (prev + [user]) + [a];
    assert IdAbsent(prev + [user], assistantId) by {
      forall k | 0 <= k < |prev| + 1 ensures (prev + [user])[k].id != assistantId {
        if k < |prev| { assert (prev + [user])[k] == prev[k]; }
      }
    }
    var r := Send(prev, content, userId, assistantId, t, decode);
    if t == FetchFailed(AbortError) {
      assert r.messages == prev + [user, a];
    } else {
      var appended := prev + [user, a];
      if t.FetchFailed? {
        assert t.kind == OtherError;
      } else {
        assert !t.ok || !t.hasBody;
      }
      assert r.messages == EditById(appended, assistantId, Replace(GenericApology));
      EditLast(prev + [user], a, Replace(GenericApology));
      assert (prev + [user]) + [a.(content := GenericApology)] == prev + [user, a.(content := GenericApology)];
    }
  }

  // -----------------------------------------------------------------------
  // From the server's frames to the client's messages

  /** The bytes the server writes for a list of events. */
  function Wire(out: seq<ClientEvent>, encode: ClientEvent -> string): string {
    Concat(ChatRoute.Frames(out, encode))
  }

  function FrameLines(out: seq<ClientEvent>, encode: ClientEvent -> string): (r: seq<string>)
    ensures |r| == |out|
  {
    if out == [] then [] else [DataPrefix + encode(out[0])] + FrameLines(out[1..], encode)
  }

  /** All the text the text events carry, in order. */
  function TextContent(out: seq<ClientEvent>): string {
    if out == [] then "" else (if out[0].TextEvent? then out[0].text else "") + TextContent(out[1..])
  }

  ghost predicate LineFree(encode: ClientEvent -> string) {
    forall e :: '\n' !in encode(e)
  }

  ghost predicate Decodes(encode: ClientEvent -> string, decode: string -> Option<ClientEvent>) {
    forall e :: decode(encode(e)) == Some(e)
  }

  /** The frames of the wire are the server's events, one per frame, with nothing left over. */
  lemma {:induction false} WireSplit(out: seq<ClientEvent>, encode: ClientEvent -> string)
    requires LineFree(encode)
    ensures Split(Wire(out, encode)) == FrameLines(out, encode) + [""]
    decreases |out|
  {
    if out != [] {
      var x := DataPrefix + encode(out[0]);
      assert '\n' !in x by { assert '\n' !in encode(out[0]); assert forall k :: 0 <= k < |x| ==> x[k] != '\n'; }
      assert ChatRoute.Frames(out, encode) == [x + Separator] + ChatRoute.Frames(out[1..], encode);
      assert Wire(out, encode) == x + Separator + Wire(out[1..], encode);
      SplitFrame(x, Wire(out[1..], encode));
      WireSplit(out[1..], encode);
    }
  }

  /** The message and updates after the content events `out`. */
  function AfterContent(r: Reading, out: seq<ClientEvent>, pre: seq<ChatMessage>, m: ChatMessage): Reading {
    Reading(pre + [m.(content := m.content + TextContent(out),
                      characterUpdates := LastOr(ChatRoute.Updates(out), m.characterUpdates))],
            r.updates + ChatRoute.Updates(out), false)
  }

  /** Content events: their text is appended, their updates attached and reported. */
  lemma {:induction false} ClientContent(r: Reading, out: seq<ClientEvent>, pre: seq<ChatMessage>, m: ChatMessage,
                                         encode: ClientEvent -> string, decode: string -> Option<ClientEvent>)
    requires Decodes(encode, decode)
    requires r.messages == pre + [m] && IdAbsent(pre, m.id) && !r.threw
    requires AllContent(out)
    ensures HandleLines(r, FrameLines(out, encode), m.id, decode) == AfterContent(r, out, pre, m)
    decreases |out|
  {
    if out == [] {
      assert m.(content := m.content + "", characterUpdates := m.characterUpdates) == m;
      assert r.updates + [] == r.updates;
    } else {
      assert AllContent(out[1..]) by {
        forall k | 0 <= k < |out[1..]| ensures IsContent(out[1..][k]) { assert out[1..][k] == out[k + 1]; }
      }
      var r1 := ClientContentStep(r, out, pre, m, encode, decode);
      ClientContent(r1, out[1..], pre, r1.messages[|pre|], encode, decode);
    }
  }

  lemma {:induction false} ClientContentStep(r: Reading, out: seq<ClientEvent>, pre: seq<ChatMessage>, m: ChatMessage,
                          encode: ClientEvent -> string, decode: string -> Option<ClientEvent>)
    returns (r1: Reading)
    requires Decodes(encode, decode)
    requires r.messages == pre + [m] && IdAbsent(pre, m.id) && !r.threw
    requires out != [] && IsContent(out[0])
    ensures HandleLines(r, FrameLines(out, encode), m.id, decode)
            == HandleLines(r1, FrameLines(out[1..], encode), m.id, decode)
    ensures |r1.messages| == |pre| + 1 && r1.messages == pre + [r1.messages[|pre|]] && !r1.threw
    ensures r1.messages[|pre|].id == m.id
    ensures AfterContent(r1, out[1..], pre, r1.messages[|pre|]) == AfterContent(r, out, pre, m)
  {
    var e := out[0];
    var m1 := NextMessage(m, e);
    r1 := Reading(pre + [m1], r.updates + ChatRoute.Updates([e]), false);
    ClientLine(r, e, pre, m, encode, decode);
    assert FrameLines(out, encode)[0] == DataPrefix + encode(e);
    assert FrameLines(out, encode)[1..] == FrameLines(out[1..], encode);
    assert (pre + [m1])[|pre|] == m1;
    AfterContentStep(r, out, pre, m);
  }

  function NextMessage(m: ChatMessage, e: ClientEvent): ChatMessage
    requires IsContent(e)
  {
    if e.TextEvent? then m.(content := m.content + e.text) else m.(characterUpdates := Some(e.updates))
  }

  lemma {:induction false} ClientLine(r: Reading, e: ClientEvent, pre: seq<ChatMessage>, m: ChatMessage,
                   encode: ClientEvent -> string, decode: string -> Option<ClientEvent>)
    requires Decodes(encode, decode)
    requires r.messages == pre + [m] && IdAbsent(pre, m.id) && !r.threw && IsContent(e)
    ensures HandleLine(r, DataPrefix + encode(e), m.id, decode)
            == Reading(pre + [NextMessage(m, e)], r.updates + ChatRoute.Updates([e]), false)
  {
    var line := DataPrefix + encode(e);
    assert StartsWith(line, DataPrefix) && line[|DataPrefix|..] == encode(e);
    assert decode(encode(e)) == Some(e);
    assert ChatRoute.Updates([e]) == if e.UpdateEvent? then [e.updates] else [];
    if e.TextEvent? {
      EditLast(pre, m, AppendText(e.text));
      assert r.updates + [] == r.updates;
    } else {
      EditLast(pre, m, Attach(e.updates));
    }
  }

  lemma {:induction false} AfterContentStep(r: Reading, out: seq<ClientEvent>, pre: seq<ChatMessage>, m: ChatMessage)
    requires out != [] && IsContent(out[0])
    ensures AfterContent(Reading(pre + [NextMessage(m, out[0])], r.updates + ChatRoute.Updates([out[0]]), false),
                         out[1..], pre, NextMessage(m, out[0]))
            == AfterContent(r, out, pre, m)
  {
    var e := out[0];
    assert out == [e] + out[1..];
    ChatRoute.UpdatesConcat([e], out[1..]);
    TextContentConcat([e], out[1..]);
    if e.TextEvent? {
      assert TextContent([e]) == e.text;
      Associate(m.content, e.text, TextContent(out[1..]));
      assert ChatRoute.Updates([e]) == [];
    } else {
      assert TextContent([e]) == "";
      assert ChatRoute.Updates([e]) == [e.updates];
      LastOrConcat([e.updates], ChatRoute.Updates(out[1..]), m.characterUpdates);
      assert "" + TextContent(out[1..]) == TextContent(out[1..]);
      assert (r.updates + [e.updates]) + ChatRoute.Updates(out[1..]) == r.updates + ([e.updates] + ChatRoute.Updates(out[1..]));
    }
  }

  /**
   * The whole pipeline: whatever chunks the server's frames arrive in, the
   * client reports exactly the turn's updates, and the assistant message
   * holds the turn's text and its last update, or the apology when the turn
   * ended in an error.
   */
  lemma {:induction false} ServerToClient(prev: seq<ChatMessage>, content: string, userId: string, assistantId: string,
                       chunks: seq<string>, messages: seq<ChatMessage>, primary: ChatRoute.Reply,
                       parse: string -> Option<CharacterUpdate>, followUp: seq<ApiMessage> -> ChatRoute.Reply,
                       encode: ClientEvent -> string, decode: string -> Option<ClientEvent>)
    requires userId != assistantId && IdAbsent(prev, assistantId)
    requires LineFree(encode) && Decodes(encode, decode)
    requires Concat(chunks) == Wire(Turn(messages, primary, parse, followUp).out, encode)
    ensures var out := Turn(messages, primary, parse, followUp).out;
      var r := Send(prev, content, userId, assistantId, Response(true, true, chunks, None), decode);
      && r.updates == ChatRoute.Updates(out)
      && r.messages == prev + [ChatMessage(userId, User, content, None),
                               ChatMessage(assistantId, Assistant,
                                           if out[|out| - 1].ErrorEvent? then CrystalBallApology else TextContent(out),
                                           LastOr(ChatRoute.Updates(out), None))]
  {
    var out := Turn(messages, primary, parse, followUp).out;
    TurnEndsOnce(messages, primary, parse, followUp);
    WireSplit(out, encode);
    assert CompleteFrames(chunks) == FrameLines(out, encode);
    var user := ChatMessage(userId, User, content, None);
    var pre := prev + [user];
    var a := ChatMessage(assistantId, Assistant, "", None);
    assert prev + [user, a] == pre + [a];
    assert IdAbsent(pre, assistantId) by {
      forall k | 0 <= k < |pre| ensures pre[k].id != assistantId { if k < |prev| { assert pre[k] == prev[k]; } }
    }
    ClientTurn(out, pre, a, encode, decode);
    assert pre + [ChatMessage(assistantId, Assistant,
                              if out[|out| - 1].ErrorEvent? then CrystalBallApology else TextContent(out),
                              LastOr(ChatRoute.Updates(out), None))]
        == prev + [user, ChatMessage(assistantId, Assistant,
                              if out[|out| - 1].ErrorEvent? then CrystalBallApology else TextContent(out),
                              LastOr(ChatRoute.Updates(out), None))];
  }

  /** The frames of a turn, applied to a fresh assistant message. */
  lemma {:induction false} ClientTurn(out: seq<ClientEvent>, pre: seq<ChatMessage>, a: ChatMessage,
                   encode: ClientEvent -> string, decode: string -> Option<ClientEvent>)
    requires Decodes(encode, decode) && IdAbsent(pre, a.id)
    requires a.content == "" && a.characterUpdates == None
    requires |out| >= 1 && (out[|out| - 1].DoneEvent? || out[|out| - 1].ErrorEvent?)
    requires forall k :: 0 <= k < |out| - 1 ==> IsContent(out[k])
    ensures HandleLines(Reading(pre + [a], [], false), FrameLines(out, encode), a.id, decode)
            == Reading(pre + [a.(content := if out[|out| - 1].ErrorEvent? then CrystalBallApology else TextContent(out),
                                 characterUpdates := LastOr(ChatRoute.Updates(out), None))],
                       ChatRoute.Updates(out), false)
  {
    var body, last := out[..|out| - 1], out[|out| - 1];
    var start := Reading(pre + [a], [], false);
    var mid := AfterContent(start, body, pre, a);
    ClientTurnLines(out, start, pre, a, encode, decode);
    var a1 := a.(content := a.content + TextContent(body), characterUpdates := LastOr(ChatRoute.Updates(body), a.characterUpdates));
    assert mid.messages == pre + [a1];
    ClientTerminal(mid, last, pre, a1, encode, decode);
    ClientTurnTotals(out);
  }

  lemma {:induction false} ClientTurnLines(out: seq<ClientEvent>, start: Reading, pre: seq<ChatMessage>, a: ChatMessage,
                        encode: ClientEvent -> string, decode: string -> Option<ClientEvent>)
    requires Decodes(encode, decode) && IdAbsent(pre, a.id)
    requires start.messages == pre + [a] && !start.threw
    requires |out| >= 1
    requires forall k :: 0 <= k < |out| - 1 ==> IsContent(out[k])
    ensures HandleLines(start, FrameLines(out, encode), a.id, decode)
            == HandleLines(AfterContent(start, out[..|out| - 1], pre, a), FrameLines([out[|out| - 1]], encode), a.id, decode)
  {
    var body, last := out[..|out| - 1], out[|out| - 1];
    var lb, ll := FrameLines(body, encode), FrameLines([last], encode);
    LastFrameLines(out, encode);
    HandleLinesConcat(start, lb, ll, a.id, decode);
    ClientContent(start, body, pre, a, encode, decode);
  }

  lemma {:induction false} LastFrameLines(out: seq<ClientEvent>, encode: ClientEvent -> string)
    requires |out| >= 1
    requires forall k :: 0 <= k < |out| - 1 ==> IsContent(out[k])
    ensures FrameLines(out, encode) == FrameLines(out[..|out| - 1], encode) + FrameLines([out[|out| - 1]], encode)
    ensures AllContent(out[..|out| - 1])
  {
    var body, last := out[..|out| - 1], out[|out| - 1];
    assert out == body + [last];
    FrameLinesConcat(body, [last], encode);
    forall k | 0 <= k < |body| ensures IsContent(body[k]) { assert body[k] == out[k]; }
  }

  lemma {:induction false} ClientTurnTotals(out: seq<ClientEvent>)
    requires |out| >= 1 && (out[|out| - 1].DoneEvent? || out[|out| - 1].ErrorEvent?)
    ensures TextContent(out) == TextContent(out[..|out| - 1])
    ensures ChatRoute.Updates(out) == ChatRoute.Updates(out[..|out| - 1])
    ensures "" + TextContent(out) == TextContent(out)
    ensures var none: seq<CharacterUpdate> := []; none + ChatRoute.Updates(out) == ChatRoute.Updates(out)
  {
    var body, last := out[..|out| - 1], out[|out| - 1];
    assert out == body + [last];
    TextContentConcat(body, [last]);
    UpdatesConcat(body, [last]);
    assert TextContent([last]) == "" && ChatRoute.Updates([last]) == [];
  }

  lemma {:induction false} ClientTerminal(r: Reading, last: ClientEvent, pre: seq<ChatMessage>, m: ChatMessage,
                       encode: ClientEvent -> string, decode: string -> Option<ClientEvent>)
    requires Decodes(encode, decode)
    requires r.messages == pre + [m] && IdAbsent(pre, m.id) && !r.threw
    requires last.DoneEvent? || last.ErrorEvent?
    ensures HandleLines(r, FrameLines([last], encode), m.id, decode)
            == r.(messages := pre + [if last.ErrorEvent? then m.(content := CrystalBallApology) else m])
  {
    var line := DataPrefix + encode(last);
    assert StartsWith(line, DataPrefix) && line[|DataPrefix|..] == encode(last);
    assert decode(encode(last)) == Some(last);
    assert FrameLines([last], encode) == [line];
    EditLast(pre, m, Replace(CrystalBallApology));
  }

  lemma {:induction false} FrameLinesConcat(a: seq<ClientEvent>, b: seq<ClientEvent>, encode: ClientEvent -> string)
    ensures FrameLines(a + b, encode) == FrameLines(a, encode) + FrameLines(b, encode)
  {
    if a == [] { assert a + b == b; }
    else { assert (a + b)[1..] == a[1..] + b; FrameLinesConcat(a[1..], b, encode); }
  }

  lemma {:induction false} TextContentConcat(a: seq<ClientEvent>, b: seq<ClientEvent>)
    ensures TextContent(a + b) == TextContent(a) + TextContent(b)
  {
    if a == [] { assert a + b == b; }
    else { assert (a + b)[1..] == a[1..] + b; TextContentConcat(a[1..], b); }
  }
}
