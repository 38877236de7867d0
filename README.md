# Character wizard — a verified model

Character wizard is a web app for building a tabletop role-playing character by
chatting with an assistant. The browser sends the conversation to a chat route.
That route streams the assistant's reply back as server-sent events, and the
reply carries structured `update_character` tool calls. The client merges each
update into the character record, parses `{{choice:Label|Description}}` lines
into cards, and can save the character to a database table scoped to the
signed-in user. It also picks a static portrait for the race and class, or
asks a portrait route for a generated one.

This project models the logic of that app in Dafny and proves what it promises.
There is one module per source file:

| module | models |
|---|---|
| `Wrappers` | `Option`, and `Field` for a JSON key that is missing, `null` or set |
| `Text` | the JavaScript string primitives used: ASCII `toLowerCase`/`toUpperCase`, `trim`, `includes`, `startsWith`, `split`, `join`, decimal rendering |
| `CharacterTypes` | `app/src/types/character.ts` |
| `CharacterContext` | the reducer in `app/src/lib/character-context.tsx` |
| `CharacterUtils` | the rules and tables in `app/src/lib/character-utils.ts` |
| `ChatRoute` | the streaming turn of `app/src/app/api/chat/route.ts` |
| `UseChat` | the client's frame reassembly and message edits in `app/src/lib/use-chat.ts` |
| `ChatPanel` | the choice-card parser and input guards of `app/src/components/chat-panel.tsx` |
| `Portraits` | the exact → class → race → class-family chain shared by three files |
| `PortraitRoute` | `app/src/app/api/portrait/route.ts` |
| `CharacterPreview` | `app/src/components/character-preview.tsx` |
| `CharactersRoute` | `app/src/app/api/characters/route.ts`, over a map of rows |
| `MyCharacters` | `app/src/components/my-characters.tsx` |
| `HomePage` | `app/src/app/page.tsx` |

Pure code is modelled as functions with lemmas. Code that changes state step by
step is modelled as methods with loops, or as classes with `modifies` clauses:

- the chat route's event loop;
- the client's read loop and `sendMessage`;
- `parseContent`'s line loop;
- the prompt builder;
- the row store;
- the preview, list, home-page and save state.

Each such method is proved equal to a specification function. The lemmas are
stated about that function.

External services are inputs. The model takes:

- the provider's streams, and whether they throw;
- the image service's answer;
- the database's error message;
- the sign-in lookup's answer;
- `JSON.parse`/`JSON.stringify` as function parameters;
- the clock, and the ids the database or `crypto.randomUUID` would produce.

Three results connect the modules:

- `UseChat.ServerToClient`: whatever chunks the route's framed events arrive in, the client reports exactly the route's updates. The assistant message ends up holding the turn's text and its last update, or the apology when the turn failed.
- `PortraitRoute.FindReferencePortrait`, `CharacterPreview.FindBestPortrait` and `MyCharacters.FindPortrait` agree on every input. See `CharacterPreview.PreviewAgreesWithReference` and `MyCharacters.CardAgreesWithPreview`.
- A save round-trips. The page's payload, inserted or updated by the characters route and read back by the list, gives the character back, normalised. See `HomePage.FirstSaveReadsBack` and `HomePage.UpdateReadsBack`.

Where the code and its written description differ, the model follows the code:

- After an `error` event the chat route sends no `done`.
- The route sends one `character_update` for every tool block whose arguments parse, not at most one. The follow-up request acknowledges the last of them, under the most recently started tool id.
- The characters route's POST stores a missing portrait as `null`, where the default character has `""`.

## Model

| member | source | states |
|---|---|---|
| CharacterTypes.DefaultCharacterIsBlank | app/src/types/character.ts:26-47 | the default character has level 1 and edition "5e"; its text fields are empty, its six scores 0, its lists empty and its hit points 0 |
| CharacterContext.AbsentFieldsUnchanged | app/src/lib/character-context.tsx:24-48 | every field the update does not name keeps its previous value |
| CharacterContext.PresentScalarsReplace | app/src/lib/character-context.tsx:25-26 | a scalar the update names replaces the old value, "" and 0 included |
| CharacterContext.StrengthOnlyKeepsOtherScores | app/src/lib/character-context.tsx:27-29 | an update naming only strength changes strength and leaves the other five scores |
| CharacterContext.ScoresMergeKeyByKey | app/src/lib/character-context.tsx:27-29 | each score becomes the update's value when it names that key, and stays otherwise; a null object changes nothing |
| CharacterContext.ListsReplacedWholesale | app/src/lib/character-context.tsx:30-36 | a list the update names replaces the old list whole; null or missing keeps the old list |
| CharacterContext.NestedRecordsMergeByKey | app/src/lib/character-context.tsx:37-39 | death saves and currency merge key by key when present and stay unchanged when absent; merged onto a missing record, the result is exactly the update's record |
| CharacterContext.SpellcastingThreeWays | app/src/lib/character-context.tsx:40-44 | missing spellcasting keeps the old value, null clears it, an object shallow-merges onto the old value |
| CharacterContext.EmptyUpdateIsIdentity | app/src/lib/character-context.tsx:22-48 | applying the empty update gives back the same character |
| CharacterContext.ApplyUpdateIdempotent | app/src/lib/character-context.tsx:22-48 | applying an update twice equals applying it once |
| CharacterContext.ReduceOtherActions | app/src/lib/character-context.tsx:50-53 | RESET gives the default character for any state; an unknown action returns the state |
| CharacterContext.InitialState | app/src/lib/character-context.tsx:60-64 | with no initial character the provider starts from the default; an initial character never sets the keys only the update merger writes |
| CharacterContext.InitialKeysWin | app/src/lib/character-context.tsx:63 | each key the initial character carries wins; each key it lacks takes the default's value |
| CharacterContext.EmptyInitialIsDefault | app/src/lib/character-context.tsx:63 | an initial character with no keys gives the default character |
| CharacterContext.CompleteInitialIsItself | app/src/lib/character-context.tsx:63 | an initial character holding every key of a character gives back that character |
| CharacterUtils.ProficiencyBonus | app/src/lib/character-utils.ts:3-5 | the result r is the smallest with level <= 4 (r - 1), which is ceil(level / 4) + 1 |
| CharacterUtils.ProficiencyBonusTiers | app/src/lib/character-utils.ts:3-5 | levels 1-4 give 2, 5-8 give 3, 9-12 give 4, 13-16 give 5, 17-20 give 6 |
| CharacterUtils.ProficiencyBonusMonotone | app/src/lib/character-utils.ts:3-5 | the bonus never decreases as the level rises |
| CharacterUtils.AbilityModifier | app/src/lib/character-utils.ts:7-10 | 0 for scores <= 0, otherwise the floor of (score - 10) / 2, stated as 2r <= score - 10 < 2r + 2 |
| CharacterUtils.AbilityModifierExamples | app/src/lib/character-utils.ts:7-10 | 10 and 11 give 0, 8 and 9 give -1, 20 gives 5, 1 gives -5, 0 and negative scores give 0 |
| CharacterUtils.FormatModifier | app/src/lib/character-utils.ts:12-14 | at least two characters: a "+" for non-negative values or a "-" for negative ones, then digits only |
| CharacterUtils.FormatModifierRoundTrip | app/src/lib/character-utils.ts:12-14 | the sign and the decimal digits of the rendering give the modifier back |
| CharacterUtils.FormatModifierExamples | app/src/lib/character-utils.ts:12-14 | 0 renders as "+0", 3 as "+3" and -1 as "-1" |
| CharacterUtils.SavingThrow | app/src/lib/character-utils.ts:16-23 | exceeds the ability modifier by the proficiency bonus exactly when proficient |
| CharacterUtils.SkillBonus | app/src/lib/character-utils.ts:25-32 | exceeds the ability modifier by the proficiency bonus exactly when proficient |
| CharacterUtils.SavingThrowIsSkillBonus | app/src/lib/character-utils.ts:16-32 | saving throws and skill bonuses agree on all inputs |
| CharacterUtils.ProficiencyAddsBonus | app/src/lib/character-utils.ts:16-32 | proficiency adds exactly the proficiency bonus to either |
| CharacterUtils.PassivePerception | app/src/lib/character-utils.ts:34-40 | passive perception is 10 plus the Wisdom modifier, plus the proficiency bonus when proficient |
| CharacterUtils.PassivePerceptionExamples | app/src/lib/character-utils.ts:34-40 | Wisdom 10 gives 10, Wisdom 0 gives 10 (a score of 0 or less has modifier 0), proficient Wisdom 14 with bonus 2 gives 14, Wisdom 8 gives 9 |
| CharacterUtils.SpellAttackBonus | app/src/lib/character-utils.ts:49-54 | the spell attack bonus is the proficient skill bonus of the casting ability |
| CharacterUtils.SpellSaveDC | app/src/lib/character-utils.ts:42-47 | the spell save DC is 8 plus the spell attack bonus |
| CharacterUtils.HitPointsAtLevel1 | app/src/lib/character-utils.ts:56-61 | the hit die's maximum plus the Constitution modifier; so never above the hit die with constitution <= 11, never below it with constitution >= 10 |
| CharacterUtils.HitPointsExamples | app/src/lib/character-utils.ts:56-61 | d10 with Constitution 14 gives 12, d6 with 8 gives 5, d12 with Constitution 0 gives 12 (a score of 0 or less has modifier 0), d8 with 20 gives 13 |
| CharacterUtils.HitDieForClass | app/src/lib/character-utils.ts:63-80 | the table entry for the lower-cased class; "" exactly when the class is not in the table |
| CharacterUtils.HitDieCaseInsensitive | app/src/lib/character-utils.ts:78-80 | looking up the lower-cased name gives the same die |
| CharacterUtils.HitDieMax | app/src/lib/character-utils.ts:82-85 | 0 when no "d" is followed by a digit |
| CharacterUtils.HitDieMaxFirstMatch | app/src/lib/character-utils.ts:82-85 | the value is the run of digits after the first "d" that a digit follows |
| CharacterUtils.HitDieMaxOfDie | app/src/lib/character-utils.ts:82-85 | "&lt;p&gt;d&lt;n&gt;…" with no "d" in p reads back n |
| CharacterUtils.KnownHitDiceMax | app/src/lib/character-utils.ts:63-85 | every class in the table has a maximum of 6, 8, 10 or 12 |
| CharacterUtils.SpellcastingAbility | app/src/lib/character-utils.ts:87-100 | the table entry for the lower-cased class, or null exactly when the class is not in the table |
| CharacterUtils.SpellcastingCaseInsensitive | app/src/lib/character-utils.ts:98-100 | the lookup ignores ASCII case |
| CharacterUtils.MartialClassesCastNothing | app/src/lib/character-utils.ts:87-100 | fighter, barbarian, monk and rogue get null |
| CharacterUtils.WizardCastsWithIntelligence | app/src/lib/character-utils.ts:95 | a wizard casts with intelligence |
| CharacterUtils.SpellcastingAbilities | app/src/lib/character-utils.ts:87-100 | any ability returned is charisma, wisdom or intelligence |
| CharacterUtils.AbilityIndex | app/src/lib/character-utils.ts:148-155 | each ability has its place in the ABILITY_NAMES table |
| CharacterUtils.AbilityNamesComplete | app/src/lib/character-utils.ts:148-155 | ABILITY_NAMES lists the six abilities once each, with distinct abbreviations |
| CharacterUtils.SkillTableConsistent | app/src/lib/character-utils.ts:122-155 | 18 distinct skills, each abbreviated as its ability is in ABILITY_NAMES |
| ChatRoute.ToApi | app/src/app/api/chat/route.ts:13-16 | one provider message per chat message, keeping role and content only |
| ChatRoute.Acknowledgement | app/src/app/api/chat/route.ts:77-103 | an assistant turn (the text only if non-empty, then the tool use), then a user tool result "Character updated successfully." |
| ChatRoute.FramesConcat | app/src/app/api/chat/route.ts:47-51 | framing a concatenation frames each part in turn |
| ChatRoute.HandleEvent | app/src/app/api/chat/route.ts:37-120 | one loop iteration produces the specified step and enqueues exactly its frames |
| ChatRoute.ForwardFollowUp | app/src/app/api/chat/route.ts:107-118 | the follow-up loop enqueues one text frame per text delta, in order |
| ChatRoute.HandleTurn | app/src/app/api/chat/route.ts:20-134 | the streamed frames and the follow-up requests are those of the specified turn |
| ChatRoute.TextEventsAreText | app/src/app/api/chat/route.ts:107-118 | the follow-up forwards text only and never an update |
| ChatRoute.StepAppendsContent | app/src/app/api/chat/route.ts:37-120 | a loop iteration only appends text or update events |
| ChatRoute.RunConcat | app/src/app/api/chat/route.ts:37-121 | the loop over two pieces of a stream equals the loop over the whole |
| ChatRoute.StepBody | app/src/app/api/chat/route.ts:38-67 | before message_stop an event adds only its own text delta to the text sent and to the accumulated text, and records a started tool id |
| ChatRoute.StepUpdates | app/src/app/api/chat/route.ts:38-67 | a block stop with an open tool parses the buffer and sends the update if it parses; a start resets the buffer; the marker is cleared after every tool stop |
| ChatRoute.RunUpdates | app/src/app/api/chat/route.ts:37-121 | the client receives one update per tool block whose arguments parse, in closing order, and the pending update is the last of them |
| ChatRoute.RunNeverParsed | app/src/app/api/chat/route.ts:55-71 | when no argument text parses, nothing is requested and only the text deltas are sent |
| ChatRoute.StepStop | app/src/app/api/chat/route.ts:68-119 | message_stop makes one follow-up exactly when an update is pending, and adds its text and no update |
| ChatRoute.TurnEndsOnce | app/src/app/api/chat/route.ts:123-134 | the client receives content events, then exactly one done or error, which is last |
| ChatRoute.TurnOutcome | app/src/app/api/chat/route.ts:123-134 | a throw ends the turn with an error carrying its message and no done; without a throw the turn ends with done |
| ChatRoute.RequestFailure | app/src/app/api/chat/route.ts:125-134 | when the first request throws, the client gets one error event and nothing else |
| ChatRoute.UpdatesFromToolBlocks | app/src/app/api/chat/route.ts:55-66 | the updates sent are the parsed arguments of the primary stream's tool blocks |
| ChatRoute.MalformedToolInput | app/src/app/api/chat/route.ts:56-66 | with unparsable tool input there is no update and no follow-up: the text deltas, then the terminal event |
| ChatRoute.NormalTurn | app/src/app/api/chat/route.ts:31-124 | a content-then-stop turn sends the primary text, then the follow-up text when an update parsed; that follow-up's history acknowledges the last update under the last tool id with all the text |
| ChatRoute.ElfTurn | app/src/app/api/chat/route.ts:31-124 | a concrete turn (narration, a tool call in two fragments, a follow-up) yields text, update, follow-up text and done |
| ChatRoute.InvalidToolArguments | app/src/app/api/chat/route.ts:56-66 | a concrete turn whose tool arguments fail to parse yields the narration and done, with no follow-up |
| UseChat.Split | app/src/lib/use-chat.ts:63 | splitting on "\n\n" gives at least one piece |
| UseChat.JoinSplit | app/src/lib/use-chat.ts:63-64 | joining the pieces with "\n\n" gives the buffer back |
| UseChat.SplitAppend | app/src/lib/use-chat.ts:62-64 | splitting a buffer extended by a chunk keeps the complete pieces and re-splits only the kept tail with the chunk |
| UseChat.Reassembly | app/src/lib/use-chat.ts:62-64 | the frames processed, joined by "\n\n", then "\n\n", then the kept buffer, equal all text received |
| UseChat.FramesGrow | app/src/lib/use-chat.ts:58-66 | later chunks only append frames to those already processed |
| UseChat.EditById | app/src/lib/use-chat.ts:71-98 | only messages with the assistant's id are edited; all others are unchanged |
| UseChat.EditLast | app/src/lib/use-chat.ts:71-98 | with a fresh id the edit reaches the new assistant message only |
| UseChat.HandleLinesConcat | app/src/lib/use-chat.ts:66-100 | handling two runs of frames equals handling them together |
| UseChat.ChatSession.constructor | app/src/lib/use-chat.ts:11-12 | the messages start as the initial messages, or none when there are none, and nothing is loading |
| UseChat.ChatSession.HandleFrames | app/src/lib/use-chat.ts:66-100 | the frames of one chunk change the messages and the reported updates as handling those frames in order specifies, stopping at the first that fails to parse |
| UseChat.ChatSession.ReadFrames | app/src/lib/use-chat.ts:56-101 | the read loop leaves the messages and the reported updates as the frames of the whole text specify |
| UseChat.ChatSession.SendMessage | app/src/lib/use-chat.ts:15-117 | sending gives the request, the reported updates and the messages of the specified outcome, and clears the loading flag |
| UseChat.ChunkingInvariance | app/src/lib/use-chat.ts:58-100 | two chunkings of the same text give the same outcome |
| UseChat.RequestCarriesHistory | app/src/lib/use-chat.ts:35-44 | the request is the earlier messages, then the new user message, as role and content only |
| UseChat.HandleLinesKeepsOthers | app/src/lib/use-chat.ts:66-100 | frames keep the assistant message last, with its id and role, and leave the others alone |
| UseChat.SendAppendsTwo | app/src/lib/use-chat.ts:17-29 | sending appends exactly the user message and one assistant message and keeps every earlier message |
| UseChat.FailedRequest | app/src/lib/use-chat.ts:50-114 | a failed request reports no update; an abort leaves the empty assistant message, any other failure replaces it with the apology |
| UseChat.WireSplit | app/src/lib/use-chat.ts:63-67 | splitting the route's whole output gives its frames, one per event, then "" |
| UseChat.ClientContent | app/src/lib/use-chat.ts:66-86 | text frames append to the assistant message and update frames attach without changing its content |
| UseChat.ClientTurn | app/src/lib/use-chat.ts:66-100 | a turn's frames leave the assistant message with the turn's text (the apology after an error) and its last update, and report all the updates |
| UseChat.ServerToClient | app/src/lib/use-chat.ts:15-117 | for any chunking of the route's output the client reports exactly the route's updates and ends with the turn's text and last update |
| ChatPanel.FindFrom | app/src/components/chat-panel.tsx:172 | finds the leftmost position where the choice pattern matches, or reports there is none |
| ChatPanel.MatchAt | app/src/components/chat-panel.tsx:172 | a match at a position is an occurrence whose label is the shortest possible there and whose description is the shortest after that label |
| ChatPanel.MatchIsLazy | app/src/components/chat-panel.tsx:172 | a match at a position is lazy: no occurrence there has a shorter label, and none with that label has a shorter description |
| ChatPanel.MatchIsLeftmost | app/src/components/chat-panel.tsx:172 | the match found is a lazy occurrence of `{{choice:L\|D}}` and no occurrence starts earlier |
| ChatPanel.LazyUnique | app/src/components/chat-panel.tsx:172 | there is only one leftmost lazy occurrence in a line |
| ChatPanel.ChoiceOfLazy | app/src/components/chat-panel.tsx:172-178 | the card of a line is the trimmed label and description of its leftmost lazy occurrence |
| ChatPanel.ChoiceLine | app/src/components/chat-panel.tsx:172-178 | a line is a choice line iff it contains `{{choice:L\|D}}` with L and D non-empty; the card holds the trimmed label and description of the leftmost lazy occurrence |
| ChatPanel.LazyLabel | app/src/components/chat-panel.tsx:172-178 | `{{choice:a\|b\|c}}` gives the card ("a", "b\|c"): the label stops at the first bar |
| ChatPanel.LazyDescription | app/src/components/chat-panel.tsx:172-178 | `{{choice:a\|b}} x {{choice:c\|d}}` gives the card ("a", "b"): the description stops at the first closing braces |
| ChatPanel.ParseContent | app/src/components/chat-panel.tsx:149-189 | the line loop with its two buffers yields the specified parts |
| ChatPanel.PartsWellFormed | app/src/components/chat-panel.tsx:157-186 | every text part is trimmed and non-empty, every choices part non-empty, and no two text parts are adjacent |
| ChatPanel.EmptyContentHasNoParts | app/src/components/chat-panel.tsx:150 | empty content gives no parts |
| ChatPanel.CardsPreserved | app/src/components/chat-panel.tsx:171-186 | the cards across all choices parts are the choice lines' cards, in order |
| ChatPanel.GroupsAreRuns | app/src/components/chat-panel.tsx:164-186 | the choices parts are the maximal runs of consecutive choice lines: one part per run, holding that run's cards in source order |
| ChatPanel.RunIsOneGroup | app/src/components/chat-panel.tsx:173-177 | a run of k >= 1 choice lines is exactly one group of k cards, in order |
| ChatPanel.NonChoiceLineSplits | app/src/components/chat-panel.tsx:179-181 | a line without a match closes the group: the runs before and after it are grouped separately |
| ChatPanel.AdjacentChoiceLines | app/src/components/chat-panel.tsx:171-186 | two adjacent choice lines give one choices part holding both cards |
| ChatPanel.GapSplitsGroups | app/src/components/chat-panel.tsx:171-186 | a non-choice line between two choice lines gives two choices parts of one card each |
| ChatPanel.NoChoiceInBlank | app/src/components/chat-panel.tsx:172 | a blank line does not match the choice pattern |
| ChatPanel.PlainContent | app/src/components/chat-panel.tsx:157-186 | content without choice lines is one trimmed text part, or nothing when it is blank |
| ChatPanel.ChatInput.Submit | app/src/components/chat-panel.tsx:22-27 | a blank input or a pending reply sends nothing; otherwise it sends the trimmed input and clears the field |
| ChatPanel.ChatInput.constructor | app/src/components/chat-panel.tsx:14 | the message box starts empty |
| ChatPanel.SubmittedIsTrimmed | app/src/components/chat-panel.tsx:22-27 | a submitted message, being trimmed, has no surrounding whitespace left to trim |
| ChatPanel.ChoiceClick | app/src/components/chat-panel.tsx:36-39 | a choice click sends its label unless a reply is loading |
| Portraits.First | app/src/app/api/portrait/route.ts:35-45 | `find`: the first table position that fits, or none when none fits |
| Portraits.ChainPicksBest | app/src/app/api/portrait/route.ts:31-50 | the chain picks the best-ranked entry (exact, class, race, then family), the first among equals, and none exactly when nothing fits |
| Portraits.FamilyOnlyAsLastResort | app/src/app/api/portrait/route.ts:44-47 | the class family is used only when no entry shares the class or is contained in the race |
| Portraits.ChainCaseInsensitive | app/src/app/api/portrait/route.ts:32-33 | lower-casing race and class changes nothing |
| Portraits.HalfOrcBarbarian | app/src/app/api/portrait/route.ts:35-36 | Half-Orc with Barbarian matches exactly, at the half-orc barbarian entry |
| Portraits.ElfBard | app/src/app/api/portrait/route.ts:38-42 | elf with bard matches by race, the elf ranger, before any family alias |
| Portraits.GnomeSorcerer | app/src/app/api/portrait/route.ts:44-47 | gnome with sorcerer falls through to the family alias, the elf wizard |
| Portraits.GnomeJuggler | app/src/app/api/portrait/route.ts:44-49 | gnome with juggler fits no entry |
| PortraitRoute.ReferenceKeysAreKeys | app/src/app/api/portrait/route.ts:13-22 | the reference table has the shared race/class pairs, in the shared order |
| PortraitRoute.FindReferencePortrait | app/src/app/api/portrait/route.ts:31-50 | the result is always one of the table's files |
| PortraitRoute.ReferenceHalfOrcBarbarian | app/src/app/api/portrait/route.ts:35-36 | Half-Orc with Barbarian gives halforc-barbarian.png |
| PortraitRoute.ReferenceElfBard | app/src/app/api/portrait/route.ts:41-42 | elf with bard gives elf-ranger.png |
| PortraitRoute.ReferenceGnomeSorcerer | app/src/app/api/portrait/route.ts:44-47 | gnome with sorcerer gives elf-wizard.png |
| PortraitRoute.ReferenceGnomeJuggler | app/src/app/api/portrait/route.ts:49 | gnome with juggler gives the default human-fighter.png |
| PortraitRoute.CharacterLine | app/src/app/api/portrait/route.ts:67 | "Character: race class", with " named X" only when a name is given |
| PortraitRoute.PromptItems | app/src/app/api/portrait/route.ts:75 | a prefix of the equipment of at most six items, all of it when there are six or fewer |
| PortraitRoute.PromptLines | app/src/app/api/portrait/route.ts:59-77 | the seven style lines and the character line, then an Appearance line only if it is non-empty, then an Equipment line only if there is equipment |
| PortraitRoute.BuildPrompt | app/src/app/api/portrait/route.ts:52-80 | the pushes build the specified lines, joined with line feeds |
| PortraitRoute.BarePrompt | app/src/app/api/portrait/route.ts:59-77 | with no appearance and no equipment the prompt is exactly the eight fixed lines |
| PortraitRoute.StoragePath | app/src/app/api/portrait/route.ts:134 | portraits/user/id.png, with "draft" when there is no character id |
| PortraitRoute.Post | app/src/app/api/portrait/route.ts:82-171 | errors are 400, 401 or 500; an image answer needs a user, race and class, neither throw and a non-empty image, and carries it as a PNG data URL |
| PortraitRoute.NoUserUnauthorized | app/src/app/api/portrait/route.ts:88-90 | no user gives 401 whatever the body, before anything else is done |
| PortraitRoute.MissingRaceOrClass | app/src/app/api/portrait/route.ts:95-100 | a missing character, race or class gives 400 before the reference is read |
| PortraitRoute.StorageFailureKeepsImage | app/src/app/api/portrait/route.ts:144-151 | a failed upload still returns the image, with a null portrait URL, after uploading to the storage path |
| PortraitRoute.StoredImageUrl | app/src/app/api/portrait/route.ts:153-163 | a stored image's URL is the public URL with the timestamp query |
| PortraitRoute.ReferenceAndPrompt | app/src/app/api/portrait/route.ts:104-109 | the reference file and the prompt come from the body's character; no prompt is built when reading the reference throws |
| PortraitRoute.ThrowsAreServerErrors | app/src/app/api/portrait/route.ts:102-170 | a throw reading the reference or requesting the image is a 500 "Failed to generate portrait" with nothing uploaded; the prompt exists exactly when the read succeeded |
| CharacterPreview.PreviewKeysAreKeys | app/src/components/character-preview.tsx:7-16 | the preview table has the shared race/class pairs, in the shared order |
| CharacterPreview.FindBestPortrait | app/src/components/character-preview.tsx:19-46 | the result, when there is one, is an entry of the table |
| CharacterPreview.ImagesAreReferenceFiles | app/src/components/character-preview.tsx:7-16 | each preview image is /characters/ followed by the reference file at the same position |
| CharacterPreview.PreviewAgreesWithReference | app/src/components/character-preview.tsx:19-46 | the preview's image is the reference file under /characters/, and null exactly where the route uses its default |
| CharacterPreview.AiPortrait | app/src/components/character-preview.tsx:70 | the fresh base64 image wins over the stored portrait URL |
| CharacterPreview.DisplayOf | app/src/components/character-preview.tsx:67-208 | an AI image needs a race or class and a non-empty source; a static image is shown only when there is no AI image; the placeholder exactly when there is no identity or no portrait at all |
| CharacterPreview.NoIdentityNoPicture | app/src/components/character-preview.tsx:133-208 | empty race and class show the placeholder whatever portraits exist |
| CharacterPreview.LocalImageFirst | app/src/components/character-preview.tsx:70 | a generated image is shown in preference to everything else |
| CharacterPreview.GenerateRequest | app/src/components/character-preview.tsx:87-100 | the request carries the character's race, class, name, appearance and equipment, and the character id |
| CharacterPreview.GenerateError | app/src/components/character-preview.tsx:102-120 | no error exactly when the response is OK and readable; otherwise the server's error, the fallback message or the thrown message |
| CharacterPreview.ShownImage | app/src/components/character-preview.tsx:110-113 | an image is shown only from a successful reply with a non-empty base64 |
| CharacterPreview.StoredUrl | app/src/components/character-preview.tsx:116-118 | a URL is passed on only from a successful reply with a non-empty portrait URL |
| CharacterPreview.PreviewState.constructor | app/src/components/character-preview.tsx:55-58 | no image loaded, nothing generating, no error and no generated image |
| CharacterPreview.PreviewState.HandleGenerate | app/src/components/character-preview.tsx:82-124 | sends the request; sets the error, the shown image and the loaded flag from the reply; notifies only with a callback and a URL; clears generating |
| CharacterPreview.ServerErrorShown | app/src/components/character-preview.tsx:102-104 | a non-OK reply shows the server's error message |
| CharacterPreview.ServerImageShown | app/src/components/character-preview.tsx:107-118 | when the portrait route produces an image, the preview shows it, with no error |
| CharacterPreview.HalfIdentityRefused | app/src/components/character-preview.tsx:102-104 | with race or class empty the route refuses and the preview shows "Character needs race and class" |
| CharacterPreview.LoneElf | app/src/components/character-preview.tsx:67-208 | an elf with no class gets the static elf ranger, and generating is refused with that message |
| CharactersRoute.StringOr | app/src/app/api/characters/route.ts:45-63 | the body's string when non-empty, else the fallback |
| CharactersRoute.NumberOr | app/src/app/api/characters/route.ts:48-57 | the body's number when non-zero, else the fallback |
| CharactersRoute.UrlOrNull | app/src/app/api/characters/route.ts:65 | a non-empty URL is stored; anything else becomes null |
| CharactersRoute.InsertRow | app/src/app/api/characters/route.ts:43-65 | the new row belongs to the user; its level is never 0, its edition never empty, and its portrait never an empty string |
| CharactersRoute.InsertDefaultsAreDefaultCharacter | app/src/app/api/characters/route.ts:43-65 | an empty body stores the default character's values, with an empty chat and a null portrait where the default has "" |
| CharactersRoute.UpdateRow | app/src/app/api/characters/route.ts:96-112 | present columns are replaced and missing ones kept; the chat history and portrait are always written; updated_at is stamped; id and owner are kept |
| CharactersRoute.UpdateClearsHistoryAndPortrait | app/src/app/api/characters/route.ts:109-110 | a PUT without chat history or portrait clears both |
| CharactersRoute.InsertByRecency | app/src/app/api/characters/route.ts:19 | inserting a row into a newest-first list keeps it newest-first and adds exactly that row |
| CharactersRoute.CharacterStore.constructor | app/src/app/api/characters/route.ts:5-154 | the table starts empty, which satisfies the store's invariant |
| CharactersRoute.CharacterStore.List | app/src/app/api/characters/route.ts:5-26 | 401 without a user, 500 on a database error, otherwise exactly the caller's rows, newest first |
| CharactersRoute.CharacterStore.Create | app/src/app/api/characters/route.ts:29-75 | 401 without a user and 500 on error, changing nothing; otherwise one new row with the insert defaults, owned by the caller |
| CharactersRoute.CharacterStore.Update | app/src/app/api/characters/route.ts:78-123 | 401 before 400 for a missing id; only the caller's row with that id changes; errors change nothing |
| CharactersRoute.CharacterStore.Delete | app/src/app/api/characters/route.ts:126-154 | 401 before 400 for a missing id; removes only the caller's row with that id; errors change nothing |
| MyCharacters.CardKeysAreKeys | app/src/components/my-characters.tsx:8-17 | the card table has the shared race/class pairs, in the shared order |
| MyCharacters.FindPortrait | app/src/components/my-characters.tsx:26-40 | the result, when there is one, is one of the table's images |
| MyCharacters.CardAgreesWithPreview | app/src/components/my-characters.tsx:26-40 | the card's portrait is the preview's image on every input, null when the preview has none |
| MyCharacters.TimeAgo | app/src/components/my-characters.tsx:55-70 | "Just now" under a minute (future dates included), then minutes, hours, "Yesterday" for one day, days, weeks, and the locale date from four weeks on |
| MyCharacters.TimeAgoExamples | app/src/components/my-characters.tsx:55-70 | a future date and 59.999 s are "Just now", 25 hours is "Yesterday", 30 days is the locale date |
| MyCharacters.DbToCharacter | app/src/components/my-characters.tsx:73-92 | keeps the row's id and update time |
| MyCharacters.ReadBackDefaults | app/src/components/my-characters.tsx:73-92 | falsy columns read back as level 1, edition "5e", portrait "", empty lists and default scores |
| MyCharacters.EmptyRowIsDefault | app/src/components/my-characters.tsx:73-92 | a row with no columns reads back as the default character |
| MyCharacters.CardImage | app/src/components/my-characters.tsx:257 | a card shows the stored portrait when it is non-empty, otherwise the static match |
| MyCharacters.FindStat | app/src/components/my-characters.tsx:378 | the stat with that abbreviation, or none when no stat has it |
| MyCharacters.FoundStatsAll | app/src/components/my-characters.tsx:378 | every wanted abbreviation is found, in the wanted order |
| MyCharacters.PrimaryStats | app/src/components/my-characters.tsx:347-379 | exactly two distinct stats with their scores: the class's pair, looked up lower-cased, else STR and DEX |
| MyCharacters.PrimaryStatsCaseInsensitive | app/src/components/my-characters.tsx:351 | the class is looked up ignoring ASCII case |
| MyCharacters.WizardStats | app/src/components/my-characters.tsx:369 | a wizard shows INT and CON |
| MyCharacters.Initials | app/src/components/my-characters.tsx:115-120 | at most two characters, none a lower-case ASCII letter |
| MyCharacters.InitialsOfPieces | app/src/components/my-characters.tsx:115-120 | the initials are the upper-cased first letters of the first two pieces of the local part split on ".", "-" and "_" |
| MyCharacters.WithoutId | app/src/components/my-characters.tsx:112 | keeps exactly the entries whose id differs |
| MyCharacters.WithoutIdAppend | app/src/components/my-characters.tsx:112 | the filter keeps the order of the kept entries |
| MyCharacters.WithoutAbsentId | app/src/components/my-characters.tsx:112 | deleting an id that no entry has changes nothing |
| MyCharacters.CharacterList.constructor | app/src/components/my-characters.tsx:95-96 | the list starts empty and loading |
| MyCharacters.CharacterList.Load | app/src/components/my-characters.tsx:98-107 | an array reply replaces the list with the rows read back; any other reply keeps it; loading ends |
| MyCharacters.CharacterList.HandleDelete | app/src/components/my-characters.tsx:109-113 | nothing without confirmation; otherwise the delete is sent and that id's entries are dropped once it returns |
| HomePage.Render | app/src/app/page.tsx:120-161 | loading while the sign-in lookup runs; the list exactly for a signed-in user on the characters view; welcome on welcome; everything else, characters without a user included, the wizard |
| HomePage.AfterPendingSave | app/src/app/page.tsx:44-64 | the restored character takes the saved id only from an OK, readable answer, and is unchanged otherwise |
| HomePage.Home.constructor | app/src/app/page.tsx:26-29 | the view starts as welcome, with no user, no character and the sign-in lookup pending |
| HomePage.Home.AuthEffect | app/src/app/page.tsx:32-86 | a user goes to the characters view, or to the wizard with action "save", posting and restoring a pending save and removing it; a visitor goes to the wizard only if wizard_started is "true", restoring a pending save; the check ends |
| HomePage.Home.HandleStartNew | app/src/app/page.tsx:95-99 | clears the loaded character, sets wizard_started and opens the wizard |
| HomePage.Home.HandleContinue | app/src/app/page.tsx:101-105 | loads the character, sets wizard_started and opens the wizard |
| HomePage.Home.HandleSignOut | app/src/app/page.tsx:107-114 | clears the user, removes wizard_started and returns to welcome |
| HomePage.Home.HandleBackToCharacters | app/src/app/page.tsx:116-118 | only the view changes, to characters |
| HomePage.SignOutThenReload | app/src/app/page.tsx:73-114 | after signing out, a later signed-out lookup stays on the welcome screen |
| HomePage.PeekModifier | app/src/app/page.tsx:172-176 | the peek's undisplayed `modifier` helper, the same rule as the print sheet's `mod`: empty exactly for values <= 0 |
| HomePage.PeekAgreesWithSheet | app/src/components/print-sheet.tsx:5-9 | for a set score the rule renders the character sheet's signed modifier, floor((v - 10) / 2) |
| HomePage.UnsetScoreDiffers | app/src/components/print-sheet.tsx:5-9 | for a score <= 0 the rule renders "" where the character sheet renders "+0" |
| HomePage.Positive | app/src/app/page.tsx:180-187 | keeps exactly the scores above 0 |
| HomePage.TopScore | app/src/app/page.tsx:188 | nothing exactly when no score is positive |
| HomePage.SortDescSorted | app/src/app/page.tsx:188 | the sort returns the same scores, as a multiset, in descending order of value |
| HomePage.TopOfPositive | app/src/app/page.tsx:180-188 | the head of the descending sort of the positive scores is the first maximum of all the scores |
| HomePage.TopScoreIsFirstMaximum | app/src/app/page.tsx:179-188 | the peek shows the highest positive score, the earliest in STR..CHA order on ties, and nothing when all scores are <= 0 |
| HomePage.StoredAll | app/src/app/page.tsx:374-378 | each saved message keeps only its id, role and content |
| HomePage.SaveMethod | app/src/app/page.tsx:382 | PUT exactly when there is a non-empty saved id, otherwise POST |
| HomePage.SavePayload | app/src/app/page.tsx:358-379 | the id is included exactly for a PUT and is the saved id; the chat history is the stored messages |
| HomePage.SaveState.constructor | app/src/app/page.tsx:312-316 | the saved id starts as the character's id, with nothing saving, no modal open and no toast |
| HomePage.SaveState.HandleSave | app/src/app/page.tsx:356-396 | sends the payload with the right method; the saved id is replaced, the modal closed and the toast shown only on an OK, readable answer; saving ends |
| HomePage.SaveState.HandleSaveClick | app/src/app/page.tsx:398-406 | signed in: sends the payload with PUT or POST as the saved id says, and takes the new id, closes the modal and shows the toast only on an OK, readable answer, never left saving; signed out: only opens the sign-in modal |
| HomePage.PortraitAutoSave | app/src/app/page.tsx:441-469 | a saved character is saved again with the new portrait URL; an unsaved one is not |
| HomePage.PortraitAutoSaveStoresUrl | app/src/app/page.tsx:441-469 | the automatic save stores the new URL in the row |
| HomePage.Normalized | app/src/components/my-characters.tsx:79-87 | a read-back character never has level 0 or an empty edition |
| HomePage.NormalizedIdentity | app/src/components/my-characters.tsx:73-92 | a character with a level, an edition and none of the undeclared fields reads back unchanged |
| HomePage.ChatReadBack | app/src/components/my-characters.tsx:90 | a saved chat reads back as the messages without their character updates |
| HomePage.FirstSaveReadsBack | app/src/app/page.tsx:356-392 | a first save, inserted and read back, gives the character normalised, the chat without updates, the new id and its time |
| HomePage.UpdateReadsBack | app/src/app/page.tsx:356-392 | a later save overwrites every column: whatever the row held, it reads back as the saved character |

## Left out

- React rendering, layout, timers, the toast's auto-hide, the lightbox and hover state: view code with no logic beyond markup.
- The sign-in flows, the OAuth callback and `getUser`: the user is an input, present or absent.
- Network and services: the provider streams, image generation, storage upload, database queries and `fetch` are inputs. This covers their error messages, their ids and timestamps, and whether they throw.
- `JSON.parse` and `JSON.stringify` are function parameters. A tool argument that parses to a falsy JSON value (`null`, `0`) is not modelled, because the tool input is always an object.
- `TextDecoder`: chunks are modelled as already-decoded strings.
- Async interleaving and aborts: each turn is one sequential pass over chunks that have already arrived.
- `Date.now`, `new Date(...)` and `toLocaleDateString`: `MyCharacters.TimeAgo` takes the millisecond difference and the rendered locale date as inputs. A date string that does not parse (NaN) is not modelled.
- `toLowerCase` and `toUpperCase` are modelled on ASCII letters only.
- The lookup tables are plain JavaScript objects, so a key such as "constructor" finds an inherited property. The model's tables hold only their listed keys.
- An explicit `null` in a PUT body is treated like a missing key. The model does not store a null column.
- The system prompt template is not part of this model: it is a fixed string around the serialised character.
- The character sheet's inline modifier (`value > 0 ? floor((value - 10) / 2) : 0`, rendered with a sign) is `CharacterUtils.FormatModifier` of `CharacterUtils.AbilityModifier`. The print sheet's `mod` is `HomePage.PeekModifier`, which renders "" for a score <= 0 (`HomePage.UnsetScoreDiffers`). The print sheet's layout is not modelled.
- The peek's `modifier` helper is defined but never displayed. The peek shows only the name, the identity line, the hit points and the top score's value and label.
- The card's local `mod` helper is passed to `StatBox`, which does not display it, so it is not modelled.
- Finite number ranges: numbers are unbounded integers. Floating-point scores, levels and NaN are not modelled.
- CharacterContext.InitialCharacter holds the thirteen keys of the default character. The eight optional keys that only the update merger writes (saving throws, skills, languages, features, attacks, death saves, spellcasting, currency) are not among them, because no caller passes them initially.
- MyCharacters.CharacterList.HandleDelete: a request that throws is modelled as leaving the list unchanged. The confirmation dialog is an input.
- HomePage.Home.AuthEffect: the URL clean-up through `history.replaceState` is left out.
