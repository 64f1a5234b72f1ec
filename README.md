# Shadow mute ("dumb") module, modelled in Dafny

This project models the chat server's shadow-mute module, `commands/mod/dumb.js`. A
moderator runs the `dumb` command (aliases `muzzle`, `mute`) against a user. The command
puts the user's identity hash into the server core's registry `muzzledHashes`. From then
on, three inbound hooks swallow that identity's chat messages, invites and whispers.
The sender sees fabricated confirmations and is scored by the rate limiter.

Files:

- `js.dfy`: `Wrappers.Option`, and `Js.JsValue`, which stands for the JSON values a
  client can put in a payload property. `Undefined` stands for an absent property.
- `text.dfy`, module `DumbText`: the two pure helpers. `parseText` is the whisper-text
  sanitiser, modelled as its two regular-expression passes. `getChannel` picks the
  invite channel.
- `dumb.dfy`, module `Dumb`: the imperative part.
  - `Core` holds the registry as an `Option<map<Hash, MuteRecord>>`. `None` means `init`
    has not run yet.
  - `Socket` is a connection. Its fields are constants, except `whisperReply`, which the
    whisper hook writes on the target.
  - `Payload` is a request whose `fields` record the handlers rewrite in place (the
    `channel` property).
  - `Init`, `Run`, `ChatCheck`, `InviteCheck` and `WhisperCheck` are methods. `Init`
    only creates the registry and returns nothing. The four handlers return what the
    handler returns (`Verdict`) and an ordered log of the calls made on the server
    (`Effect`: `Frisk`, `Reply`, `Broadcast`).

Collaborators outside the module are parameters:

- `isModerator: int -> bool`.
- `find: Fields -> Option<Socket>` stands for `findUser`. It receives the payload's
  properties as they are at the call.
- `frisk: (Address, real) -> bool` is the rate limiter's answer for an address and a
  score.
- `token: string` is the random text `getChannel` falls back to.

The error identifiers (`ErrorId`) and warning kinds (`Warning`) are opaque constructors.

Properties proved:

- Whisper text, once sanitised, has no three newlines in a row and neither starts nor
  ends with a newline. The second pass turns each maximal run of three or more newlines
  into exactly two and keeps shorter runs; it only ever removes newlines. It leaves a text
  unchanged exactly when the text has no triple newline.
- Sanitising is not idempotent. `ParseTextNotIdempotent` exhibits `"\n  "`, which becomes
  `"  "`, which becomes `""`.
- `Run` writes the registry only on success, and then only at the target's hash. The new
  record replaces any earlier one. It keeps `allies` exactly when the request's `allies`
  is an array. Mute creation succeeds exactly when the target's level is below the
  requester's (given a moderator, well-formed input and a found target).
- Each failure path of `Run` has its exact effect: a frisk of 10, silence, an
  `UNKNOWN_USER` warning, or a `PERMISSION` warning.
- A sender whose hash is not in the registry is passed through unchanged by every hook,
  with no effects (for chat, once its text is a string: a non-string text is refused
  whoever sends it).
- A muted sender's chat is broadcast only to its own hash and, when the record has
  allies, to them. Invites and whispers of a muted sender only ever produce replies to
  the sender's own socket. The whisper target's `whisperReply` changes only on the
  success path.
- `MuteThenChat` connects the two halves: after a successful mute, a chat from the
  target's hash reaches exactly the hash filter and, when given, the allies filter.

Points about the code worth knowing:

- Sanitising is not idempotent (see `ParseTextNotIdempotent`).
- `substr(2, 8)` can give fewer than 8 characters, so the invite token stays opaque.
- `inviteCheck` checks its input more strictly than `run`: a legacy client must also
  have a current channel, and a current-protocol client must also send a channel string.
- The whisper hook scores 13, and returns the limiter's answer, not only for a
  non-string text but also when the sanitised text is empty.

## Model

| member | source | states |
|---|---|---|
| DumbText.GetChannel | commands/mod/dumb.js:29-34 | a string argument, the empty string included, comes back as it is; any other value yields the injected token |
| DumbText.HeadCut | commands/mod/dumb.js:45 | what `^\s*\n` removes lies inside the leading whitespace and ends in a newline, and no newline of the leading whitespace lies beyond it: the greedy `\s*` backs off to the last such newline |
| DumbText.TailStart | commands/mod/dumb.js:45 | `\n\s*$` matches first at a newline inside the trailing whitespace, at or after the scan start, with no such newline before it; or nowhere |
| DumbText.StripEdges | commands/mod/dumb.js:45 | the first pass keeps an infix and cuts only whitespace; the result neither starts nor ends with a newline and has no blank-line run left at either edge; newline-free text is unchanged unless it is only whitespace (then emptied); text with non-blank ends is unchanged; unless the text is non-empty, all whitespace and newline-free, the result is exactly the text between the end of the `^\s*\n` match (`HeadCut`) and the first `\n\s*$` match after it (`TailStart`), so indentation after a stripped blank line is kept |
| DumbText.StripEdgesIsNotTrim | commands/mod/dumb.js:45 | the first pass is not a trim: `"\n x"` becomes `" x"` and `"x \n"` becomes `"x "` |
| DumbText.StripEdgesKeepsNoBlankLine | commands/mod/dumb.js:45 | after the first pass no whitespace run holding a newline is left at either edge |
| DumbText.StripEdgesCutsWhitespace | commands/mod/dumb.js:45 | the first pass cuts only whitespace, and cuts nothing from a newline-free text or from one whose first and last characters are not whitespace |
| DumbText.NewlineRun | commands/mod/dumb.js:47 | the maximal run of newlines a text starts with |
| DumbText.Collapse | commands/mod/dumb.js:47 | the second pass never lengthens a text, empties only the empty text, and keeps a first or last character that is not a newline |
| DumbText.CollapseNoTriple | commands/mod/dumb.js:47 | after `\n{3,}` is replaced by two newlines no three newlines in a row remain |
| DumbText.CollapseKeepsText | commands/mod/dumb.js:47 | the second pass removes only newlines: the other characters stay, in order |
| DumbText.CollapseShortRun | commands/mod/dumb.js:47 | in a text without a triple newline the leading run of newlines is shorter than three and is kept as it is |
| DumbText.CollapseKeepsNoTriple | commands/mod/dumb.js:47 | a text without three newlines in a row is left unchanged |
| DumbText.CollapseFixedPoint | commands/mod/dumb.js:47 | the second pass leaves a text unchanged if and only if it has no triple newline |
| DumbText.NewlineRunAppend | commands/mod/dumb.js:47 | the run of newlines of a concatenation stops inside the first text, or fills it and goes on into the second |
| DumbText.CollapseNewlines | commands/mod/dumb.js:46-47 | a run of three or more newlines becomes exactly two newlines; a run of one or two is kept |
| DumbText.CollapseAppend | commands/mod/dumb.js:46-47 | the second pass works piece by piece: on two texts that do not meet in a newline it gives the concatenation of the two results, so each maximal run is replaced on its own |
| DumbText.SanitisedText | commands/mod/dumb.js:42-49 | both passes together: no triple newline, no newline at either end, no longer than the input, and newline-free input kept unless it is all whitespace |
| DumbText.ParseText | commands/mod/dumb.js:36-50 | `false` (None) exactly for a non-string; for a string, the sanitised text with the properties above |
| DumbText.ParseTextNotIdempotent | commands/mod/dumb.js:45-47 | `"\n  "` sanitises to `"  "`, which sanitises to `""` |
| Js.FromOption | commands/mod/dumb.js:74 | copying a string-or-undefined property gives a string exactly when there is one |
| Dumb.Socket.Legacy | commands/mod/dumb.js:69 | a legacy client is one whose `hcProtocol` is 1; the same test selects the legacy paths at lines 199, 234, 252 and 293 |
| Dumb.IsMuted | commands/mod/dumb.js:135 | a sender counts as muted exactly when its hash is a key of the registry: a stored record is an object, so always truthy; the same test opens the invite and whisper hooks at lines 186 and 250 |
| Dumb.Init | commands/mod/dumb.js:53-57 | creates an empty registry only when there is none; an existing registry is untouched |
| Dumb.LookupQuery | commands/mod/dumb.js:69-77 | the lookup payload (of the command, and likewise of the whisper hook) differs from the request at most in `channel`, which a legacy client gets from its connection |
| Dumb.MuteInputOk | commands/mod/dumb.js:69-77 | the command goes on only with a string nick for a legacy client and a numeric user id otherwise |
| Dumb.Muzzles | commands/mod/dumb.js:64-99 | the command mutes exactly when the requester is a moderator, the input is well-formed, the target is found and its level is below the requester's |
| Dumb.AlliesOf | commands/mod/dumb.js:105-108 | the new record has allies exactly when the request's `allies` is an array, and then exactly that array |
| Dumb.Run | commands/mod/dumb.js:60-118 | non-moderator: only a frisk of 10 and its answer returned; malformed input: `true`, no effects; unknown target: an `UNKNOWN_USER` warning to the requester; target level at or above: a `PERMISSION` warning; success: the target's hash gets a fresh `{dumb: true, allies?}` record, other keys unchanged, one global info broadcast to moderators; the registry changes only on success |
| Dumb.EchoChat | commands/mod/dumb.js:137-153 | the echoed chat carries the sender's nick, uType, userid, channel, level and the text, and `trip`/`color` exactly when the connection has truthy ones |
| Dumb.ChatCheck | commands/mod/dumb.js:128-180 | non-string text: `false` with no effects, muted or not; unmuted: the payload itself, no effects; muted: broadcast to the sender's hash, then to its allies only when the record has them, then a frisk of 9, and `false`; no other recipients |
| Dumb.InviteInputOk | commands/mod/dumb.js:198-207 | an invite goes on only with a current channel and a string nick for a legacy client, and a numeric user id and a channel string otherwise |
| Dumb.InviteQuery | commands/mod/dumb.js:199-207 | the invite lookup payload differs from the request at most in `channel`, which a legacy client gets from its current channel |
| Dumb.InviteReply | commands/mod/dumb.js:225-238 | the fabricated invite carries the sender's channel and user id, the target's user id and the chosen channel, and is legacy-translated with the target's nick exactly for a legacy sender |
| Dumb.InviteCheck | commands/mod/dumb.js:183-244 | unmuted: the payload, no effects; muted: a frisk of 2 first, `RATELIMIT` warning when it answers true, `true` for malformed input, `UNKNOWN_USER` for an unknown target, otherwise the fabricated invite (legacy-translated for legacy clients) with the chosen channel, replied to the sender only, and `false` |
| Dumb.WhisperScore | commands/mod/dumb.js:265 | the score is the text length divided by 332 |
| Dumb.WhisperReply | commands/mod/dumb.js:284-297 | the fabricated whisper carries the sender's channel and user id, the target's user id and the sanitised text, and is legacy-translated with the target's nick exactly for a legacy sender |
| Dumb.WhisperCheck | commands/mod/dumb.js:247-305 | unmuted: the payload, no effects, target untouched; muted: a non-string or empty sanitised text only scores 13 and returns the answer; a text over the limit gets a warning with no id; an unknown target gets `UNKNOWN_USER`; otherwise the fabricated whisper goes to the sender only and the target's `whisperReply` becomes the sender's nick; every reply goes to the sender |
| Dumb.AnswerMutedWhisper | commands/mod/dumb.js:257-301 | once the legacy channel is filled in: scored 13 with the limiter's answer for no text, else scored by length with a `TextTooFast` warning, an `UNKNOWN_USER` warning or the fabricated whisper to the sender; the target's `whisperReply` is set exactly on that last path and otherwise the target is untouched |
| Dumb.AnswerWhisperText | commands/mod/dumb.js:259-301 | given the sanitised text, the branches of `AnswerMutedWhisper` in order; the target's `whisperReply` is written exactly on the success path and the target is untouched otherwise |
| Dumb.AbsorbedWhisperOnlyToSender | commands/mod/dumb.js:257-301 | every answer to a muted whisper begins with a frisk, is never the payload, and replies only to the sender's own socket |
| Dumb.MuteThenChat | commands/mod/dumb.js:101-176 | after a successful mute, a chat from the target's hash is broadcast exactly to that hash and, when the request gave an array, to the allies filter |

## Left out

- `initHooks` and the hook priority 10 (lines 121-125) are not modelled: they are dispatcher registration. `info` and its aliases are metadata.
- `getChannel`'s random draw `Math.random().toString(36).substr(2, 8)` is the `token` parameter. Its length and alphabet are not modelled, since `substr` can give fewer than 8 characters.
- `findUser`, `isModerator` and the `Errors` constants are parameters or opaque constructors. `legacyInviteReply` and `legacyWhisperReply` are kept as untranslated wrappers (`LegacyInvite`, `LegacyWhisper`).
- The effects of `server.reply`, `server.broadcast` and the rate limiter's scoring are not modelled. They appear only as entries of the effect log and answers of `frisk`.
- The wording of the warnings is not modelled, and neither is the formatting of the moderators' notice. The notice is kept as its parts: requester nick and trip, target nick, channel, target hash.
- `\s` is a fixed set: space, tab, newline, carriage return, vertical tab and form feed. JavaScript's other Unicode spaces are not included.
- `text.length` counts UTF-16 code units. The model counts Dafny characters (Unicode scalar values), so the two differ for characters outside the Basic Multilingual Plane.
- The score `text.length / 83 / 4` is an exact `real`; floating-point rounding is not modelled.
- Numbers in payloads are reals; NaN and the infinities are not represented.
- `Run` is `async` in the source, so its value reaches the dispatcher as a promise. The model returns the value itself.
- Registry lookups use keys only. A hash equal to an inherited property name of a JavaScript object (such as `constructor`) would read as muted in the source; this is not modelled.
- The registry stores the `allies` array by value. The source keeps a reference to the request's array, so later changes to that array would show through; this aliasing is not modelled.
- The registry must exist on the paths that read it: `run`'s success path (line 101), `chatCheck` once the text is a string (line 135), and `inviteCheck` and `whisperCheck` from their first test (lines 186 and 250). There the source fails with a `TypeError`; the model requires the registry on exactly those paths instead of modelling the failure. `run`'s other paths and `chatCheck` with a non-string text need no registry, in the source and in the model.
