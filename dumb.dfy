/** The shadow-mute module: the `dumb` command that puts an identity hash in the
    server's mute registry, and the three inbound hooks that swallow the chat,
    invite and whisper events of a muted sender while showing the sender
    fabricated confirmations.

    What the handlers call outside the module is passed in: `isModerator`,
    `find` (the user lookup), `frisk` (the rate limiter: it scores an address
    and answers whether the address is over its limit) and `token` (the random
    text an invite without a channel name gets). What they send is returned as
    an ordered log of effects. */
module Dumb {
  import opened Wrappers
  import opened Js
  import opened DumbText

  type Hash = string
  type Address = string

  /** A registry entry `{dumb: true, allies?}`; `allies` is there only when the
      mute request carried an array. */
  datatype MuteRecord = MuteRecord(dumb: bool, allies: Option<seq<JsValue>>)

  /** The error identifiers the module attaches to its warnings. */
  datatype ErrorId = UnknownUser | Permission | RateLimit

  /** Which warning a `warn` message carries; the wording is not modelled. */
  datatype Warning = UserNotFound | SameLevel | InvitesTooFast | TextTooFast

  /** The payloads the module sends. `Info` is the moderators' notice of a mute,
      with its `channel` property in `scope`; `LegacyInvite` and `LegacyWhisper`
      are the replies translated for a legacy client, kept as the message given
      to the translator and the nick it was given. */
  datatype Message =
    | Warn(warning: Warning, id: Option<ErrorId>, channel: Option<string>)
    | Info(byNick: string, byTrip: Option<string>, targetNick: string, inChannel: JsValue,
           targetHash: Hash, scope: JsValue)
    | Chat(nick: string, uType: string, userid: int, channel: Option<string>, text: string,
           level: int, trip: Option<string>, color: Option<string>)
    | Invite(channel: Option<string>, from: int, to: int, inviteChannel: string)
    | Whisper(channel: Option<string>, from: int, to: int, text: string)
    | LegacyInvite(invite: Message, targetNick: string)
    | LegacyWhisper(whisper: Message, targetNick: string)

  /** Who a broadcast goes to: every moderator; the connections in a channel with
      a given hash; the connections in a channel whose nick is in a list. */
  datatype Filter =
    | Moderators
    | SameHash(channel: Option<string>, hash: Hash)
    | Nicks(channel: Option<string>, nicks: seq<JsValue>)

  /** One call the module makes on the server. */
  datatype Effect =
    | Frisk(address: Address, score: real)
    | Reply(msg: Message, to: Socket)
    | Broadcast(msg: Message, filter: Filter)

  /** What a handler returns to the dispatcher: the payload itself, a boolean
      (`false` stops the event; it is also what `frisk` answered when the handler
      returns that answer), or whatever `server.reply` returned. */
  datatype Verdict = PassThrough(payload: Payload) | Flag(b: bool) | Replied

  /** The properties of a request payload. */
  datatype Fields = Fields(nick: JsValue, userid: JsValue, channel: JsValue, text: JsValue,
                           to: JsValue, allies: JsValue)

  /** A request payload; the handlers write its `channel` property in place. */
  class Payload {
    var fields: Fields

    constructor (fields: Fields)
      ensures this.fields == fields
    {
      this.fields := fields;
    }
  }

  /** A client connection. Only `whisperReply` is written by this module. */
  class Socket {
    const address: Address
    const hash: Hash
    const nick: string
    const trip: Option<string>
    const color: Option<string>
    const uType: string
    const userid: int
    const level: int
    const channel: Option<string>
    const hcProtocol: int
    var whisperReply: Option<string>

    constructor (address: Address, hash: Hash, nick: string, trip: Option<string>,
                 color: Option<string>, uType: string, userid: int, level: int,
                 channel: Option<string>, hcProtocol: int)
      ensures this.address == address && this.hash == hash && this.nick == nick
      ensures this.trip == trip && this.color == color && this.uType == uType
      ensures this.userid == userid && this.level == level && this.channel == channel
      ensures this.hcProtocol == hcProtocol && whisperReply == None
    {
      this.address, this.hash, this.nick, this.trip, this.color := address, hash, nick, trip, color;
      this.uType, this.userid, this.level, this.channel := uType, userid, level, channel;
      this.hcProtocol := hcProtocol;
      whisperReply := None;
    }

    predicate Legacy() {
      hcProtocol == 1
    }
  }

  /** The server core; `muzzledHashes` is `None` until the module's `init` runs. */
  class Core {
    var muzzledHashes: Option<map<Hash, MuteRecord>>

    constructor ()
      ensures muzzledHashes == None
    {
      muzzledHashes := None;
    }
  }

  /** The hooks treat a sender as muted exactly when its hash is a key of the registry. */
  predicate IsMuted(core: Core, hash: Hash)
    reads core
  {
    core.muzzledHashes.Some? && hash in core.muzzledHashes.value
  }

  /** Creates the registry unless it already exists. */
  method Init(core: Core)
    modifies core
    ensures old(core.muzzledHashes).None? ==> core.muzzledHashes == Some(map[])
    ensures old(core.muzzledHashes).Some? ==> core.muzzledHashes == old(core.muzzledHashes)
  {
    if core.muzzledHashes.None? {
      core.muzzledHashes := Some(map[]);
    }
  }

  // ---------------------------------------------------------------------------
  // The `dumb` command
  // ---------------------------------------------------------------------------

  /** The shape the command needs: a nick for a legacy client, a numeric user id otherwise. */
  predicate MuteInputOk(socket: Socket, f: Fields) {
    if socket.Legacy() then f.nick.Str? else f.userid.Num?
  }

  /** The payload a target is looked up with, by the command and by the whisper hook: a
      legacy client's current channel is filled in. */
  function LookupQuery(socket: Socket, f: Fields): (q: Fields)
    ensures q == f.(channel := q.channel)
    ensures q.channel == if socket.Legacy() then FromOption(socket.channel) else f.channel
  {
    if socket.Legacy() then f.(channel := FromOption(socket.channel)) else f
  }

  /** The allies a new record keeps: the request's `allies` when it is an array. */
  function AlliesOf(f: Fields): (a: Option<seq<JsValue>>)
    ensures a.Some? <==> f.allies.Arr?
    ensures a.Some? ==> a.value == f.allies.elems
  {
    if f.allies.Arr? then Some(f.allies.elems) else None
  }

  /** The command mutes someone exactly when the requester is a moderator, the
      input has its protocol's shape, the target is found and its level is below
      the requester's. */
  predicate Muzzles(socket: Socket, f: Fields, isModerator: int -> bool, find: Fields -> Option<Socket>) {
    var target := find(LookupQuery(socket, f));
    isModerator(socket.level) && MuteInputOk(socket, f) && target.Some? && target.value.level < socket.level
  }

  /** `run`. */
  method Run(core: Core, socket: Socket, payload: Payload, isModerator: int -> bool,
             find: Fields -> Option<Socket>, frisk: (Address, real) -> bool)
    returns (v: Verdict, effects: seq<Effect>)
    // only the success path writes the registry, so only it needs one
    requires Muzzles(socket, payload.fields, isModerator, find) ==> core.muzzledHashes.Some?
    modifies core, payload
    // the registry changes only on success, and then only at the target's hash,
    // which gets a fresh record (an earlier one is replaced, not merged)
    ensures Muzzles(socket, old(payload.fields), isModerator, find) ==>
      var target := find(LookupQuery(socket, old(payload.fields))).value;
      core.muzzledHashes ==
        Some(old(core.muzzledHashes.value)[target.hash := MuteRecord(true, AlliesOf(old(payload.fields)))])
    ensures !Muzzles(socket, old(payload.fields), isModerator, find) ==>
      core.muzzledHashes == old(core.muzzledHashes)
    ensures old(core.muzzledHashes).Some? ==>
      core.muzzledHashes.Some? && old(core.muzzledHashes.value).Keys <= core.muzzledHashes.value.Keys
    // the payload's channel is filled in once the input has been checked
    ensures payload.fields ==
      if isModerator(socket.level) && MuteInputOk(socket, old(payload.fields))
      then LookupQuery(socket, old(payload.fields)) else old(payload.fields)
    // a requester below moderator is only scored
    ensures !isModerator(socket.level) ==>
      v == Flag(frisk(socket.address, 10.0)) && effects == [Frisk(socket.address, 10.0)]
    // malformed input is dropped without a word
    ensures isModerator(socket.level) && !MuteInputOk(socket, old(payload.fields)) ==>
      v == Flag(true) && effects == []
    ensures isModerator(socket.level) && MuteInputOk(socket, old(payload.fields)) ==>
      var target := find(LookupQuery(socket, old(payload.fields)));
      if target.None? then
        v == Replied && effects == [Reply(Warn(UserNotFound, Some(UnknownUser), socket.channel), socket)]
      else if target.value.level >= socket.level then
        v == Replied && effects == [Reply(Warn(SameLevel, Some(Permission), socket.channel), socket)]
      else
        v == Flag(true) &&
        effects == [Broadcast(Info(socket.nick, socket.trip, target.value.nick, payload.fields.channel,
                                   target.value.hash, Bool(false)), Moderators)]
  {
    if !isModerator(socket.level) {
      var answer := frisk(socket.address, 10.0);
      return Flag(answer), [Frisk(socket.address, 10.0)];
    }

    if socket.Legacy() {
      if !payload.fields.nick.Str? {
        return Flag(true), [];
      }
      payload.fields := payload.fields.(channel := FromOption(socket.channel));
    } else if !payload.fields.userid.Num? {
      return Flag(true), [];
    }

    var target := find(payload.fields);
    if target.None? {
      return Replied, [Reply(Warn(UserNotFound, Some(UnknownUser), socket.channel), socket)];
    }
    var targetUser := target.value;

    if targetUser.level >= socket.level {
      return Replied, [Reply(Warn(SameLevel, Some(Permission), socket.channel), socket)];
    }

    var record := MuteRecord(true, None);
    if payload.fields.allies.Arr? {
      record := record.(allies := Some(payload.fields.allies.elems));
    }
    core.muzzledHashes := Some(core.muzzledHashes.value[targetUser.hash := record]);

    var notice := Info(socket.nick, socket.trip, targetUser.nick, payload.fields.channel,
                       targetUser.hash, Bool(false));
    return Flag(true), [Broadcast(notice, Moderators)];
  }

  // ---------------------------------------------------------------------------
  // The chat hook
  // ---------------------------------------------------------------------------

  /** The chat message a muted sender's own connections and allies are shown: the
      sender's public attributes, with `trip` and `color` only when they are set. */
  function EchoChat(socket: Socket, text: string): (m: Message)
    ensures m.Chat? && m.text == text && m.channel == socket.channel
    ensures m.nick == socket.nick && m.uType == socket.uType
    ensures m.userid == socket.userid && m.level == socket.level
    ensures m.trip.Some? <==> Truthy(socket.trip)
    ensures m.trip.Some? ==> m.trip == socket.trip
    ensures m.color.Some? <==> Truthy(socket.color)
    ensures m.color.Some? ==> m.color == socket.color
  {
    Chat(socket.nick, socket.uType, socket.userid, socket.channel, text, socket.level,
         if Truthy(socket.trip) then socket.trip else None,
         if Truthy(socket.color) then socket.color else None)
  }

  /** `chatCheck`. */
  method ChatCheck(core: Core, socket: Socket, payload: Payload) returns (v: Verdict, effects: seq<Effect>)
    // the registry is read only once the text is known to be a string
    requires payload.fields.text.Str? ==> core.muzzledHashes.Some?
    // a non-string text is refused whoever sends it
    ensures !payload.fields.text.Str? ==> v == Flag(false) && effects == []
    ensures payload.fields.text.Str? && !IsMuted(core, socket.hash) ==>
      v == PassThrough(payload) && effects == []
    ensures payload.fields.text.Str? && IsMuted(core, socket.hash) ==>
      var allies := core.muzzledHashes.value[socket.hash].allies;
      var msg := EchoChat(socket, payload.fields.text.s);
      v == Flag(false) &&
      effects == [Broadcast(msg, SameHash(socket.channel, socket.hash))] +
                 (if allies.Some? then [Broadcast(msg, Nicks(socket.channel, allies.value))] else []) +
                 [Frisk(socket.address, 9.0)]
    // a muted sender's message reaches only its own hash and its allies
    ensures IsMuted(core, socket.hash) ==>
      forall e | e in effects && e.Broadcast? ::
        e.filter == SameHash(socket.channel, socket.hash) ||
        e.filter == Nicks(socket.channel, core.muzzledHashes.value[socket.hash].allies.value)
    ensures v.PassThrough? <==> payload.fields.text.Str? && !IsMuted(core, socket.hash)
  {
    if !payload.fields.text.Str? {
      return Flag(false), [];
    }

    if socket.hash in core.muzzledHashes.value {
      var msg := EchoChat(socket, payload.fields.text.s);
      effects := [Broadcast(msg, SameHash(socket.channel, socket.hash))];
      var allies := core.muzzledHashes.value[socket.hash].allies;
      if allies.Some? {
        effects := effects + [Broadcast(msg, Nicks(socket.channel, allies.value))];
      }
      effects := effects + [Frisk(socket.address, 9.0)];
      return Flag(false), effects;
    }

    return PassThrough(payload), [];
  }

  // ---------------------------------------------------------------------------
  // The invite hook
  // ---------------------------------------------------------------------------

  /** The shape an invite needs: for a legacy client a nick and a current
      channel, otherwise a numeric user id and a channel string. */
  predicate InviteInputOk(socket: Socket, f: Fields) {
    if socket.Legacy() then socket.channel.Some? && f.nick.Str?
    else f.userid.Num? && f.channel.Str?
  }

  function InviteQuery(socket: Socket, f: Fields): (q: Fields)
    requires InviteInputOk(socket, f)
    ensures q == f.(channel := q.channel)
    ensures q.channel == if socket.Legacy() then Str(socket.channel.value) else f.channel
  {
    if socket.Legacy() then f.(channel := Str(socket.channel.value)) else f
  }

  /** The fabricated invite confirmation a muted sender is shown. */
  function InviteReply(socket: Socket, target: Socket, inviteChannel: string): (m: Message)
    ensures m.LegacyInvite? <==> socket.Legacy()
    ensures m.LegacyInvite? ==> m.targetNick == target.nick
    ensures var i := if m.LegacyInvite? then m.invite else m;
      i == Invite(socket.channel, socket.userid, target.userid, inviteChannel)
  {
    var inner := Invite(socket.channel, socket.userid, target.userid, inviteChannel);
    if socket.Legacy() then LegacyInvite(inner, target.nick) else inner
  }

  /** Nothing is broadcast and every reply goes to the sender. */
  predicate OnlyToSender(effects: seq<Effect>, socket: Socket) {
    forall i | 0 <= i < |effects| :: !effects[i].Broadcast? && (effects[i].Reply? ==> effects[i].to == socket)
  }

  /** `inviteCheck`. */
  method InviteCheck(core: Core, socket: Socket, payload: Payload, find: Fields -> Option<Socket>,
                     frisk: (Address, real) -> bool, token: string)
    returns (v: Verdict, effects: seq<Effect>)
    requires core.muzzledHashes.Some?
    modifies payload
    ensures !IsMuted(core, socket.hash) ==>
      v == PassThrough(payload) && effects == [] && unchanged(payload)
    ensures IsMuted(core, socket.hash) ==>
      !v.PassThrough? && OnlyToSender(effects, socket) && |effects| >= 1 &&
      effects[0] == Frisk(socket.address, 2.0)
    // the rate limit is checked before the input
    ensures IsMuted(core, socket.hash) && frisk(socket.address, 2.0) ==>
      v == Replied && unchanged(payload) &&
      effects == [Frisk(socket.address, 2.0), Reply(Warn(InvitesTooFast, Some(RateLimit), socket.channel), socket)]
    ensures IsMuted(core, socket.hash) && !frisk(socket.address, 2.0) && !InviteInputOk(socket, old(payload.fields)) ==>
      v == Flag(true) && unchanged(payload) && effects == [Frisk(socket.address, 2.0)]
    ensures IsMuted(core, socket.hash) && !frisk(socket.address, 2.0) && InviteInputOk(socket, old(payload.fields)) ==>
      var q := InviteQuery(socket, old(payload.fields));
      var target := find(q);
      payload.fields == q &&
      if target.None? then
        v == Replied &&
        effects == [Frisk(socket.address, 2.0), Reply(Warn(UserNotFound, Some(UnknownUser), socket.channel), socket)]
      else
        v == Flag(false) &&
        effects == [Frisk(socket.address, 2.0),
                    Reply(InviteReply(socket, target.value, GetChannel(q.to, token)), socket)]
  {
    if socket.hash in core.muzzledHashes.value {
      effects := [Frisk(socket.address, 2.0)];
      if frisk(socket.address, 2.0) {
        effects := effects + [Reply(Warn(InvitesTooFast, Some(RateLimit), socket.channel), socket)];
        return Replied, effects;
      }

      if socket.Legacy() {
        if socket.channel.None? || !payload.fields.nick.Str? {
          return Flag(true), effects;
        }
        payload.fields := payload.fields.(channel := Str(socket.channel.value));
      } else if !payload.fields.userid.Num? || !payload.fields.channel.Str? {
        return Flag(true), effects;
      }

      var target := find(payload.fields);
      if target.None? {
        effects := effects + [Reply(Warn(UserNotFound, Some(UnknownUser), socket.channel), socket)];
        return Replied, effects;
      }

      var channel := GetChannel(payload.fields.to, token);
      effects := effects + [Reply(InviteReply(socket, target.value, channel), socket)];
      return Flag(false), effects;
    }

    return PassThrough(payload), [];
  }

  // ---------------------------------------------------------------------------
  // The whisper hook
  // ---------------------------------------------------------------------------

  /** `text.length / 83 / 4`, on reals. */
  function WhisperScore(text: string): (score: real)
    ensures score * 332.0 == |text| as real
  {
    |text| as real / 83.0 / 4.0
  }

  /** The fabricated whisper confirmation a muted sender is shown. */
  function WhisperReply(socket: Socket, target: Socket, text: string): (m: Message)
    ensures m.LegacyWhisper? <==> socket.Legacy()
    ensures m.LegacyWhisper? ==> m.targetNick == target.nick
    ensures var w := if m.LegacyWhisper? then m.whisper else m;
      w == Whisper(socket.channel, socket.userid, target.userid, text)
  {
    var inner := Whisper(socket.channel, socket.userid, target.userid, text);
    if socket.Legacy() then LegacyWhisper(inner, target.nick) else inner
  }

  /** The connection a lookup found, as a set. */
  function Found(target: Option<Socket>): set<Socket>
  {
    if target.Some? then {target.value} else {}
  }

  /** What `whisperCheck` makes of a muted sender's whisper. */
  predicate AbsorbsWhisper(socket: Socket, q: Fields, find: Fields -> Option<Socket>,
                           frisk: (Address, real) -> bool, v: Verdict, effects: seq<Effect>)
  {
    AnswersWhisper(socket, ParseText(q.text), find(q), frisk, v, effects)
  }

  /** The answer to a muted sender's whisper, given the sanitised text and the
      target lookup. */
  predicate AnswersWhisper(socket: Socket, text: Option<string>, target: Option<Socket>,
                           frisk: (Address, real) -> bool, v: Verdict, effects: seq<Effect>)
  {
    if text.None? || text.value == [] then
      // no text, or nothing left of it: only scored
      v == Flag(frisk(socket.address, 13.0)) && effects == [Frisk(socket.address, 13.0)]
    else if frisk(socket.address, WhisperScore(text.value)) then
      v == Replied &&
      effects == [Frisk(socket.address, WhisperScore(text.value)),
                  Reply(Warn(TextTooFast, None, socket.channel), socket)]
    else if target.None? then
      v == Replied &&
      effects == [Frisk(socket.address, WhisperScore(text.value)),
                  Reply(Warn(UserNotFound, Some(UnknownUser), socket.channel), socket)]
    else
      v == Flag(false) &&
      effects == [Frisk(socket.address, WhisperScore(text.value)),
                  Reply(WhisperReply(socket, target.value, text.value), socket)]
  }

  /** The whisper target's `whisperReply` is written only on the success path. */
  predicate WhisperDelivered(socket: Socket, q: Fields, find: Fields -> Option<Socket>,
                             frisk: (Address, real) -> bool)
  {
    DeliversWhisper(socket, ParseText(q.text), find(q), frisk)
  }

  /** The success path, given the sanitised text and the target lookup: some text is
      left, the limiter lets it through and the target is found. */
  predicate DeliversWhisper(socket: Socket, text: Option<string>, target: Option<Socket>,
                            frisk: (Address, real) -> bool)
  {
    text.Some? && text.value != [] && !frisk(socket.address, WhisperScore(text.value)) && target.Some?
  }

  /** A muted sender's whisper is never passed on and only ever answered to the sender. */
  lemma AbsorbedWhisperOnlyToSender(socket: Socket, text: Option<string>, target: Option<Socket>,
                                    frisk: (Address, real) -> bool, v: Verdict, effects: seq<Effect>)
    requires AnswersWhisper(socket, text, target, frisk, v, effects)
    ensures !v.PassThrough? && OnlyToSender(effects, socket) && |effects| >= 1 && effects[0].Frisk?
  {
  }

  /** `whisperCheck`. */
  method WhisperCheck(core: Core, socket: Socket, payload: Payload, find: Fields -> Option<Socket>,
                      frisk: (Address, real) -> bool)
    returns (v: Verdict, effects: seq<Effect>)
    requires core.muzzledHashes.Some?
    modifies payload, Found(find(LookupQuery(socket, payload.fields)))
    ensures !IsMuted(core, socket.hash) ==>
      v == PassThrough(payload) && effects == [] && unchanged(payload) &&
      unchanged(Found(find(LookupQuery(socket, old(payload.fields)))))
    ensures IsMuted(core, socket.hash) ==>
      var q := LookupQuery(socket, old(payload.fields));
      payload.fields == q && AbsorbsWhisper(socket, q, find, frisk, v, effects) &&
      !v.PassThrough? && OnlyToSender(effects, socket) && |effects| >= 1 && effects[0].Frisk?
    // the target is only made to answer the sender next time, and only on success
    ensures IsMuted(core, socket.hash) ==>
      var q := LookupQuery(socket, old(payload.fields));
      if WhisperDelivered(socket, q, find, frisk) then find(q).value.whisperReply == Some(socket.nick)
      else unchanged(Found(find(q)))
  {
    if socket.hash in core.muzzledHashes.value {
      if socket.Legacy() {
        payload.fields := payload.fields.(channel := FromOption(socket.channel));
      }
      v, effects := AnswerMutedWhisper(socket, payload.fields, find, frisk);
      AbsorbedWhisperOnlyToSender(socket, ParseText(payload.fields.text), find(payload.fields), frisk, v, effects);
      return;
    }

    return PassThrough(payload), [];
  }

  /** The part of `whisperCheck` after a muted legacy sender's channel has been
      filled in: `q` is the payload at that point. */
  method AnswerMutedWhisper(socket: Socket, q: Fields, find: Fields -> Option<Socket>,
                            frisk: (Address, real) -> bool)
    returns (v: Verdict, effects: seq<Effect>)
    modifies Found(find(q))
    ensures AbsorbsWhisper(socket, q, find, frisk, v, effects)
    ensures if WhisperDelivered(socket, q, find, frisk) then find(q).value.whisperReply == Some(socket.nick)
      else unchanged(Found(find(q)))
  {
    var text := ParseText(q.text);
    v, effects := AnswerWhisperText(socket, text, q, find, frisk);
  }

  /** The rest of `whisperCheck` once the text has been sanitised into `text`. */
  method AnswerWhisperText(socket: Socket, text: Option<string>, q: Fields, find: Fields -> Option<Socket>,
                           frisk: (Address, real) -> bool)
    returns (v: Verdict, effects: seq<Effect>)
    modifies Found(find(q))
    ensures AnswersWhisper(socket, text, find(q), frisk, v, effects)
    ensures if DeliversWhisper(socket, text, find(q), frisk) then find(q).value.whisperReply == Some(socket.nick)
      else unchanged(Found(find(q)))
  {
    if text.None? || text.value == [] {
      var answer := frisk(socket.address, 13.0);
      return Flag(answer), [Frisk(socket.address, 13.0)];
    }

    var score := WhisperScore(text.value);
    effects := [Frisk(socket.address, score)];
    if frisk(socket.address, score) {
      effects := effects + [Reply(Warn(TextTooFast, None, socket.channel), socket)];
      return Replied, effects;
    }

    var target := find(q);
    if target.None? {
      effects := effects + [Reply(Warn(UserNotFound, Some(UnknownUser), socket.channel), socket)];
      return Replied, effects;
    }
    var targetUser := target.value;

    effects := effects + [Reply(WhisperReply(socket, targetUser, text.value), socket)];
    targetUser.whisperReply := Some(socket.nick);
    return Flag(false), effects;
  }

  // ---------------------------------------------------------------------------
  // The command and the chat hook together
  // ---------------------------------------------------------------------------

  /** A successful mute followed by a chat message from any connection with the
      target's hash: the message goes back to that hash's connections and, when
      the request named allies, to them; nobody else is sent anything. */
  method MuteThenChat(core: Core, moderator: Socket, request: Payload, isModerator: int -> bool,
                      find: Fields -> Option<Socket>, frisk: (Address, real) -> bool,
                      sender: Socket, message: Payload)
    returns (effects: seq<Effect>)
    requires core.muzzledHashes.Some?
    requires Muzzles(moderator, request.fields, isModerator, find)
    requires sender.hash == find(LookupQuery(moderator, request.fields)).value.hash
    requires message != request && message.fields.text.Str?
    modifies core, request
    ensures var allies := AlliesOf(old(request.fields));
      var msg := EchoChat(sender, message.fields.text.s);
      effects == [Broadcast(msg, SameHash(sender.channel, sender.hash))] +
                 (if allies.Some? then [Broadcast(msg, Nicks(sender.channel, allies.value))] else []) +
                 [Frisk(sender.address, 9.0)]
  {
    var _, _ := Run(core, moderator, request, isModerator, find, frisk);
    var _, chatEffects := ChatCheck(core, sender, message);
    effects := chatEffects;
  }
}
