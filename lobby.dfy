/** The lobby of server/server.js: who is present, the one pending or running match, and
    the instruction and ready flags of its players. The lobby record is shared by every
    connection; each connection remembers the client id it identified with. The clock,
    `createId` and the `Math.random` coin flips arrive as message parameters. */
module Lobby {
  import opened Basics

  /** `lobbyState.presence[id]`: `{ id, name, updatedAt }`. An entry rebuilt by
      `update-presence` after its client left has no `id` (the spread of `undefined`). */
  datatype Presence = Presence(id: Option<string>, name: string, updatedAt: int)

  datatype MatchStatus = Pending | Active | InGame

  /** `lobbyState.match`. `seats` and `firstSeat` are absent until the invite is accepted. */
  datatype MatchInfo = MatchInfo(
    id: string, status: MatchStatus, inviter: Option<string>, invitee: Option<string>, createdAt: int,
    seats: Option<map<string, int>>, firstSeat: Option<int>)
  {
    /** `players: [inviter, invitee]`. */
    function Players(): seq<Option<string>>
    {
      [inviter, invitee]
    }
  }

  /** `lobbyState`; `currentMatch` is its `match` (a keyword here). */
  datatype LobbyState = LobbyState(
    presence: map<string, Presence>, currentMatch: Option<MatchInfo>,
    instructionsAck: map<string, bool>, ready: map<string, bool>)

  /** A lobby message. `heads` stands for `Math.random() < 0.5`. */
  datatype LobbyMessage =
    | Identify(clientId: Option<string>, name: string, now: int)
    | UpdatePresence(name: string, now: int)
    | InvitePlayer(targetId: Option<string>, matchId: string, now: int)
    | DeclineInvite
    | AcceptInvite(seatsHeads: bool, firstSeatHeads: bool)
    | AcknowledgeInstructions
    | ToggleReady
    | MarkMatchInGame
    | RequestRematch(firstSeatHeads: bool)
    | Unrecognised

  /** The property name a client id becomes when it indexes an object: `null` is "null". */
  function Key(id: Option<string>): string
  {
    if id.Some? then id.value else "null"
  }

  /** `if (ws.clientId)`: set and not the empty string. */
  predicate Truthy(id: Option<string>)
  {
    id.Some? && id.value != ""
  }

  /** A flag read as JavaScript reads `!flags[key]`: a missing entry is `undefined`, falsy. */
  predicate Flag(flags: map<string, bool>, key: string)
  {
    key in flags && flags[key]
  }

  function FirstSeat(heads: bool): (r: int)
    ensures r == 1 || r == 2
  {
    if heads then 1 else 2
  }

  /** `seats` of an accepted match: `seatsOrder[0]` for the inviter, `seatsOrder[1]` for
      the invitee, where `seatsOrder` is `[1, 2]` or `[2, 1]`. When both ids give the same
      key, the invitee's entry is the one that stays. */
  function Seats(inviter: Option<string>, invitee: Option<string>, heads: bool): (r: map<string, int>)
    ensures r.Keys == {Key(inviter), Key(invitee)}
    ensures r[Key(invitee)] == (if heads then 2 else 1)
    ensures Key(inviter) != Key(invitee) ==> multiset{r[Key(inviter)], r[Key(invitee)]} == multiset{1, 2}
  {
    var order := if heads then [1, 2] else [2, 1];
    map[Key(inviter) := order[0]][Key(invitee) := order[1]]
  }

  /** One lobby message from the connection identified as `clientId`. */
  function Handle(s: LobbyState, clientId: Option<string>, msg: LobbyMessage): (r: LobbyState)
    ensures !(msg.Identify? || msg.UpdatePresence?) ==> r.presence == s.presence
    ensures msg.Identify? || msg.UpdatePresence? ==>
      r.currentMatch == s.currentMatch && r.instructionsAck == s.instructionsAck && r.ready == s.ready
    ensures msg.Identify? ==>
      && Key(msg.clientId) in r.presence && r.presence[Key(msg.clientId)] == Presence(msg.clientId, msg.name, msg.now)
      && (forall k :: k != Key(msg.clientId) ==> (k in r.presence <==> k in s.presence))
      && (forall k :: k != Key(msg.clientId) && k in s.presence ==> r.presence[k] == s.presence[k])
    ensures msg.UpdatePresence? && !Truthy(clientId) ==> r == s
    ensures msg.UpdatePresence? && Truthy(clientId) ==>
      && Key(clientId) in r.presence
      && r.presence[Key(clientId)].name == msg.name && r.presence[Key(clientId)].updatedAt == msg.now
      && (Key(clientId) in s.presence ==> r.presence[Key(clientId)].id == s.presence[Key(clientId)].id)
      && (Key(clientId) !in s.presence ==> r.presence[Key(clientId)].id.None?)
      && (forall k :: k != Key(clientId) ==> (k in r.presence <==> k in s.presence))
      && (forall k :: k != Key(clientId) && k in s.presence ==> r.presence[k] == s.presence[k])
    ensures msg.InvitePlayer? ==>
      && r.currentMatch.Some? && r.currentMatch.value.status == Pending
      && r.currentMatch.value.id == msg.matchId && r.currentMatch.value.createdAt == msg.now
      && r.currentMatch.value.Players() == [clientId, msg.targetId]
      && r.currentMatch.value.seats.None? && r.currentMatch.value.firstSeat.None?
      && r.instructionsAck == map[] && r.ready == map[]
    ensures msg.DeclineInvite? ==>
      r.currentMatch.None? && r.instructionsAck == s.instructionsAck && r.ready == s.ready
    ensures msg.AcceptInvite? ==>
      if s.currentMatch.Some? && s.currentMatch.value.invitee == clientId then
        var m := s.currentMatch.value;
        && r.currentMatch.Some? && r.currentMatch.value.status == Active
        && r.currentMatch.value.id == m.id && r.currentMatch.value.createdAt == m.createdAt
        && r.currentMatch.value.Players() == m.Players()
        && r.currentMatch.value.seats == Some(Seats(m.inviter, m.invitee, msg.seatsHeads))
        && r.currentMatch.value.firstSeat == Some(FirstSeat(msg.firstSeatHeads))
        && r.instructionsAck == s.instructionsAck && r.ready == s.ready
      else r == s
    ensures msg.AcknowledgeInstructions? ==>
      && Flag(r.instructionsAck, Key(clientId))
      && r.instructionsAck.Keys == s.instructionsAck.Keys + {Key(clientId)}
      && (forall k :: k != Key(clientId) && k in s.instructionsAck ==> r.instructionsAck[k] == s.instructionsAck[k])
      && r.currentMatch == s.currentMatch && r.ready == s.ready
    ensures msg.ToggleReady? ==>
      && Flag(r.ready, Key(clientId)) == !Flag(s.ready, Key(clientId))
      && (forall k :: k != Key(clientId) ==> (k in r.ready <==> k in s.ready) && (k in s.ready ==> r.ready[k] == s.ready[k]))
      && r.currentMatch == s.currentMatch && r.instructionsAck == s.instructionsAck
    ensures msg.MarkMatchInGame? ==>
      && r.currentMatch.None? == s.currentMatch.None?
      && (r.currentMatch.Some? ==> r.currentMatch.value == s.currentMatch.value.(status := InGame))
      && r.instructionsAck == s.instructionsAck && r.ready == s.ready
    ensures msg.RequestRematch? ==>
      if s.currentMatch.Some? then
        var m := s.currentMatch.value;
        && r.currentMatch.Some? && r.currentMatch.value.status == Active
        && r.currentMatch.value.firstSeat.Some?
        && (r.currentMatch.value.firstSeat.value == 1 || r.currentMatch.value.firstSeat.value == 2)
        && r.currentMatch.value == m.(status := Active, firstSeat := r.currentMatch.value.firstSeat)
        && r.instructionsAck == map[] && r.ready == map[]
      else r == s
    ensures msg.Unrecognised? ==> r == s
  {
    var key := Key(clientId);
    match msg
    case Identify(id, name, now) =>
      s.(presence := s.presence[Key(id) := Presence(id, name, now)])
    case UpdatePresence(name, now) =>
      if Truthy(clientId) then
        var earlier := if key in s.presence then s.presence[key].id else None;
        s.(presence := s.presence[key := Presence(earlier, name, now)])
      else s
    case InvitePlayer(targetId, matchId, now) =>
      s.(currentMatch := Some(MatchInfo(matchId, Pending, clientId, targetId, now, None, None)),
         instructionsAck := map[], ready := map[])
    case DeclineInvite =>
      s.(currentMatch := None)
    case AcceptInvite(seatsHeads, firstSeatHeads) =>
      if s.currentMatch.Some? && s.currentMatch.value.invitee == clientId then
        var m := s.currentMatch.value;
        s.(currentMatch := Some(m.(seats := Some(Seats(m.inviter, m.invitee, seatsHeads)),
                            firstSeat := Some(FirstSeat(firstSeatHeads)), status := Active)))
      else s
    case AcknowledgeInstructions =>
      s.(instructionsAck := s.instructionsAck[key := true])
    case ToggleReady =>
      s.(ready := s.ready[key := !Flag(s.ready, key)])
    case MarkMatchInGame =>
      if s.currentMatch.Some? then s.(currentMatch := Some(s.currentMatch.value.(status := InGame))) else s
    case RequestRematch(firstSeatHeads) =>
      if s.currentMatch.Some? then
        s.(currentMatch := Some(s.currentMatch.value.(status := Active, firstSeat := Some(FirstSeat(firstSeatHeads)))),
           instructionsAck := map[], ready := map[])
      else s
    case Unrecognised =>
      s
  }

  /** The `close` handler of the connection identified as `clientId`. */
  function Closed(s: LobbyState, clientId: Option<string>): (r: LobbyState)
    ensures !Truthy(clientId) ==> r == s
    ensures Truthy(clientId) ==>
      && Key(clientId) !in r.presence
      && (forall k :: k != Key(clientId) ==> (k in r.presence <==> k in s.presence))
      && (forall k :: k != Key(clientId) && k in s.presence ==> r.presence[k] == s.presence[k])
      && (r.currentMatch.None? <==> s.currentMatch.None? || clientId in s.currentMatch.value.Players())
      && (r.currentMatch.Some? ==> r.currentMatch == s.currentMatch)
    ensures r.instructionsAck == s.instructionsAck && r.ready == s.ready
  {
    if Truthy(clientId) then
      var presence := s.presence - {Key(clientId)};
      if s.currentMatch.Some? && clientId in s.currentMatch.value.Players() then
        s.(presence := presence, currentMatch := None)
      else s.(presence := presence)
    else s
  }

  /** An accepted match seats its two players in seats 1 and 2, one each. */
  lemma AcceptSeatsBoth(s: LobbyState, clientId: Option<string>, seatsHeads: bool, firstSeatHeads: bool)
    requires s.currentMatch.Some? && s.currentMatch.value.invitee == clientId && Key(s.currentMatch.value.inviter) != Key(clientId)
    ensures var m := Handle(s, clientId, AcceptInvite(seatsHeads, firstSeatHeads)).currentMatch.value;
      && m.seats.Some? && m.seats.value.Keys == {Key(m.inviter), Key(m.invitee)}
      && multiset{m.seats.value[Key(m.inviter)], m.seats.value[Key(m.invitee)]} == multiset{1, 2}
  {
  }

  /** Only the invitee can accept: from any other connection `accept-invite` changes nothing. */
  lemma AcceptOnlyByInvitee(s: LobbyState, clientId: Option<string>, msg: LobbyMessage)
    requires msg.AcceptInvite?
    requires Handle(s, clientId, msg) != s
    ensures s.currentMatch.Some? && s.currentMatch.value.invitee == clientId
  {
  }

  /** Toggling twice leaves the sender's ready flag as it read before. */
  lemma ToggleReadyTwice(s: LobbyState, clientId: Option<string>)
    ensures Flag(Handle(Handle(s, clientId, ToggleReady), clientId, ToggleReady).ready, Key(clientId))
            == Flag(s.ready, Key(clientId))
  {
  }

  /** After an invite, no one has acknowledged the instructions or is ready. */
  lemma InviteResetsFlags(s: LobbyState, clientId: Option<string>, msg: LobbyMessage, k: string)
    requires msg.InvitePlayer?
    ensures !Flag(Handle(s, clientId, msg).instructionsAck, k) && !Flag(Handle(s, clientId, msg).ready, k)
  {
  }

  /** A match player who disconnects takes the match with them; anyone else leaves it. */
  lemma CloseClearsMatch(s: LobbyState, clientId: Option<string>)
    requires Truthy(clientId) && s.currentMatch.Some?
    ensures Closed(s, clientId).currentMatch.None? <==> s.currentMatch.value.inviter == clientId || s.currentMatch.value.invitee == clientId
  {
    assert clientId in s.currentMatch.value.Players() <==> s.currentMatch.value.inviter == clientId || s.currentMatch.value.invitee == clientId;
  }

  /** `ws`: one lobby connection and the client id it identified with. */
  class Connection {
    var clientId: Option<string>

    constructor ()
      ensures clientId == None
    {
      clientId := None;
    }
  }

  /** `lobbyState`, shared by all lobby connections. */
  class LobbyServer {
    var presence: map<string, Presence>
    var currentMatch: Option<MatchInfo>
    var instructionsAck: map<string, bool>
    var ready: map<string, bool>

    ghost function State(): LobbyState
      reads this
    {
      LobbyState(presence, currentMatch, instructionsAck, ready)
    }

    constructor ()
      ensures State() == LobbyState(map[], None, map[], map[])
    {
      presence, currentMatch := map[], None;
      instructionsAck, ready := map[], map[];
    }

    method Identify(ws: Connection, id: Option<string>, name: string, now: int)
      modifies this, ws
      ensures ws.clientId == id
      ensures State() == Handle(old(State()), old(ws.clientId), LobbyMessage.Identify(id, name, now))
    {
      ws.clientId := id;
      presence := presence[Key(id) := Presence(id, name, now)];
    }

    method UpdatePresence(ws: Connection, name: string, now: int)
      modifies this
      ensures State() == Handle(old(State()), ws.clientId, LobbyMessage.UpdatePresence(name, now))
    {
      if Truthy(ws.clientId) {
        var key := Key(ws.clientId);
        var earlier := if key in presence then presence[key].id else None;
        presence := presence[key := Presence(earlier, name, now)];
      }
    }

    method InvitePlayer(ws: Connection, targetId: Option<string>, matchId: string, now: int)
      modifies this
      ensures State() == Handle(old(State()), ws.clientId, LobbyMessage.InvitePlayer(targetId, matchId, now))
    {
      currentMatch := Some(MatchInfo(matchId, Pending, ws.clientId, targetId, now, None, None));
      instructionsAck := map[];
      ready := map[];
    }

    method DeclineInvite()
      modifies this
      ensures State() == old(State()).(currentMatch := None)
    {
      currentMatch := None;
    }

    method AcceptInvite(ws: Connection, seatsHeads: bool, firstSeatHeads: bool)
      modifies this
      ensures State() == Handle(old(State()), ws.clientId, LobbyMessage.AcceptInvite(seatsHeads, firstSeatHeads))
    {
      if currentMatch.Some? && currentMatch.value.invitee == ws.clientId {
        var order := if seatsHeads then [1, 2] else [2, 1];
        var m := currentMatch.value;
        var seats := map[Key(m.inviter) := order[0]][Key(m.invitee) := order[1]];
        currentMatch := Some(m.(seats := Some(seats), firstSeat := Some(if firstSeatHeads then 1 else 2), status := Active));
      }
    }

    method AcknowledgeInstructions(ws: Connection)
      modifies this
      ensures State() == Handle(old(State()), ws.clientId, LobbyMessage.AcknowledgeInstructions)
    {
      instructionsAck := instructionsAck[Key(ws.clientId) := true];
    }

    method ToggleReady(ws: Connection)
      modifies this
      ensures State() == Handle(old(State()), ws.clientId, LobbyMessage.ToggleReady)
    {
      var key := Key(ws.clientId);
      ready := ready[key := !(key in ready && ready[key])];
    }

    method MarkMatchInGame()
      modifies this
      ensures State() == Handle(old(State()), None, LobbyMessage.MarkMatchInGame)
    {
      if currentMatch.Some? {
        currentMatch := Some(currentMatch.value.(status := InGame));
      }
    }

    method RequestRematch(firstSeatHeads: bool)
      modifies this
      ensures State() == Handle(old(State()), None, LobbyMessage.RequestRematch(firstSeatHeads))
    {
      if currentMatch.Some? {
        currentMatch := Some(currentMatch.value.(status := Active, firstSeat := Some(if firstSeatHeads then 1 else 2)));
        instructionsAck := map[];
        ready := map[];
      }
    }

    /** The `message` handler's `switch` on the message type. */
    method HandleMessage(ws: Connection, msg: LobbyMessage)
      modifies this, ws
      ensures ws.clientId == if msg.Identify? then msg.clientId else old(ws.clientId)
      ensures State() == Handle(old(State()), old(ws.clientId), msg)
    {
      match msg
      case Identify(id, name, now) =>
        Identify(ws, id, name, now);
      case UpdatePresence(name, now) =>
        UpdatePresence(ws, name, now);
      case InvitePlayer(targetId, matchId, now) =>
        InvitePlayer(ws, targetId, matchId, now);
      case DeclineInvite =>
        DeclineInvite();
      case AcceptInvite(seatsHeads, firstSeatHeads) =>
        AcceptInvite(ws, seatsHeads, firstSeatHeads);
      case AcknowledgeInstructions =>
        AcknowledgeInstructions(ws);
      case ToggleReady =>
        ToggleReady(ws);
      case MarkMatchInGame =>
        MarkMatchInGame();
      case RequestRematch(firstSeatHeads) =>
        RequestRematch(firstSeatHeads);
      case Unrecognised =>
    }

    /** The `close` handler. */
    method Close(ws: Connection)
      modifies this
      ensures State() == Closed(old(State()), ws.clientId)
    {
      if Truthy(ws.clientId) {
        presence := presence - {Key(ws.clientId)};
        if currentMatch.Some? && ws.clientId in currentMatch.value.Players() {
          currentMatch := None;
        }
      }
    }
  }
}
