/**
 * The two actors of src/main.rs: the `Server`, sole user of the shared
 * `Database`, and one `Client` per WebSocket connection.
 *
 * Actor messages are values; a handler is a method that takes one message.
 * What a client asks its runtime to do (send to the server, write a frame,
 * close, stop) is returned as a list of effects.
 */
module Relay {
  import opened Wrappers
  import opened Handles
  import opened Database

  datatype ForwardMessage = ForwardMessage(next: string, mail: string)

  datatype ActiveMessage = ActiveMessage(identifier: string, password: string, addr: ClientAddr)

  datatype Disconnect = Disconnect(id: string)

  /** The decoded text-frame envelope. */
  datatype JsonMessage =
    | ActivationMessage(activation: (string, string))
    | SendMail(forward: ForwardMessage)
    | Empty

  /** The three message types the Server handles. */
  datatype ServerMessage =
    | ActiveMsg(active: ActiveMessage)
    | DisconnectMsg(disconnect: Disconnect)
    | ForwardMsg(forward: ForwardMessage)

  /** What the Server does with one `ForwardMessage`. */
  datatype RouteOutcome =
    | Delivered(to: ClientAddr, msg: ForwardMessage)  // `addr.do_send(msg)`
    | Persisted                                      // one MAIL row written
    | NoAddress                                      // alive without an address: nothing happens
    | Unknown(error: DatabaseError)                  // `is_alive` failed: only printed
    | Aborted                                        // the write failed and `unwrap` panics

  /** The registry after an `ActiveMessage`: any known identifier is ignored. */
  function AfterActive(sessions: Sessions, msg: ActiveMessage): (r: Sessions)
    ensures r.Keys == sessions.Keys + {msg.identifier}
    ensures msg.identifier in sessions ==> r == sessions
    ensures msg.identifier !in sessions ==>
      r[msg.identifier] == Session(Some(msg.addr), true, Some(msg.password))
    ensures forall k :: k in sessions && k != msg.identifier ==> r[k] == sessions[k]
    ensures LiveHasAddr(sessions) ==> LiveHasAddr(r)
  {
    if msg.identifier in sessions then sessions
    else Activated(sessions, msg.identifier, msg.password, msg.addr)
  }

  /**
   * The routing decision for one `ForwardMessage`: live delivery to a live
   * destination, one MAIL row for a known dead one, and a drop for an unknown
   * one. `storeFails` stands for the write failing.
   */
  function Route(sessions: Sessions, msg: ForwardMessage, storeFails: bool): (o: RouteOutcome)
    ensures o.Delivered? <==>
      msg.next in sessions && sessions[msg.next].alive && sessions[msg.next].addr.Some?
    ensures o.Delivered? ==> o.to == sessions[msg.next].addr.value && o.msg == msg
    ensures o == Persisted <==> msg.next in sessions && !sessions[msg.next].alive && !storeFails
    ensures o == Aborted <==> msg.next in sessions && !sessions[msg.next].alive && storeFails
    ensures o == Unknown(NoRows) <==> msg.next !in sessions
    ensures o == NoAddress <==>
      msg.next in sessions && sessions[msg.next].alive && sessions[msg.next].addr.None?
    ensures LiveHasAddr(sessions) ==> !o.NoAddress?
  {
    if msg.next !in sessions then Unknown(NoRows)
    else if sessions[msg.next].alive then
      match sessions[msg.next].addr
      case Some(to) => Delivered(to, msg)
      case None => NoAddress
    else if storeFails then Aborted
    else Persisted
  }

  /** The registry after the Server handles `msg`. */
  function Apply(sessions: Sessions, msg: ServerMessage): (r: Sessions)
    ensures sessions.Keys <= r.Keys
    ensures msg.ActiveMsg? ==> r.Keys == sessions.Keys + {msg.active.identifier}
    ensures !msg.ActiveMsg? ==> r.Keys == sessions.Keys
    ensures msg.ForwardMsg? ==> r == sessions
    ensures LiveHasAddr(sessions) ==> LiveHasAddr(r)
  {
    match msg
    case ActiveMsg(m) => AfterActive(sessions, m)
    case DisconnectMsg(d) => Deactivated(sessions, d.id)
    case ForwardMsg(_) => sessions
  }

  /** The registry after the Server handles `msgs` in order. */
  function Run(sessions: Sessions, msgs: seq<ServerMessage>): (r: Sessions)
    ensures sessions.Keys <= r.Keys
    ensures LiveHasAddr(sessions) ==> LiveHasAddr(r)
  {
    if msgs == [] then sessions else Apply(Run(sessions, msgs[..|msgs| - 1]), msgs[|msgs| - 1])
  }

  /** The identifiers some `ActiveMessage` in `msgs` asks to activate. */
  function ActivatedIds(msgs: seq<ServerMessage>): set<string> {
    set i | 0 <= i < |msgs| && msgs[i].ActiveMsg? :: msgs[i].active.identifier
  }

  /**
   * No message removes a session, and only activation adds one: after any
   * run the known identifiers are those known before plus those activated,
   * so `is_alive` answers `NoRows` exactly for identifiers never activated.
   */
  lemma {:induction false} RunKnownIds(sessions: Sessions, msgs: seq<ServerMessage>)
    ensures Run(sessions, msgs).Keys == sessions.Keys + ActivatedIds(msgs)
  {
    if msgs != [] {
      var init := msgs[..|msgs| - 1];
      var last := msgs[|msgs| - 1];
      RunKnownIds(sessions, init);
      assert forall i :: 0 <= i < |init| ==> init[i] == msgs[i];
      var lastIds := if last.ActiveMsg? then {last.active.identifier} else {};
      assert ActivatedIds(msgs) == ActivatedIds(init) + lastIds by {
        forall x | x in ActivatedIds(msgs) ensures x in ActivatedIds(init) + lastIds {
          var i :| 0 <= i < |msgs| && msgs[i].ActiveMsg? && msgs[i].active.identifier == x;
          if i < |init| {
            assert init[i] == msgs[i];
          }
        }
      }
    }
  }

  /**
   * Clients only ever send `Disconnect` for the empty identifier. Over a run
   * of such messages no session with a non-empty identifier goes from alive
   * to dead, so messages to it are never stored.
   */
  lemma {:induction false} OnlyEmptyIdGoesOffline(sessions: Sessions, msgs: seq<ServerMessage>, k: string)
    requires forall i :: 0 <= i < |msgs| && msgs[i].DisconnectMsg? ==> msgs[i].disconnect.id == ""
    requires k != "" && (k in sessions ==> sessions[k].alive)
    ensures k in Run(sessions, msgs) ==> Run(sessions, msgs)[k].alive
  {
    if msgs != [] {
      var init := msgs[..|msgs| - 1];
      assert forall i :: 0 <= i < |init| ==> init[i] == msgs[i];
      OnlyEmptyIdGoesOffline(sessions, init, k);
    }
  }

  /**
   * The Server never changes a known identifier's stored address: activation
   * of a known identifier is ignored and deactivation keeps the address. A
   * client that reconnects under a known identifier is still routed to its
   * old connection.
   */
  lemma {:induction false} KnownAddrNeverChanges(sessions: Sessions, msgs: seq<ServerMessage>, k: string)
    requires k in sessions
    ensures k in Run(sessions, msgs) && Run(sessions, msgs)[k].addr == sessions[k].addr
  {
    if msgs != [] {
      KnownAddrNeverChanges(sessions, msgs[..|msgs| - 1], k);
    }
  }

  /** After `deactivate(id)` a message to `id` is stored, never delivered to the stale address. */
  lemma DeactivatedIsPersisted(sessions: Sessions, id: string, mail: string)
    requires id in sessions
    ensures Route(Deactivated(sessions, id), ForwardMessage(id, mail), false) == Persisted
    ensures Deactivated(sessions, id)[id].addr == sessions[id].addr
  {
  }

  /** The Server actor; `database` is the registry and mailbox it shares. */
  class Server {
    const database: Database

    constructor (db: Database)
      ensures database == db
    {
      database := db;
    }

    /** `Handler<ActiveMessage>`: activation is refused for any known identifier. */
    method HandleActive(msg: ActiveMessage)
      requires database.Valid()
      modifies database
      ensures database.Valid()
      ensures database.sessions == AfterActive(old(database.sessions), msg)
      ensures database.mail == old(database.mail)
    {
      if database.IsAlive(msg.identifier).Ok? {
        return;
      }
      var r := database.ActivateSelf(msg.identifier, msg.password, msg.addr);
      assert r.Ok?;  // the `unwrap` cannot panic
    }

    /** `Handler<Disconnect>`. */
    method HandleDisconnect(msg: Disconnect)
      requires database.Valid()
      modifies database
      ensures database.Valid()
      ensures database.sessions == Deactivated(old(database.sessions), msg.id)
      ensures database.mail == old(database.mail)
    {
      database.Deactivate(msg.id);
    }

    /**
     * `Handler<ForwardMessage>`: never changes the registry, and writes a
     * MAIL row only when it neither delivers nor drops.
     */
    method HandleForward(msg: ForwardMessage, storeFails: bool) returns (o: RouteOutcome)
      requires database.Valid()
      modifies database
      ensures database.Valid()
      ensures database.sessions == old(database.sessions)
      ensures o == Route(old(database.sessions), msg, storeFails)
      ensures database.mail == if o == Persisted then old(database.mail) + [MailRow(msg.next, msg.mail)]
                               else old(database.mail)
    {
      var status := database.IsAlive(msg.next);
      match status
      case Ok(true) =>
        var addr := database.GetAddr(msg.next);
        match addr {
          case Some(to) => o := Delivered(to, msg);
          case None => o := NoAddress;
        }
      case Ok(false) =>
        var saved := database.SaveMailFor(msg.next, msg.mail, storeFails);
        if saved.Err? {
          o := Aborted;
        } else {
          o := Persisted;
        }
      case Err(e) =>
        o := Unknown(e);
    }

    /** The runtime's dispatch of one message to the handler for its type. */
    method Dispatch(msg: ServerMessage, storeFails: bool) returns (o: Option<RouteOutcome>)
      requires database.Valid()
      modifies database
      ensures database.Valid()
      ensures database.sessions == Apply(old(database.sessions), msg)
      ensures o.Some? <==> msg.ForwardMsg?
      ensures msg.ForwardMsg? ==> o.value == Route(old(database.sessions), msg.forward, storeFails)
      ensures database.mail == if o == Some(Persisted) then old(database.mail) + [MailRow(msg.forward.next, msg.forward.mail)]
                               else old(database.mail)
    {
      match msg
      case ActiveMsg(m) =>
        HandleActive(m);
        o := None;
      case DisconnectMsg(d) =>
        HandleDisconnect(d);
        o := None;
      case ForwardMsg(f) =>
        var r := HandleForward(f, storeFails);
        o := Some(r);
    }
  }

  datatype CloseReason = CloseReason(code: nat, description: Option<string>)

  /** The WebSocket frames a client can receive. */
  datatype WsMessage =
    | Text(text: string)
    | Binary(bytes: seq<bv8>)
    | Continuation
    | Ping(bytes: seq<bv8>)
    | Pong(bytes: seq<bv8>)
    | Close(reason: Option<CloseReason>)
    | Nop

  datatype ProtocolError = ProtocolError

  datatype DecodeError = DecodeError

  /** What a client handler asks of its runtime. */
  datatype Effect =
    | SendToServer(server: ServerAddr, msg: ServerMessage)  // `self.addr.do_send`
    | SendText(text: string)                                // `ctx.text`
    | SendPong(bytes: seq<bv8>)                             // `ctx.pong`
    | SendBinary(bytes: seq<bv8>)                           // `ctx.binary`
    | CloseConnection(reason: Option<CloseReason>)          // `ctx.close`
    | StopActor                                             // `ctx.stop`

  /**
   * One connection. `hb` is the last time the peer was heard from, as a
   * clock reading; `address` is the client's own address (`ctx.address()`).
   */
  class Client {
    var id: string
    const addr: ServerAddr
    var hb: nat
    const address: ClientAddr

    /** `id` is set empty on creation and no handler assigns it. */
    predicate Valid()
      reads this
    {
      id == ""
    }

    /** `Client::new`, with the clock reading `now`. */
    constructor (addr: ServerAddr, address: ClientAddr, now: nat)
      ensures Valid()
      ensures this.addr == addr && this.address == address && hb == now
    {
      id := "";
      this.addr := addr;
      hb := now;
      this.address := address;
    }

    /** `Handler<ForwardMessage>`: the payload goes to the peer verbatim, as text. */
    method HandleForward(msg: ForwardMessage) returns (effects: seq<Effect>)
      ensures effects == [SendText(msg.mail)]
    {
      effects := [SendText(msg.mail)];
    }

    /**
     * `StreamHandler::handle`: one incoming frame or transport error.
     * `decode` is the JSON decoder applied to a text frame and `now` the
     * clock reading.
     */
    method Handle(item: Result<WsMessage, ProtocolError>, now: nat,
                  decode: string -> Result<JsonMessage, DecodeError>) returns (effects: seq<Effect>)
      requires Valid()
      modifies this`hb
      ensures Valid()
      ensures hb == now || hb == old(hb)
      ensures item.Err? ==> effects == [StopActor] && hb == old(hb)
      ensures item.Ok? ==> match item.value
        case Ping(bytes) => hb == now && effects == [SendPong(bytes)]
        case Pong(_) => hb == now && effects == []
        case Binary(bytes) => hb == old(hb) && effects == [SendBinary(bytes)]
        case Text(text) => (match decode(text)
          case Ok(SendMail(f)) => hb == old(hb) && effects == [SendToServer(addr, ForwardMsg(f))]
          case Ok(ActivationMessage((a, b))) =>
            hb == old(hb) && effects == [SendToServer(addr, ActiveMsg(ActiveMessage(a, b, address)))]
          case Ok(Empty) => hb == now && effects == []
          case Err(_) => hb == old(hb) && effects == [])
        case Close(reason) =>
          hb == old(hb) &&
          effects == [SendToServer(addr, DisconnectMsg(Disconnect(""))), CloseConnection(reason), StopActor]
        case Continuation => hb == old(hb) && effects == [StopActor]
        case Nop => hb == old(hb) && effects == [StopActor]
    {
      match item
      case Ok(Ping(bytes)) =>
        hb := now;
        effects := [SendPong(bytes)];
      case Ok(Pong(_)) =>
        hb := now;
        effects := [];
      case Ok(Binary(bytes)) =>
        effects := [SendBinary(bytes)];
      case Ok(Text(text)) =>
        match decode(text) {
          case Ok(SendMail(f)) =>
            effects := [SendToServer(addr, ForwardMsg(f))];
          case Ok(ActivationMessage(activation)) =>
            effects := [SendToServer(addr, ActiveMsg(ActiveMessage(activation.0, activation.1, address)))];
          case Ok(Empty) =>
            hb := now;
            effects := [];
          case Err(_) =>
            effects := [];
        }
      case Ok(Close(reason)) =>
        effects := [SendToServer(addr, DisconnectMsg(Disconnect(id))), CloseConnection(reason), StopActor];
      case Err(_) =>
        effects := [StopActor];
      case Ok(_) =>
        effects := [StopActor];
    }
  }
}
