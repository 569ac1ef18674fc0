/**
 * One run of the relay: "alice" activates, "bob" writes to her, alice
 * closes her connection, bob writes again. Effects a client returns are
 * handed to the Server as the actor runtime would.
 */
module Scenario {
  import opened Wrappers
  import opened Handles
  import opened Database
  import opened Relay

  const AliceActivates: string := "{\"ActivationMessage\":[\"alice\",\"pw\"]}"
  const BobSaysHi: string := "{\"SendMail\":{\"next\":\"alice\",\"mail\":\"hi\"}}"
  const BobSaysBye: string := "{\"SendMail\":{\"next\":\"alice\",\"mail\":\"bye\"}}"
  const BobWritesCarol: string := "{\"SendMail\":{\"next\":\"carol\",\"mail\":\"yo\"}}"

  /** The JSON decoder on the frames this run uses; anything else is malformed. */
  function Decode(text: string): Result<JsonMessage, DecodeError> {
    if text == AliceActivates then Ok(ActivationMessage(("alice", "pw")))
    else if text == BobSaysHi then Ok(SendMail(ForwardMessage("alice", "hi")))
    else if text == BobSaysBye then Ok(SendMail(ForwardMessage("alice", "bye")))
    else if text == BobWritesCarol then Ok(SendMail(ForwardMessage("carol", "yo")))
    else if text == "\"Empty\"" then Ok(Empty)
    else Err(DecodeError)
  }

  /** What `Decode` makes of each frame of the run. */
  lemma DecodesFrames()
    ensures Decode(AliceActivates) == Ok(ActivationMessage(("alice", "pw")))
    ensures Decode(BobSaysHi) == Ok(SendMail(ForwardMessage("alice", "hi")))
    ensures Decode(BobSaysBye) == Ok(SendMail(ForwardMessage("alice", "bye")))
    ensures Decode(BobWritesCarol) == Ok(SendMail(ForwardMessage("carol", "yo")))
  {
  }

  /**
   * Both of bob's messages are delivered live to alice's address and none is
   * stored: alice's close sends `Disconnect` for the empty identifier, so her
   * session stays alive with the address of a connection that has stopped.
   * Delivered to alice's client, each payload is written out verbatim as text.
   */
  method AliceAndBob() returns (first: RouteOutcome, second: RouteOutcome, firstOut: seq<Effect>,
                                secondOut: seq<Effect>, stored: seq<Row>, aliceAlive: bool)
    ensures first == Delivered(ClientAddr(1), ForwardMessage("alice", "hi"))
    ensures second == Delivered(ClientAddr(1), ForwardMessage("alice", "bye"))
    ensures firstOut == [SendText("hi")] && secondOut == [SendText("bye")]
    ensures stored == []
    ensures aliceAlive
  {
    var db := new Database([]);
    var server := new Server(db);
    var alice := new Client(ServerAddr(0), ClientAddr(1), 0);
    var bob := new Client(ServerAddr(0), ClientAddr(2), 0);
    DecodesFrames();
    ghost var aliceSession := Session(Some(ClientAddr(1)), true, Some("pw"));

    var effects := alice.Handle(Ok(WsMessage.Text(AliceActivates)), 1, Decode);
    assert effects[0].msg == ActiveMsg(ActiveMessage("alice", "pw", ClientAddr(1)));
    server.HandleActive(effects[0].msg.active);
    assert "alice" in db.sessions && db.sessions["alice"] == aliceSession && db.mail == [];

    effects := bob.Handle(Ok(WsMessage.Text(BobSaysHi)), 2, Decode);
    assert effects[0].msg == ForwardMsg(ForwardMessage("alice", "hi"));
    first := server.HandleForward(effects[0].msg.forward, false);
    firstOut := alice.HandleForward(first.msg);  // the runtime delivers to `first.to`, alice's address
    assert "alice" in db.sessions && db.sessions["alice"] == aliceSession && db.mail == [];

    effects := alice.Handle(Ok(Close(None)), 3, Decode);
    assert effects[0].msg == DisconnectMsg(Disconnect(""));
    server.HandleDisconnect(effects[0].msg.disconnect);
    assert "alice" in db.sessions && db.sessions["alice"] == aliceSession && db.mail == [];

    effects := bob.Handle(Ok(WsMessage.Text(BobSaysBye)), 4, Decode);
    assert effects[0].msg == ForwardMsg(ForwardMessage("alice", "bye"));
    second := server.HandleForward(effects[0].msg.forward, false);
    secondOut := alice.HandleForward(second.msg);  // alice's connection has already stopped

    stored := db.mail;
    aliceAlive := db.IsAlive("alice") == Ok(true);
  }

  /** A message to "carol", who never activated, is dropped, not stored. */
  method StrangerIsDropped() returns (outcome: RouteOutcome, stored: seq<Row>)
    ensures outcome == Unknown(NoRows)
    ensures stored == []
  {
    var db := new Database([]);
    var server := new Server(db);
    var bob := new Client(ServerAddr(0), ClientAddr(2), 0);
    DecodesFrames();
    var effects := bob.Handle(Ok(WsMessage.Text(BobWritesCarol)), 1, Decode);
    assert effects[0].msg == ForwardMsg(ForwardMessage("carol", "yo"));
    outcome := server.HandleForward(effects[0].msg.forward, false);
    stored := db.mail;
  }
}
