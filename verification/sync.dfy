/** How the messages the server emits keep every client's mirror equal to
    the server's map: `init` establishes the mirror, `newPlayer` and
    `playerDisconnected` keep it, and every tick's `update` restores it. A
    `move` emits nothing, so between ticks a mirror can lag behind in the
    input vectors only. */
module Sync {

  import opened World
  import opened Client
  import opened Wrappers

  /** The client's mirror holds exactly the server's ids, each with the
      server's record. */
  predicate Mirrors(cs: ClientState, players: Players) {
    && cs.players.Keys == players.Keys
    && forall id :: id in players ==> cs.players[id].rec == players[id]
  }

  lemma ReceiveOne(cs: ClientState, m: Message)
    ensures ReceiveAll(cs, [m]) == Receive(cs, m)
  {
    assert [m][1..] == [];
  }

  /** The new connection's mirror, whatever it held before, is the server's
      map after its `init`, and its session names it with the server's
      settings. */
  lemma ConnectInitSyncs(s: Settings, players: Players, id: string, rx: real, ry: real, rc: real, cs: ClientState)
    requires 0.0 <= rx < 1.0 && 0.0 <= ry < 1.0 && 0.0 <= rc < 1.0
    ensures var r := Connect(s, players, id, rx, ry, rc);
      var after := ReceiveAll(cs, Inbox(r.out, id));
      && Mirrors(after, r.players)
      && after.session == Some(Client.Session(id, s))
  {
    var r := Connect(s, players, id, rx, ry, rc);
    ConnectDelivery(s, players, id, rx, ry, rc, id);
    ReceiveOne(cs, Init(id, s, r.players));
  }

  /** Every other connection whose mirror was in step stays in step after
      its `newPlayer`. */
  lemma ConnectKeepsOthersInSync(s: Settings, players: Players, id: string, rx: real, ry: real, rc: real, c: string, cs: ClientState)
    requires 0.0 <= rx < 1.0 && 0.0 <= ry < 1.0 && 0.0 <= rc < 1.0
    requires c != id
    requires Mirrors(cs, players)
    ensures var r := Connect(s, players, id, rx, ry, rc);
      var after := ReceiveAll(cs, Inbox(r.out, c));
      Mirrors(after, r.players) && after.session == cs.session
  {
    var r := Connect(s, players, id, rx, ry, rc);
    ConnectDelivery(s, players, id, rx, ry, rc, c);
    ReceiveOne(cs, NewPlayer(id, r.players[id]));
  }

  /** Every remaining connection whose mirror was in step stays in step
      after its `playerDisconnected`. */
  lemma DisconnectKeepsInSync(players: Players, id: string, c: string, cs: ClientState)
    requires Mirrors(cs, players)
    ensures var r := Disconnect(players, id);
      var after := ReceiveAll(cs, Inbox(r.out, c));
      Mirrors(after, r.players) && after.session == cs.session
  {
    DisconnectDelivery(players, id, c);
    ReceiveOne(cs, PlayerDisconnected(id));
  }

  /** After a tick every connection's mirror equals the server's map,
      whatever it held before. */
  lemma TickSyncs(s: Settings, players: Players, c: string, cs: ClientState)
    ensures var r := World.Tick(s, players);
      var after := ReceiveAll(cs, Inbox(r.out, c));
      Mirrors(after, r.players) && after.session == cs.session
  {
    var r := World.Tick(s, players);
    TickDelivery(s, players, c);
    ReceiveOne(cs, Update(r.players));
  }

  /** A `move` emits nothing: no mirror changes, and an in-step mirror
      differs from the server only in the sender's input vector. */
  lemma MoveLagsOnlyInInput(players: Players, id: string, dx: real, dy: real, c: string, cs: ClientState)
    requires Mirrors(cs, players)
    ensures var r := Move(players, id, dx, dy);
      && ReceiveAll(cs, Inbox(r.out, c)) == cs
      && cs.players.Keys == r.players.Keys
      && forall other :: other in r.players ==>
           cs.players[other].rec == r.players[other].(dx := players[other].dx, dy := players[other].dy)
  {
  }

}
