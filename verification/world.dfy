/** The authoritative world of the server: a map from connection id to player
    record, the fixed world settings, the four transitions that change the map
    (connect, move, disconnect, tick) and the messages each one emits. */
module World {

  import opened Geometry
  import Hex

  /** Width and height of the world and thickness of its boundary wall. */
  datatype Settings = Settings(width: real, height: real, boundaryWidth: real)

  /** The settings the server is started with. */
  const ServerSettings := Settings(2000.0, 2000.0, 50.0)

  const SpawnRadius := 25.0
  const SpawnSpeed := 5.0

  /** A player record, with the wire shape `{x, y, radius, color, speed, dx, dy}`. */
  datatype Player = Player(
    x: real, y: real,
    radius: real,
    color: string,
    speed: real,
    dx: real, dy: real)

  type Players = map<string, Player>

  /** Messages the server sends to clients. */
  datatype Message =
    | Init(playerId: string, settings: Settings, players: Players)
    | NewPlayer(id: string, player: Player)
    | PlayerDisconnected(id: string)
    | Update(players: Players)

  /** One emit call: `socket.emit` to one connection, `socket.broadcast.emit`
      to every connection but the sender, `io.emit` to every connection. */
  datatype Emission =
    | ToSocket(target: string, msg: Message)
    | ToOthers(sender: string, msg: Message)
    | ToAll(msg: Message)

  /** The new player map of a transition and what it emitted, in order. */
  datatype Step = Step(players: Players, out: seq<Emission>)

  predicate Addressed(e: Emission, c: string) {
    match e
    case ToSocket(t, _) => t == c
    case ToOthers(sender, _) => sender != c
    case ToAll(_) => true
  }

  /** The messages connection `c` receives from an outbox, in order. */
  function Inbox(out: seq<Emission>, c: string): (msgs: seq<Message>)
    ensures |msgs| <= |out|
  {
    if |out| == 0 then []
    else Inbox(out[..|out| - 1], c)
         + (if Addressed(out[|out| - 1], c) then [out[|out| - 1].msg] else [])
  }

  // ---------------------------------------------------------------------
  // Bounds

  /** The least coordinate a player's centre may take after a tick. */
  function Low(s: Settings, p: Player): real {
    p.radius + s.boundaryWidth
  }

  function HighX(s: Settings, p: Player): real {
    s.width - p.radius - s.boundaryWidth
  }

  function HighY(s: Settings, p: Player): real {
    s.height - p.radius - s.boundaryWidth
  }

  /** The allowed range is non-empty on both axes. */
  predicate Fits(s: Settings, p: Player) {
    Low(s, p) <= HighX(s, p) && Low(s, p) <= HighY(s, p)
  }

  predicate InBounds(s: Settings, p: Player) {
    Low(s, p) <= p.x <= HighX(s, p) && Low(s, p) <= p.y <= HighY(s, p)
  }

  // ---------------------------------------------------------------------
  // Connect

  /** `Math.floor(draw * 16777215)` for a `Math.random()` draw. */
  function ColorIndex(draw: real): (n: nat)
    requires 0.0 <= draw < 1.0
    ensures n < Hex.ColorRange
    ensures n as real <= draw * 16777215.0 < n as real + 1.0
  {
    (draw * 16777215.0).Floor
  }

  /** `getRandomColor()` for the draw `draw`. */
  function RandomColor(draw: real): (c: string)
    requires 0.0 <= draw < 1.0
    ensures 2 <= |c| <= 7 && c[0] == '#'
    ensures Hex.IsCanonical(c[1..])
    ensures Hex.FromHex(c[1..]) == ColorIndex(draw)
  {
    Hex.ColorText(ColorIndex(draw))
  }

  /** `Math.random() * extent` for the draw `r`. */
  function Scale(r: real, extent: real): (v: real)
    requires 0.0 <= r < 1.0
    ensures 0.0 <= extent ==> 0.0 <= v <= extent
  {
    assert 0.0 <= extent ==> r * extent <= 1.0 * extent;
    r * extent
  }

  /** The record created on connect from three `Math.random()` draws: a spot
      anywhere in `[0, width] x [0, height]` (not yet clamped), the fixed
      radius and speed, a random colour and no motion. */
  function Spawn(s: Settings, rx: real, ry: real, rc: real): (p: Player)
    requires 0.0 <= rx < 1.0 && 0.0 <= ry < 1.0 && 0.0 <= rc < 1.0
    ensures p.radius == SpawnRadius && p.speed == SpawnSpeed
    ensures p.dx == 0.0 && p.dy == 0.0
    ensures 0.0 <= s.width ==> 0.0 <= p.x <= s.width
    ensures 0.0 <= s.height ==> 0.0 <= p.y <= s.height
    ensures 2 <= |p.color| <= 7 && p.color[0] == '#' && Hex.IsCanonical(p.color[1..])
    ensures p.color == RandomColor(rc)
    ensures p.x == Scale(rx, s.width) && p.y == Scale(ry, s.height)
  {
    Player(Scale(rx, s.width), Scale(ry, s.height), SpawnRadius, RandomColor(rc), SpawnSpeed, 0.0, 0.0)
  }

  /** The spawn point is not clamped: with the server's settings a draw of
      0 puts the player in the corner, inside the boundary wall. */
  lemma SpawnMayBeOutOfBounds(rc: real)
    requires 0.0 <= rc < 1.0
    ensures !InBounds(ServerSettings, Spawn(ServerSettings, 0.0, 0.0, rc))
  {
  }

  /** A connection `id` joins: its record is stored, the new connection is
      sent `init` with the whole map, every other connection `newPlayer`. */
  function Connect(s: Settings, players: Players, id: string, rx: real, ry: real, rc: real): (r: Step)
    requires 0.0 <= rx < 1.0 && 0.0 <= ry < 1.0 && 0.0 <= rc < 1.0
    ensures r.players.Keys == players.Keys + {id}
    ensures forall other :: other in players && other != id ==> r.players[other] == players[other]
    ensures r.players[id].radius == SpawnRadius && r.players[id].speed == SpawnSpeed
    ensures r.players[id].dx == 0.0 && r.players[id].dy == 0.0
    ensures 0.0 <= s.width ==> 0.0 <= r.players[id].x <= s.width
    ensures 0.0 <= s.height ==> 0.0 <= r.players[id].y <= s.height
    ensures r.players[id] == Spawn(s, rx, ry, rc)
    ensures r.out == [ToSocket(id, Init(id, s, r.players)), ToOthers(id, NewPlayer(id, r.players[id]))]
  {
    var ps := players[id := Spawn(s, rx, ry, rc)];
    Step(ps, [ToSocket(id, Init(id, s, ps)), ToOthers(id, NewPlayer(id, ps[id]))])
  }

  // ---------------------------------------------------------------------
  // Move and disconnect

  /** A `move` message from `id`: its input vector is overwritten verbatim;
      a sender without a record changes nothing. Nothing is emitted. */
  function Move(players: Players, id: string, dx: real, dy: real): (r: Step)
    ensures r.players.Keys == players.Keys
    ensures r.out == []
    ensures id !in players ==> r.players == players
    ensures id in players ==>
      var p, q := players[id], r.players[id];
      q.dx == dx && q.dy == dy && q == p.(dx := q.dx, dy := q.dy)
    ensures forall other :: other in players && other != id ==> r.players[other] == players[other]
  {
    if id in players then Step(players[id := players[id].(dx := dx, dy := dy)], [])
    else Step(players, [])
  }

  /** Connection `id` goes away: its record is deleted and every remaining
      connection is told `playerDisconnected`. */
  function Disconnect(players: Players, id: string): (r: Step)
    ensures r.players.Keys == players.Keys - {id}
    ensures forall other :: other in r.players ==> r.players[other] == players[other]
    ensures r.out == [ToAll(PlayerDisconnected(id))]
  {
    Step(players - {id}, [ToAll(PlayerDisconnected(id))])
  }

  // ---------------------------------------------------------------------
  // Tick

  /** One player's part of a tick: move by `d * speed` and clamp each axis on
      its own. */
  function TickPlayer(s: Settings, p: Player): (q: Player)
    ensures q == p.(x := q.x, y := q.y)
    ensures Low(s, p) <= q.x && Low(s, p) <= q.y
    ensures Low(s, p) <= HighX(s, p) ==> q.x <= HighX(s, p)
    ensures Low(s, p) <= HighY(s, p) ==> q.y <= HighY(s, p)
    ensures Low(s, p) <= p.x + p.dx * p.speed <= HighX(s, p) ==> q.x == p.x + p.dx * p.speed
    ensures Low(s, p) <= p.y + p.dy * p.speed <= HighY(s, p) ==> q.y == p.y + p.dy * p.speed
    ensures p.x + p.dx * p.speed < Low(s, p) ==> q.x == Low(s, p)
    ensures p.y + p.dy * p.speed < Low(s, p) ==> q.y == Low(s, p)
    ensures Low(s, p) <= HighX(s, p) < p.x + p.dx * p.speed ==> q.x == HighX(s, p)
    ensures Low(s, p) <= HighY(s, p) < p.y + p.dy * p.speed ==> q.y == HighY(s, p)
    // an empty range: the outer `Math.max` decides
    ensures HighX(s, p) < Low(s, p) ==> q.x == Low(s, p)
    ensures HighY(s, p) < Low(s, p) ==> q.y == Low(s, p)
  {
    p.(x := Clamp(Low(s, p), HighX(s, p), p.x + p.dx * p.speed),
       y := Clamp(Low(s, p), HighY(s, p), p.y + p.dy * p.speed))
  }

  /** Every record ticked, as a map. */
  function TickAll(s: Settings, players: Players): (ps: Players)
    ensures ps.Keys == players.Keys
    ensures forall id :: id in players ==> ps[id] == TickPlayer(s, players[id])
  {
    map id | id in players :: TickPlayer(s, players[id])
  }

  /** `update()`: every record moves and is clamped, then the whole map is
      sent to every connection. */
  function Tick(s: Settings, players: Players): (r: Step)
    ensures r.players.Keys == players.Keys
    ensures forall id :: id in players ==> r.players[id] == TickPlayer(s, players[id])
    ensures forall id :: id in players ==>
      var p, q := players[id], r.players[id];
      && q == p.(x := q.x, y := q.y)
      && (Fits(s, p) ==> InBounds(s, q))
      && (Low(s, p) <= p.x + p.dx * p.speed <= HighX(s, p) ==> q.x == p.x + p.dx * p.speed)
      && (Low(s, p) <= p.y + p.dy * p.speed <= HighY(s, p) ==> q.y == p.y + p.dy * p.speed)
    ensures r.out == [ToAll(Update(r.players))]
  {
    var ps := TickAll(s, players);
    Step(ps, [ToAll(Update(ps))])
  }

  /** The loop of `update()`, which mutates each record in place while
      walking the keys in some order: whatever the order, the result is the
      map `TickAll` describes. */
  method UpdateInPlace(s: Settings, players: Players, order: seq<string>) returns (ps: Players)
    requires forall i, j :: 0 <= i < j < |order| ==> order[i] != order[j]
    requires forall id :: id in players <==> id in order
    ensures ps == TickAll(s, players)
  {
    ps := players;
    var i := 0;
    while i < |order|
      invariant 0 <= i <= |order|
      invariant ps.Keys == players.Keys
      invariant forall j :: 0 <= j < i ==> ps[order[j]] == TickPlayer(s, players[order[j]])
      invariant forall id :: id in players && id !in order[..i] ==> ps[id] == players[id]
    {
      var id := order[i];
      ps := ps[id := TickPlayer(s, ps[id])];
      i := i + 1;
    }
    assert forall id :: id in players ==> id in order[..i];
  }

  // ---------------------------------------------------------------------
  // Properties relating several transitions

  /** A player at rest inside the bounds is left where it is by a tick. */
  lemma TickAtRest(s: Settings, p: Player)
    requires InBounds(s, p)
    requires p.dx == 0.0 && p.dy == 0.0
    ensures TickPlayer(s, p) == p
  {
  }

  /** Ticking is idempotent on a world at rest: a second tick of a map in
      which nobody moves changes nothing. */
  lemma TickIdempotentAtRest(s: Settings, players: Players)
    requires forall id :: id in players ==> Fits(s, players[id])
    requires forall id :: id in players ==> players[id].dx == 0.0 && players[id].dy == 0.0
    ensures TickAll(s, TickAll(s, players)) == TickAll(s, players)
  {
    var once := TickAll(s, players);
    forall id | id in once
      ensures TickPlayer(s, once[id]) == once[id]
    {
      TickAtRest(s, once[id]);
    }
  }

  /** The last `move` before a tick wins. */
  lemma MoveLastWins(players: Players, id: string, a: real, b: real, c: real, d: real)
    ensures Move(Move(players, id, a, b).players, id, c, d) == Move(players, id, c, d)
  {
  }

  /** A `move` of `(1, 0)` followed by a tick advances `x` by exactly the
      speed, clamped, and leaves the `y` axis to its own clamp. */
  lemma MoveRightThenTick(s: Settings, players: Players, id: string)
    requires id in players
    ensures var q := Tick(s, Move(players, id, 1.0, 0.0).players).players[id];
      var p := players[id];
      && q.x == Clamp(Low(s, p), HighX(s, p), p.x + p.speed)
      && q.y == Clamp(Low(s, p), HighY(s, p), p.y)
  {
    var p := players[id];
    var moved := Move(players, id, 1.0, 0.0).players;
    assert moved[id] == p.(dx := 1.0, dy := 0.0);
    assert Tick(s, moved).players[id] == TickPlayer(s, moved[id]);
  }

  /** Connecting a fresh id and disconnecting it again restores the map. */
  lemma ConnectThenDisconnect(s: Settings, players: Players, id: string, rx: real, ry: real, rc: real)
    requires 0.0 <= rx < 1.0 && 0.0 <= ry < 1.0 && 0.0 <= rc < 1.0
    requires id !in players
    ensures Disconnect(Connect(s, players, id, rx, ry, rc).players, id).players == players
  {
  }

  /** Players are ticked independently: removing one before or after a tick
      gives the same map. */
  lemma DisconnectCommutesWithTick(s: Settings, players: Players, id: string)
    ensures Tick(s, Disconnect(players, id).players).players
         == Disconnect(Tick(s, players).players, id).players
  {
  }

  /** The server's settings leave room for any player of the spawn radius. */
  lemma ServerSettingsFit(p: Player)
    requires p.radius == SpawnRadius
    ensures Fits(ServerSettings, p)
    ensures Low(ServerSettings, p) == 75.0
    ensures HighX(ServerSettings, p) == 1925.0 && HighY(ServerSettings, p) == 1925.0
  {
  }

  /** Who hears what on connect: the new connection gets exactly `init` with
      the whole map, including itself; every other connection gets exactly
      one `newPlayer` carrying the new id. */
  lemma ConnectDelivery(s: Settings, players: Players, id: string, rx: real, ry: real, rc: real, c: string)
    requires 0.0 <= rx < 1.0 && 0.0 <= ry < 1.0 && 0.0 <= rc < 1.0
    ensures var r := Connect(s, players, id, rx, ry, rc);
      Inbox(r.out, c) == if c == id then [Init(id, s, r.players)] else [NewPlayer(id, r.players[id])]
  {
    var r := Connect(s, players, id, rx, ry, rc);
    assert r.out[..1][..0] == [];
  }

  /** On disconnect every remaining connection gets exactly one
      `playerDisconnected` with the id. */
  lemma DisconnectDelivery(players: Players, id: string, c: string)
    ensures Inbox(Disconnect(players, id).out, c) == [PlayerDisconnected(id)]
  {
    assert Disconnect(players, id).out[..0] == [];
  }

  /** After a tick every connection gets exactly one `update`, carrying the
      ticked map. */
  lemma TickDelivery(s: Settings, players: Players, c: string)
    ensures Inbox(Tick(s, players).out, c) == [Update(Tick(s, players).players)]
  {
    assert Tick(s, players).out[..0] == [];
  }

}
