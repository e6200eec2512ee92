/** The pure logic of the browser client: the four arrow flags and the keys
    that drive them, the movement vector sent to the server, the camera
    clamp, the minimap scale, and the local mirror of the server's player
    map kept up to date by the socket handlers. */
module Client {

  import opened Wrappers
  import opened Geometry
  import World

  // ---------------------------------------------------------------------
  // Keyboard

  datatype Arrow = Up | Down | Left | Right

  /** The `keys` object: one held flag per arrow. */
  datatype Keys = Keys(up: bool, down: bool, left: bool, right: bool)

  const NoKeys := Keys(false, false, false, false)

  function Held(k: Keys, a: Arrow): bool {
    match a
    case Up => k.up
    case Down => k.down
    case Left => k.left
    case Right => k.right
  }

  /** The arrow an `e.key` value drives: the arrow key itself or its
      `w`/`s`/`a`/`d` alias (lower case only). */
  function ArrowOf(key: string): Option<Arrow> {
    if key == "ArrowUp" || key == "w" then Some(Up)
    else if key == "ArrowDown" || key == "s" then Some(Down)
    else if key == "ArrowLeft" || key == "a" then Some(Left)
    else if key == "ArrowRight" || key == "d" then Some(Right)
    else None
  }

  function SetFlag(k: Keys, a: Arrow, v: bool): (r: Keys)
    ensures Held(r, a) == v
    ensures forall b: Arrow :: b != a ==> Held(r, b) == Held(k, b)
  {
    match a
    case Up => k.(up := v)
    case Down => k.(down := v)
    case Left => k.(left := v)
    case Right => k.(right := v)
  }

  /** The flag change of the `keydown` listener: the arrow the key drives is
      set and the other three are untouched; any other key changes nothing. */
  function KeyDown(k: Keys, key: string): (r: Keys)
    ensures ArrowOf(key).Some? ==> Held(r, ArrowOf(key).value)
    ensures forall b: Arrow :: ArrowOf(key) != Some(b) ==> Held(r, b) == Held(k, b)
  {
    match ArrowOf(key)
    case Some(a) => SetFlag(k, a, true)
    case None => k
  }

  /** The flag change of the `keyup` listener: the arrow the key drives is
      cleared and the other three are untouched; any other key changes
      nothing. */
  function KeyUp(k: Keys, key: string): (r: Keys)
    ensures ArrowOf(key).Some? ==> !Held(r, ArrowOf(key).value)
    ensures forall b: Arrow :: ArrowOf(key) != Some(b) ==> Held(r, b) == Held(k, b)
  {
    match ArrowOf(key)
    case Some(a) => SetFlag(k, a, false)
    case None => k
  }

  /** Releasing a key that was not held before it was pressed restores the
      flags exactly. */
  lemma KeyUpUndoesKeyDown(k: Keys, key: string)
    requires ArrowOf(key).Some? ==> !Held(k, ArrowOf(key).value)
    ensures KeyUp(KeyDown(k, key), key) == k
  {
  }

  /** A letter alias and its arrow key have the same effect. */
  lemma AliasesAgree(k: Keys)
    ensures KeyDown(k, "w") == KeyDown(k, "ArrowUp") && KeyUp(k, "w") == KeyUp(k, "ArrowUp")
    ensures KeyDown(k, "s") == KeyDown(k, "ArrowDown") && KeyUp(k, "s") == KeyUp(k, "ArrowDown")
    ensures KeyDown(k, "a") == KeyDown(k, "ArrowLeft") && KeyUp(k, "a") == KeyUp(k, "ArrowLeft")
    ensures KeyDown(k, "d") == KeyDown(k, "ArrowRight") && KeyUp(k, "d") == KeyUp(k, "ArrowRight")
  {
  }

  // ---------------------------------------------------------------------
  // Movement vector

  /** The integer vector `updateMovement` builds before normalising it:
      right and down are positive, opposite arrows cancel. */
  datatype Direction = Direction(dx: int, dy: int)

  function Unit(b: bool): int {
    if b then 1 else 0
  }

  function RawDirection(k: Keys): (d: Direction)
    ensures -1 <= d.dx <= 1 && -1 <= d.dy <= 1
    ensures d.dx == 1 <==> k.right && !k.left
    ensures d.dx == -1 <==> k.left && !k.right
    ensures d.dx == 0 <==> k.left == k.right
    ensures d.dy == 1 <==> k.down && !k.up
    ensures d.dy == -1 <==> k.up && !k.down
    ensures d.dy == 0 <==> k.up == k.down
  {
    Direction(Unit(k.right) - Unit(k.left), Unit(k.down) - Unit(k.up))
  }

  /** The payload of the `move` message. The normalisation divides by the
      Euclidean length; for a vector along one axis that length is 1, and
      for a diagonal it is the square root of 2, which `Scaled` keeps
      symbolic: `Scaled(sx, sy)` stands for `(sx / sqrt 2, sy / sqrt 2)`. */
  datatype MoveMsg = Exact(dx: real, dy: real) | Scaled(sx: int, sy: int)

  /** The squared length of the payload. */
  function SquaredLength(m: MoveMsg): real {
    match m
    case Exact(dx, dy) => dx * dx + dy * dy
    case Scaled(sx, sy) => (sx * sx + sy * sy) as real / 2.0
  }

  function Outgoing(k: Keys): (m: MoveMsg)
    // no arrow counts: normalisation is skipped and `(0, 0)` is sent
    ensures RawDirection(k) == Direction(0, 0) ==> m == Exact(0.0, 0.0)
    ensures RawDirection(k).dx == 0 || RawDirection(k).dy == 0 ==>
      m == Exact(RawDirection(k).dx as real, RawDirection(k).dy as real)
    ensures RawDirection(k).dx != 0 && RawDirection(k).dy != 0 ==>
      m == Scaled(RawDirection(k).dx, RawDirection(k).dy)
  {
    var d := RawDirection(k);
    if d.dx != 0 && d.dy != 0 then Scaled(d.dx, d.dy)
    else Exact(d.dx as real, d.dy as real)
  }

  /** With no key held, as when the page loads, the client sends the zero
      vector. */
  lemma NoKeysSendZero()
    ensures Outgoing(NoKeys) == Exact(0.0, 0.0)
  {
  }

  /** The sent vector has length 1 whenever an arrow counts, and is the zero
      vector exactly when no arrow does. */
  lemma OutgoingIsUnitOrZero(k: Keys)
    ensures SquaredLength(Outgoing(k)) == 0.0 <==> RawDirection(k) == Direction(0, 0)
    ensures RawDirection(k) != Direction(0, 0) ==> SquaredLength(Outgoing(k)) == 1.0
  {
    var d := RawDirection(k);
    if d.dx != 0 && d.dy != 0 {
      assert d.dx * d.dx == 1 && d.dy * d.dy == 1;
    }
  }

  /** A key event: the flags change and the current vector is sent, even
      when the key was not one of the eight that drive an arrow. */
  datatype KeyEffect = KeyEffect(keys: Keys, sent: MoveMsg)

  function OnKeyDown(k: Keys, key: string): (r: KeyEffect)
    ensures r.keys == KeyDown(k, key)
    ensures r.sent == Outgoing(r.keys)
    ensures ArrowOf(key).None? ==> r.keys == k && r.sent == Outgoing(k)
  {
    var k' := KeyDown(k, key);
    KeyEffect(k', Outgoing(k'))
  }

  function OnKeyUp(k: Keys, key: string): (r: KeyEffect)
    ensures r.keys == KeyUp(k, key)
    ensures r.sent == Outgoing(r.keys)
    ensures ArrowOf(key).None? ==> r.keys == k && r.sent == Outgoing(k)
  {
    var k' := KeyUp(k, key);
    KeyEffect(k', Outgoing(k'))
  }

  /** Holding both arrows of an axis cancels that axis. */
  lemma OppositeArrowsCancel(k: Keys)
    ensures Held(KeyDown(KeyDown(k, "ArrowLeft"), "ArrowRight"), Left)
    ensures RawDirection(KeyDown(KeyDown(k, "ArrowLeft"), "ArrowRight")).dx == 0
    ensures RawDirection(KeyDown(KeyDown(k, "ArrowUp"), "ArrowDown")).dy == 0
  {
  }

  // ---------------------------------------------------------------------
  // Camera and minimap

  /** One axis of the camera clamp: centre on the player, then keep the
      window inside the world, preferring the origin when the canvas is
      wider than the world. */
  function ViewportAxis(world: real, canvas: real, centre: real): (v: real)
    ensures 0.0 <= v
    ensures canvas <= world ==> v <= world - canvas
    ensures world <= canvas ==> v == 0.0
    ensures 0.0 <= centre - canvas / 2.0 <= world - canvas ==> v == centre - canvas / 2.0
    ensures centre - canvas / 2.0 < 0.0 ==> v == 0.0
    ensures canvas <= world && world - canvas < centre - canvas / 2.0 ==> v == world - canvas
  {
    Clamp(0.0, world - canvas, centre - canvas / 2.0)
  }

  /** When the canvas fits, the camera coordinate is the allowed position
      nearest to the one that centres the player. */
  lemma ViewportNearestCentre(world: real, canvas: real, centre: real, z: real)
    requires canvas <= world
    requires 0.0 <= z <= world - canvas
    ensures Abs(ViewportAxis(world, canvas, centre) - (centre - canvas / 2.0))
         <= Abs(z - (centre - canvas / 2.0))
  {
    ClampIsNearest(0.0, world - canvas, centre - canvas / 2.0, z);
  }

  datatype Viewport = Viewport(x: real, y: real)

  /** The local player's session, set by `init`. */
  datatype Session = Session(myId: string, settings: World.Settings)

  /** A mirrored record. A `playerUpdate` stores the merged record under
      `.nickname`, so a mirrored record may nest further records. */
  datatype Entry = Entry(rec: World.Player, nickname: Option<Entry>)

  /** What the client knows: its session once `init` arrived, and the
      mirror of the server's map. */
  datatype ClientState = ClientState(session: Option<Session>, players: map<string, Entry>)

  /** The viewport update at the top of `render`: it follows the local player
      only when the id is set (a non-empty string) and that player is in the
      mirror; otherwise the viewport keeps its last value. */
  function FollowPlayer(cs: ClientState, canvasWidth: real, canvasHeight: real, view: Viewport): (v: Viewport)
    ensures cs.session.None? ==> v == view
    ensures cs.session.Some? && (cs.session.value.myId == "" || cs.session.value.myId !in cs.players) ==> v == view
    ensures cs.session.Some? && cs.session.value.myId != "" && cs.session.value.myId in cs.players ==>
      var s := cs.session.value.settings;
      && 0.0 <= v.x && 0.0 <= v.y
      && (canvasWidth <= s.width ==> v.x <= s.width - canvasWidth)
      && (canvasHeight <= s.height ==> v.y <= s.height - canvasHeight)
      && (s.width <= canvasWidth ==> v.x == 0.0)
      && (s.height <= canvasHeight ==> v.y == 0.0)
      && var p := cs.players[cs.session.value.myId].rec;
         && (0.0 <= p.x - canvasWidth / 2.0 <= s.width - canvasWidth ==> v.x == p.x - canvasWidth / 2.0)
         && (0.0 <= p.y - canvasHeight / 2.0 <= s.height - canvasHeight ==> v.y == p.y - canvasHeight / 2.0)
         && v == Viewport(ViewportAxis(s.width, canvasWidth, p.x), ViewportAxis(s.height, canvasHeight, p.y))
  {
    match cs.session
    case None => view
    case Some(sess) =>
      if sess.myId != "" && sess.myId in cs.players then
        var p := cs.players[sess.myId].rec;
        Viewport(ViewportAxis(sess.settings.width, canvasWidth, p.x),
                 ViewportAxis(sess.settings.height, canvasHeight, p.y))
      else view
  }

  const MinimapSize := 200.0

  /** The factor `drawMinimap` scales world coordinates by; `None` when a
      world dimension is zero, where the function returns before drawing. */
  function MinimapScale(width: real, height: real): (r: Option<real>)
    ensures r.None? <==> width == 0.0 || height == 0.0
    ensures 0.0 < width && 0.0 < height ==>
      && r.Some?
      && 0.0 < r.value
      && width * r.value <= MinimapSize
      && height * r.value <= MinimapSize
      && (width * r.value == MinimapSize || height * r.value == MinimapSize)
  {
    if width == 0.0 || height == 0.0 then None
    else
      ScaleFits(width, height);
      Some(Min(MinimapSize / width, MinimapSize / height))
  }

  /** Each axis's own factor fills that axis, and the smaller factor fits
      the other axis too. */
  lemma ScaleFits(width: real, height: real)
    ensures 0.0 < width && 0.0 < height ==>
      var sx, sy := MinimapSize / width, MinimapSize / height;
      && width * sx == MinimapSize
      && height * sy == MinimapSize
      && (sx <= sy ==> height * sx <= MinimapSize)
      && (sy <= sx ==> width * sy <= MinimapSize)
  {
    if 0.0 < width && 0.0 < height {
      var sx, sy := MinimapSize / width, MinimapSize / height;
      if sx <= sy {
        assert height * sx <= height * sy;
      }
      if sy <= sx {
        assert width * sy <= width * sx;
      }
    }
  }

  /** The minimap scale is the largest factor that fits the whole world in
      the 200 by 200 minimap. */
  lemma MinimapScaleIsLargest(width: real, height: real, t: real)
    requires 0.0 < width && 0.0 < height
    requires width * t <= MinimapSize && height * t <= MinimapSize
    ensures t <= MinimapScale(width, height).value
  {
    var s := MinimapScale(width, height).value;
    if width * s == MinimapSize {
      assert width * t <= width * s;
    } else {
      assert height * t <= height * s;
    }
  }

  // ---------------------------------------------------------------------
  // Mirror of the server's map

  /** Records as they arrive on the wire, without a nickname. */
  function FromWire(ps: World.Players): (m: map<string, Entry>)
    ensures m.Keys == ps.Keys
    ensures forall id :: id in ps ==> m[id] == Entry(ps[id], None)
  {
    map id | id in ps :: Entry(ps[id], None)
  }

  /** `init`: the session starts and the mirror becomes the sent map. */
  function OnInit(cs: ClientState, playerId: string, settings: World.Settings, ps: World.Players): (r: ClientState)
    ensures r.session == Some(Session(playerId, settings))
    ensures r.players == FromWire(ps)
  {
    ClientState(Some(Session(playerId, settings)), FromWire(ps))
  }

  /** `newPlayer`: one id is inserted, or overwritten when already present;
      every other entry stays. */
  function OnNewPlayer(cs: ClientState, id: string, p: World.Player): (r: ClientState)
    ensures r.session == cs.session
    ensures r.players.Keys == cs.players.Keys + {id}
    ensures r.players[id] == Entry(p, None)
    ensures forall other :: other in cs.players && other != id ==> r.players[other] == cs.players[other]
  {
    cs.(players := cs.players[id := Entry(p, None)])
  }

  /** `playerDisconnected`: only that id is deleted. */
  function OnPlayerDisconnected(cs: ClientState, id: string): (r: ClientState)
    ensures r.session == cs.session
    ensures r.players.Keys == cs.players.Keys - {id}
    ensures forall other :: other in r.players ==> r.players[other] == cs.players[other]
  {
    cs.(players := cs.players - {id})
  }

  /** `update`: the whole mirror is replaced by the sent map. */
  function OnUpdate(cs: ClientState, ps: World.Players): (r: ClientState)
    ensures r.session == cs.session
    ensures r.players.Keys == ps.Keys
    ensures forall id :: id in ps ==> r.players[id].rec == ps[id]
    ensures r.players == FromWire(ps)
  {
    cs.(players := FromWire(ps))
  }

  /** `playerUpdate`: for a present id, the record merged with the sent one is
      stored under that entry's `.nickname`; the entry's own fields and every
      other entry stay. For an absent id nothing changes. */
  function OnPlayerUpdate(cs: ClientState, id: string, p: World.Player): (r: ClientState)
    ensures r.session == cs.session
    ensures r.players.Keys == cs.players.Keys
    ensures id !in cs.players ==> r == cs
    ensures id in cs.players ==>
      && r.players[id].rec == cs.players[id].rec
      && r.players[id].nickname == Some(Entry(p, cs.players[id].nickname))
    ensures forall other :: other in cs.players && other != id ==> r.players[other] == cs.players[other]
  {
    if id in cs.players then
      var e := cs.players[id];
      cs.(players := cs.players[id := e.(nickname := Some(Entry(p, e.nickname)))])
    else cs
  }

  /** The handler for each server message. */
  function Receive(cs: ClientState, msg: World.Message): ClientState {
    match msg
    case Init(playerId, settings, ps) => OnInit(cs, playerId, settings, ps)
    case NewPlayer(id, p) => OnNewPlayer(cs, id, p)
    case PlayerDisconnected(id) => OnPlayerDisconnected(cs, id)
    case Update(ps) => OnUpdate(cs, ps)
  }

  function ReceiveAll(cs: ClientState, msgs: seq<World.Message>): ClientState
    decreases |msgs|
  {
    if |msgs| == 0 then cs else ReceiveAll(Receive(cs, msgs[0]), msgs[1..])
  }

}
