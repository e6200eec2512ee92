# balls-online: a Dafny model of the world server and the client's pure logic

balls-online is a small multiplayer "presence" game. A Node server keeps one
map from connection id to player record `{x, y, radius, color, speed, dx, dy}`
in a 2000 x 2000 world with a 50-unit boundary wall. Clients connect, get a
random spawn point and colour, and send their movement direction. Sixty times
a second the server moves every player by `d * speed`, clamps each axis into
`[radius + boundaryWidth, dimension - radius - boundaryWidth]`, and broadcasts
the whole map. The browser client keeps a mirror of that map, turns arrow and
`w`/`a`/`s`/`d` keys into a direction, and centres a clamped camera on its own
player.

The model has these modules:

- `Geometry` (geometry.dfy): the `Math.max(lo, Math.min(hi, v))` clamp used by
  both sides, over exact reals.
- `Hex` (hex.dfy): `Number.prototype.toString(16)` and the `'#' + hex` colour
  text, with the value it encodes read back.
- `World` (world.dfy): the server's state, settings and records. It holds the
  four transitions `Connect`, `Move`, `Disconnect` and `Tick`, each returning
  the new map and the messages it emitted (`socket.emit`,
  `socket.broadcast.emit`, `io.emit`). It also holds the in-place loop of
  `update()`.
- `Server` (server.dfy): runs of the server as event sequences over the fixed
  settings, and the world invariant that every run keeps.
- `Client` (client.dfy): the key flags, the movement vector, the camera clamp,
  the minimap scale and the mirror handlers.
- `Sync` (sync.dfy): how the emitted messages keep each client's mirror equal
  to the server's map.
- `Wrappers` (wrappers.dfy): `Option`.

The model uses these conventions:

- Coordinates, speeds and input vectors are `real`.
- Every `Math.random()` result is a parameter in `[0, 1)`.
- Socket ids are `string` parameters.
- A tick is one atomic step. The server runs on a single event loop, so no
  handler interleaves with another.

Some details of the code shape the model:

- `World.Move` accepts any reals. server.js:54-55 stores the payload's `dx`/`dy` verbatim,
  with no range check, although the client only sends unit or zero vectors.
- `World.Spawn` draws in `[0, width] x [0, height]` (server.js:31-32). Only the
  next tick clamps the record, and `Server.Unsettled` tracks the players not
  yet clamped.

- `updateMovement` tests `keys.ArrowRight || keys.d` (and likewise for the
  other arrows). The `keys` object only ever has the four arrow fields, so the
  letter disjuncts are always `undefined`. The letters act only through the
  `keydown`/`keyup` aliases. `Client.RawDirection` therefore reads the four
  flags.
- `updateMovement`'s `if (!socket) return` never fires. The key listeners are
  registered inside `initializeGame` after `socket = io()`. So every key
  event, even one for an unbound key, sends a `move` (`Client.OnKeyDown`,
  `Client.OnKeyUp`).
- `getRandomColor` multiplies by 16777215, so colour index `0xffffff`
  (white) is never drawn. The model keeps that range (`Hex.ColorRange`).

## Model

| member | source | states |
|---|---|---|
| Geometry.Clamp | server.js:70-83 | The clamped value is at least `lo`. It is at most `hi` when the range is non-empty. It equals `v` when `v` is already in range. It is `lo` when `v` is below `lo` or the range is empty, and `hi` when `v` is above a non-empty range. |
| Geometry.ClampIsNearest | server.js:70-83 | For a non-empty range, the clamp is the unique point of `[lo, hi]` nearest to `v`. |
| Geometry.ClampIdempotent | server.js:70-83 | Clamping twice equals clamping once. |
| Hex.ToHex | server.js:91 | `n.toString(16)` is a non-empty text of lower-case hex digits. It starts with `0` exactly when `n` is 0, so there is no zero padding. |
| Hex.HexRoundTrip | server.js:91 | Reading back the hex text of `n` gives `n`. |
| Hex.CanonicalRoundTrip | server.js:91 | Every hex text without a leading zero is the hex text of the number it denotes. Hex writing is a bijection onto canonical texts. |
| Hex.ToHexLength | server.js:91 | A number below `16^k` has at most `k` hex digits. |
| Hex.ColorText | server.js:90-92 | The colour text for index `n < 16777215` is `'#'` followed by the canonical hex of `n`. Its length is between 2 and 7, and reading the digits back gives `n`. |
| Hex.HexAtLeast | server.js:91 | A number of at least `16^k` has more than `k` hex digits. |
| Hex.LeadingZerosValue | server.js:91 | Prefixing zeros does not change the value a hex text denotes. |
| Hex.ShortColorExample | server.js:91 | Index 255 gives `#ff`, which is not a seven-character `#rrggbb` colour. |
| Hex.PaddedColor | server.js:91 | The zero-padded colour always has length 7, is `'#'` followed by hex digits, and reads back to `n`. |
| Hex.PaddedColorAgrees | server.js:91 | The padded colour is the as-written colour with zeros inserted after `'#'` up to six digits, so both encode the same index. They differ exactly for the indices below `0x100000` and coincide from there on. |
| World.ColorIndex | server.js:91 | `Math.floor(draw * 16777215)` for a draw in `[0, 1)` is the floor of the product, and is below 16777215. |
| World.RandomColor | server.js:90-92 | `getRandomColor()` returns `'#'` plus 1 to 6 canonical lower-case hex digits that encode the drawn index. |
| World.Scale | server.js:31-32 | `Math.random() * extent` lies in `[0, extent]`. |
| World.Spawn | server.js:30-38 | A new record has radius 25, speed 5 and zero input. Its position is `Math.random()` times each dimension, so it lies in `[0, width] x [0, height]`, and its colour is `getRandomColor()` of the colour draw. |
| World.SpawnMayBeOutOfBounds | server.js:31-32 | The spawn position is not clamped. With the server's settings, a draw of 0 puts the player outside the tick bounds, until the next tick. |
| World.Connect | server.js:30-49 | Connect adds exactly the new id with the `Spawn` record for the draws, and keeps every other entry. It emits `init` with the whole map to the new socket and then `newPlayer` with the new record to all others. |
| World.Move | server.js:51-57 | A move overwrites only `dx`/`dy` of the sender's record and keeps every other record. It is a no-op for a sender without a record, and emits nothing. |
| World.Disconnect | server.js:59-63 | Disconnect removes exactly the sender's id, leaves all other records unchanged, and emits `playerDisconnected` to all. |
| World.TickPlayer | server.js:68-83 | A tick changes only `x` and `y`, and each lies in its axis range when that range is non-empty. On each axis, independently, an in-range `x + dx*speed` is taken exactly. A target below the range, or any target when the range is empty, lands on `Low`, and a target above a non-empty range lands on the upper bound. |
| World.Tick | server.js:66-86 | A tick keeps the id set and ticks every record as `TickPlayer` does. It changes only `x` and `y`, puts them in bounds, and moves them exactly when unclamped. It then broadcasts `update` with the new map. |
| World.UpdateInPlace | server.js:67-84 | The in-place `for (const id in players)` loop gives the same map as ticking every record, whatever the key order, as long as each key is visited once. |
| World.TickAtRest | server.js:70-83 | An in-bounds player with `dx = dy = 0` is left unchanged by a tick. |
| World.TickIdempotentAtRest | server.js:66-84 | When no one moves, a second tick changes nothing. |
| World.MoveLastWins | server.js:51-57 | Of two moves from the same sender, only the last one's vector remains. |
| World.MoveRightThenTick | server.js:51-83 | A move of `(1, 0)` followed by a tick advances `x` by exactly `speed`, clamped. `y` is only clamped. |
| World.ConnectThenDisconnect | server.js:30-63 | Connecting a fresh id and then disconnecting it restores the map. |
| World.DisconnectCommutesWithTick | server.js:59-84 | Removing a player before or after a tick gives the same map. |
| World.ServerSettingsFit | server.js:12-16 | With the server's settings and radius 25, both axis ranges are `[75, 1925]`, which is non-empty. |
| World.ConnectDelivery | server.js:40-49 | On connect, the new connection receives exactly one `init` with its id, the settings and the whole map including itself. Every other connection receives exactly one `newPlayer` with the new id. |
| World.DisconnectDelivery | server.js:59-63 | On disconnect, every remaining connection receives exactly one `playerDisconnected` with the id. |
| World.TickDelivery | server.js:85 | After a tick, every connection receives exactly one `update` with the ticked map. |
| Server.ApplyKeepsSettled | server.js:30-84 | Each of the four events keeps the world invariant. Records keep radius 25, speed 5 and a colour of the `getRandomColor` form. Every record that has been through a tick since it joined stays in bounds. |
| Server.RunSettled | server.js:30-84 | From the empty world, every run keeps the world invariant. The only records possibly out of bounds are those that joined after the last tick. |
| Server.AfterTickAllInBounds | server.js:66-84 | After any run that ends with a tick, every player lies within `[radius+boundaryWidth, dim-radius-boundaryWidth]` on both axes. |
| Client.KeyDown | public/game.js:113-131 | An arrow key or its `w`/`s`/`a`/`d` alias sets exactly that arrow's flag. Any other key leaves all four flags unchanged. |
| Client.KeyUp | public/game.js:135-153 | An arrow key or its alias clears exactly that arrow's flag. Any other key leaves all four flags unchanged. |
| Client.KeyUpUndoesKeyDown | public/game.js:113-153 | Pressing and releasing a key that was not held restores the flags. |
| Client.AliasesAgree | public/game.js:113-153 | `w`, `s`, `a`, `d` have the same effect as the corresponding arrow key on press and on release. |
| Client.RawDirection | public/game.js:188-194 | Before normalisation, `dx` and `dy` are each in `{-1, 0, 1}`. `dx` is 1 exactly when only right is held, -1 exactly when only left is held, and 0 when both or neither are held. `dy` is the same for down and up. |
| Client.OppositeArrowsCancel | public/game.js:188-194 | Holding both arrows of an axis cancels that axis to 0. |
| Client.Outgoing | public/game.js:196-203 | With no arrow counting, `(0, 0)` is sent and not normalised. With one axis non-zero, that raw unit vector is sent exactly. A diagonal is sent divided by the square root of 2. |
| Client.NoKeysSendZero | public/game.js:41-46 | With every flag false, as the `keys` object starts, the client sends the zero vector. |
| Client.OutgoingIsUnitOrZero | public/game.js:196-203 | The sent vector has squared length 0 exactly when no arrow counts, and 1 otherwise. |
| Client.OnKeyDown | public/game.js:113-133 | Every `keydown` leaves the flags as `KeyDown` sets them and sends the vector of the new flags. An unbound key keeps the flags and resends the current vector. |
| Client.OnKeyUp | public/game.js:135-155 | Every `keyup` leaves the flags as `KeyUp` clears them and sends the vector of the new flags. An unbound key keeps the flags and resends the current vector. |
| Client.ViewportAxis | public/game.js:306-307 | The clamped camera coordinate is at least 0. It is at most `world - canvas` when the canvas fits, exactly 0 when the canvas is at least as wide as the world or the centred value is negative, and exactly `world - canvas` when the centred value is past that edge. It is centred on the player whenever that is in range. |
| Client.ViewportNearestCentre | public/game.js:302-307 | When the canvas fits, the clamped camera coordinate is the allowed position nearest to the one that centres the player. |
| Client.FollowPlayer | public/game.js:300-308 | The camera follows only a known, non-empty local id present in the mirror, and otherwise keeps its last value. When it follows, each axis is exactly `ViewportAxis` of that axis's world size, canvas size and player coordinate. |
| Client.MinimapScale | public/game.js:249-259 | There is no scale exactly when a dimension is 0. For positive dimensions the scale is positive, `width*scale ≤ 200` and `height*scale ≤ 200`, with equality on at least one axis. |
| Client.MinimapScaleIsLargest | public/game.js:256-259 | Every factor that fits the world into 200 x 200 is at most the minimap scale. |
| Client.FromWire | public/game.js:81 | Wire records enter the mirror under the same ids, unchanged and without a nickname. |
| Client.OnInit | public/game.js:78-82 | `init` sets the local id and settings and replaces the mirror with the sent map. |
| Client.OnNewPlayer | public/game.js:91-93 | `newPlayer` inserts or overwrites a single id and keeps every other entry. |
| Client.OnPlayerDisconnected | public/game.js:96-98 | `playerDisconnected` deletes only that id. |
| Client.OnUpdate | public/game.js:101-103 | `update` replaces the whole mirror with the sent map. Any nickname stored earlier is dropped. |
| Client.OnPlayerUpdate | public/game.js:106-110 | `playerUpdate` for an absent id is a no-op. For a present id, the merged record goes under `.nickname`, and the entry's own fields and all other entries stay. |
| Sync.ConnectInitSyncs | server.js:40-44 | After its `init`, a new connection's mirror equals the server's map, whatever it held before, and its session names it. |
| Sync.ConnectKeepsOthersInSync | server.js:46-49 | Every other connection whose mirror was in step stays in step after its `newPlayer`. |
| Sync.DisconnectKeepsInSync | server.js:59-63 | Every remaining in-step mirror stays in step after `playerDisconnected`. |
| Sync.TickSyncs | server.js:85 | After a tick's `update`, every mirror equals the server's map. |
| Sync.MoveLagsOnlyInInput | server.js:51-57 | A move changes no mirror. An in-step mirror then differs from the server only in the sender's input vector. |

## Findings

| source | as written | input that shows it | evidently intended | confidence | as-written member | corrected member |
|---|---|---|---|---|---|---|
| server.js:91 | `'#' + Math.floor(Math.random()*16777215).toString(16)` has no zero padding | a draw giving index 255 yields `#ff` (any index below `0x100000`, about 1 in 16 draws, yields fewer than six digits) | a `#rrggbb` colour, i.e. the hex padded to six digits | high (not executed) | Hex.ShortColorExample | Hex.PaddedColor |

The world model (`World.RandomColor`, `World.Spawn`) keeps the colour as
written, because the stored record is what every client draws. `Hex.PaddedColor`
is the corrected definition, and `Hex.PaddedColorAgrees` relates the two.

## Left out

- World.Inbox: the recipients of a step's messages are taken to be the ids
  left after the step. `Inbox` itself accepts any id, including a departed one
  that socket.io no longer reaches, so the delivery lemmas are meant for those
  remaining ids only.
- HTTP serving, socket.io wiring, `server.listen`, console logging and
  `getLocalIpAddress` are network and OS I/O. Emitted messages are modelled as
  an outbox. Delivery is taken as reliable and in order.
- The 60 Hz `setInterval` is not modelled. A tick is one atomic step and
  there is no timing.
- IEEE floating point is not modelled. Reals are exact, so rounding in
  `x + dx*speed` and in `Math.random() * width` is not modelled. The diagonal
  normalisation `Math.sqrt` stays symbolic (`Client.MoveMsg.Scaled`).
- `Math.random()` and the socket id generator are outside the model. Their
  results are parameters. Uniqueness of socket ids is the transport's
  business. A repeated id overwrites the record, as the code does.
- World.Move: takes real `dx`/`dy`. The handler stores the payload's `dx`
  and `dy` fields (server.js:54-55) without checking them. A `null` or absent
  payload makes `data.dx` throw when the sender has a record. The tick
  (server.js:70-83) converts the stored fields to numbers: `null` acts as 0,
  and a numeric string or `true` moves the player. A missing field, a
  non-numeric string or an object makes that coordinate `NaN`, and no later
  tick repairs it, because `Math.max(lo, Math.min(hi, NaN))` is `NaN`. None of
  these non-numeric cases is modelled.
- Canvas drawing is not modelled: the grid, boundaries, players and minimap
  drawing, `requestAnimationFrame`, and the resize handler.
- The DOM start menu, nickname input and `setNickname` emit are not modelled.
  The server has no handler for `setNickname`.
- Client.OnPlayerUpdate: the server never emits `playerUpdate`. The payload's
  `player` is taken as a full wire record, not an arbitrary partial object, so
  the merge `{...entry, ...player}` is that record plus the entry's nickname.
- Client.MinimapScale: `!settings.width` is also true for `undefined` and
  `NaN`. The settings always come from the server, so only the zero case is
  modelled. A negative dimension yields a scale, as in the code, but the
  contract does not constrain it: the server's settings are positive.
- The order of messages before `init` is not modelled. The server sends `init`
  first, so the mirror handlers are modelled from the state `init` creates.
- Sync.ConnectInitSyncs: `init` is taken to carry a snapshot of the map when
  it is sent. socket.io serialises on emit.
