/** Runs of the server: the events that reach it on its single event loop,
    applied one at a time to the world with the server's fixed settings, and
    the invariants every run keeps. */
module Server {

  import opened World
  import Hex

  /** One event the server handles. A join carries the three `Math.random()`
      draws made while creating the record. */
  datatype Event =
    | Join(id: string, rx: real, ry: real, rc: real)
    | Steer(id: string, dx: real, dy: real)
    | Leave(id: string)
    | Tick

  /** The draws `Math.random()` can produce lie in `[0, 1)`. */
  predicate ValidEvent(e: Event) {
    e.Join? ==> 0.0 <= e.rx < 1.0 && 0.0 <= e.ry < 1.0 && 0.0 <= e.rc < 1.0
  }

  predicate ValidTrace(t: seq<Event>) {
    forall i :: 0 <= i < |t| ==> ValidEvent(t[i])
  }

  function Apply(players: Players, e: Event): Step
    requires ValidEvent(e)
  {
    match e
    case Join(id, rx, ry, rc) => Connect(ServerSettings, players, id, rx, ry, rc)
    case Steer(id, dx, dy) => Move(players, id, dx, dy)
    case Leave(id) => Disconnect(players, id)
    case Tick => World.Tick(ServerSettings, players)
  }

  /** The player map after the events of `t`, in order. */
  function Run(players: Players, t: seq<Event>): Players
    requires ValidTrace(t)
  {
    if |t| == 0 then players
    else Apply(Run(players, t[..|t| - 1]), t[|t| - 1]).players
  }

  /** Ids that joined after the last tick of `t` and are still present:
      their spawn position has not been clamped yet. */
  function Unsettled(t: seq<Event>): set<string> {
    if |t| == 0 then {}
    else
      var before := Unsettled(t[..|t| - 1]);
      match t[|t| - 1]
      case Join(id, _, _, _) => before + {id}
      case Steer(_, _, _) => before
      case Leave(id) => before - {id}
      case Tick => {}
  }

  /** Every record has the spawn radius and speed and a colour of the form
      `getRandomColor` produces. */
  predicate WellFormed(players: Players) {
    forall id :: id in players ==>
      && players[id].radius == SpawnRadius
      && players[id].speed == SpawnSpeed
      && 2 <= |players[id].color| <= 7
      && players[id].color[0] == '#'
      && Hex.IsCanonical(players[id].color[1..])
  }

  /** The world invariant: records are well formed and every record that has
      been through a tick since it joined lies inside the bounds. */
  predicate Settled(players: Players, pending: set<string>) {
    && WellFormed(players)
    && forall id :: id in players && id !in pending ==> InBounds(ServerSettings, players[id])
  }

  /** Each event keeps the invariant, with the set of unclamped ids updated
      as `Unsettled` does. */
  lemma ApplyKeepsSettled(players: Players, pending: set<string>, e: Event)
    requires ValidEvent(e)
    requires Settled(players, pending)
    ensures Settled(Apply(players, e).players,
                    match e
                    case Join(id, _, _, _) => pending + {id}
                    case Steer(_, _, _) => pending
                    case Leave(id) => pending - {id}
                    case Tick => {})
  {
    match e
    case Join(id, rx, ry, rc) =>
    case Steer(id, dx, dy) =>
    case Leave(id) =>
    case Tick =>
      var r := World.Tick(ServerSettings, players);
      forall id | id in r.players
        ensures InBounds(ServerSettings, r.players[id])
      {
        ServerSettingsFit(players[id]);
      }
  }

  /** From the empty world, after any run, every record is well formed and
      every record is inside the bounds except those joined since the last
      tick. */
  lemma {:induction false} RunSettled(t: seq<Event>)
    requires ValidTrace(t)
    ensures Settled(Run(map[], t), Unsettled(t))
  {
    if |t| > 0 {
      var init := t[..|t| - 1];
      assert ValidTrace(init) by {
        forall i | 0 <= i < |init| ensures ValidEvent(init[i]) {
          assert init[i] == t[i];
        }
      }
      RunSettled(init);
      ApplyKeepsSettled(Run(map[], init), Unsettled(init), t[|t| - 1]);
    }
  }

  /** A run that ends with a tick has every player inside the bounds. */
  lemma AfterTickAllInBounds(t: seq<Event>)
    requires ValidTrace(t)
    requires |t| > 0 && t[|t| - 1] == Tick
    ensures forall id :: id in Run(map[], t) ==> InBounds(ServerSettings, Run(map[], t)[id])
  {
    RunSettled(t);
  }

}
