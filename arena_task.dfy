/**
 * The per-tick arena state machine (src/minerware/tasks/ArenaTask.php).
 *
 * Step gives, for an arena state and what the collaborators answer during
 * the tick, the next state, the side effects in the order they happen and
 * whether the tick returned or threw. Arena.Tick runs the tick imperatively
 * over the arena's fields and is proved to do exactly what Step says. The
 * lemmas state what one tick does in each phase.
 */
module ArenaTask {
  import opened Wrappers
  import opened Maps

  type Player = nat

  datatype Status = Waiting | Starting | InGame | Ending

  /** What waitingtime is reset to while the arena lacks players. */
  const WAITING_TIME: int := 40

  /** The starting-timer value at which the map and world are provisioned. */
  const PROVISION_TIME: int := 11

  /** The arena's player bounds and the server's data path. */
  datatype Config = Config(minPlayers: nat, maxPlayers: nat, serverPath: string) {
    ghost predicate Valid() { 0 < minPlayers <= maxPlayers }
  }

  /**
   * What the collaborators answer during one tick: the map the vote counter
   * names as winner, and whether the world manager loads the world folder.
   */
  datatype Env = Env(winner: Map, loaded: bool)

  /** The translated texts a player is sent (as chat message or as tip). */
  datatype Notice =
    | NeedMorePlayers
    | StartingByCapacity
    | Countdown(time: int)
    | UrgentCountdown(time: int)
    | CountCancelled
    | StartBar(time: int)
    | UrgentStartBar(time: int)

  datatype Sound = Click | Toast

  /** The calls a tick makes into players, the engine and the arena manager. */
  datatype Effect =
    | Tip(player: Player, notice: Notice)
    | Message(player: Player, notice: Notice)
    | PlaySound(player: Player, sound: Sound)
    | ClearInventories(player: Player)
    | TpSpawn(player: Player)
    | SendToLobby(player: Player)
    | WorldBound
    | MapDeleted
    | MicrogameStarted
    | MicrogameTicked
    | Rejoined(player: Player)
    | ArenaRemoved

  /** The body of one of the tick's loops over the players. */
  datatype Action =
    | NeedMorePlayersTip
    | CapacityMessage
    | WaitingCountdown(time: int)
    | PrepareForSpawn
    | CancelCountdown
    | StartTip(time: int)
    | UrgentStartTip(time: int)
    | Requeue

  /** What one iteration of a loop does for player p. */
  function Effects(a: Action, p: Player): seq<Effect> {
    match a
    case NeedMorePlayersTip => [Tip(p, NeedMorePlayers)]
    case CapacityMessage => [Message(p, StartingByCapacity)]
    case WaitingCountdown(t) =>
      if 6 <= t <= 40 then [Message(p, Countdown(t))]
      else if 1 <= t <= 5 then [Message(p, UrgentCountdown(t)), PlaySound(p, Click)]
      else []
    case PrepareForSpawn => [ClearInventories(p), TpSpawn(p)]
    case CancelCountdown => [Message(p, CountCancelled), SendToLobby(p), ClearInventories(p), MapDeleted]
    case StartTip(t) => [Tip(p, StartBar(t))]
    case UrgentStartTip(t) => [Tip(p, UrgentStartBar(t)), PlaySound(p, Toast)]
    case Requeue => [Rejoined(p)]
  }

  /** What a whole loop over the players does, player after player. */
  function ForEach(ps: seq<Player>, a: Action): seq<Effect> {
    if ps == [] then [] else ForEach(ps[..|ps| - 1], a) + Effects(a, ps[|ps| - 1])
  }

  datatype ArenaState = ArenaState(
    id: string,
    status: Status,
    waitingtime: int,
    startingtime: int,
    gametime: int,
    endingtime: int,
    players: seq<Player>,
    gameMap: Option<Map>,
    world: Option<World>)

  datatype Outcome = Returned | Threw(reason: string)

  datatype TickResult = TickResult(state: ArenaState, effects: seq<Effect>, outcome: Outcome)

  function Done(s: ArenaState, effects: seq<Effect>): TickResult {
    TickResult(s, effects, Returned)
  }

  /** The world instance map m yields for arena id when loading succeeds. */
  function ProvisionedWorld(c: Config, m: Map, id: string): World {
    World(WorldName(m.name, id), WorldDir(c.serverPath, WorldName(m.name, id)))
  }

  /** One tick: the status is read once and only that phase's branch runs. */
  function Step(c: Config, s: ArenaState, env: Env): TickResult {
    match s.status
    case Waiting => WaitingTick(c, s)
    case Starting => StartingTick(c, s, env)
    case InGame => InGameTick(s)
    case Ending => EndingTick(s)
  }

  function WaitingTick(c: Config, s: ArenaState): TickResult {
    if |s.players| < c.minPlayers then
      Done(s.(waitingtime := WAITING_TIME), ForEach(s.players, NeedMorePlayersTip))
    else
      var t := s.waitingtime - 1;
      var full := |s.players| == c.maxPlayers;
      var announced := if full then ForEach(s.players, CapacityMessage) else [];
      Done(s.(waitingtime := t, status := if full || t == 0 then Starting else Waiting),
           announced + ForEach(s.players, WaitingCountdown(t)))
  }

  function StartingTick(c: Config, s: ArenaState, env: Env): TickResult {
    var s1 := s.(startingtime := s.startingtime - 1);
    if s1.startingtime == PROVISION_TIME then
      match env.winner.GenerateWorld(c.serverPath, s.id, env.loaded)
      case Failure(e) => TickResult(s1, [], Threw(e))
      case Success(w) =>
        var rest := StartingRest(c, s1.(gameMap := Some(env.winner), world := Some(w)));
        Done(rest.state, [WorldBound] + ForEach(s.players, PrepareForSpawn) + rest.effects)
    else
      StartingRest(c, s1)
  }

  /**
   * The part of a starting tick after provisioning: the abort when players
   * are missing, the countdown tips, and the move to InGame when the timer
   * has run out.
   */
  function StartingRest(c: Config, s: ArenaState): TickResult {
    var checked := AbortCheck(c, s);
    Done(if s.startingtime == 0 then checked.state.(status := InGame) else checked.state,
         checked.effects + StartTips(s.players, s.startingtime))
  }

  /**
   * Back to Waiting when players are missing; deleteMap runs once per
   * player, so the bindings are released only when some player is left.
   */
  function AbortCheck(c: Config, s: ArenaState): TickResult {
    if |s.players| < c.minPlayers then
      var released := |s.players| > 0;
      Done(s.(status := Waiting,
              gameMap := if released then None else s.gameMap,
              world := if released then None else s.world),
           ForEach(s.players, CancelCountdown))
    else
      Done(s, [])
  }

  /** The countdown tips of the starting phase for timer value t. */
  function StartTips(ps: seq<Player>, t: int): seq<Effect> {
    (if 4 <= t <= 10 then ForEach(ps, StartTip(t)) else []) +
    (if 1 <= t <= 3 then ForEach(ps, UrgentStartTip(t)) else [])
  }

  function InGameTick(s: ArenaState): TickResult {
    var g := s.gametime + 1;
    Done(s.(gametime := g), (if g == 1 then [MicrogameStarted] else []) + [MicrogameTicked])
  }

  function EndingTick(s: ArenaState): TickResult {
    var e := s.endingtime - 1;
    if e == 0 then
      Done(s.(endingtime := e, gameMap := None, world := None),
           ForEach(s.players, Requeue) + [MapDeleted, ArenaRemoved])
    else
      Done(s.(endingtime := e), [])
  }

  /** One arena session, ticked once per scheduler period. */
  class Arena {
    const id: string
    const config: Config
    var status: Status
    var waitingtime: int
    var startingtime: int
    var gametime: int
    var endingtime: int
    var players: seq<Player>
    var gameMap: Option<Map>
    var world: Option<World>
    /** The calls made so far into players, the engine and the arena manager. */
    ghost var trace: seq<Effect>

    function State(): ArenaState
      reads this
    {
      ArenaState(id, status, waitingtime, startingtime, gametime, endingtime, players, gameMap, world)
    }

    constructor (config: Config, initial: ArenaState)
      requires config.Valid()
      ensures this.config == config && State() == initial && trace == []
    {
      this.config := config;
      id := initial.id;
      status := initial.status;
      waitingtime := initial.waitingtime;
      startingtime := initial.startingtime;
      gametime := initial.gametime;
      endingtime := initial.endingtime;
      players := initial.players;
      gameMap := initial.gameMap;
      world := initial.world;
      trace := [];
    }

    /** Runs one tick; the arena ends up exactly as Step describes. */
    method Tick(env: Env) returns (outcome: Outcome)
      requires config.Valid()
      modifies this
      ensures var r := Step(config, old(State()), env);
        State() == r.state && trace == old(trace) + r.effects && outcome == r.outcome
    {
      var players := this.players;
      match status {
        case Waiting =>
          TickWaiting(players);
          outcome := Returned;
        case Starting =>
          outcome := TickStarting(players, env);
        case InGame =>
          gametime := gametime + 1;
          if gametime == 1 {
            trace := trace + [MicrogameStarted];
          }
          trace := trace + [MicrogameTicked];
          outcome := Returned;
        case Ending =>
          endingtime := endingtime - 1;
          if endingtime == 0 {
            Broadcast(players, Requeue);
            DeleteMap();
            trace := trace + [ArenaRemoved];
          }
          outcome := Returned;
      }
    }

    method TickWaiting(players: seq<Player>)
      requires players == this.players && status == Waiting
      modifies this
      ensures var r := WaitingTick(config, old(State()));
        State() == r.state && trace == old(trace) + r.effects
    {
      if |players| < config.minPlayers {
        waitingtime := WAITING_TIME;
        Broadcast(players, NeedMorePlayersTip);
      } else {
        waitingtime := waitingtime - 1;
        ghost var announced: seq<Effect> := [];
        if |players| == config.maxPlayers {
          Broadcast(players, CapacityMessage);
          announced := ForEach(players, CapacityMessage);
          status := Starting;
        }
        Broadcast(players, WaitingCountdown(waitingtime));
        assert trace == old(trace) + announced + ForEach(players, WaitingCountdown(waitingtime));
        if waitingtime == 0 {
          status := Starting;
        }
      }
    }

    method TickStarting(players: seq<Player>, env: Env) returns (outcome: Outcome)
      requires players == this.players
      modifies this
      ensures var r := StartingTick(config, old(State()), env);
        State() == r.state && trace == old(trace) + r.effects && outcome == r.outcome
    {
      startingtime := startingtime - 1;
      outcome := Returned;
      if startingtime == PROVISION_TIME {
        ghost var before := trace;
        outcome := Provision(players, env);
        if outcome.Threw? {
          return;
        }
        ghost var provisioned := State();
        FinishStarting(players);
        ghost var rest := StartingRest(config, provisioned);
        assert trace == before + ([WorldBound] + ForEach(players, PrepareForSpawn) + rest.effects);
      } else {
        FinishStarting(players);
      }
    }

    /**
     * Binds the vote winner and its freshly generated world, then readies
     * every player for the spawn; when generation fails nothing is bound
     * and the failure propagates.
     */
    method Provision(players: seq<Player>, env: Env) returns (outcome: Outcome)
      requires players == this.players
      modifies this
      ensures var g := env.winner.GenerateWorld(config.serverPath, id, env.loaded);
        if g.Failure? then
          outcome == Threw(g.error) && State() == old(State()) && trace == old(trace)
        else
          outcome == Returned &&
          State() == old(State()).(gameMap := Some(env.winner), world := Some(g.value)) &&
          trace == old(trace) + [WorldBound] + ForEach(players, PrepareForSpawn)
    {
      var winner := env.winner;
      var generated := winner.GenerateWorld(config.serverPath, id, env.loaded);
      if generated.Failure? {
        return Threw(generated.error);
      }
      gameMap := Some(winner);
      world := Some(generated.value);
      trace := trace + [WorldBound];
      Broadcast(players, PrepareForSpawn);
      outcome := Returned;
    }

    /** The abort check, the countdown tips and the move to InGame. */
    method FinishStarting(players: seq<Player>)
      requires players == this.players
      modifies this
      ensures var r := StartingRest(config, old(State()));
        State() == r.state && trace == old(trace) + r.effects
    {
      CheckRoster(players);
      ShowStartTips(players, startingtime);
      if startingtime == 0 {
        status := InGame;
      }
    }

    method CheckRoster(players: seq<Player>)
      requires players == this.players
      modifies this
      ensures var r := AbortCheck(config, old(State()));
        State() == r.state && trace == old(trace) + r.effects
    {
      if |players| < config.minPlayers {
        status := Waiting;
        CancelAll(players);
      }
    }

    method ShowStartTips(players: seq<Player>, t: int)
      modifies this`trace
      ensures trace == old(trace) + StartTips(players, t)
    {
      if 4 <= t <= 10 {
        Broadcast(players, StartTip(t));
      }
      if 1 <= t <= 3 {
        Broadcast(players, UrgentStartTip(t));
      }
    }

    /**
     * The abort loop: every player is told, sent to the lobby and cleared,
     * and deleteMap is called once per player.
     */
    method CancelAll(players: seq<Player>)
      modifies this`gameMap, this`world, this`trace
      ensures trace == old(trace) + ForEach(players, CancelCountdown)
      ensures gameMap == (if |players| == 0 then old(gameMap) else None)
      ensures world == (if |players| == 0 then old(world) else None)
    {
      var i := 0;
      while i < |players|
        invariant 0 <= i <= |players|
        invariant trace == old(trace) + ForEach(players[..i], CancelCountdown)
        invariant gameMap == (if i == 0 then old(gameMap) else None)
        invariant world == (if i == 0 then old(world) else None)
      {
        var p := players[i];
        assert players[..i + 1][..i] == players[..i];
        trace := trace + [Message(p, CountCancelled), SendToLobby(p), ClearInventories(p)];
        DeleteMap();
        i := i + 1;
      }
      assert players[..i] == players;
    }

    /** The loop `foreach players` whose body is a. */
    method Broadcast(players: seq<Player>, a: Action)
      modifies this`trace
      ensures trace == old(trace) + ForEach(players, a)
    {
      var i := 0;
      while i < |players|
        invariant 0 <= i <= |players|
        invariant trace == old(trace) + ForEach(players[..i], a)
      {
        assert players[..i + 1][..i] == players[..i];
        trace := trace + Effects(a, players[i]);
        i := i + 1;
      }
      assert players[..i] == players;
    }

    /** Releases the arena's world: map and world are both unbound. */
    method DeleteMap()
      modifies this`gameMap, this`world, this`trace
      ensures gameMap == None && world == None && trace == old(trace) + [MapDeleted]
    {
      gameMap := None;
      world := None;
      trace := trace + [MapDeleted];
    }
  }
}
