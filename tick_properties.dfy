/**
 * What a single tick does, phase by phase, stated over Step
 * (src/minerware/tasks/ArenaTask.php, onRun).
 */
module TickProperties {
  import opened Wrappers
  import opened Maps
  import opened ArenaTask

  // ---- Loops over the players ----

  /** A loop whose body makes one call per player makes them in roster order. */
  lemma {:induction false} ForEachSingles(ps: seq<Player>, a: Action)
    requires forall p :: |Effects(a, p)| == 1
    ensures |ForEach(ps, a)| == |ps|
    ensures forall i | 0 <= i < |ps| :: ForEach(ps, a)[i] == Effects(a, ps[i])[0]
  {
    if ps != [] {
      var init := ps[..|ps| - 1];
      ForEachSingles(init, a);
      assert forall i | 0 <= i < |init| :: ps[i] == init[i];
    }
  }

  /**
   * No loop over the players binds a world or removes the arena, and only
   * the abort loop deletes the map: once per player.
   */
  lemma {:induction false} ForEachArenaCalls(ps: seq<Player>, a: Action)
    ensures multiset(ForEach(ps, a))[WorldBound] == 0
    ensures multiset(ForEach(ps, a))[ArenaRemoved] == 0
    ensures multiset(ForEach(ps, a))[MapDeleted] == if a == CancelCountdown then |ps| else 0
  {
    if ps != [] {
      var init := ps[..|ps| - 1];
      var last := Effects(a, ps[|ps| - 1]);
      ForEachArenaCalls(init, a);
      EffectsArenaCalls(a, ps[|ps| - 1]);
      assert multiset(ForEach(ps, a)) == multiset(ForEach(init, a)) + multiset(last);
    }
  }

  /** What one loop iteration does to the arena itself. */
  lemma EffectsArenaCalls(a: Action, p: Player)
    ensures multiset(Effects(a, p))[WorldBound] == 0
    ensures multiset(Effects(a, p))[ArenaRemoved] == 0
    ensures multiset(Effects(a, p))[MapDeleted] == if a == CancelCountdown then 1 else 0
  {
    EffectsAvoidArena(a, p);
    if a == CancelCountdown {
      var notified := [Message(p, CountCancelled), SendToLobby(p), ClearInventories(p)];
      assert Effects(a, p) == notified + [MapDeleted];
      assert MapDeleted !in notified;
      assert multiset(Effects(a, p)) == multiset(notified) + multiset{MapDeleted};
    }
  }

  lemma EffectsAvoidArena(a: Action, p: Player)
    ensures WorldBound !in Effects(a, p) && ArenaRemoved !in Effects(a, p)
    ensures a != CancelCountdown ==> MapDeleted !in Effects(a, p)
  {
  }

  /** Every player on the roster gets what the loop body does for them. */
  lemma {:induction false} ForEachHas(ps: seq<Player>, a: Action, p: Player, e: Effect)
    requires p in ps && e in Effects(a, p)
    ensures e in ForEach(ps, a)
  {
    var init := ps[..|ps| - 1];
    if p != ps[|ps| - 1] {
      assert ps == init + [ps[|ps| - 1]];
      ForEachHas(init, a, p, e);
    }
  }

  /** A loop does nothing but what its body does for some player on the roster. */
  lemma {:induction false} ForEachOnly(ps: seq<Player>, a: Action, e: Effect)
    requires e in ForEach(ps, a)
    ensures exists p :: p in ps && e in Effects(a, p)
  {
    var init := ps[..|ps| - 1];
    if e in ForEach(init, a) {
      ForEachOnly(init, a, e);
      var p :| p in init && e in Effects(a, p);
      assert p in ps;
    } else {
      assert ps[|ps| - 1] in ps;
    }
  }

  // ---- Waiting ----

  /**
   * Under-populated: waitingtime goes back to 40 and nothing else changes;
   * each player, in roster order, gets the "need more players" tip.
   */
  lemma WaitingUnderpopulated(c: Config, s: ArenaState, env: Env)
    requires s.status == Waiting && |s.players| < c.minPlayers
    ensures var r := Step(c, s, env);
      r.outcome == Returned && r.state == s.(waitingtime := WAITING_TIME) &&
      |r.effects| == |s.players| &&
      forall i | 0 <= i < |s.players| :: r.effects[i] == Tip(s.players[i], NeedMorePlayers)
  {
    ForEachSingles(s.players, NeedMorePlayersTip);
  }

  /**
   * Enough players: waitingtime goes down by exactly one, and the arena
   * moves to Starting exactly when the roster is full or the timer reached
   * 0; the capacity message goes out exactly when the roster is full.
   */
  lemma WaitingPopulated(c: Config, s: ArenaState, env: Env)
    requires s.status == Waiting && c.minPlayers <= |s.players|
    ensures var r := Step(c, s, env);
      r.outcome == Returned &&
      r.state == s.(status := r.state.status, waitingtime := s.waitingtime - 1) &&
      (r.state.status == Starting <==> |s.players| == c.maxPlayers || s.waitingtime - 1 == 0) &&
      (r.state.status != Starting ==> r.state.status == Waiting)
    ensures var r := Step(c, s, env);
      forall p | p in s.players ::
        Message(p, StartingByCapacity) in r.effects <==> |s.players| == c.maxPlayers
  {
    var r := Step(c, s, env);
    var t := s.waitingtime - 1;
    forall p | p in s.players
      ensures Message(p, StartingByCapacity) in r.effects <==> |s.players| == c.maxPlayers
    {
      var e := Message(p, StartingByCapacity);
      if |s.players| == c.maxPlayers {
        ForEachHas(s.players, CapacityMessage, p, e);
      } else if e in r.effects {
        ForEachOnly(s.players, WaitingCountdown(t), e);
      }
    }
  }

  /**
   * The countdown notice reads the decremented timer: a plain notice for
   * 6..40, an urgent one with a click for 1..5, none otherwise.
   */
  lemma WaitingCountdownBands(c: Config, s: ArenaState, env: Env, p: Player)
    requires s.status == Waiting && c.minPlayers <= |s.players| && p in s.players
    ensures var r := Step(c, s, env); var t := s.waitingtime - 1;
      (Message(p, Countdown(t)) in r.effects <==> 6 <= t <= 40) &&
      (Message(p, UrgentCountdown(t)) in r.effects <==> 1 <= t <= 5) &&
      (PlaySound(p, Click) in r.effects <==> 1 <= t <= 5)
  {
    var r := Step(c, s, env);
    var t := s.waitingtime - 1;
    var announced := if |s.players| == c.maxPlayers then ForEach(s.players, CapacityMessage) else [];
    assert r.effects == announced + ForEach(s.players, WaitingCountdown(t));
    CountdownNoticeOf(s.players, t, p, Message(p, Countdown(t)));
    CountdownNoticeOf(s.players, t, p, Message(p, UrgentCountdown(t)));
    CountdownNoticeOf(s.players, t, p, PlaySound(p, Click));
  }

  /** A countdown notice for p is sent by the countdown loop exactly when p's own iteration sends it. */
  lemma CountdownNoticeOf(ps: seq<Player>, t: int, p: Player, e: Effect)
    requires p in ps
    requires e == Message(p, Countdown(t)) || e == Message(p, UrgentCountdown(t)) || e == PlaySound(p, Click)
    ensures e !in ForEach(ps, CapacityMessage)
    ensures e in ForEach(ps, WaitingCountdown(t)) <==> e in Effects(WaitingCountdown(t), p)
  {
    if e in Effects(WaitingCountdown(t), p) {
      ForEachHas(ps, WaitingCountdown(t), p, e);
    }
    if e in ForEach(ps, CapacityMessage) {
      ForEachOnly(ps, CapacityMessage, e);
    }
    if e in ForEach(ps, WaitingCountdown(t)) {
      ForEachOnly(ps, WaitingCountdown(t), e);
    }
  }

  // ---- Starting ----

  /** The state a starting tick hands to StartingRest: timer decremented, world bound if due. */
  function Provisioned(c: Config, s: ArenaState, env: Env): ArenaState {
    var t := s.startingtime - 1;
    if t == PROVISION_TIME
    then s.(startingtime := t, gameMap := Some(env.winner), world := Some(ProvisionedWorld(c, env.winner, s.id)))
    else s.(startingtime := t)
  }

  /** The provisioning calls of a starting tick whose decremented timer is t. */
  function Prepared(ps: seq<Player>, t: int): seq<Effect> {
    if t == PROVISION_TIME then [WorldBound] + ForEach(ps, PrepareForSpawn) else []
  }

  /** A starting tick either throws at provisioning, or provisions if due and runs the rest. */
  lemma StartingCases(c: Config, s: ArenaState, env: Env)
    requires s.status == Starting
    ensures var t := s.startingtime - 1; var r := Step(c, s, env);
      if t == PROVISION_TIME && !env.loaded then
        r == TickResult(s.(startingtime := t), [], Threw("Error Generating world"))
      else
        var rest := StartingRest(c, Provisioned(c, s, env));
        r == Done(rest.state, Prepared(s.players, t) + rest.effects)
  {
    var t := s.startingtime - 1;
    if t != PROVISION_TIME {
      var rest := StartingRest(c, Provisioned(c, s, env));
      assert rest.effects == [] + rest.effects;
    }
  }

  /** The part of a starting tick after provisioning, field by field. */
  lemma StartingRestFields(c: Config, s: ArenaState)
    ensures var r := StartingRest(c, s); var abort := |s.players| < c.minPlayers;
      r.outcome == Returned &&
      r.state == s.(status := if s.startingtime == 0 then InGame else if abort then Waiting else s.status,
                    gameMap := if abort && |s.players| > 0 then None else s.gameMap,
                    world := if abort && |s.players| > 0 then None else s.world) &&
      r.effects == AbortCheck(c, s).effects + StartTips(s.players, s.startingtime)
  {
  }

  /** What the rest of a starting tick does to the arena itself. */
  lemma StartingRestArenaCalls(c: Config, s: ArenaState)
    ensures var r := StartingRest(c, s); var abort := |s.players| < c.minPlayers;
      multiset(r.effects)[WorldBound] == 0 &&
      multiset(r.effects)[MapDeleted] == (if abort then |s.players| else 0)
  {
    var t := s.startingtime;
    StartingRestFields(c, s);
    AbortCheckArenaCalls(c, s);
    StartTipsArenaCalls(s.players, t);
  }

  lemma AbortCheckArenaCalls(c: Config, s: ArenaState)
    ensures var abort := |s.players| < c.minPlayers;
      multiset(AbortCheck(c, s).effects)[WorldBound] == 0 &&
      multiset(AbortCheck(c, s).effects)[MapDeleted] == (if abort then |s.players| else 0)
  {
    ForEachArenaCalls(s.players, CancelCountdown);
  }

  lemma StartTipsArenaCalls(ps: seq<Player>, t: int)
    ensures multiset(StartTips(ps, t))[WorldBound] == 0 && multiset(StartTips(ps, t))[MapDeleted] == 0
  {
    ForEachArenaCalls(ps, StartTip(t));
    ForEachArenaCalls(ps, UrgentStartTip(t));
  }

  /** The provisioning calls bind the world once when due and delete nothing. */
  lemma PreparedArenaCalls(ps: seq<Player>, t: int)
    ensures multiset(Prepared(ps, t))[WorldBound] == (if t == PROVISION_TIME then 1 else 0)
    ensures multiset(Prepared(ps, t))[MapDeleted] == 0
  {
    ForEachArenaCalls(ps, PrepareForSpawn);
  }

  /**
   * A starting tick decrements startingtime by exactly one, and throws
   * exactly when the new value is 11 and the world does not load; a tick
   * that throws changes nothing else and makes no further call.
   */
  lemma StartingDecrement(c: Config, s: ArenaState, env: Env)
    requires s.status == Starting
    ensures var r := Step(c, s, env); var t := s.startingtime - 1;
      r.state.startingtime == t &&
      (r.outcome.Threw? <==> t == PROVISION_TIME && !env.loaded) &&
      (r.outcome.Threw? ==> r.state == s.(startingtime := t) && r.effects == [])
  {
    StartingCases(c, s, env);
    StartingRestFields(c, Provisioned(c, s, env));
  }

  /**
   * Provisioning (binding the vote winner and the world named after the
   * arena id, then readying every player for the spawn) happens exactly
   * when the decremented timer is 11 and the world loads.
   */
  lemma StartingProvisioning(c: Config, s: ArenaState, env: Env)
    requires s.status == Starting
    ensures var r := Step(c, s, env); var t := s.startingtime - 1;
      multiset(r.effects)[WorldBound] == (if t == PROVISION_TIME && env.loaded then 1 else 0)
    ensures var r := Step(c, s, env); var t := s.startingtime - 1;
      c.minPlayers <= |s.players| ==>
        if t == PROVISION_TIME && env.loaded then
          r.state.gameMap == Some(env.winner) &&
          r.state.world == Some(ProvisionedWorld(c, env.winner, s.id)) &&
          forall p | p in s.players :: ClearInventories(p) in r.effects && TpSpawn(p) in r.effects
        else
          r.state.gameMap == s.gameMap && r.state.world == s.world
  {
    var r := Step(c, s, env);
    var t := s.startingtime - 1;
    StartingCases(c, s, env);
    if !(t == PROVISION_TIME && !env.loaded) {
      StartingRestFields(c, Provisioned(c, s, env));
      StartingRestArenaCalls(c, Provisioned(c, s, env));
      PreparedArenaCalls(s.players, t);
      if t == PROVISION_TIME {
        PreparedPlayersReady(s.players);
      }
    }
  }

  lemma PreparedPlayersReady(ps: seq<Player>)
    ensures forall p | p in ps ::
      ClearInventories(p) in Prepared(ps, PROVISION_TIME) && TpSpawn(p) in Prepared(ps, PROVISION_TIME)
  {
    forall p | p in ps
      ensures ClearInventories(p) in Prepared(ps, PROVISION_TIME) && TpSpawn(p) in Prepared(ps, PROVISION_TIME)
    {
      ForEachHas(ps, PrepareForSpawn, p, ClearInventories(p));
      ForEachHas(ps, PrepareForSpawn, p, TpSpawn(p));
    }
  }

  /**
   * After a starting tick that returns, the status is InGame when the
   * timer reached 0, even if the abort fired in the same tick; otherwise
   * Waiting when players are missing, else still Starting.
   */
  lemma StartingFinalStatus(c: Config, s: ArenaState, env: Env)
    requires s.status == Starting
    ensures var r := Step(c, s, env); var t := s.startingtime - 1;
      r.outcome == Returned ==>
        r.state.status == (if t == 0 then InGame
                           else if |s.players| < c.minPlayers then Waiting
                           else Starting)
  {
    StartingCases(c, s, env);
    StartingRestFields(c, Provisioned(c, s, env));
  }

  /**
   * The abort: every player is told, sent to the lobby and has their
   * inventories cleared, and deleteMap
   * runs once per player. So the map and world are released when someone
   * is left, but with an empty roster deleteMap never runs and whatever
   * was bound (even in this very tick) stays bound.
   */
  lemma StartingAbort(c: Config, s: ArenaState, env: Env)
    requires s.status == Starting && |s.players| < c.minPlayers
    requires !(s.startingtime - 1 == PROVISION_TIME && !env.loaded)
    ensures var r := Step(c, s, env);
      r.outcome == Returned &&
      multiset(r.effects)[MapDeleted] == |s.players| &&
      (forall p | p in s.players ::
         Message(p, CountCancelled) in r.effects && SendToLobby(p) in r.effects && ClearInventories(p) in r.effects)
    ensures var r := Step(c, s, env);
      |s.players| > 0 ==> r.state.gameMap == None && r.state.world == None
    ensures var r := Step(c, s, env); var provisioned := s.startingtime - 1 == PROVISION_TIME;
      |s.players| == 0 ==>
        r.state.gameMap == (if provisioned then Some(env.winner) else s.gameMap) &&
        r.state.world == (if provisioned then Some(ProvisionedWorld(c, env.winner, s.id)) else s.world)
  {
    var t := s.startingtime - 1;
    var s2 := Provisioned(c, s, env);
    StartingCases(c, s, env);
    StartingRestFields(c, s2);
    StartingRestArenaCalls(c, s2);
    PreparedArenaCalls(s.players, t);
    CancelledPlayersNotified(s.players);
  }

  lemma CancelledPlayersNotified(ps: seq<Player>)
    ensures forall p | p in ps ::
      Message(p, CountCancelled) in ForEach(ps, CancelCountdown) && SendToLobby(p) in ForEach(ps, CancelCountdown) &&
      ClearInventories(p) in ForEach(ps, CancelCountdown)
  {
    forall p | p in ps
      ensures Message(p, CountCancelled) in ForEach(ps, CancelCountdown) && SendToLobby(p) in ForEach(ps, CancelCountdown) &&
        ClearInventories(p) in ForEach(ps, CancelCountdown)
    {
      ForEachHas(ps, CancelCountdown, p, Message(p, CountCancelled));
      ForEachHas(ps, CancelCountdown, p, SendToLobby(p));
      ForEachHas(ps, CancelCountdown, p, ClearInventories(p));
    }
  }

  /**
   * The starting tip reads the decremented timer: a plain bar for 4..10,
   * an urgent one with a toast sound for 1..3, none otherwise.
   */
  lemma StartingTipBands(c: Config, s: ArenaState, env: Env, p: Player)
    requires s.status == Starting && p in s.players
    requires !(s.startingtime - 1 == PROVISION_TIME && !env.loaded)
    ensures var r := Step(c, s, env); var t := s.startingtime - 1;
      (Tip(p, StartBar(t)) in r.effects <==> 4 <= t <= 10) &&
      (Tip(p, UrgentStartBar(t)) in r.effects <==> 1 <= t <= 3) &&
      (PlaySound(p, Toast) in r.effects <==> 1 <= t <= 3)
  {
    var r := Step(c, s, env);
    var t := s.startingtime - 1;
    var s2 := Provisioned(c, s, env);
    StartingCases(c, s, env);
    StartingRestFields(c, s2);
    var prepared := Prepared(s.players, t);
    var cancelled := AbortCheck(c, s2).effects;
    assert r.effects == prepared + (cancelled + StartTips(s.players, t));
    StartTipsBands(s.players, t, p);
    forall e | e in [Tip(p, StartBar(t)), Tip(p, UrgentStartBar(t)), PlaySound(p, Toast)]
      ensures e !in prepared && e !in cancelled
    {
      NoTipsElsewhere(s.players, t, e);
    }
  }

  /** The tips and sounds of the starting countdown, player by player. */
  lemma StartTipsBands(ps: seq<Player>, t: int, p: Player)
    requires p in ps
    ensures (Tip(p, StartBar(t)) in StartTips(ps, t) <==> 4 <= t <= 10) &&
            (Tip(p, UrgentStartBar(t)) in StartTips(ps, t) <==> 1 <= t <= 3) &&
            (PlaySound(p, Toast) in StartTips(ps, t) <==> 1 <= t <= 3)
  {
    var plain := if 4 <= t <= 10 then ForEach(ps, StartTip(t)) else [];
    var urgent := if 1 <= t <= 3 then ForEach(ps, UrgentStartTip(t)) else [];
    if 4 <= t <= 10 {
      ForEachHas(ps, StartTip(t), p, Tip(p, StartBar(t)));
    }
    if 1 <= t <= 3 {
      ForEachHas(ps, UrgentStartTip(t), p, Tip(p, UrgentStartBar(t)));
      ForEachHas(ps, UrgentStartTip(t), p, PlaySound(p, Toast));
    }
    if Tip(p, UrgentStartBar(t)) in plain {
      ForEachOnly(ps, StartTip(t), Tip(p, UrgentStartBar(t)));
    }
    if PlaySound(p, Toast) in plain {
      ForEachOnly(ps, StartTip(t), PlaySound(p, Toast));
    }
    if Tip(p, StartBar(t)) in urgent {
      ForEachOnly(ps, UrgentStartTip(t), Tip(p, StartBar(t)));
    }
  }

  /** Provisioning and the abort loop show no tip and play no sound. */
  lemma NoTipsElsewhere(ps: seq<Player>, t: int, e: Effect)
    requires e.Tip? || e.PlaySound?
    ensures e !in Prepared(ps, t)
    ensures e !in ForEach(ps, CancelCountdown)
  {
    forall p | p in ps ensures e !in Effects(PrepareForSpawn, p) && e !in Effects(CancelCountdown, p) { }
    ForEachAvoids(ps, PrepareForSpawn, e);
    ForEachAvoids(ps, CancelCountdown, e);
  }

  /** A call the loop body never makes for anyone on the roster is not made by the loop. */
  lemma {:induction false} ForEachAvoids(ps: seq<Player>, a: Action, e: Effect)
    requires forall p | p in ps :: e !in Effects(a, p)
    ensures e !in ForEach(ps, a)
  {
    if ps != [] {
      assert ps[|ps| - 1] in ps;
      ForEachAvoids(ps[..|ps| - 1], a, e);
    }
  }

  // ---- InGame ----

  /**
   * gametime goes up by exactly one; the first microgame starts exactly
   * when the new value is 1, and the current microgame is ticked exactly
   * once, after that start.
   */
  lemma InGameStep(c: Config, s: ArenaState, env: Env)
    requires s.status == InGame
    ensures var r := Step(c, s, env);
      r.outcome == Returned && r.state == s.(gametime := s.gametime + 1) &&
      multiset(r.effects)[MicrogameStarted] == (if s.gametime + 1 == 1 then 1 else 0) &&
      (s.gametime + 1 == 1 ==> r.effects[0] == MicrogameStarted) &&
      multiset(r.effects)[MicrogameTicked] == 1 &&
      r.effects[|r.effects| - 1] == MicrogameTicked
  {
  }

  // ---- Ending ----

  /**
   * endingtime goes down by exactly one. Before it reaches 0 nothing else
   * happens; when it does, every player is requeued, then deleteMap runs
   * once and the arena is removed from the manager, last.
   */
  lemma EndingStep(c: Config, s: ArenaState, env: Env)
    requires s.status == Ending
    ensures var r := Step(c, s, env);
      r.outcome == Returned && r.state.endingtime == s.endingtime - 1
    ensures var r := Step(c, s, env);
      s.endingtime - 1 != 0 ==> r.state == s.(endingtime := s.endingtime - 1) && r.effects == []
    ensures var r := Step(c, s, env);
      s.endingtime - 1 == 0 ==>
        r.state == s.(endingtime := 0, gameMap := None, world := None) &&
        multiset(r.effects)[MapDeleted] == 1 &&
        multiset(r.effects)[ArenaRemoved] == 1 &&
        r.effects[|r.effects| - 1] == ArenaRemoved &&
        |r.effects| == |s.players| + 2 &&
        forall i | 0 <= i < |s.players| :: r.effects[i] == Rejoined(s.players[i])
  {
    var r := Step(c, s, env);
    assert r == EndingTick(s);
    if s.endingtime - 1 == 0 {
      assert r.effects == ForEach(s.players, Requeue) + [MapDeleted, ArenaRemoved];
      TeardownCalls(s.players);
      RequeuedInOrder(s.players);
    }
  }

  /** The final ending tick calls deleteMap once and removes the arena once. */
  lemma TeardownCalls(ps: seq<Player>)
    ensures var e := ForEach(ps, Requeue) + [MapDeleted, ArenaRemoved];
      multiset(e)[MapDeleted] == 1 && multiset(e)[ArenaRemoved] == 1
  {
    var requeued := ForEach(ps, Requeue);
    ForEachArenaCalls(ps, Requeue);
    assert multiset(requeued + [MapDeleted, ArenaRemoved]) == multiset(requeued) + multiset{MapDeleted, ArenaRemoved};
  }

  /** The requeue loop rejoins the players one by one, in roster order. */
  lemma RequeuedInOrder(ps: seq<Player>)
    ensures |ForEach(ps, Requeue)| == |ps|
    ensures forall i | 0 <= i < |ps| :: ForEach(ps, Requeue)[i] == Rejoined(ps[i])
  {
    ForEachSingles(ps, Requeue);
  }

  // ---- The tick as a whole ----

  /**
   * The status is read once, so one branch runs: a tick touches only the
   * timer of the phase it started in, never the roster, and a status it
   * sets is acted on only at the next tick.
   */
  lemma OneBranchPerTick(c: Config, s: ArenaState, env: Env)
    ensures var r := Step(c, s, env);
      r.state.id == s.id && r.state.players == s.players &&
      (s.status != Waiting ==> r.state.waitingtime == s.waitingtime) &&
      (s.status != Starting ==> r.state.startingtime == s.startingtime) &&
      (s.status != InGame ==> r.state.gametime == s.gametime) &&
      (s.status != Ending ==> r.state.endingtime == s.endingtime)
    ensures var r := Step(c, s, env);
      (s.status == InGame ==> r.state.status == InGame) &&
      (s.status == Ending ==> r.state.status == Ending) &&
      (s.status == Waiting ==> r.state.status in {Waiting, Starting}) &&
      (r.outcome.Threw? ==> s.status == Starting)
  {
  }
}
