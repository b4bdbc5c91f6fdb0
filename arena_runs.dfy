/**
 * Consecutive ticks of one arena (src/minerware/tasks/ArenaTask.php,
 * onRun called once per scheduler period), and what whole phases do.
 */
module ArenaRuns {
  import opened Wrappers
  import opened Maps
  import opened ArenaTask
  import opened TickProperties

  /**
   * The results of the ticks from s, one per entry of envs. A tick that
   * throws is the last one: the exception leaves the scheduler.
   */
  function Run(c: Config, s: ArenaState, envs: seq<Env>): (rs: seq<TickResult>)
    ensures |rs| <= |envs|
    ensures envs != [] ==> rs != []
    decreases |envs|
  {
    if envs == [] then []
    else
      var r := Step(c, s, envs[0]);
      if r.outcome.Threw? then [r] else [r] + Run(c, r.state, envs[1..])
  }

  /**
   * A run stops early only at a tick that throws: every tick before the
   * last returns, and a run shorter than its inputs ends in a throw.
   */
  lemma {:induction false} RunStopsOnlyOnThrow(c: Config, s: ArenaState, envs: seq<Env>)
    ensures var rs := Run(c, s, envs);
      (forall k | 0 <= k < |rs| - 1 :: rs[k].outcome == Returned) &&
      (rs != [] && |rs| < |envs| ==> rs[|rs| - 1].outcome.Threw?)
    decreases |envs|
  {
    if envs != [] {
      var r := Step(c, s, envs[0]);
      if r.outcome == Returned {
        var rs := Run(c, s, envs);
        var tail := Run(c, r.state, envs[1..]);
        RunStopsOnlyOnThrow(c, r.state, envs[1..]);
        assert rs == [r] + tail;
        forall k | 0 <= k < |rs| - 1 ensures rs[k].outcome == Returned {
          if k > 0 {
            assert rs[k] == tail[k - 1];
          }
        }
      }
    }
  }

  /** The state the k-th tick of a run starts from. */
  function Before(s: ArenaState, rs: seq<TickResult>, k: nat): ArenaState
    requires k <= |rs|
  {
    if k == 0 then s else rs[k - 1].state
  }

  /** Every call a run makes, tick after tick. */
  function RunEffects(rs: seq<TickResult>): seq<Effect> {
    if rs == [] then [] else rs[0].effects + RunEffects(rs[1..])
  }

  /** Every tick of the run rs from s starts in Starting. */
  predicate AllStarting(s: ArenaState, rs: seq<TickResult>) {
    forall k | 0 <= k < |rs| :: Before(s, rs, k).status == Starting
  }

  /**
   * One starting tick with enough players whose provisioning, if due,
   * succeeds: the whole next state.
   */
  lemma StartingStepPopulated(c: Config, s: ArenaState, env: Env)
    requires s.status == Starting && c.minPlayers <= |s.players|
    requires s.startingtime == PROVISION_TIME + 1 ==> env.loaded
    ensures var r := Step(c, s, env); var t := s.startingtime - 1;
      var bound := if t == PROVISION_TIME
                   then s.(gameMap := Some(env.winner), world := Some(ProvisionedWorld(c, env.winner, s.id)))
                   else s;
      r.outcome == Returned &&
      r.state == bound.(startingtime := t, status := if t == 0 then InGame else Starting)
  {
    StartingDecrement(c, s, env);
    StartingProvisioning(c, s, env);
    StartingFinalStatus(c, s, env);
    OneBranchPerTick(c, s, env);
  }

  /** A run that did not throw on its first tick is that tick followed by the run after it. */
  lemma RunUnfold(c: Config, s: ArenaState, envs: seq<Env>)
    requires envs != [] && Step(c, s, envs[0]).outcome == Returned
    ensures var r := Step(c, s, envs[0]); var rs := Run(c, s, envs); var tail := Run(c, r.state, envs[1..]);
      rs == [r] + tail && rs[1..] == tail &&
      RunEffects(rs) == r.effects + RunEffects(tail) &&
      forall k | 0 <= k <= |tail| :: Before(r.state, tail, k) == Before(s, rs, k + 1)
  {
    var r := Step(c, s, envs[0]);
    var tail := Run(c, r.state, envs[1..]);
    assert ([r] + tail)[1..] == tail;
  }

  /** Tick k of a run is one Step from the state the previous tick left. */
  lemma {:induction false} RunAt(c: Config, s: ArenaState, envs: seq<Env>, k: nat)
    requires k < |Run(c, s, envs)|
    ensures Run(c, s, envs)[k] == Step(c, Before(s, Run(c, s, envs), k), envs[k])
    decreases k
  {
    if k > 0 {
      var rs := Run(c, s, envs);
      var r := Step(c, s, envs[0]);
      var tail := Run(c, r.state, envs[1..]);
      assert rs == [r] + tail;
      RunAt(c, r.state, envs[1..], k - 1);
      assert rs[k] == tail[k - 1];
      assert envs[1..][k - 1] == envs[k];
      assert Before(r.state, tail, k - 1) == Before(s, rs, k);
    }
  }

  /** A tick that returns is followed by the next one, while inputs remain. */
  lemma RunContinues(c: Config, s: ArenaState, envs: seq<Env>, k: nat)
    requires k < |Run(c, s, envs)| && Run(c, s, envs)[k].outcome == Returned && k + 1 < |envs|
    ensures k + 1 < |Run(c, s, envs)|
  {
    RunStopsOnlyOnThrow(c, s, envs);
  }

  /**
   * While under-populated the arena stays in Waiting with waitingtime at 40
   * and never starts, however long it runs: tick j exists for every input
   * and leaves that state.
   */
  lemma {:induction false} UnderpopulatedKeepsWaiting(c: Config, s: ArenaState, envs: seq<Env>, j: nat)
    requires s.status == Waiting && |s.players| < c.minPlayers
    requires j < |envs|
    ensures var rs := Run(c, s, envs);
      j < |rs| && rs[j].outcome == Returned && rs[j].state == s.(waitingtime := WAITING_TIME)
    decreases j
  {
    var rs := Run(c, s, envs);
    if j > 0 {
      UnderpopulatedKeepsWaiting(c, s, envs, j - 1);
      RunContinues(c, s, envs, j - 1);
    }
    var before := Before(s, rs, j);
    assert before.status == Waiting && |before.players| < c.minPlayers;
    RunAt(c, s, envs, j);
    WaitingUnderpopulated(c, before, envs[j]);
  }

  /**
   * The state after tick j of the countdown from waitingtime w: the timer
   * at w - 1 - j, and Starting only on the tick that brings it to exactly 0.
   */
  function CountedDown(s: ArenaState, j: int): ArenaState {
    var t := s.waitingtime - 1 - j;
    s.(waitingtime := t, status := if t == 0 then Starting else Waiting)
  }

  /**
   * With enough players but no full roster, a waiting timer at w counts
   * down by one per tick and nothing else changes. From w >= 1 it passes
   * w - 1, ..., 1 in Waiting and the w-th tick moves the arena to Starting
   * with the timer at 0. Nothing resets the timer on the way back from an
   * abort, so from w <= 0 it keeps counting below 0 and the arena never
   * starts unless the roster fills.
   */
  lemma {:induction false} WaitingCountdown(c: Config, s: ArenaState, envs: seq<Env>, j: nat)
    requires s.status == Waiting && c.minPlayers <= |s.players| < c.maxPlayers
    requires j < |envs| && (j < s.waitingtime || s.waitingtime <= 0)
    ensures var rs := Run(c, s, envs);
      j < |rs| && rs[j].outcome == Returned && rs[j].state == CountedDown(s, j)
    ensures s.waitingtime <= 0 ==> Run(c, s, envs)[j].state.status == Waiting
    decreases j
  {
    var rs := Run(c, s, envs);
    if j > 0 {
      WaitingCountdown(c, s, envs, j - 1);
      RunContinues(c, s, envs, j - 1);
    }
    var before := Before(s, rs, j);
    assert before == (if j == 0 then s else CountedDown(s, j - 1));
    RunAt(c, s, envs, j);
    WaitingPopulated(c, before, envs[j]);
  }

  /**
   * Over consecutive starting ticks the provisioning tick is the one that
   * starts at startingtime 12: the world is bound exactly once if that tick
   * is part of the run and the world loads, and never otherwise; in
   * particular never twice, and never when the phase is entered with the
   * timer already at 11 or below.
   */
  lemma {:induction false} ProvisioningTick(c: Config, s: ArenaState, envs: seq<Env>)
    requires AllStarting(s, Run(c, s, envs))
    ensures var T := s.startingtime;
      multiset(RunEffects(Run(c, s, envs)))[WorldBound] ==
        if 0 <= T - 12 < |envs| && envs[T - 12].loaded then 1 else 0
    decreases |envs|
  {
    if envs != [] {
      var r := Step(c, s, envs[0]);
      AllStartingFirst(c, s, envs);
      if r.outcome == Returned {
        ProvisioningTail(c, s, envs);
        ProvisioningTick(c, r.state, envs[1..]);
        if 0 <= s.startingtime - 13 < |envs| - 1 {
          assert envs[1..][s.startingtime - 13] == envs[s.startingtime - 12];
        }
      }
    }
  }

  /** The first tick of an all-starting run, and the whole run when it throws. */
  lemma AllStartingFirst(c: Config, s: ArenaState, envs: seq<Env>)
    requires envs != [] && AllStarting(s, Run(c, s, envs))
    ensures s.status == Starting
    ensures var r := Step(c, s, envs[0]);
      r.outcome.Threw? ==>
        s.startingtime - 1 == PROVISION_TIME && !envs[0].loaded &&
        multiset(RunEffects(Run(c, s, envs)))[WorldBound] == 0
  {
    var rs := Run(c, s, envs);
    assert Before(s, rs, 0).status == Starting;
    var r := Step(c, s, envs[0]);
    StartingDecrement(c, s, envs[0]);
    if r.outcome.Threw? {
      assert rs == [r];
      assert RunEffects(rs) == r.effects + RunEffects([]);
    }
  }

  /** An all-starting run that returns from its first tick: its first tick's share of the count, and its tail. */
  lemma ProvisioningTail(c: Config, s: ArenaState, envs: seq<Env>)
    requires envs != [] && AllStarting(s, Run(c, s, envs)) && s.status == Starting
    requires Step(c, s, envs[0]).outcome == Returned
    ensures var r := Step(c, s, envs[0]); var tail := Run(c, r.state, envs[1..]);
      AllStarting(r.state, tail) &&
      multiset(RunEffects(Run(c, s, envs)))[WorldBound] ==
        (if s.startingtime - 1 == PROVISION_TIME then 1 else 0) + multiset(RunEffects(tail))[WorldBound] &&
      r.state.startingtime == s.startingtime - 1 &&
      (s.startingtime - 1 == PROVISION_TIME ==> envs[0].loaded)
  {
    var r := Step(c, s, envs[0]);
    StartingDecrement(c, s, envs[0]);
    StartingProvisioning(c, s, envs[0]);
    RunUnfold(c, s, envs);
    var tail := Run(c, r.state, envs[1..]);
    forall k | 0 <= k < |tail| ensures Before(r.state, tail, k).status == Starting {
      assert Before(r.state, tail, k) == Before(s, Run(c, s, envs), k + 1);
    }
  }

  /**
   * The state after tick j of the countdown from startingtime T, when the
   * world loads at the provisioning tick: timer T - 1 - j, InGame at 0,
   * and the voted map and its world bound from the tick that starts at 12.
   */
  function Counted(c: Config, s: ArenaState, envs: seq<Env>, j: int): ArenaState
    requires s.startingtime <= |envs|
  {
    var T := s.startingtime;
    var t := T - 1 - j;
    var bound := if 12 <= T && T - 12 <= j
                 then s.(gameMap := Some(envs[T - 12].winner),
                         world := Some(ProvisionedWorld(c, envs[T - 12].winner, s.id)))
                 else s;
    bound.(startingtime := t, status := if t == 0 then InGame else Starting)
  }

  /** One starting tick of the countdown takes Counted(j - 1) to Counted(j). */
  lemma CountedStep(c: Config, s: ArenaState, envs: seq<Env>, j: nat)
    requires s.status == Starting && c.minPlayers <= |s.players|
    requires 1 <= s.startingtime <= |envs| && j < s.startingtime
    requires s.startingtime >= 12 ==> envs[s.startingtime - 12].loaded
    ensures var before := if j == 0 then s else Counted(c, s, envs, j - 1); var r := Step(c, before, envs[j]);
      r.outcome == Returned && r.state == Counted(c, s, envs, j)
  {
    var before := if j == 0 then s else Counted(c, s, envs, j - 1);
    assert before.status == Starting && before.players == s.players && before.id == s.id;
    assert before.startingtime == s.startingtime - j;
    StartingStepPopulated(c, before, envs[j]);
  }

  /**
   * With enough players, a starting timer at T counts down in Starting and
   * the T-th tick moves the arena to InGame with the timer at 0, provided
   * the world loads at the provisioning tick. From the tick that starts at
   * 12 on, the arena holds the map voted at that tick and its world named
   * after the arena id; before it, and when T is below 12, the bindings it
   * had.
   */
  lemma {:induction false} StartingCountdown(c: Config, s: ArenaState, envs: seq<Env>, j: nat)
    requires s.status == Starting && c.minPlayers <= |s.players|
    requires 1 <= s.startingtime <= |envs| && j < s.startingtime
    requires s.startingtime >= 12 ==> envs[s.startingtime - 12].loaded
    ensures var rs := Run(c, s, envs);
      j < |rs| && rs[j].outcome == Returned && rs[j].state == Counted(c, s, envs, j)
    decreases j
  {
    var rs := Run(c, s, envs);
    if j > 0 {
      StartingCountdown(c, s, envs, j - 1);
      RunContinues(c, s, envs, j - 1);
    }
    RunAt(c, s, envs, j);
    assert Before(s, rs, j) == (if j == 0 then s else Counted(c, s, envs, j - 1));
    CountedStep(c, s, envs, j);
  }

  /** The countdown ends in InGame on its T-th tick, holding what Counted describes. */
  lemma StartingReachesInGame(c: Config, s: ArenaState, envs: seq<Env>)
    requires s.status == Starting && c.minPlayers <= |s.players|
    requires 1 <= s.startingtime <= |envs|
    requires s.startingtime >= 12 ==> envs[s.startingtime - 12].loaded
    ensures var rs := Run(c, s, envs); var T := s.startingtime;
      T <= |rs| &&
      (forall k | 0 <= k < T - 1 :: rs[k].state.status == Starting) &&
      rs[T - 1].state.status == InGame &&
      rs[T - 1].state.startingtime == 0 &&
      rs[T - 1].state.gametime == s.gametime &&
      if T >= 12 then
        rs[T - 1].state.gameMap == Some(envs[T - 12].winner) &&
        rs[T - 1].state.world == Some(ProvisionedWorld(c, envs[T - 12].winner, s.id))
      else
        rs[T - 1].state.gameMap == s.gameMap && rs[T - 1].state.world == s.world
  {
    var T := s.startingtime;
    StartingCountdown(c, s, envs, T - 1);
    forall k | 0 <= k < T - 1 ensures Run(c, s, envs)[k].state.status == Starting {
      StartingCountdown(c, s, envs, k);
    }
  }

  /**
   * In InGame every tick raises gametime by one and nothing else changes:
   * tick j exists for every input and leaves gametime + j + 1.
   */
  lemma {:induction false} InGameCounts(c: Config, s: ArenaState, envs: seq<Env>, j: nat)
    requires s.status == InGame && j < |envs|
    ensures var rs := Run(c, s, envs);
      j < |rs| && rs[j].outcome == Returned && rs[j].state == s.(gametime := s.gametime + j + 1)
    decreases j
  {
    var rs := Run(c, s, envs);
    if j > 0 {
      InGameCounts(c, s, envs, j - 1);
      RunContinues(c, s, envs, j - 1);
    }
    RunAt(c, s, envs, j);
    InGameStep(c, Before(s, rs, j), envs[j]);
  }

  /**
   * Over an in-game run the current microgame is ticked once per tick and
   * the first microgame is started once, on the tick that takes gametime
   * to 1, if the run reaches it, and never otherwise.
   */
  lemma {:induction false} InGameRun(c: Config, s: ArenaState, envs: seq<Env>)
    requires s.status == InGame
    ensures var rs := Run(c, s, envs);
      |rs| == |envs| &&
      multiset(RunEffects(rs))[MicrogameTicked] == |envs| &&
      multiset(RunEffects(rs))[MicrogameStarted] == if 0 <= -s.gametime < |envs| then 1 else 0
    decreases |envs|
  {
    if envs != [] {
      var r := Step(c, s, envs[0]);
      assert r.outcome == Returned && r.state == s.(gametime := s.gametime + 1) &&
             multiset(r.effects)[MicrogameTicked] == 1 &&
             multiset(r.effects)[MicrogameStarted] == (if s.gametime + 1 == 1 then 1 else 0) by {
        InGameStep(c, s, envs[0]);
      }
      assert RunEffects(Run(c, s, envs)) == r.effects + RunEffects(Run(c, r.state, envs[1..])) &&
             |Run(c, s, envs)| == 1 + |Run(c, r.state, envs[1..])| by {
        RunUnfold(c, s, envs);
      }
      InGameRun(c, r.state, envs[1..]);
    }
  }

  /**
   * In Ending every tick lowers endingtime by one; the tick that takes it
   * to 0 releases the map and the world for good.
   */
  lemma {:induction false} EndingCounts(c: Config, s: ArenaState, envs: seq<Env>, j: nat)
    requires s.status == Ending && j < |envs|
    ensures var rs := Run(c, s, envs); var released := 0 <= s.endingtime - 1 <= j;
      j < |rs| && rs[j].outcome == Returned &&
      rs[j].state == s.(endingtime := s.endingtime - 1 - j,
                        gameMap := if released then None else s.gameMap,
                        world := if released then None else s.world)
    decreases j
  {
    var rs := Run(c, s, envs);
    if j > 0 {
      EndingCounts(c, s, envs, j - 1);
      RunContinues(c, s, envs, j - 1);
    }
    RunAt(c, s, envs, j);
    EndingStep(c, Before(s, rs, j), envs[j]);
  }

  /**
   * Over an ending run the map is deleted and the arena removed from the
   * manager exactly once if the timer reaches 0 within the run, and never
   * otherwise.
   */
  lemma {:induction false} EndingRun(c: Config, s: ArenaState, envs: seq<Env>)
    requires s.status == Ending
    ensures var rs := Run(c, s, envs);
      |rs| == |envs| &&
      multiset(RunEffects(rs))[ArenaRemoved] == (if 1 <= s.endingtime <= |envs| then 1 else 0) &&
      multiset(RunEffects(rs))[MapDeleted] == (if 1 <= s.endingtime <= |envs| then 1 else 0)
    decreases |envs|
  {
    if envs != [] {
      var r := Step(c, s, envs[0]);
      var last := s.endingtime - 1 == 0;
      assert r.outcome == Returned && r.state.status == Ending && r.state.endingtime == s.endingtime - 1 &&
             multiset(r.effects)[ArenaRemoved] == (if last then 1 else 0) &&
             multiset(r.effects)[MapDeleted] == (if last then 1 else 0) by {
        EndingStep(c, s, envs[0]);
        OneBranchPerTick(c, s, envs[0]);
      }
      assert RunEffects(Run(c, s, envs)) == r.effects + RunEffects(Run(c, r.state, envs[1..])) &&
             |Run(c, s, envs)| == 1 + |Run(c, r.state, envs[1..])| by {
        RunUnfold(c, s, envs);
      }
      EndingRun(c, r.state, envs[1..]);
    }
  }
}
