/** The game controller: it starts, pauses and tears down a game, keeps the statistics of the
    current game in a GameModel, and latches the game's result, so that a game ends at most
    once. (Assets/GameController.cs) */
module Game {
  import Outcomes
  import Spawning
  import Locator

  /** How a game ended; None while it has not */
  datatype GameResult = None | PlayerWon | PlayerDied | PlayerQuit

  /** What the spawner reports when an enemy finished spawning or was removed: its type and the
      spawner's live and dead counts */
  datatype EnemyInfo = EnemyInfo(affectedEnemyType: Spawning.EnemyType, currentLiveEnemyCount: int, currentDeadEnemyCount: int)

  /** What the weapon reports after a shot */
  datatype ShotInfo = ShotInfo(bulletsFired: int, bulletsHit: int)

  /** The controller's events, in the order its subscribers hear them */
  datatype Notification =
    | LiveEnemyCountChanged(count: int)
    | DeadEnemyCountChanged(count: int)
    | BulletsFiredCountChanged(count: int)
    | BulletsHitCountChanged(count: int)
    | GameOver(result: GameResult)
    | GameStart

  /** The events the controller handles during a game */
  datatype GameEvent =
    | PlayerQuits
    | PlayerDies
    | EnemySpawned(info: EnemyInfo)
    | EnemyRemoved(info: EnemyInfo)
    | ShotFired(shot: ShotInfo)

  /** The fields of a GameModel, as a value */
  datatype Stats = Stats(liveEnemyCount: int, deadEnemyCount: int, bulletsFiredCount: int, bulletsHitcount: int,
                         isGameOngoing: bool, isGameOver: GameResult, hasPlayerWon: bool)

  /** The result latch: a game over sets the result only while there is none. */
  function Latch(s: Stats, result: GameResult): (Stats, seq<Notification>)
  {
    if s.isGameOver == None then (s.(isGameOver := result), [GameOver(result)]) else (s, [])
  }

  /** What one event does to the statistics, and what the subscribers hear of it */
  function Reaction(s: Stats, e: GameEvent): (Stats, seq<Notification>)
  {
    match e
    case PlayerQuits => Latch(s, PlayerQuit)
    case PlayerDies => Latch(s, PlayerDied)
    case EnemySpawned(info) =>
      var t := s.(liveEnemyCount := info.currentLiveEnemyCount, deadEnemyCount := info.currentDeadEnemyCount);
      (t, [LiveEnemyCountChanged(t.liveEnemyCount)])
    case EnemyRemoved(info) =>
      var t := s.(liveEnemyCount := info.currentLiveEnemyCount, deadEnemyCount := info.currentDeadEnemyCount);
      var counts := [LiveEnemyCountChanged(t.liveEnemyCount), DeadEnemyCountChanged(t.deadEnemyCount)];
      if info.affectedEnemyType == Spawning.Titan then
        var (u, over) := Latch(t, PlayerWon);
        (u, counts + over)
      else (t, counts)
    case ShotFired(shot) =>
      var t := s.(bulletsFiredCount := s.bulletsFiredCount + shot.bulletsFired,
                  bulletsHitcount := s.bulletsHitcount + shot.bulletsHit);
      (t, [BulletsFiredCountChanged(t.bulletsFiredCount)] +
          (if shot.bulletsHit > 0 then [BulletsHitCountChanged(t.bulletsHitcount)] else []))
  }

  /** A run of events, one after the other: the final statistics and everything heard */
  function Run(s: Stats, es: seq<GameEvent>): (Stats, seq<Notification>)
  {
    if es == [] then (s, [])
    else
      var (a, heard) := Run(s, es[..|es| - 1]);
      var (b, more) := Reaction(a, es[|es| - 1]);
      (b, heard + more)
  }

  /** The number of game-over notifications in `ns` */
  function GameOvers(ns: seq<Notification>): nat
  {
    if ns == [] then 0 else GameOvers(ns[..|ns| - 1]) + (if ns[|ns| - 1].GameOver? then 1 else 0)
  }

  lemma {:induction false} GameOversAppend(a: seq<Notification>, b: seq<Notification>)
    ensures GameOvers(a + b) == GameOvers(a) + GameOvers(b)
  {
    if b != [] {
      GameOversAppend(a, b[..|b| - 1]);
      assert (a + b)[..|a + b| - 1] == a + b[..|b| - 1];
    } else {
      assert a + b == a;
    }
  }

  /** Notifications with no game over among them count none. */
  lemma {:induction false} NoGameOvers(ns: seq<Notification>)
    requires forall i :: 0 <= i < |ns| ==> !ns[i].GameOver?
    ensures GameOvers(ns) == 0
  {
    if ns != [] {
      NoGameOvers(ns[..|ns| - 1]);
    }
  }

  /** One event: the result only ever moves from None to a game over, with exactly one
      game-over notification as it does; the counters are copied from the spawner's report or
      grow by the shot's counts; only a Titan's removal wins the game. */
  lemma EventLatches(s: Stats, e: GameEvent)
    ensures var (t, heard) := Reaction(s, e);
      (s.isGameOver != None ==> t.isGameOver == s.isGameOver) &&
      GameOvers(heard) == (if s.isGameOver == None && t.isGameOver != None then 1 else 0) &&
      (t.isGameOver == PlayerWon && s.isGameOver != PlayerWon ==>
        e.EnemyRemoved? && e.info.affectedEnemyType == Spawning.Titan) &&
      t.isGameOngoing == s.isGameOngoing && t.hasPlayerWon == s.hasPlayerWon
    ensures var t := Reaction(s, e).0;
      (e.EnemySpawned? || e.EnemyRemoved?) ==>
        t.liveEnemyCount == e.info.currentLiveEnemyCount && t.deadEnemyCount == e.info.currentDeadEnemyCount
    ensures var t := Reaction(s, e).0;
      e.ShotFired? ==> (t.bulletsFiredCount - s.bulletsFiredCount == e.shot.bulletsFired &&
        t.bulletsHitcount - s.bulletsHitcount == e.shot.bulletsHit)
  {
    match e
    case EnemyRemoved(info) =>
      var t := s.(liveEnemyCount := info.currentLiveEnemyCount, deadEnemyCount := info.currentDeadEnemyCount);
      var counts := [LiveEnemyCountChanged(t.liveEnemyCount), DeadEnemyCountChanged(t.deadEnemyCount)];
      NoGameOvers(counts);
      GameOversAppend(counts, Latch(t, PlayerWon).1);
      if info.affectedEnemyType != Spawning.Titan {
        assert counts == Reaction(s, e).1;
      } else if s.isGameOver == None {
        assert Latch(t, PlayerWon).1[..0] == [];
      }
    case EnemySpawned(_) =>
      NoGameOvers(Reaction(s, e).1);
    case ShotFired(_) =>
      NoGameOvers(Reaction(s, e).1);
    case _ =>
      var heard := Reaction(s, e).1;
      if heard != [] {
        assert heard[..0] == [];
      }
  }

  /** Over any run of events, a result once set stays, a game is over at most once, and a
      player who wins has seen a Titan removed. */
  lemma {:induction false} RunLatches(s: Stats, es: seq<GameEvent>)
    ensures var (t, heard) := Run(s, es);
      (s.isGameOver != None ==> t.isGameOver == s.isGameOver) &&
      GameOvers(heard) == (if s.isGameOver == None && t.isGameOver != None then 1 else 0) &&
      GameOvers(heard) <= 1 &&
      (t.isGameOver == PlayerWon && s.isGameOver != PlayerWon ==>
        exists i :: 0 <= i < |es| && es[i].EnemyRemoved? && es[i].info.affectedEnemyType == Spawning.Titan)
  {
    if es != [] {
      var front := es[..|es| - 1];
      var last := es[|es| - 1];
      RunLatches(s, front);
      var (a, heard) := Run(s, front);
      EventLatches(a, last);
      var (b, more) := Reaction(a, last);
      GameOversAppend(heard, more);
      if b.isGameOver == PlayerWon && s.isGameOver != PlayerWon {
        if a.isGameOver == PlayerWon {
          var i :| 0 <= i < |front| && front[i].EnemyRemoved? && front[i].info.affectedEnemyType == Spawning.Titan;
          assert es[i] == front[i];
        } else {
          assert es[|es| - 1] == last;
        }
      }
    }
  }

  /** GameModel: the statistics of one game, with the fields the controller reads and writes */
  class GameModel {
    var liveEnemyCount: int
    var deadEnemyCount: int
    var bulletsFiredCount: int
    var bulletsHitcount: int
    var isGameOngoing: bool
    var isGameOver: GameResult
    var hasPlayerWon: bool

    /** A new model: every counter zero, no game going on and no result */
    constructor ()
      ensures Snapshot() == Stats(0, 0, 0, 0, false, None, false)
    {
      liveEnemyCount := 0;
      deadEnemyCount := 0;
      bulletsFiredCount := 0;
      bulletsHitcount := 0;
      isGameOngoing := false;
      isGameOver := None;
      hasPlayerWon := false;
    }

    function Snapshot(): Stats
      reads this
    {
      Stats(liveEnemyCount, deadEnemyCount, bulletsFiredCount, bulletsHitcount, isGameOngoing, isGameOver, hasPlayerWon)
    }
  }

  /** Assets/GameController.cs. The scene around the controller is kept as the few values it
      sets: the time scale, whether the cursor is shown, and the player's and HUD's switches. */
  class GameController {
    var model: GameModel?
    /** Everything the controller's subscribers have heard, in order */
    var notifications: seq<Notification>
    var timeScale: real
    var cursorShown: bool
    var playerEnabled: bool
    var playerPaused: bool
    var hudShown: bool

    /** The state once Start has run: no game, the player disabled and the HUD hidden */
    constructor ()
      ensures model == null && notifications == [] && !playerEnabled && !hudShown
    {
      model := null;
      notifications := [];
      timeScale := 1.0;
      cursorShown := true;
      playerEnabled := false;
      playerPaused := false;
      hudShown := false;
    }

    /** IsPlaying: there is a game and it is going on */
    predicate IsPlaying()
      reads this, model
    {
      model != null && model.isGameOngoing
    }

    /** StartNewGame: a new model with every counter zero, going on and with no result; the
        subscribers hear the four counters at zero and then that the game started; the player is
        enabled, the cursor hidden, the HUD shown and time runs at full speed. */
    method StartNewGame()
      modifies this`model, this`notifications, this`timeScale, this`cursorShown, this`playerEnabled, this`hudShown
      ensures model != null && fresh(model) && IsPlaying()
      ensures model.Snapshot() == Stats(0, 0, 0, 0, true, None, false)
      ensures notifications == old(notifications) +
        [BulletsFiredCountChanged(0), BulletsHitCountChanged(0), LiveEnemyCountChanged(0), DeadEnemyCountChanged(0), GameStart]
      ensures timeScale == 1.0 && !cursorShown && playerEnabled && hudShown
    {
      var m := new GameModel();
      m.isGameOngoing := true;
      model := m;
      notifications := notifications +
        [BulletsFiredCountChanged(0), BulletsHitCountChanged(0), LiveEnemyCountChanged(0), DeadEnemyCountChanged(0)];
      playerEnabled := true;
      cursorShown := false;
      hudShown := true;
      notifications := notifications + [GameStart];
      timeScale := 1.0;
    }

    /** PauseGame: while a game goes on, pausing stops time, shows the cursor and pauses the
        player, and resuming undoes all three; with no game going on nothing changes. */
    method PauseGame(pause: bool)
      modifies this`timeScale, this`cursorShown, this`playerPaused
      ensures IsPlaying() ==> timeScale == (if pause then 0.0 else 1.0) && cursorShown == pause && playerPaused == pause
      ensures !IsPlaying() ==> timeScale == old(timeScale) && cursorShown == old(cursorShown) && playerPaused == old(playerPaused)
    {
      if model != null && model.isGameOngoing {
        timeScale := if pause then 0.0 else 1.0;
        cursorShown := pause;
        playerPaused := pause;
      }
    }

    /** AbortGameServices: the player is disabled and the HUD hidden. */
    method AbortGameServices()
      modifies this`playerEnabled, this`hudShown
      ensures !playerEnabled && !hudShown
    {
      playerEnabled := false;
      hudShown := false;
    }

    /** Teardown: the model is dropped, so no game is playing any more, and the manager locator
        is cleaned up: its instance, if any, is emptied and dropped. */
    method Teardown(locator: Locator.Locator)
      requires locator.Valid()
      modifies this`model, locator`instance, locator.instance
      ensures model == null && !IsPlaying()
      ensures locator.Valid() && locator.instance == null
      ensures old(locator.instance) != null ==> old(locator.instance).keys == [] && old(locator.instance).managers == map[]
    {
      model := null;
      locator.Cleanup();
    }

    /** The handling of one event (HandlePlayerQuit, HandlePlayerDead, HandleEnemySpawned,
        HandleEnemyRemoved, HandleShotFired): the model and the notifications move as Reaction
        says. Every handler reads the model, so with none it throws. */
    method Handle(e: GameEvent) returns (thrown: Outcomes.Option<Outcomes.Fault>)
      modifies this`notifications, model
      ensures model == null ==> thrown == Outcomes.Some(Outcomes.NullReference) && notifications == old(notifications)
      ensures model != null ==> (thrown == Outcomes.None &&
        model.Snapshot() == Reaction(old(model.Snapshot()), e).0 &&
        notifications == old(notifications) + Reaction(old(model.Snapshot()), e).1)
    {
      if model == null {
        return Outcomes.Some(Outcomes.NullReference);
      }
      thrown := Outcomes.None;
      match e
      case PlayerQuits => HandleGameOver(PlayerQuit);
      case PlayerDies => HandleGameOver(PlayerDied);
      case EnemySpawned(info) =>
        UpdateStats(info);
        notifications := notifications + [LiveEnemyCountChanged(model.liveEnemyCount)];
      case EnemyRemoved(info) =>
        UpdateStats(info);
        notifications := notifications + [LiveEnemyCountChanged(model.liveEnemyCount)];
        notifications := notifications + [DeadEnemyCountChanged(model.deadEnemyCount)];
        if info.affectedEnemyType == Spawning.Titan {
          HandleGameOver(PlayerWon);
        }
      case ShotFired(shot) =>
        HandleShotFired(shot);
    }

    /** The result latch shared by the quit, death and Titan-removal handlers */
    method HandleGameOver(result: GameResult)
      requires model != null
      modifies this`notifications, model`isGameOver
      ensures |notifications| >= |old(notifications)| && notifications[..|old(notifications)|] == old(notifications)
      ensures (model.Snapshot(), notifications[|old(notifications)|..]) == Latch(old(model.Snapshot()), result)
    {
      if model.isGameOver == None {
        model.isGameOver := result;
        notifications := notifications + [GameOver(result)];
      } else {
        assert notifications[|notifications|..] == [];
      }
    }

    /** HandleShotFired: the totals grow by the shot's counts; the fired total is always
        announced, the hit total only when the shot hit something. */
    method HandleShotFired(shot: ShotInfo)
      requires model != null
      modifies this`notifications, model`bulletsFiredCount, model`bulletsHitcount
      ensures model.bulletsFiredCount == old(model.bulletsFiredCount) + shot.bulletsFired
      ensures model.bulletsHitcount == old(model.bulletsHitcount) + shot.bulletsHit
      ensures notifications == old(notifications) + [BulletsFiredCountChanged(model.bulletsFiredCount)] +
        (if shot.bulletsHit > 0 then [BulletsHitCountChanged(model.bulletsHitcount)] else [])
    {
      model.bulletsFiredCount := model.bulletsFiredCount + shot.bulletsFired;
      model.bulletsHitcount := model.bulletsHitcount + shot.bulletsHit;
      notifications := notifications + [BulletsFiredCountChanged(model.bulletsFiredCount)];
      if shot.bulletsHit > 0 {
        notifications := notifications + [BulletsHitCountChanged(model.bulletsHitcount)];
      }
    }

    /** UpdateStats: the live and dead counts are copied from the spawner's report. */
    method UpdateStats(info: EnemyInfo)
      requires model != null
      modifies model`liveEnemyCount, model`deadEnemyCount
      ensures model.liveEnemyCount == info.currentLiveEnemyCount && model.deadEnemyCount == info.currentDeadEnemyCount
    {
      model.liveEnemyCount := info.currentLiveEnemyCount;
      model.deadEnemyCount := info.currentDeadEnemyCount;
    }

    /** A game played event by event: the statistics and the notifications follow Run, so the
        result is latched and the game is over at most once. */
    method Play(es: seq<GameEvent>)
      requires model != null
      modifies this`notifications, model
      ensures model.Snapshot() == Run(old(model.Snapshot()), es).0
      ensures notifications == old(notifications) + Run(old(model.Snapshot()), es).1
      ensures GameOvers(notifications[|old(notifications)|..]) <= 1
    {
      ghost var s0 := model.Snapshot();
      ghost var n0 := notifications;
      for i := 0 to |es|
        invariant model.Snapshot() == Run(s0, es[..i]).0
        invariant notifications == n0 + Run(s0, es[..i]).1
      {
        assert es[..i + 1][..i] == es[..i];
        var thrown := Handle(es[i]);
      }
      assert es[..|es|] == es;
      RunLatches(s0, es);
      assert notifications[|n0|..] == Run(s0, es).1;
    }
  }
}
