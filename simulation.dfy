/**
 * The whole game state as one value, and one tick of the game loop as a
 * function of it: the pause guard, the countdown, movement, the jump, gravity,
 * the left wall, landing, coins, monsters, dialog triggers, the item timer, the
 * goal and the camera, in that order, with the loop's early returns.
 */
module Simulation {
  import opened Level
  import opened Input
  import opened Actor
  import opened Contacts
  import opened Dialog
  import opened Items
  import Camera

  /** Everything the handlers and the loop change. */
  datatype World = World(
    cat: Cat,
    coins: seq<Coin>,
    triggers: seq<Trigger>,
    gravity: real,
    itemActive: string,
    itemTimer: real,
    collectedCoins: nat,
    gameTime: real,
    gameOver: bool,
    gameWon: bool,
    kb: Keyboard,
    cameraX: real,
    dialogOpen: bool,
    prompt: Prompt)

  /** What the loop reads but never changes. */
  datatype Scene = Scene(platforms: seq<Platform>, monsters: seq<Monster>, canvasWidth: real)

  const InitialWorld: World :=
    World(InitialCat, InitialCoins, InitialTriggers, BaseGravity, NoItem, 0.0, 0, TimeBudget,
          false, false, NoKeys, 0.0, false, NoPrompt)

  /** At most one effect is in force, and none once the item timer has run out. */
  predicate ItemsConsistent(w: World)
  {
    && (w.gravity == BaseGravity || w.gravity == FloatGravity)
    && (w.cat.sprintBoost ==> w.gravity == BaseGravity)
    && (w.itemTimer <= 0.0 ==> w.itemActive == NoItem && !w.cat.sprintBoost && w.gravity == BaseGravity)
    && w.itemTimer <= ItemDuration
  }

  /** The cat is not left of the level, has used at most two jumps, and never sprints by flag. */
  predicate CatInv(c: Cat)
  {
    c.x >= 0.0 && c.jumpCount <= MaxJumps && !c.sprint
  }

  /** The coins are the level's coins, and the counter counts the taken ones. */
  predicate CoinsInv(cs: seq<Coin>, collected: nat)
  {
    Untake(cs) == InitialCoins && collected == CountTaken(cs)
  }

  /** The triggers are the level's triggers. */
  predicate TriggersInv(ts: seq<Trigger>)
  {
    Unfire(ts) == InitialTriggers
  }

  /** What every handler and every tick keep true. */
  predicate Inv(w: World, canvasWidth: real)
  {
    && CatInv(w.cat)
    && CoinsInv(w.coins, w.collectedCoins)
    && TriggersInv(w.triggers)
    && ItemsConsistent(w)
    && Consistent(w.kb)
    && w.gameTime <= TimeBudget
    && (w.gameWon ==> w.gameOver)
    && (canvasWidth <= LevelWidth ==> 0.0 <= w.cameraX <= LevelWidth - canvasWidth)
  }

  // ---------------------------------------------------------------- handlers

  function PressKey(w: World, k: string): World
  {
    w.(kb := KeyDown(w.kb, k))
  }

  function ReleaseKey(w: World, k: string): World
  {
    w.(kb := KeyUp(w.kb, k))
  }

  /**
   * Choosing an item: it becomes the active item for five seconds, the
   * previous boost and gravity are dropped, then the new effect is applied.
   */
  function ChooseItem(w: World, item: string, r: nat): (v: World)
    ensures v.itemActive == item && v.itemTimer == ItemDuration
    ensures v.cat.sprintBoost <==> EffectOf(item, r) == SpeedBoost
    ensures v.gravity == (if EffectOf(item, r) == LowGravity then FloatGravity else BaseGravity)
    ensures v.cat.vy == (if EffectOf(item, r) == Launch then LaunchVelocity else w.cat.vy)
    ensures !(v.cat.sprintBoost && v.gravity != BaseGravity)
    ensures v.cat == w.cat.(vy := v.cat.vy, sprintBoost := v.cat.sprintBoost)
    ensures v == w.(cat := v.cat, gravity := v.gravity, itemActive := item, itemTimer := ItemDuration)
  {
    var cleared := w.(itemActive := item, itemTimer := ItemDuration,
                      cat := w.cat.(sprintBoost := false), gravity := BaseGravity);
    match EffectOf(item, r)
    case SpeedBoost => cleared.(cat := cleared.cat.(sprintBoost := true))
    case Launch => cleared.(cat := cleared.cat.(vy := LaunchVelocity))
    case LowGravity => cleared.(gravity := FloatGravity)
    case NoEffect => cleared
  }

  /** The dialog closes, by its close button or by the timeout after a choice. */
  function CloseDialog(w: World): World
  {
    w.(dialogOpen := false)
  }

  // ---------------------------------------------------------------- tick phases

  function Countdown(w: World, dt: real): World
  {
    w.(gameTime := w.gameTime - dt)
  }

  function EndGame(w: World): World
  {
    w.(gameOver := true)
  }

  function Move(w: World): World
  {
    w.(cat := Walk(w.cat, w.kb.keys))
  }

  /** The first jump check: any jump key down, the edge of "w" raised, a jump left. */
  predicate FirstJumpFires(w: World)
  {
    var keys, pressed := w.kb.keys, w.kb.keyPressed;
    (Held(keys, "w") || Held(keys, "W") || Held(keys, "ArrowUp") || Held(keys, " "))
    && Held(pressed, "w") && w.cat.jumpCount < MaxJumps
  }

  /** The second jump check: one of the other three jump keys down with its edge raised, a jump left. */
  predicate SecondJumpFires(w: World)
  {
    var keys, pressed := w.kb.keys, w.kb.keyPressed;
    (Held(keys, "W") || Held(keys, "ArrowUp") || Held(keys, " "))
    && (Held(pressed, "W") || Held(pressed, "ArrowUp") || Held(pressed, " "))
    && w.cat.jumpCount < MaxJumps
  }

  function DoJump(w: World): World
  {
    w.(cat := w.cat.(vy := JumpVelocity, jumpCount := w.cat.jumpCount + 1), kb := ConsumeJumpEdges(w.kb))
  }

  /** Both jump checks, one after the other. */
  function Jump(w: World): World
  {
    var w1 := if FirstJumpFires(w) then DoJump(w) else w;
    if SecondJumpFires(w1) then DoJump(w1) else w1
  }

  /** Gravity, the left wall, ground contact and the platform loop. */
  function Physics(w: World, platforms: seq<Platform>): World
  {
    w.(cat := Land(ClampLeft(Fall(w.cat, w.gravity)), platforms))
  }

  function Collect(w: World): World
  {
    var body := Body(w.cat);
    w.(coins := CollectAll(body, w.coins), collectedCoins := w.collectedCoins + NewlyTaken(body, w.coins))
  }

  /** The reset after touching a monster. It leaves onGround, sprint, the keys, the camera and the dialog alone. */
  function Reset(w: World): World
  {
    w.(cat := w.cat.(x := 100.0, y := 300.0, vy := 0.0, jumpCount := 0, sprintBoost := false),
       collectedCoins := 0, coins := Untake(w.coins), triggers := Unfire(w.triggers),
       itemActive := NoItem, itemTimer := 0.0, gravity := BaseGravity, gameTime := TimeBudget)
  }

  function FireTriggers(w: World): World
  {
    var x := w.cat.x;
    w.(triggers := FireAll(x, w.triggers),
       dialogOpen := w.dialogOpen || AnyFires(x, w.triggers),
       prompt := PromptAfter(x, w.triggers, w.prompt))
  }

  /** The item timer runs down by dt while positive; reaching zero drops the item and its effects. */
  function DecayItem(w: World, dt: real): (v: World)
    ensures w.itemTimer <= 0.0 ==> v == w
    ensures w.itemTimer > 0.0 ==> v.itemTimer == w.itemTimer - dt
    ensures w.itemTimer > 0.0 && v.itemTimer <= 0.0 ==>
              v.itemActive == NoItem && !v.cat.sprintBoost && v.gravity == BaseGravity
    ensures v.itemTimer > 0.0 ==> v == w.(itemTimer := v.itemTimer)
    ensures v.cat == w.cat.(sprintBoost := v.cat.sprintBoost)
    ensures v == w.(itemTimer := v.itemTimer, itemActive := v.itemActive, cat := v.cat, gravity := v.gravity)
  {
    if w.itemTimer > 0.0 then
      var t := w.itemTimer - dt;
      if t <= 0.0 then
        w.(itemTimer := t, itemActive := NoItem, cat := w.cat.(sprintBoost := false), gravity := BaseGravity)
      else
        w.(itemTimer := t)
    else
      w
  }

  /** Past the goal the game ends, won only with enough coins. */
  function ReachGoal(w: World): World
  {
    if w.collectedCoins >= CoinsToWin && !w.gameOver then w.(gameOver := true, gameWon := true)
    else if !w.gameOver then w.(gameOver := true)
    else w
  }

  function FollowCamera(w: World, canvasWidth: real): World
  {
    w.(cameraX := Camera.Follow(w.cat.x, canvasWidth))
  }

  // ---------------------------------------------------------------- the tick

  /** The return path a tick takes. */
  datatype Exit = Paused | TimeUp | MonsterReset | AtGoal | Completed

  datatype Outcome = Outcome(after: World, exit: Exit)

  function Tick(w: World, sc: Scene, dt: real): Outcome
  {
    if w.dialogOpen || w.gameOver then Outcome(w, Paused) else Run(Countdown(w, dt), sc, dt)
  }

  /** The tick after the pause guard and the countdown. */
  function Run(w: World, sc: Scene, dt: real): Outcome
  {
    if w.gameTime <= 0.0 && !w.gameOver then Outcome(EndGame(w), TimeUp)
    else Contact(Collect(Physics(Jump(Move(w)), sc.platforms)), sc, dt)
  }

  /** The tick after coin collection: the monster check, then triggers and the item timer. */
  function Contact(w: World, sc: Scene, dt: real): Outcome
  {
    if HitsMonster(Body(w.cat), sc.monsters) then Outcome(Reset(w), MonsterReset)
    else Finish(DecayItem(FireTriggers(w), dt), sc)
  }

  /** The end of the tick: the goal check, or else the camera. */
  function Finish(w: World, sc: Scene): Outcome
  {
    if w.cat.x > GoalX then Outcome(ReachGoal(w), AtGoal)
    else Outcome(FollowCamera(w, sc.canvasWidth), Completed)
  }

  /** Whether the loop, as written, asks for another frame on this return path. */
  function RearmsAsWritten(e: Exit): bool
  {
    e == Paused || e == Completed
  }

  /** Whether the loop asks for another frame, once a reset also asks for one. */
  function Rearms(e: Exit): bool
  {
    e == Paused || e == MonsterReset || e == Completed
  }

  // ---------------------------------------------------------------- lemmas

  lemma InitialWorldValid(canvasWidth: real)
    ensures Inv(InitialWorld, canvasWidth)
  {
    InitialCoinsUntaken();
    InitialTriggersUnfired();
  }

  /** The key handlers keep every raised edge on a key that is down. */
  lemma KeyHandlersKeepInv(w: World, k: string, canvasWidth: real)
    requires Inv(w, canvasWidth)
    ensures Inv(PressKey(w, k), canvasWidth) && Inv(ReleaseKey(w, k), canvasWidth)
  {
  }

  /**
   * With every edge on a key that is down, the two jump checks together jump
   * exactly when a jump is left and some jump key has a raised edge, and then
   * they jump once: the first check consumes every edge the second would test.
   */
  lemma JumpOnEdge(w: World)
    requires Consistent(w.kb)
    ensures Jump(w) == if w.cat.jumpCount < MaxJumps && AnyJumpEdge(w.kb.keyPressed) then DoJump(w) else w
  {
    if FirstJumpFires(w) {
      assert !AnyJumpEdge(DoJump(w).kb.keyPressed);
    } else if w.cat.jumpCount < MaxJumps && AnyJumpEdge(w.kb.keyPressed) {
      var keys, pressed := w.kb.keys, w.kb.keyPressed;
      assert Held(pressed, "w") ==> Held(keys, "w");
      if Held(pressed, "W") {
        assert Held(keys, "W");
      } else if Held(pressed, "ArrowUp") {
        assert Held(keys, "ArrowUp");
      } else {
        assert Held(keys, " ");
      }
    }
  }

  /**
   * The first jump check reacts only to the edge of "w": a fresh press of W,
   * ArrowUp or Space jumps through the second check alone.
   */
  lemma OtherJumpKeysUseSecondCheck(w: World, k: string)
    requires k == "W" || k == "ArrowUp" || k == " "
    requires Held(w.kb.keys, k) && Held(w.kb.keyPressed, k) && !Held(w.kb.keyPressed, "w")
    requires w.cat.jumpCount < MaxJumps
    ensures !FirstJumpFires(w) && SecondJumpFires(w)
    ensures Jump(w) == DoJump(w)
  {
  }

  /** Choosing an item keeps the invariant: it replaces the previous item instead of stacking on it. */
  lemma ChooseItemKeepsInv(w: World, item: string, r: nat, canvasWidth: real)
    requires Inv(w, canvasWidth)
    ensures Inv(ChooseItem(w, item, r), canvasWidth)
  {
  }

  /** What an item does does not depend on the item it replaces. */
  lemma ChoiceForgetsPreviousItem(w1: World, w2: World, item: string, r: nat)
    ensures ChooseItem(w1, item, r).gravity == ChooseItem(w2, item, r).gravity
    ensures ChooseItem(w1, item, r).cat.sprintBoost == ChooseItem(w2, item, r).cat.sprintBoost
    ensures ChooseItem(w1, item, r).itemActive == ChooseItem(w2, item, r).itemActive
    ensures ChooseItem(w1, item, r).itemTimer == ChooseItem(w2, item, r).itemTimer
  {
  }

  /** A balloon followed by a fish leaves the speed boost on and gravity at its base value. */
  lemma BalloonThenFish(w: World, r1: nat, r2: nat)
    ensures var v := ChooseItem(ChooseItem(w, "Balloon", r1), "Fish", r2);
      v.cat.sprintBoost && v.gravity == BaseGravity
  {
  }

  /** The reset restores every start-up value it touches. */
  lemma ResetRestoresStart(w: World, canvasWidth: real)
    requires Inv(w, canvasWidth)
    ensures Reset(w) == InitialWorld.(cat := InitialCat.(onGround := w.cat.onGround),
                                      kb := w.kb, cameraX := w.cameraX, dialogOpen := w.dialogOpen,
                                      prompt := w.prompt, gameOver := w.gameOver, gameWon := w.gameWon)
    ensures Inv(Reset(w), canvasWidth)
  {
    InitialCoinsUntaken();
    InitialTriggersUnfired();
  }

  /** Movement, the jump, gravity, the left wall and landing keep the invariant. */
  lemma PhysicsKeepsInv(w: World, platforms: seq<Platform>, canvasWidth: real)
    requires Inv(w, canvasWidth)
    ensures Inv(Physics(Jump(Move(w)), platforms), canvasWidth)
  {
    JumpOnEdge(Move(w));
  }

  /** Coin collection keeps the counter equal to the number of taken coins. */
  lemma CollectKeepsInv(w: World, canvasWidth: real)
    requires Inv(w, canvasWidth)
    ensures Inv(Collect(w), canvasWidth)
  {
    CollectCounts(Body(w.cat), w.coins);
    CollectOnlyTakes(Body(w.cat), w.coins);
  }

  /** Triggers and the item timer keep the invariant. */
  lemma TriggersAndDecayKeepInv(w: World, dt: real, canvasWidth: real)
    requires Inv(w, canvasWidth) && dt >= 0.0
    ensures Inv(DecayItem(FireTriggers(w), dt), canvasWidth)
  {
    FiredTriggersStayQuiet(w.cat.x, w.cat.x, w.triggers);
    assert Inv(FireTriggers(w), canvasWidth);
  }

  /** The goal check and the camera keep the invariant. */
  lemma FinishKeepsInv(w: World, sc: Scene)
    requires Inv(w, sc.canvasWidth)
    ensures Inv(Finish(w, sc).after, sc.canvasWidth)
  {
  }

  /** Every tick keeps the invariant. */
  lemma TickKeepsInv(w: World, sc: Scene, dt: real)
    requires Inv(w, sc.canvasWidth) && dt >= 0.0
    ensures Inv(Tick(w, sc, dt).after, sc.canvasWidth)
  {
    if !w.dialogOpen && !w.gameOver {
      var w1 := Countdown(w, dt);
      assert Inv(w1, sc.canvasWidth);
      if !(w1.gameTime <= 0.0 && !w1.gameOver) {
        PhysicsKeepsInv(w1, sc.platforms, sc.canvasWidth);
        var w3 := Collect(Physics(Jump(Move(w1)), sc.platforms));
        CollectKeepsInv(Physics(Jump(Move(w1)), sc.platforms), sc.canvasWidth);
        if HitsMonster(Body(w3.cat), sc.monsters) {
          ResetRestoresStart(w3, sc.canvasWidth);
        } else {
          TriggersAndDecayKeepInv(w3, dt, sc.canvasWidth);
          FinishKeepsInv(DecayItem(FireTriggers(w3), dt), sc);
        }
      }
    }
  }

  /** While the dialog is open or the game is over, a tick changes nothing. */
  lemma PausedTickIsIdle(w: World, sc: Scene, dt: real)
    ensures Tick(w, sc, dt).exit == Paused <==> w.dialogOpen || w.gameOver
    ensures w.dialogOpen || w.gameOver ==> Tick(w, sc, dt).after == w
  {
  }

  /** A running tick takes exactly dt off the clock, unless a monster reset puts it back to 90. */
  lemma RunningTickCountsDown(w: World, sc: Scene, dt: real)
    requires !w.dialogOpen && !w.gameOver
    ensures var o := Tick(w, sc, dt);
      (o.exit == MonsterReset ==> o.after.gameTime == TimeBudget)
      && (o.exit != MonsterReset ==> o.after.gameTime == w.gameTime - dt)
  {
    var w1 := Countdown(w, dt);
    if !(w1.gameTime <= 0.0) {
      var w3 := Collect(Physics(Jump(Move(w1)), sc.platforms));
      assert w3.gameTime == w1.gameTime;
      assert Tick(w, sc, dt) == Contact(w3, sc, dt);
      if !HitsMonster(Body(w3.cat), sc.monsters) {
        var w4 := DecayItem(FireTriggers(w3), dt);
        assert w4.gameTime == w1.gameTime;
        assert Tick(w, sc, dt) == Finish(w4, sc);
      }
    }
  }

  /** The clock running out ends the game and changes nothing else. */
  lemma TimeUpEndsGame(w: World, sc: Scene, dt: real)
    ensures Tick(w, sc, dt).exit == TimeUp <==> !w.dialogOpen && !w.gameOver && w.gameTime - dt <= 0.0
    ensures Tick(w, sc, dt).exit == TimeUp ==>
              Tick(w, sc, dt).after == w.(gameTime := w.gameTime - dt, gameOver := true)
  {
  }

  /**
   * Passing the goal ends the game, won exactly when at least seven coins
   * are counted; a win happens nowhere else.
   */
  lemma GoalDecidesOutcome(w: World, sc: Scene, dt: real)
    requires Inv(w, sc.canvasWidth)
    ensures var o := Tick(w, sc, dt);
      (o.exit == AtGoal ==> o.after.cat.x > GoalX && o.after.gameOver
                            && (o.after.gameWon <==> o.after.collectedCoins >= CoinsToWin))
      && (o.exit == Completed ==> o.after.cat.x <= GoalX && !o.after.gameOver)
      && (o.after.gameWon && !w.gameWon ==> o.exit == AtGoal && o.after.collectedCoins >= CoinsToWin)
  {
    if !w.dialogOpen && !w.gameOver {
      var w1 := Countdown(w, dt);
      if !(w1.gameTime <= 0.0) {
        var w3 := Collect(Physics(Jump(Move(w1)), sc.platforms));
        assert w3.gameOver == w.gameOver && w3.gameWon == w.gameWon;
        assert Tick(w, sc, dt) == Contact(w3, sc, dt);
        if !HitsMonster(Body(w3.cat), sc.monsters) {
          var w4 := DecayItem(FireTriggers(w3), dt);
          assert w4.gameOver == w.gameOver && w4.gameWon == w.gameWon;
          assert Tick(w, sc, dt) == Finish(w4, sc);
        }
      }
    }
  }

  /**
   * Touching a monster restarts the run within the same tick: the cat, the
   * coins, the triggers, the item and the clock are back at their start-up
   * values, and the game is not over, so the goal check never runs that tick.
   */
  lemma MonsterResetRestarts(w: World, sc: Scene, dt: real)
    requires Inv(w, sc.canvasWidth) && dt >= 0.0
    requires Tick(w, sc, dt).exit == MonsterReset
    ensures var v := Tick(w, sc, dt).after;
      v.cat == InitialCat.(onGround := v.cat.onGround)
      && v.coins == InitialCoins && v.collectedCoins == 0
      && v.triggers == InitialTriggers
      && v.itemActive == NoItem && v.itemTimer == 0.0 && v.gravity == BaseGravity
      && v.gameTime == TimeBudget
      && !v.gameOver && !v.gameWon && !v.dialogOpen
  {
    var w1 := Countdown(w, dt);
    var p := Physics(Jump(Move(w1)), sc.platforms);
    PhysicsKeepsInv(w1, sc.platforms, sc.canvasWidth);
    CollectKeepsInv(p, sc.canvasWidth);
    ResetRestoresStart(Collect(p), sc.canvasWidth);
  }

  /** Without a reset, coins stay taken and triggers stay fired. */
  lemma FlagsOnlyRiseWithoutReset(w: World, sc: Scene, dt: real)
    requires Tick(w, sc, dt).exit != MonsterReset
    ensures var v := Tick(w, sc, dt).after;
      |v.coins| == |w.coins| && |v.triggers| == |w.triggers|
      && (forall i :: 0 <= i < |w.coins| && w.coins[i].taken ==> v.coins[i].taken)
      && (forall i :: 0 <= i < |w.triggers| && w.triggers[i].triggered ==> v.triggers[i].triggered)
  {
    var w1 := Countdown(w, dt);
    if !w.dialogOpen && !w.gameOver && !(w1.gameTime <= 0.0 && !w1.gameOver) {
      var p := Physics(Jump(Move(w1)), sc.platforms);
      assert p.coins == w.coins && p.triggers == w.triggers;
      var w3 := Collect(p);
      assert Tick(w, sc, dt) == Contact(w3, sc, dt);
      ContactKeepsFlags(w3, sc, dt);
      CollectOnlyTakes(Body(p.cat), p.coins);
      FiredTriggersStayQuiet(w3.cat.x, w3.cat.x, w3.triggers);
    }
  }

  /** The part of a tick after coin collection, when no monster is touched, keeps the coins and fires triggers. */
  lemma ContactKeepsFlags(w: World, sc: Scene, dt: real)
    requires Contact(w, sc, dt).exit != MonsterReset
    ensures Contact(w, sc, dt).after.coins == w.coins
    ensures Contact(w, sc, dt).after.triggers == FireAll(w.cat.x, w.triggers)
  {
    var v := DecayItem(FireTriggers(w), dt);
    assert v.coins == w.coins && v.triggers == FireAll(w.cat.x, w.triggers);
  }

  /** A trigger that fires opens the dialog, and the next tick is paused. */
  lemma FiringOpensDialog(w: World, sc: Scene, dt: real, dt': real, i: nat)
    requires i < |w.triggers| && i < |Tick(w, sc, dt).after.triggers|
    requires Tick(w, sc, dt).exit != MonsterReset
    requires !w.triggers[i].triggered && Tick(w, sc, dt).after.triggers[i].triggered
    ensures Tick(w, sc, dt).after.dialogOpen
    ensures Tick(Tick(w, sc, dt).after, sc, dt').exit == Paused
  {
    var v := Tick(w, sc, dt).after;
    if w.dialogOpen || w.gameOver {
    } else {
      var w1 := Countdown(w, dt);
      var w3 := Collect(Physics(Jump(Move(w1)), sc.platforms));
      assert w3.triggers == w.triggers;
      assert Tick(w, sc, dt) == Contact(w3, sc, dt);
      var w4 := DecayItem(FireTriggers(w3), dt);
      assert w4.triggers == FireAll(w3.cat.x, w3.triggers);
      assert Fires(w3.cat.x, w3.triggers[i]);
      assert w4.dialogOpen;
      assert Tick(w, sc, dt) == Finish(w4, sc);
    }
  }

  /** A trigger that is the only one to fire on a tick leaves the prompt of its bucket. */
  lemma SoleFiringSetsPrompt(w: World, sc: Scene, dt: real, i: nat)
    requires i < |w.triggers| && i < |Tick(w, sc, dt).after.triggers|
    requires Tick(w, sc, dt).exit != MonsterReset
    requires !w.triggers[i].triggered && Tick(w, sc, dt).after.triggers[i].triggered
    requires forall j :: 0 <= j < |w.triggers| && j < |Tick(w, sc, dt).after.triggers| && j != i ==>
               w.triggers[j].triggered || !Tick(w, sc, dt).after.triggers[j].triggered
    ensures Tick(w, sc, dt).after.prompt == PromptFor(w.triggers[i].x)
  {
    if w.dialogOpen || w.gameOver {
    } else {
      var w1 := Countdown(w, dt);
      var w3 := Collect(Physics(Jump(Move(w1)), sc.platforms));
      assert w3.triggers == w.triggers;
      assert Tick(w, sc, dt) == Contact(w3, sc, dt);
      var w4 := DecayItem(FireTriggers(w3), dt);
      assert w4.triggers == FireAll(w3.cat.x, w3.triggers) && w4.prompt == PromptAfter(w3.cat.x, w3.triggers, w3.prompt);
      assert Tick(w, sc, dt) == Finish(w4, sc);
      forall j | 0 <= j < |w.triggers| && j != i
        ensures !Fires(w3.cat.x, w.triggers[j])
      {
        assert w4.triggers[j] == Fire(w3.cat.x, w.triggers[j]);
      }
      SoleFiringPrompt(w3.cat.x, w.triggers, i, w3.prompt);
    }
  }

  /** After the jump checks, a running tick leaves the key edges alone and adds no jump. */
  lemma RunAfterJump(w: World, sc: Scene, dt: real)
    requires !(w.gameTime <= 0.0 && !w.gameOver)
    ensures Run(w, sc, dt).after.kb == Jump(Move(w)).kb
    ensures Run(w, sc, dt).after.cat.jumpCount <= Jump(Move(w)).cat.jumpCount
  {
    var w2 := Jump(Move(w));
    var w3 := Collect(Physics(w2, sc.platforms));
    assert w3.kb == w2.kb && w3.cat.jumpCount <= w2.cat.jumpCount;
    assert Run(w, sc, dt) == Contact(w3, sc, dt);
    ContactKeepsJumps(w3, sc, dt);
    if !HitsMonster(Body(w3.cat), sc.monsters) {
      var w4 := DecayItem(FireTriggers(w3), dt);
      assert w4.kb == w2.kb;
      assert Contact(w3, sc, dt) == Finish(w4, sc);
    }
  }

  /** A tick never raises a jump edge: only the key handlers do. */
  lemma TickRaisesNoEdge(w: World, sc: Scene, dt: real)
    requires !AnyJumpEdge(w.kb.keyPressed)
    ensures !AnyJumpEdge(Tick(w, sc, dt).after.kb.keyPressed)
  {
    var w1 := Countdown(w, dt);
    if !w.dialogOpen && !w.gameOver && !(w1.gameTime <= 0.0) {
      assert Tick(w, sc, dt) == Run(w1, sc, dt);
      RunAfterJump(w1, sc, dt);
      assert !AnyJumpEdge(Jump(Move(w1)).kb.keyPressed);
    }
  }

  /** A tick that used up a jump leaves no jump edge raised: the jump consumed them all. */
  lemma JumpedTickLeavesNoEdge(w: World, sc: Scene, dt: real)
    requires Inv(w, sc.canvasWidth)
    requires Tick(w, sc, dt).after.cat.jumpCount > w.cat.jumpCount
    ensures !AnyJumpEdge(Tick(w, sc, dt).after.kb.keyPressed)
  {
    var w1 := Countdown(w, dt);
    assert !w.dialogOpen && !w.gameOver && !(w1.gameTime <= 0.0);
    assert Tick(w, sc, dt) == Run(w1, sc, dt);
    RunAfterJump(w1, sc, dt);
    var m := Move(w1);
    JumpOnEdge(m);
  }

  /**
   * Holding a jump key cannot jump again: after a tick that jumped, any
   * number of auto-repeat keydowns of keys still down leave the next tick
   * without a jump. Only a keyup and a fresh keydown raise a new edge.
   */
  lemma NoSecondJumpWhileHeld(w: World, sc: Scene, dt: real, downs: seq<string>, dt': real)
    requires Inv(w, sc.canvasWidth) && dt >= 0.0
    requires Tick(w, sc, dt).after.cat.jumpCount > w.cat.jumpCount
    requires forall k :: 0 <= k < |downs| ==> Held(Tick(w, sc, dt).after.kb.keys, downs[k])
    ensures var v := Tick(w, sc, dt).after;
      var v' := v.(kb := KeyDowns(v.kb, downs));
      Tick(v', sc, dt').after.cat.jumpCount <= v'.cat.jumpCount
  {
    var v := Tick(w, sc, dt).after;
    JumpedTickLeavesNoEdge(w, sc, dt);
    HoldingRaisesNoEdge(v.kb, downs);
    assert v.(kb := KeyDowns(v.kb, downs)) == v;
    TickKeepsInv(w, sc, dt);
    JumpsNeedEdges(v, sc, dt');
  }

  /**
   * Jumps come only from edges and at most one per tick: the jump count grows
   * by at most one, and not at all when no jump key has a raised edge.
   */
  lemma JumpsNeedEdges(w: World, sc: Scene, dt: real)
    requires Inv(w, sc.canvasWidth)
    ensures Tick(w, sc, dt).after.cat.jumpCount <= w.cat.jumpCount + 1
    ensures !AnyJumpEdge(w.kb.keyPressed) ==> Tick(w, sc, dt).after.cat.jumpCount <= w.cat.jumpCount
  {
    if !w.dialogOpen && !w.gameOver {
      var w1 := Countdown(w, dt);
      assert Tick(w, sc, dt) == Run(w1, sc, dt);
      if !(w1.gameTime <= 0.0) {
        var m := Move(w1);
        assert m.kb == w.kb && m.cat.jumpCount == w.cat.jumpCount;
        JumpOnEdge(m);
        var w2 := Jump(m);
        assert w2.cat.jumpCount <= w.cat.jumpCount + 1;
        assert !AnyJumpEdge(w.kb.keyPressed) ==> w2.cat.jumpCount <= w.cat.jumpCount;
        var w3 := Collect(Physics(w2, sc.platforms));
        assert w3.cat.jumpCount <= w2.cat.jumpCount;
        assert Run(w1, sc, dt) == Contact(w3, sc, dt);
        ContactKeepsJumps(w3, sc, dt);
      }
    }
  }

  /** The part of a tick after coin collection never adds a jump. */
  lemma ContactKeepsJumps(w: World, sc: Scene, dt: real)
    ensures Contact(w, sc, dt).after.cat.jumpCount <= w.cat.jumpCount
  {
    if !HitsMonster(Body(w.cat), sc.monsters) {
      var v := DecayItem(FireTriggers(w), dt);
      assert v.cat.jumpCount == w.cat.jumpCount;
    }
  }

  /** After any tick that got past the countdown, the cat is not left of the level. */
  lemma CatStaysInLevel(w: World, sc: Scene, dt: real)
    requires Inv(w, sc.canvasWidth) && dt >= 0.0
    ensures Tick(w, sc, dt).after.cat.x >= 0.0
    ensures sc.canvasWidth <= LevelWidth ==>
              0.0 <= Tick(w, sc, dt).after.cameraX <= LevelWidth - sc.canvasWidth
  {
    TickKeepsInv(w, sc, dt);
  }

  /**
   * The corrected loop stops asking for frames exactly on the tick that ends
   * the game.
   */
  lemma LoopStopsOnlyAtGameEnd(w: World, sc: Scene, dt: real)
    ensures var o := Tick(w, sc, dt);
      !Rearms(o.exit) <==> o.after.gameOver && !w.gameOver
  {
    if !w.dialogOpen && !w.gameOver {
      var w1 := Countdown(w, dt);
      if !(w1.gameTime <= 0.0) {
        var w3 := Collect(Physics(Jump(Move(w1)), sc.platforms));
        assert !w3.gameOver;
        assert Tick(w, sc, dt) == Contact(w3, sc, dt);
        if !HitsMonster(Body(w3.cat), sc.monsters) {
          var w4 := DecayItem(FireTriggers(w3), dt);
          assert !w4.gameOver;
          assert Tick(w, sc, dt) == Finish(w4, sc);
        }
      }
    }
  }

  /**
   * As written, the loop stops after a monster reset although the game is not
   * over: a tick that resets is never followed by another.
   */
  lemma ResetStopsLoopAsWritten(w: World, sc: Scene, dt: real)
    requires Tick(w, sc, dt).exit == MonsterReset
    ensures !RearmsAsWritten(Tick(w, sc, dt).exit) && !Tick(w, sc, dt).after.gameOver
  {
  }

  /**
   * The input that shows it: at the start of a run, the cat standing on the
   * ground at x = 550, where the first monster stands, with no key down.
   */
  lemma MonsterTouchFreezesGame()
    ensures var o := Tick(InitialWorld.(cat := InitialCat.(x := 550.0, y := GroundY, onGround := true)),
                          Scene(LevelPlatforms, Monsters, 800.0), 0.016);
      o.exit == MonsterReset && !o.after.gameOver && !RearmsAsWritten(o.exit)
  {
    var w := InitialWorld.(cat := InitialCat.(x := 550.0, y := GroundY, onGround := true));
    var w1 := Countdown(w, 0.016);
    assert !AnyJumpEdge(w1.kb.keyPressed);
    JumpOnEdge(Move(w1));
    var w2 := Jump(Move(w1));
    assert w2.cat == w.cat;
    var c := ClampLeft(Fall(w2.cat, w2.gravity));
    assert GroundContact(c) == w.cat;
    GroundedStaysGrounded(w.cat, LevelPlatforms);
    var p := Physics(w2, LevelPlatforms);
    assert p.cat == w.cat;
    assert Overlaps(Body(p.cat), Monsters[0]);
  }
}
