/**
 * The game as one object: its fields are the game's globals, and its methods
 * are the two key handlers, the loop body `Update`, and the dialog's item
 * choice and close. Each method is proved against the function of the
 * Simulation module that describes the same step. The loop's re-arming
 * follows the corrected `Simulation.Rearms`, which also asks for a frame
 * after a monster reset; the code as written does not (`Simulation.RearmsAsWritten`).
 */
module Platformer {
  import opened Level
  import opened Input
  import opened Actor
  import opened Contacts
  import opened Dialog
  import opened Items
  import Camera
  import Simulation

  class Game {
    var cat: Cat
    var coins: seq<Coin>
    var dialogTriggers: seq<Trigger>
    var gravity: real
    var itemActive: string
    var itemTimer: real
    var collectedCoins: nat
    var gameTime: real
    var gameOver: bool
    var gameWon: bool
    var keys: map<string, bool>
    var keyPressed: map<string, bool>
    var cameraX: real
    /** Whether the dialog overlay is showing. */
    var dialogOpen: bool
    /** The prompt of the last dialog opened. */
    var prompt: Prompt
    const platforms: seq<Platform>
    const monsters: seq<Monster>
    const canvasWidth: real

    /** The fields as one value. */
    function State(): Simulation.World
      reads this
    {
      Simulation.World(cat, coins, dialogTriggers, gravity, itemActive, itemTimer, collectedCoins,
                       gameTime, gameOver, gameWon, Keyboard(keys, keyPressed), cameraX, dialogOpen, prompt)
    }

    function CurrentScene(): Simulation.Scene
    {
      Simulation.Scene(platforms, monsters, canvasWidth)
    }

    ghost predicate Valid()
      reads this
    {
      Simulation.Inv(State(), canvasWidth)
    }

    /** The start-up state: level data built, the cat at (100, 300), 90 seconds on the clock. */
    constructor (canvasWidth: real)
      ensures Valid()
      ensures State() == Simulation.InitialWorld
      ensures platforms == LevelPlatforms && monsters == Monsters && this.canvasWidth == canvasWidth
    {
      var ps := BuildPlatforms();
      platforms := ps;
      monsters := Monsters;
      this.canvasWidth := canvasWidth;
      cat := InitialCat;
      coins := InitialCoins;
      dialogTriggers := InitialTriggers;
      gravity := BaseGravity;
      itemActive := NoItem;
      itemTimer := 0.0;
      collectedCoins := 0;
      gameTime := TimeBudget;
      gameOver := false;
      gameWon := false;
      keys := map[];
      keyPressed := map[];
      cameraX := 0.0;
      dialogOpen := false;
      prompt := NoPrompt;
      new;
      Simulation.InitialWorldValid(canvasWidth);
    }

    // ------------------------------------------------------------ handlers

    /** keydown: a key that was up raises its edge; the key is down. */
    method OnKeyDown(key: string)
      requires Valid()
      modifies this`keys, this`keyPressed
      ensures Valid()
      ensures State() == Simulation.PressKey(old(State()), key)
    {
      if !(key in keys && keys[key]) {
        keyPressed := keyPressed[key := true];
      }
      keys := keys[key := true];
      Simulation.KeyHandlersKeepInv(old(State()), key, canvasWidth);
    }

    /** keyup: the key is up and its edge is gone. */
    method OnKeyUp(key: string)
      requires Valid()
      modifies this`keys, this`keyPressed
      ensures Valid()
      ensures State() == Simulation.ReleaseKey(old(State()), key)
    {
      keys := keys[key := false];
      keyPressed := keyPressed[key := false];
      Simulation.KeyHandlersKeepInv(old(State()), key, canvasWidth);
    }

    /**
     * An item button: the item replaces the previous one for five seconds. The
     * horn's random draw is the parameter r (0, 1 or 2).
     */
    method ChooseItem(item: string, r: nat)
      requires Valid()
      modifies this`itemActive, this`itemTimer, this`cat, this`gravity
      ensures Valid()
      ensures State() == Simulation.ChooseItem(old(State()), item, r)
    {
      // the previous item's effects are dropped before the new one applies
      var c := cat.(sprintBoost := false);
      var g := BaseGravity;
      match EffectOf(item, r) {
        case SpeedBoost =>
          c := c.(sprintBoost := true);
        case Launch =>
          c := c.(vy := LaunchVelocity);
        case LowGravity =>
          g := FloatGravity;
        case NoEffect =>
      }
      assert c == Simulation.ChooseItem(State(), item, r).cat;
      assert g == Simulation.ChooseItem(State(), item, r).gravity;
      ghost var v := Simulation.ChooseItem(State(), item, r);
      Simulation.ChooseItemKeepsInv(State(), item, r, canvasWidth);
      itemActive, itemTimer, cat, gravity := item, ItemDuration, c, g;
      assert State() == v;
    }

    /** The dialog's close button, or the timeout after a choice. */
    method CloseDialog()
      requires Valid()
      modifies this`dialogOpen
      ensures Valid()
      ensures State() == Simulation.CloseDialog(old(State()))
    {
      dialogOpen := false;
    }

    // ------------------------------------------------------------ the loop

    /**
     * One pass of the game loop. It returns whether the corrected loop asks
     * for another frame: it stops exactly when this pass ended the game, and
     * so, unlike the code as written, it goes on after a monster reset.
     */
    method Update(dt: real) returns (rescheduled: bool)
      requires Valid() && dt >= 0.0
      modifies this
      ensures Valid()
      ensures State() == Simulation.Tick(old(State()), CurrentScene(), dt).after
      ensures rescheduled == Simulation.Rearms(Simulation.Tick(old(State()), CurrentScene(), dt).exit)
      ensures !rescheduled <==> gameOver && !old(gameOver)
    {
      ghost var w := State();
      Simulation.TickKeepsInv(w, CurrentScene(), dt);
      Simulation.LoopStopsOnlyAtGameEnd(w, CurrentScene(), dt);
      if dialogOpen || gameOver {
        return true;
      }
      TickClock(dt);
      rescheduled := RunTick(dt);
    }

    /** The pass after the countdown: the time-up check, then the cat's movement and the coins. */
    method RunTick(dt: real) returns (rescheduled: bool)
      modifies this
      ensures State() == Simulation.Run(old(State()), CurrentScene(), dt).after
      ensures rescheduled == Simulation.Rearms(Simulation.Run(old(State()), CurrentScene(), dt).exit)
    {
      if gameTime <= 0.0 && !gameOver {
        EndGame();
        return false;
      }
      ghost var w := State();
      MoveHorizontally();
      CheckJump();
      ghost var steered := State();
      assert steered == Simulation.Jump(Simulation.Move(w));
      ApplyGravity();
      KeepInBounds();
      ResolveCollisions();
      assert State() == Simulation.Physics(steered, platforms);
      CollectCoins();
      rescheduled := ContactTick(dt);
    }

    /**
     * The pass after the coins: a monster touch resets the game and ends the
     * pass, asking for another frame as the corrected loop does.
     */
    method ContactTick(dt: real) returns (rescheduled: bool)
      modifies this
      ensures State() == Simulation.Contact(old(State()), CurrentScene(), dt).after
      ensures rescheduled == Simulation.Rearms(Simulation.Contact(old(State()), CurrentScene(), dt).exit)
    {
      var hit := TouchesMonster();
      if hit {
        ResetGame();
        return true;
      }
      CheckTriggers();
      TickItem(dt);
      rescheduled := FinishTick();
    }

    /** The end of the pass: past the goal the game ends, otherwise the camera follows the cat. */
    method FinishTick() returns (rescheduled: bool)
      modifies this`gameOver, this`gameWon, this`cameraX
      ensures State() == Simulation.Finish(old(State()), CurrentScene()).after
      ensures rescheduled == Simulation.Rearms(Simulation.Finish(old(State()), CurrentScene()).exit)
    {
      if cat.x > GoalX {
        CheckGoal();
        return false;
      }
      UpdateCamera();
      return true;
    }

    method TickClock(dt: real)
      modifies this`gameTime
      ensures State() == Simulation.Countdown(old(State()), dt)
    {
      gameTime := gameTime - dt;
    }

    /** Ends the game; the outcome message is not modelled. */
    method EndGame()
      modifies this`gameOver
      ensures State() == Simulation.EndGame(old(State()))
    {
      gameOver := true;
    }

    method MoveHorizontally()
      modifies this`cat
      ensures State() == Simulation.Move(old(State()))
    {
      var speed := BaseSpeed;
      if SprintHeld(keys) || cat.sprintBoost {
        speed := speed * SprintFactor;
      }
      var x := cat.x;
      if LeftHeld(keys) {
        x := x - speed;
      }
      if RightHeld(keys) {
        x := x + speed;
      }
      assert cat.(x := x) == Walk(cat, keys);
      cat := cat.(x := x);
    }

    /** The two jump checks; each jump consumes the edges of all four jump keys. */
    method CheckJump()
      modifies this`cat, this`keyPressed
      ensures State() == Simulation.Jump(old(State()))
    {
      if (Held(keys, "w") || Held(keys, "W") || Held(keys, "ArrowUp") || Held(keys, " "))
         && Held(keyPressed, "w") && cat.jumpCount < MaxJumps
      {
        JumpOnce();
      }
      if (Held(keys, "W") || Held(keys, "ArrowUp") || Held(keys, " "))
         && (Held(keyPressed, "W") || Held(keyPressed, "ArrowUp") || Held(keyPressed, " "))
         && cat.jumpCount < MaxJumps
      {
        JumpOnce();
      }
    }

    /** One jump: the jump velocity, one more jump used, the jump keys' edges consumed. */
    method JumpOnce()
      modifies this`cat, this`keyPressed
      ensures State() == Simulation.DoJump(old(State()))
      ensures !AnyJumpEdge(keyPressed)
    {
      cat := cat.(vy := JumpVelocity, jumpCount := cat.jumpCount + 1);
      keyPressed := keyPressed["w" := false]["W" := false]["ArrowUp" := false][" " := false];
    }

    method ApplyGravity()
      modifies this`cat
      ensures cat == Fall(old(cat), gravity)
    {
      cat := cat.(vy := cat.vy + gravity);
      cat := cat.(y := cat.y + cat.vy);
    }

    method KeepInBounds()
      modifies this`cat
      ensures cat == ClampLeft(old(cat))
    {
      if cat.x < 0.0 {
        cat := cat.(x := 0.0);
      }
    }

    /** Ground contact, then the landing check against every platform in order. */
    method ResolveCollisions()
      modifies this`cat
      ensures cat == Land(old(cat), platforms)
    {
      cat := cat.(onGround := false);
      if cat.y >= GroundY {
        cat := cat.(y := GroundY, vy := 0.0, jumpCount := 0, onGround := true);
      }
      var i := 0;
      while i < |platforms|
        invariant 0 <= i <= |platforms|
        invariant cat == LandAll(GroundContact(old(cat)), platforms[..i])
      {
        var p := platforms[i];
        if cat.vy >= 0.0 && cat.x + CatW > p.x && cat.x < p.x + p.w
           && cat.y + CatH >= p.y && cat.y + CatH <= p.y + LandingBand
        {
          cat := cat.(y := p.y - CatH, vy := 0.0, jumpCount := 0, onGround := true);
        }
        assert platforms[..i + 1][..i] == platforms[..i];
        i := i + 1;
      }
      assert platforms[..i] == platforms;
    }

    /** Takes every untaken coin the cat overlaps, counting each one. */
    method CollectCoins()
      modifies this`coins, this`collectedCoins
      ensures State() == Simulation.Collect(old(State()))
    {
      var body := Body(cat);
      var i := 0;
      while i < |coins|
        invariant 0 <= i <= |coins| == |old(coins)|
        invariant forall j :: 0 <= j < i ==> coins[j] == Grab(body, old(coins)[j])
        invariant forall j :: i <= j < |coins| ==> coins[j] == old(coins)[j]
        invariant collectedCoins == old(collectedCoins) + NewlyTaken(body, old(coins)[..i])
      {
        var c := coins[i];
        if !c.taken && cat.x < c.x + CoinSize && cat.x + CatW > c.x
           && cat.y < c.y + CoinSize && cat.y + CatH > c.y
        {
          coins := coins[i := c.(taken := true)];
          collectedCoins := collectedCoins + 1;
        }
        assert old(coins)[..i + 1][..i] == old(coins)[..i];
        i := i + 1;
      }
      assert old(coins)[..i] == old(coins);
      assert coins == CollectAll(body, old(coins));
    }

    /** Whether the cat overlaps any monster. */
    method TouchesMonster() returns (hit: bool)
      ensures hit <==> exists i :: 0 <= i < |monsters| && Overlaps(Body(cat), monsters[i])
    {
      var i := 0;
      while i < |monsters|
        invariant 0 <= i <= |monsters|
        invariant forall j :: 0 <= j < i ==> !Overlaps(Body(cat), monsters[j])
      {
        var m := monsters[i];
        if cat.x < m.x + m.w && cat.x + CatW > m.x && cat.y < m.y + m.h && cat.y + CatH > m.y {
          return true;
        }
        i := i + 1;
      }
      return false;
    }

    /** The reset after touching a monster. */
    method ResetGame()
      modifies this`cat, this`collectedCoins, this`coins, this`dialogTriggers
      modifies this`itemActive, this`itemTimer, this`gravity, this`gameTime
      ensures var v := Simulation.Reset(old(State()));
        cat == v.cat && collectedCoins == v.collectedCoins && coins == v.coins && dialogTriggers == v.triggers
        && itemActive == v.itemActive && itemTimer == v.itemTimer && gravity == v.gravity && gameTime == v.gameTime
    {
      var cs := ClearTaken(coins);
      var ts := ClearTriggered(dialogTriggers);
      cat, collectedCoins, coins, dialogTriggers :=
        cat.(x := 100.0, y := 300.0, vy := 0.0, jumpCount := 0, sprintBoost := false), 0, cs, ts;
      itemActive, itemTimer, gravity, gameTime := NoItem, 0.0, BaseGravity, TimeBudget;
    }

    /** Fires every trigger the cat has passed that has not fired yet. */
    method CheckTriggers()
      modifies this`dialogTriggers, this`dialogOpen, this`prompt
      ensures State() == Simulation.FireTriggers(old(State()))
    {
      ghost var ts := dialogTriggers;
      var i := 0;
      while i < |dialogTriggers|
        invariant 0 <= i <= |dialogTriggers| == |ts|
        invariant forall j :: 0 <= j < i ==> dialogTriggers[j] == Fire(cat.x, ts[j])
        invariant forall j :: i <= j < |dialogTriggers| ==> dialogTriggers[j] == ts[j]
        invariant dialogOpen == (old(dialogOpen) || AnyFires(cat.x, ts[..i]))
        invariant prompt == PromptAfter(cat.x, ts[..i], old(prompt))
      {
        var t := dialogTriggers[i];
        if !t.triggered && cat.x > t.x {
          dialogTriggers := dialogTriggers[i := t.(triggered := true)];
          StartDialog(t.x);
        }
        PassStep(cat.x, ts, i, old(prompt));
        i := i + 1;
      }
      assert ts[..i] == ts;
      assert dialogTriggers == FireAll(cat.x, ts);
    }

    /** Opens the dialog with the prompt of the trigger's bucket. */
    method StartDialog(triggerX: real)
      modifies this`dialogOpen, this`prompt
      ensures dialogOpen && prompt == PromptFor(triggerX)
    {
      dialogOpen := true;
      if triggerX < 1000.0 {
        prompt := TreasureBox;
      } else if triggerX < 2000.0 {
        prompt := AnotherTreasure;
      } else {
        prompt := LastGift;
      }
    }

    /** The item timer's countdown. */
    method TickItem(dt: real)
      modifies this`itemTimer, this`itemActive, this`cat, this`gravity
      ensures State() == Simulation.DecayItem(old(State()), dt)
    {
      if itemTimer > 0.0 {
        itemTimer := itemTimer - dt;
        if itemTimer <= 0.0 {
          itemActive := NoItem;
          cat := cat.(sprintBoost := false);
          gravity := BaseGravity;
        }
      }
    }

    /** At the goal: a win with enough coins, a loss otherwise. */
    method CheckGoal()
      modifies this`gameOver, this`gameWon
      ensures State() == Simulation.ReachGoal(old(State()))
    {
      if collectedCoins >= CoinsToWin && !gameOver {
        EndGame();
        gameWon := true;
      } else if !gameOver {
        EndGame();
      }
    }

    method UpdateCamera()
      modifies this`cameraX
      ensures cameraX == Camera.Follow(cat.x, canvasWidth)
    {
      cameraX := cat.x - canvasWidth / 2.0 + CatW / 2.0;
      if cameraX < 0.0 {
        cameraX := 0.0;
      }
      if cameraX > LevelWidth - canvasWidth {
        cameraX := LevelWidth - canvasWidth;
      }
    }
  }
}
