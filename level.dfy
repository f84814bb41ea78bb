/** Level geometry and the level data the game builds at start-up. */
module Level {

  /** An axis-aligned rectangle in level space; y grows downwards. */
  datatype Rect = Rect(x: real, y: real, w: real, h: real)

  type Platform = Rect
  type Monster = Rect

  /** A coin: its top-left corner and whether the cat has taken it. */
  datatype Coin = Coin(x: real, y: real, taken: bool)

  /** A dialog trigger: an x-threshold and whether it has fired since the last reset. */
  datatype Trigger = Trigger(x: real, triggered: bool)

  /** The collision box of every coin is 40 by 40. */
  const CoinSize: real := 40.0
  /** The camera is clamped to a level 3200 units wide. */
  const LevelWidth: real := 3200.0
  /** Passing this x ends the game. */
  const GoalX: real := 3000.0
  /** Coins needed to win at the goal. */
  const CoinsToWin: nat := 7
  /** Seconds on the clock at the start of a run. */
  const TimeBudget: real := 90.0

  /** Strict overlap of two rectangles, the test used for coins and monsters. */
  predicate Overlaps(a: Rect, b: Rect)
  {
    a.x < b.x + b.w && a.x + a.w > b.x && a.y < b.y + b.h && a.y + a.h > b.y
  }

  function CoinBox(c: Coin): Rect
  {
    Rect(c.x, c.y, CoinSize, CoinSize)
  }

  /** The ground slab, placed first. */
  const Ground: Platform := Rect(0.0, 450.0, 4000.0, 20.0)

  /** The i-th of the fifteen floating platforms, as the start-up loop places it. */
  function Floating(i: nat): Platform
  {
    Rect(300.0 + (i as real) * 220.0, 350.0 - ((i % 4) as real) * 60.0, 120.0, 20.0)
  }

  /** The four challenge platforms, appended last. */
  const Challenge: seq<Platform> := [
    Rect(800.0, 200.0, 100.0, 20.0),
    Rect(1400.0, 180.0, 100.0, 20.0),
    Rect(2000.0, 220.0, 100.0, 20.0),
    Rect(2500.0, 160.0, 120.0, 20.0)
  ]

  /** The fifteen floating platforms, 220 apart on a four-step height cycle. */
  const FloatingRow: seq<Platform> := seq(15, i requires 0 <= i < 15 => Floating(i))

  /** The whole platform table: ground, floating platforms, challenge platforms. */
  const LevelPlatforms: seq<Platform> := [Ground] + FloatingRow + Challenge

  /** The ten coins, none taken. */
  const InitialCoins: seq<Coin> := [
    Coin(400.0, 250.0, false),
    Coin(650.0, 280.0, false),
    Coin(900.0, 150.0, false),
    Coin(1200.0, 300.0, false),
    Coin(1500.0, 130.0, false),
    Coin(1800.0, 250.0, false),
    Coin(2100.0, 180.0, false),
    Coin(2400.0, 300.0, false),
    Coin(2700.0, 200.0, false),
    Coin(2900.0, 350.0, false)
  ]

  /** The seven monsters, standing on the ground. */
  const Monsters: seq<Monster> := [
    Rect(550.0, 390.0, 60.0, 60.0),
    Rect(1000.0, 390.0, 60.0, 60.0),
    Rect(1350.0, 390.0, 60.0, 60.0),
    Rect(1700.0, 390.0, 60.0, 60.0),
    Rect(2200.0, 390.0, 60.0, 60.0),
    Rect(2600.0, 390.0, 60.0, 60.0),
    Rect(2850.0, 390.0, 60.0, 60.0)
  ]

  /** The three dialog triggers, none fired. */
  const InitialTriggers: seq<Trigger> := [
    Trigger(500.0, false),
    Trigger(1300.0, false),
    Trigger(2100.0, false)
  ]

  /**
   * Builds the platform table as the start-up code does: the ground, a loop
   * placing the fifteen floating platforms, then the challenge platforms.
   */
  method BuildPlatforms() returns (ps: seq<Platform>)
    ensures ps == LevelPlatforms
    ensures |ps| == 20 && ps[0] == Ground && ps[16..] == Challenge
    ensures forall i :: 1 <= i <= 15 ==> ps[i].x == 300.0 + ((i - 1) as real) * 220.0 && ps[i].w == 120.0
  {
    ps := [Ground];
    for i := 0 to 15
      invariant ps == [Ground] + FloatingRow[..i]
    {
      ps := ps + [Rect(300.0 + (i as real) * 220.0, 350.0 - ((i % 4) as real) * 60.0, 120.0, 20.0)];
      assert FloatingRow[..i + 1] == FloatingRow[..i] + [Floating(i)];
    }
    ps := ps + Challenge;
  }
}
