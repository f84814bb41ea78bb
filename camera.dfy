/** The horizontal camera: it centres on the cat and is clamped to the level. */
module Camera {
  import opened Level
  import opened Actor

  /**
   * The camera offset for a cat at catX and a canvas of the given width: the
   * offset that centres the cat, clamped first below at 0 and then above at
   * LevelWidth - canvasWidth.
   */
  function Follow(catX: real, canvasWidth: real): (r: real)
    ensures canvasWidth <= LevelWidth ==> 0.0 <= r <= LevelWidth - canvasWidth
    ensures var centred := catX - canvasWidth / 2.0 + CatW / 2.0;
      0.0 <= centred <= LevelWidth - canvasWidth ==> r == centred
    ensures canvasWidth > LevelWidth ==> r == LevelWidth - canvasWidth
  {
    var c := catX - canvasWidth / 2.0 + CatW / 2.0;
    var c1 := if c < 0.0 then 0.0 else c;
    if c1 > LevelWidth - canvasWidth then LevelWidth - canvasWidth else c1
  }

  /** On an 800-wide canvas the camera sticks to the left edge near the start and to the right edge near the end. */
  lemma ClampExamples()
    ensures Follow(50.0, 800.0) == 0.0
    ensures Follow(3180.0, 800.0) == 2400.0
    ensures Follow(1000.0, 800.0) == 630.0
  {
  }
}
