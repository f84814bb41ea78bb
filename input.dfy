/**
 * Keyboard state as the two key handlers keep it: `keys` says which keys are
 * down, `keyPressed` holds one edge flag per key, raised by a keydown of a key
 * that was up and lowered by its keyup or by a jump that consumes it.
 */
module Input {

  datatype Keyboard = Keyboard(keys: map<string, bool>, keyPressed: map<string, bool>)

  /** A map entry read the way the handlers read it: a key never seen counts as false. */
  predicate Held(m: map<string, bool>, k: string)
  {
    k in m && m[k]
  }

  const NoKeys: Keyboard := Keyboard(map[], map[])

  predicate LeftHeld(keys: map<string, bool>)
  {
    Held(keys, "a") || Held(keys, "A") || Held(keys, "ArrowLeft")
  }

  predicate RightHeld(keys: map<string, bool>)
  {
    Held(keys, "d") || Held(keys, "D") || Held(keys, "ArrowRight")
  }

  predicate SprintHeld(keys: map<string, bool>)
  {
    Held(keys, "Shift")
  }

  /** The four keys that jump. */
  const JumpKeys: set<string> := {"w", "W", "ArrowUp", " "}

  /** Some jump key has an unconsumed edge. */
  predicate AnyJumpEdge(pressed: map<string, bool>)
  {
    Held(pressed, "w") || Held(pressed, "W") || Held(pressed, "ArrowUp") || Held(pressed, " ")
  }

  /** Every raised edge belongs to a key that is down. */
  predicate Consistent(kb: Keyboard)
  {
    forall k | k in kb.keyPressed :: kb.keyPressed[k] ==> Held(kb.keys, k)
  }

  /** The keydown handler: raise the edge only if the key was up, then mark it down. */
  function KeyDown(kb: Keyboard, k: string): (r: Keyboard)
    ensures Held(r.keys, k)
    ensures Held(r.keyPressed, k) <==> !Held(kb.keys, k) || Held(kb.keyPressed, k)
    ensures Held(kb.keys, k) ==> r.keyPressed == kb.keyPressed
    ensures forall j :: j != k ==> (Held(r.keys, j) <==> Held(kb.keys, j))
    ensures forall j :: j != k ==> (Held(r.keyPressed, j) <==> Held(kb.keyPressed, j))
    ensures Consistent(kb) ==> Consistent(r)
  {
    Keyboard(kb.keys[k := true], if !Held(kb.keys, k) then kb.keyPressed[k := true] else kb.keyPressed)
  }

  /** The keyup handler: the key is up and its edge is gone. */
  function KeyUp(kb: Keyboard, k: string): (r: Keyboard)
    ensures !Held(r.keys, k) && !Held(r.keyPressed, k)
    ensures forall j :: j != k ==> (Held(r.keys, j) <==> Held(kb.keys, j))
    ensures forall j :: j != k ==> (Held(r.keyPressed, j) <==> Held(kb.keyPressed, j))
    ensures Consistent(kb) ==> Consistent(r)
  {
    Keyboard(kb.keys[k := false], kb.keyPressed[k := false])
  }

  /** A jump consumes the edges of all four jump keys at once; nothing else changes. */
  function ConsumeJumpEdges(kb: Keyboard): (r: Keyboard)
    ensures !AnyJumpEdge(r.keyPressed)
    ensures r.keys == kb.keys
    ensures forall j :: j !in JumpKeys ==> (Held(r.keyPressed, j) <==> Held(kb.keyPressed, j))
    ensures Consistent(kb) ==> Consistent(r)
  {
    kb.(keyPressed := kb.keyPressed["w" := false]["W" := false]["ArrowUp" := false][" " := false])
  }

  /**
   * Holding a key gives no new jump: once the jump edges are consumed, repeated
   * keydowns of keys already down (the browser's auto-repeat) raise none, and a
   * keyup never raises one either.
   */
  lemma {:induction false} HoldingRaisesNoEdge(kb: Keyboard, downs: seq<string>)
    requires !AnyJumpEdge(kb.keyPressed)
    requires forall i :: 0 <= i < |downs| ==> Held(kb.keys, downs[i])
    ensures !AnyJumpEdge(KeyDowns(kb, downs).keyPressed)
    ensures KeyDowns(kb, downs) == kb
  {
    if downs != [] {
      var last := downs[|downs| - 1];
      HoldingRaisesNoEdge(kb, downs[..|downs| - 1]);
      assert KeyDowns(kb, downs) == KeyDown(KeyDowns(kb, downs[..|downs| - 1]), last);
    }
  }

  /** The keyboard after a series of keydown events. */
  function KeyDowns(kb: Keyboard, downs: seq<string>): Keyboard
  {
    if downs == [] then kb else KeyDown(KeyDowns(kb, downs[..|downs| - 1]), downs[|downs| - 1])
  }
}
