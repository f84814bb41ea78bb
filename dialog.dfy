/** One-shot dialog triggers and the choice of prompt each one opens. */
module Dialog {
  import opened Level

  /** The three prompts, by trigger position; NoPrompt before any dialog has opened. */
  datatype Prompt = NoPrompt | TreasureBox | AnotherTreasure | LastGift

  /** The prompt bucket of a trigger at x: below 1000, below 2000, or beyond. */
  function PromptFor(triggerX: real): (p: Prompt)
    ensures p != NoPrompt
    ensures p == TreasureBox <==> triggerX < 1000.0
    ensures p == AnotherTreasure <==> 1000.0 <= triggerX < 2000.0
    ensures p == LastGift <==> 2000.0 <= triggerX
  {
    if triggerX < 1000.0 then TreasureBox
    else if triggerX < 2000.0 then AnotherTreasure
    else LastGift
  }

  /** The trigger loop's test: not yet fired and the cat is past it. */
  predicate Fires(catX: real, t: Trigger)
  {
    !t.triggered && catX > t.x
  }

  function Fire(catX: real, t: Trigger): Trigger
  {
    if Fires(catX, t) then t.(triggered := true) else t
  }

  /** The triggers after one pass of the trigger loop. */
  function FireAll(catX: real, ts: seq<Trigger>): (r: seq<Trigger>)
    ensures |r| == |ts|
    ensures forall i :: 0 <= i < |ts| ==> r[i] == Fire(catX, ts[i])
  {
    seq(|ts|, i requires 0 <= i < |ts| => Fire(catX, ts[i]))
  }

  /** Some trigger fires on this pass. */
  predicate AnyFires(catX: real, ts: seq<Trigger>)
  {
    exists i :: 0 <= i < |ts| && Fires(catX, ts[i])
  }

  /** The prompt after one pass: that of the last trigger to fire, or the old one if none fires. */
  function PromptAfter(catX: real, ts: seq<Trigger>, previous: Prompt): Prompt
  {
    if ts == [] then previous
    else if Fires(catX, ts[|ts| - 1]) then PromptFor(ts[|ts| - 1].x)
    else PromptAfter(catX, ts[..|ts| - 1], previous)
  }

  /** The triggers with every flag cleared, as the reset loop leaves them. */
  function Unfire(ts: seq<Trigger>): (r: seq<Trigger>)
    ensures |r| == |ts|
    ensures forall i :: 0 <= i < |ts| ==> r[i] == ts[i].(triggered := false)
  {
    seq(|ts|, i requires 0 <= i < |ts| => ts[i].(triggered := false))
  }

  /** The reset loop over the triggers: every flag cleared, in place. */
  method ClearTriggered(ts: seq<Trigger>) returns (r: seq<Trigger>)
    ensures r == Unfire(ts)
  {
    r := ts;
    var i := 0;
    while i < |r|
      invariant 0 <= i <= |r| == |ts|
      invariant forall j :: 0 <= j < i ==> r[j] == ts[j].(triggered := false)
      invariant forall j :: i <= j < |r| ==> r[j] == ts[j]
    {
      r := r[i := r[i].(triggered := false)];
      i := i + 1;
    }
  }

  /** One more trigger in the pass: whether any fired, and the prompt of the last to fire. */
  lemma PassStep(catX: real, ts: seq<Trigger>, i: nat, p: Prompt)
    requires i < |ts|
    ensures AnyFires(catX, ts[..i + 1]) <==> AnyFires(catX, ts[..i]) || Fires(catX, ts[i])
    ensures PromptAfter(catX, ts[..i + 1], p)
            == if Fires(catX, ts[i]) then PromptFor(ts[i].x) else PromptAfter(catX, ts[..i], p)
  {
    var pre, ext := ts[..i], ts[..i + 1];
    assert ext[..i] == pre && ext[i] == ts[i];
    if AnyFires(catX, pre) {
      var k :| 0 <= k < i && Fires(catX, pre[k]);
      assert ext[k] == pre[k];
    }
    if AnyFires(catX, ext) {
      var k :| 0 <= k < i + 1 && Fires(catX, ext[k]);
      if k < i {
        assert pre[k] == ext[k];
      }
    }
  }

  /**
   * Triggers fire once: a pass only raises flags, a trigger already fired stays
   * as it is, and a second pass fires nothing, wherever the cat has got to.
   */
  lemma FiredTriggersStayQuiet(x1: real, x2: real, ts: seq<Trigger>)
    ensures forall i :: 0 <= i < |ts| && ts[i].triggered ==> FireAll(x1, ts)[i] == ts[i]
    ensures forall i :: 0 <= i < |ts| && Fires(x1, ts[i]) ==> !Fires(x2, FireAll(x1, ts)[i])
    ensures Unfire(FireAll(x1, ts)) == Unfire(ts)
  {
  }

  /** A pass opens a dialog with a real prompt exactly when some trigger fires. */
  lemma {:induction false} PromptOfLastFired(catX: real, ts: seq<Trigger>, p: Prompt)
    ensures AnyFires(catX, ts) ==> PromptAfter(catX, ts, p) != NoPrompt
    ensures !AnyFires(catX, ts) ==> PromptAfter(catX, ts, p) == p
  {
    if ts != [] {
      var n := |ts| - 1;
      PromptOfLastFired(catX, ts[..n], p);
      if !Fires(catX, ts[n]) {
        if AnyFires(catX, ts) {
          var i :| 0 <= i < |ts| && Fires(catX, ts[i]);
          assert ts[..n][i] == ts[i];
        } else {
          assert !AnyFires(catX, ts[..n]) by {
            forall i | 0 <= i < n ensures !Fires(catX, ts[..n][i]) {
              assert ts[..n][i] == ts[i];
            }
          }
        }
      }
    }
  }

  /** When exactly one trigger fires on a pass, the dialog shows that trigger's prompt. */
  lemma {:induction false} SoleFiringPrompt(catX: real, ts: seq<Trigger>, i: nat, p: Prompt)
    requires i < |ts| && Fires(catX, ts[i])
    requires forall j :: 0 <= j < |ts| && j != i ==> !Fires(catX, ts[j])
    ensures PromptAfter(catX, ts, p) == PromptFor(ts[i].x)
  {
    var n := |ts| - 1;
    if i < n {
      assert ts[..n][i] == ts[i];
      forall j | 0 <= j < n && j != i
        ensures !Fires(catX, ts[..n][j])
      {
        assert ts[..n][j] == ts[j];
      }
      SoleFiringPrompt(catX, ts[..n], i, p);
    }
  }

  /** Each start-up trigger gets its own prompt, in level order. */
  lemma TriggerPrompts()
    ensures PromptFor(InitialTriggers[0].x) == TreasureBox
    ensures PromptFor(InitialTriggers[1].x) == AnotherTreasure
    ensures PromptFor(InitialTriggers[2].x) == LastGift
  {
  }

  /** The start-up triggers have not fired. */
  lemma InitialTriggersUnfired()
    ensures Unfire(InitialTriggers) == InitialTriggers
  {
  }
}
