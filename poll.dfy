/** The `while True` poll loop shared by the three pickers: each turn reads the sliders, shows one
    frame and waits for a key; the first key code other than -1 ends the loop. */
module Poll {

  /** What `cv2.waitKey` returns when no key arrived during its wait. */
  const NoKey := -1

  /** One turn of the loop as the UI sees it: the slider positions read at the top of the turn and
      the key code that `cv2.waitKey` returned at its end. */
  datatype Tick<S> = Tick(sliders: S, key: int)

  /** The loop is `Running` until a key arrives; `Terminated` is final. */
  datatype LoopState = Running | Terminated

  /** Some turn of `ticks` ends with a key press. */
  predicate KeyPressed<S>(ticks: seq<Tick<S>>) {
    exists i :: 0 <= i < |ticks| && ticks[i].key != NoKey
  }

  /** With no key in its first turn, a sequence of turns has a key press exactly when its tail does. */
  lemma KeyPressedTail<S>(ticks: seq<Tick<S>>)
    requires |ticks| > 0 && ticks[0].key == NoKey
    ensures KeyPressed(ticks) <==> KeyPressed(ticks[1..])
  {
  }

  /** How many turns the loop runs over `ticks`: every turn up to and including the first one whose
      key is not `NoKey`, or all of them when no key arrives. */
  function TicksRun<S>(ticks: seq<Tick<S>>): (n: nat)
    ensures n <= |ticks|
    ensures forall i :: 0 <= i < n - 1 ==> ticks[i].key == NoKey
    ensures KeyPressed(ticks) <==> 0 < n && ticks[n - 1].key != NoKey
    ensures !KeyPressed(ticks) ==> n == |ticks|
  {
    if |ticks| == 0 then 0
    else if ticks[0].key != NoKey then 1
    else
      KeyPressedTail(ticks);
      1 + TicksRun(ticks[1..])
  }

  /** The properties in `TicksRun`'s contract pin its value down: a loop that stops after `n` turns
      with no key before the last one, and a key in the last one unless input ran out, ran
      `TicksRun(ticks)` turns. */
  lemma TicksRunUnique<S>(ticks: seq<Tick<S>>, n: nat)
    requires n <= |ticks|
    requires forall i :: 0 <= i < n - 1 ==> ticks[i].key == NoKey
    requires (0 < n && ticks[n - 1].key != NoKey) || (n == |ticks| && !KeyPressed(ticks))
    ensures n == TicksRun(ticks)
  {
  }
}
