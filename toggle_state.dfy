/** The boolean toggle hook (storefront/src/hooks/use-toggle-state.ts). */
module UseToggleState {
  import opened Wrappers

  datatype Action = Open | Close | Toggle

  /** The state after one call of `open`, `close` or `toggle`. */
  function Step(state: bool, a: Action): (r: bool)
    ensures a == Open ==> r
    ensures a == Close ==> !r
    ensures a == Toggle ==> r != state
  {
    match a
    case Open => true
    case Close => false
    case Toggle => !state
  }

  /** The state after a sequence of calls, the last call last. */
  function Run(state: bool, acts: seq<Action>): bool
  {
    if acts == [] then state else Step(Run(state, acts[..|acts| - 1]), acts[|acts| - 1])
  }

  predicate AllToggles(acts: seq<Action>)
  {
    forall i :: 0 <= i < |acts| ==> acts[i] == Toggle
  }

  /** `open` and `close` are idempotent; `toggle` twice is the identity. */
  lemma StepLaws(state: bool)
    ensures Step(Step(state, Open), Open) == Step(state, Open) == true
    ensures Step(Step(state, Close), Close) == Step(state, Close) == false
    ensures Step(Step(state, Toggle), Toggle) == state
  {
  }

  /** Running two sequences one after the other is running their concatenation. */
  lemma {:induction false} RunConcat(state: bool, xs: seq<Action>, ys: seq<Action>)
    ensures Run(state, xs + ys) == Run(Run(state, xs), ys)
    decreases |ys|
  {
    if ys != [] {
      assert (xs + ys)[..|xs + ys| - 1] == xs + ys[..|ys| - 1];
      assert (xs + ys)[|xs + ys| - 1] == ys[|ys| - 1];
      RunConcat(state, xs, ys[..|ys| - 1]);
    } else {
      assert xs + ys == xs;
    }
  }

  /** A run of toggles flips the state once per toggle. */
  lemma {:induction false} RunToggles(state: bool, acts: seq<Action>)
    requires AllToggles(acts)
    ensures Run(state, acts) == (if |acts| % 2 == 0 then state else !state)
  {
    if acts != [] {
      RunToggles(state, acts[..|acts| - 1]);
    }
  }

  /**
   * After a sequence whose last `open` or `close` is `a`, followed only by toggles, the state
   * is fixed by `a` and the number of toggles alone; whatever came before does not matter.
   */
  lemma LastSetDecides(s1: bool, s2: bool, before: seq<Action>, a: Action, toggles: seq<Action>)
    requires a != Toggle && AllToggles(toggles)
    ensures Run(s1, before + [a] + toggles) == Run(s2, [a] + toggles)
    ensures Run(s1, before + [a] + toggles) == (if |toggles| % 2 == 0 then a == Open else a == Close)
  {
    RunConcat(s1, before + [a], toggles);
    RunConcat(s2, [a], toggles);
    assert Run(s1, before + [a]) == Run(s2, [a]) == (a == Open);
    RunToggles(a == Open, toggles);
  }

  /** `useToggleState(defaultState)`: the hook's state. */
  class ToggleState {
    var state: bool

    /** The initial state is `defaultState`, `false` when it is omitted. */
    constructor (defaultState: Option<bool>)
      ensures state == defaultState.GetOr(false)
    {
      state := defaultState.GetOr(false);
    }

    method Open()
      modifies this
      ensures state == Step(old(state), Action.Open)
      ensures state
    {
      state := true;
    }

    method Close()
      modifies this
      ensures state == Step(old(state), Action.Close)
      ensures !state
    {
      state := false;
    }

    method Toggle()
      modifies this
      ensures state == Step(old(state), Action.Toggle)
      ensures state == !old(state)
    {
      state := !state;
    }
  }
}
