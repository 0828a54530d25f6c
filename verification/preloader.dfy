/** The typewriter animation of src/components/Preloader.js: every interval
    tick shows a prefix of "Please wait" followed by "...", growing one
    character per tick and then shrinking one character per tick. */
module Preloader {

  const FullText := "Please wait"
  const Dots := "..."
  /** The length of FullText. */
  const L := 11
  /** Ticks in one grow-and-shrink cycle: 2 * (L + 1). */
  const Period := 24

  /** The closure variables the interval callback updates. */
  datatype TickState = TickState(currentIndex: int, isAdding: bool)

  const Initial := TickState(0, true)

  predicate ValidState(s: TickState) {
    0 <= s.currentIndex <= L
  }

  /** The text one tick shows from state s. */
  function Emitted(s: TickState): (text: string)
    requires ValidState(s)
    ensures |text| >= 3 && text[|text| - 3..] == Dots
    ensures text[..|text| - 3] <= FullText
  {
    assert |FullText| == L;
    if s.isAdding then FullText[..s.currentIndex] + Dots
    else FullText[..L - s.currentIndex] + Dots
  }

  /** The state after one tick from state s. */
  function Step(s: TickState): (next: TickState)
    requires ValidState(s)
    ensures ValidState(next)
  {
    if s.currentIndex + 1 > L then TickState(0, !s.isAdding)
    else TickState(s.currentIndex + 1, s.isAdding)
  }

  /** The state after n ticks from s. */
  function After(s: TickState, n: nat): (r: TickState)
    requires ValidState(s)
    ensures ValidState(r)
  {
    if n == 0 then s else Step(After(s, n - 1))
  }

  /** Over one cycle of Period ticks from the initial state, the index
      counts 0..L while growing and again 0..L while shrinking. */
  lemma {:induction false} StateInCycle(n: nat)
    requires n < Period
    ensures After(Initial, n) ==
              if n <= L then TickState(n, true) else TickState(n - (L + 1), false)
  {
    if n > 0 {
      StateInCycle(n - 1);
    }
  }

  /** Tick n of a cycle shows the prefix of length n while growing (n <= L)
      and then the prefixes of length L, L-1, ..., 0 while shrinking. */
  lemma TextInCycle(n: nat)
    requires n < Period
    ensures Emitted(After(Initial, n)) ==
              if n <= L then FullText[..n] + Dots else FullText[..2 * L + 1 - n] + Dots
  {
    StateInCycle(n);
  }

  lemma {:induction false} AfterAdd(s: TickState, a: nat, b: nat)
    requires ValidState(s)
    ensures After(s, a + b) == After(After(s, a), b)
    decreases b
  {
    if b > 0 {
      AfterAdd(s, a, b - 1);
    }
  }

  /** After a whole cycle the state is back at its start. */
  lemma CycleReturns()
    ensures After(Initial, Period) == Initial
  {
    StateInCycle(2 * L + 1);
  }

  lemma ModPeriod(n: nat)
    requires n >= Period
    ensures n % Period == (n - Period) % Period
  {
  }

  /** The animation is periodic: after Period ticks it repeats. */
  lemma {:induction false} Periodic(n: nat)
    ensures After(Initial, n) == After(Initial, n % Period)
    decreases n
  {
    if n >= Period {
      AfterAdd(Initial, Period, n - Period);
      CycleReturns();
      Periodic(n - Period);
      ModPeriod(n);
    } else {
      assert n % Period == n;
    }
  }

  /** No shorter positive number of ticks brings the state back to its start. */
  lemma MinimalPeriod(n: nat)
    requires 0 < n < Period
    ensures After(Initial, n) != Initial
  {
    StateInCycle(n);
  }

  /** The interval callback and the state it closes over. */
  class Typewriter {
    var currentIndex: int
    var isAdding: bool
    var text: string

    ghost predicate Valid()
      reads this
    {
      ValidState(State())
    }

    function State(): TickState
      reads this
    {
      TickState(currentIndex, isAdding)
    }

    /** The effect's start: index 0, growing, nothing shown yet. */
    constructor ()
      ensures Valid() && State() == Initial && text == ""
    {
      currentIndex := 0;
      isAdding := true;
      text := "";
    }

    /** One interval tick: show the current prefix, then advance the index,
        switching phase and resetting to 0 once it passes the end. */
    method Tick()
      requires Valid()
      modifies this
      ensures Valid()
      ensures text == Emitted(old(State()))
      ensures State() == Step(old(State()))
    {
      assert |FullText| == L;
      if isAdding {
        text := FullText[..currentIndex] + Dots;
        currentIndex := currentIndex + 1;
        if currentIndex > |FullText| {
          isAdding := false;
          currentIndex := 0;
        }
      } else {
        text := FullText[..|FullText| - currentIndex] + Dots;
        currentIndex := currentIndex + 1;
        if currentIndex > |FullText| {
          isAdding := true;
          currentIndex := 0;
        }
      }
    }
  }
}
