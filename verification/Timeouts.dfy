/** The timeout handed on: client begin, handler begin and begin operation each take off their own time. */
module Timeouts {
  const NANOS_PER_MILLI: nat := 1_000_000
  const TWO_TO_32: nat := 0x1_0000_0000

  /** A DWORD. */
  newtype Dword = x: int | 0 <= x < 0x1_0000_0000

  /** The cast to DWORD keeps the low 32 bits. */
  function Cast(n: nat): Dword {
    (n % TWO_TO_32) as Dword
  }

  /** Unsigned subtraction wraps around. */
  function Sub(a: Dword, b: Dword): Dword {
    ((a as int - b as int) % TWO_TO_32) as Dword
  }

  /** duration_cast to milliseconds. */
  function Millis(nanos: nat): nat {
    nanos / NANOS_PER_MILLI
  }

  function Stage(timeout: Dword, nanos: nat): Dword {
    var ms := Millis(nanos);
    if timeout as int > ms then Sub(timeout, Cast(ms)) else 0
  }

  function Chain(timeout: Dword, costs: seq<nat>): Dword
    decreases |costs|
  {
    if costs == [] then timeout else Chain(Stage(timeout, costs[0]), costs[1..])
  }

  function Monus(a: int, b: int): nat {
    if a > b then a - b else 0
  }

  function Total(costs: seq<nat>): nat {
    if costs == [] then 0 else costs[0] + Total(costs[1..])
  }

  /** The whole milliseconds of every stage. */
  function Floors(costs: seq<nat>): nat {
    if costs == [] then 0 else Millis(costs[0]) + Floors(costs[1..])
  }

  /** Neither the cast nor the subtraction wraps. */
  lemma StageExact(timeout: Dword, nanos: nat)
    ensures Stage(timeout, nanos) as int == Monus(timeout as int, Millis(nanos))
  {
    var ms := Millis(nanos);
    if timeout as int > ms {
      assert Cast(ms) as int == ms;
      assert 0 <= timeout as int - ms < TWO_TO_32;
    }
  }

  /** The chained deduction takes off the sum of the floored costs and stops at zero. */
  lemma {:induction false} ChainExact(timeout: Dword, costs: seq<nat>)
    ensures Chain(timeout, costs) as int == Monus(timeout as int, Floors(costs))
    decreases |costs|
  {
    if costs == [] {
    } else {
      StageExact(timeout, costs[0]);
      ChainExact(Stage(timeout, costs[0]), costs[1..]);
    }
  }

  lemma AddMillis(a: nat, b: nat)
    ensures Millis(a) + Millis(b) <= Millis(a + b) <= Millis(a) + Millis(b) + 1
  {
    var u := NANOS_PER_MILLI;
    assert a == u * (a / u) + a % u && b == u * (b / u) + b % u;
    var rest := a % u + b % u;
    assert a + b == u * (a / u + b / u) + rest && 0 <= rest < 2 * u;
  }

  /** Flooring n stages one by one loses at most n - 1 milliseconds against flooring the total. */
  lemma {:induction false} FloorsAgainstTotal(costs: seq<nat>)
    requires costs != []
    ensures Floors(costs) <= Millis(Total(costs)) <= Floors(costs) + |costs| - 1
  {
    var rest := costs[1..];
    if rest == [] {
      assert Total(rest) == 0 && Floors(rest) == 0;
    } else {
      FloorsAgainstTotal(rest);
      AddMillis(costs[0], Total(rest));
    }
  }

  /** What is left of a timeout after at least one stage: never less than what the elapsed time leaves,
      and less than one millisecond per further stage more. */
  lemma Budget(timeout: Dword, costs: seq<nat>)
    requires costs != []
    ensures var left, elapsed := Chain(timeout, costs) as int, Millis(Total(costs));
      && left == Monus(timeout as int, Floors(costs))
      && Monus(timeout as int, elapsed) <= left <= Monus(timeout as int + |costs| - 1, elapsed)
  {
    ChainExact(timeout, costs);
    FloorsAgainstTotal(costs);
  }

  function Repeat(cost: nat, n: nat): (costs: seq<nat>)
    ensures |costs| == n
  {
    if n == 0 then [] else [cost] + Repeat(cost, n - 1)
  }

  lemma {:induction false} RepeatSums(n: nat)
    ensures Total(Repeat(NANOS_PER_MILLI - 1, n)) == n * NANOS_PER_MILLI - n
    ensures Floors(Repeat(NANOS_PER_MILLI - 1, n)) == 0
  {
    if n == 0 {
    } else {
      RepeatSums(n - 1);
      assert Repeat(NANOS_PER_MILLI - 1, n)[1..] == Repeat(NANOS_PER_MILLI - 1, n - 1);
    }
  }

  /** The upper bound is reached: stages that each stay just below a millisecond cost nothing. */
  lemma UpperBoundReached(timeout: Dword, n: nat)
    requires 0 < n <= NANOS_PER_MILLI && n <= timeout as int
    ensures var costs := Repeat(NANOS_PER_MILLI - 1, n);
      Chain(timeout, costs) == timeout && timeout as int == Monus(timeout as int + n - 1, Millis(Total(costs)))
  {
    var costs := Repeat(NANOS_PER_MILLI - 1, n);
    RepeatSums(n);
    ChainExact(timeout, costs);
    var u := NANOS_PER_MILLI;
    assert Total(costs) == u * (n - 1) + (u - n);
    assert Total(costs) / u == n - 1;
  }

  /** The code of one stage; a steady clock does not run backwards. */
  method Remaining(timeout: Dword, start: nat, end: nat) returns (newTimeout: Dword)
    requires start <= end
    ensures newTimeout as int == Monus(timeout as int, (end - start) / NANOS_PER_MILLI)
  {
    var ms := Millis(end - start);
    newTimeout := 0;
    if timeout as int > ms {
      newTimeout := Sub(timeout, Cast(ms));
    }
    StageExact(timeout, end - start);
  }
}
