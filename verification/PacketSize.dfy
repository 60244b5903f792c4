/**
 The self-describing byte count of a packet: the canonical text contains its own length in
 decimal, and the builder re-sizes until the two agree.
 */
module PacketSize {

  function Decimal(n: nat): (text: string)
    ensures |text| >= 1
  {
    if n < 10 then [Digit(n)] else Decimal(n / 10) + [Digit(n % 10)]
  }

  function Digit(n: nat): char
    requires n < 10
  {
    "0123456789"[n]
  }

  /** The decimal digits of a count. */
  function Digits(n: nat): nat {
    |Decimal(n)|
  }

  /**
   The packet's canonical text has `rest` bytes besides the count: everything else in it,
   the identity and digest of fixed length included, does not depend on the count.
   */
  function Length(rest: nat, count: nat): nat {
    rest + Digits(count)
  }

  /** What the validator demands of the count. */
  predicate CountsItself(rest: nat, count: nat) {
    count == Length(rest, count)
  }

  lemma {:induction false} DigitsMonotone(m: nat, n: nat)
    requires m <= n
    ensures Digits(m) <= Digits(n)
  {
    if 10 <= m { DigitsMonotone(m / 10, n / 10); }
  }

  lemma {:induction false} DigitsAtMost(n: nat)
    requires n > 0
    ensures Digits(n) <= n
  {
    if n >= 10 { DigitsAtMost(n / 10); }
  }

  /** Growing a count to at most its tenfold adds at most one digit. */
  lemma OneMoreDigit(m: nat, n: nat)
    requires 0 < m <= n <= 10 * m
    ensures Digits(n) <= Digits(m) + 1
  {
    DigitsMonotone(n, 10 * m);
    assert 10 * m / 10 == m;
  }

  /** From one guess to any later one the count grows by fewer bytes than its first size. */
  lemma GuessesStayClose(rest: nat, n: nat)
    requires rest > 0
    requires n <= rest + 1 + Digits(rest + 1)
    ensures Length(rest, n) <= rest + 1 + Digits(rest + 1)
  {
    var first := rest + 1;
    DigitsAtMost(first);
    DigitsMonotone(n, first + Digits(first));
    OneMoreDigit(first, first + Digits(first));
  }

  /** The number of re-sizings the loop still needs from a guess. */
  predicate Settles(rest: nat, n: nat, fuel: nat)
    decreases fuel
  {
    CountsItself(rest, n) || (fuel > 0 && Settles(rest, Length(rest, n), fuel - 1))
  }

  /** The loop re-sizes at most three times, whatever the content. */
  lemma ThreeResizingsSuffice(rest: nat)
    requires rest > 0
    ensures Settles(rest, 1, 3)
  {
    var n1 := Length(rest, 1);
    var n2 := Length(rest, n1);
    var n3 := Length(rest, n2);
    assert n1 == rest + 1;
    DigitsMonotone(1, n1);
    DigitsMonotone(n1, n2);
    DigitsMonotone(n2, n3);
    GuessesStayClose(rest, n1);
    GuessesStayClose(rest, n2);
    GuessesStayClose(rest, n3);
    assert Length(rest, n3) == n3;
    assert Settles(rest, n3, 0) && Settles(rest, n2, 1) && Settles(rest, n1, 2);
  }

  /** The loop of `_packet`: the count it returns is the least one that counts itself. */
  method Resize(rest: nat) returns (count: nat, resizings: nat)
    requires rest > 0
    ensures CountsItself(rest, count)
    ensures forall m :: CountsItself(rest, m) ==> count <= m
    ensures resizings <= 3
  {
    ThreeResizingsSuffice(rest);
    count, resizings := 1, 0;
    while true
      invariant resizings <= 3
      invariant Settles(rest, count, 3 - resizings)
      invariant forall m :: CountsItself(rest, m) ==> count <= m
      decreases 3 - resizings
    {
      var size := Length(rest, count);
      if size == count {
        break;
      }
      forall m | CountsItself(rest, m) ensures size <= m {
        DigitsMonotone(count, m);
      }
      count, resizings := size, resizings + 1;
    }
  }

  /** Iterating from a guess until it counts itself. */
  function Settle(rest: nat, n: nat, fuel: nat): nat
    requires Settles(rest, n, fuel)
    decreases fuel
  {
    if CountsItself(rest, n) then n else Settle(rest, Length(rest, n), fuel - 1)
  }

  /** The byte count of a finished packet. */
  function Count(rest: nat): nat
    requires rest > 0
  {
    ThreeResizingsSuffice(rest);
    Settle(rest, 1, 3)
  }

  lemma {:induction false} SettleIsLeast(rest: nat, n: nat, fuel: nat)
    requires Settles(rest, n, fuel)
    requires forall m :: CountsItself(rest, m) ==> n <= m
    ensures CountsItself(rest, Settle(rest, n, fuel))
    ensures forall m :: CountsItself(rest, m) ==> Settle(rest, n, fuel) <= m
    decreases fuel
  {
    if !CountsItself(rest, n) {
      forall m | CountsItself(rest, m) ensures Length(rest, n) <= m {
        DigitsMonotone(n, m);
      }
      SettleIsLeast(rest, Length(rest, n), fuel - 1);
    }
  }

  lemma CountIsLeast(rest: nat)
    requires rest > 0
    ensures CountsItself(rest, Count(rest))
    ensures forall m :: CountsItself(rest, m) ==> Count(rest) <= m
    ensures Count(rest) > rest
  {
    ThreeResizingsSuffice(rest);
    SettleIsLeast(rest, 1, 3);
  }

  /** Two counts can count themselves: the least is a real choice. */
  lemma CountIsNotUnique()
    ensures CountsItself(97, 99) && CountsItself(97, 100)
  {
    assert Decimal(9) == "9" && Decimal(99) == "99" && Decimal(10) == "10" && Decimal(100) == "100";
  }
}
