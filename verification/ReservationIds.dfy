/**
 Reservation ids of the harness. An id is the Broker's idempotency key: posting it
 twice with two different requests is a client bug, so the harness needs the id to
 determine everything that can differ between two of its requests.
 */
module ReservationIds {

  const PHASE_A: string := "phase-a"
  const PHASE_B: string := "phase-b"

  predicate IsPhase(phase: string) {
    phase == PHASE_A || phase == PHASE_B
  }

  function Digit(d: nat): char
    requires d < 10
  {
    "0123456789"[d]
  }

  /** Decimal digits of a natural number, most significant first. */
  function Digits(n: nat): (s: string)
    ensures s != [] && '-' !in s
  {
    if n < 10 then [Digit(n)] else Digits(n / 10) + [Digit(n % 10)]
  }

  /** What `%d` prints: a minus sign in front of a negative number. */
  function Decimal(n: int): string {
    if n < 0 then "-" + Digits(-n) else Digits(n)
  }

  function Prefix(run: string): string {
    "test-" + run + "-"
  }

  /** Consumer and number, the part of an id after the phase. */
  function Suffix(consumer: string, seqNo: int): string {
    consumer + "-" + Decimal(seqNo)
  }

  /** `test-<run>-<phase>-<consumer>-<number>`. */
  function MakeReservationID(run: string, phase: string, consumer: string, seqNo: int): string {
    Prefix(run) + (phase + ("-" + Suffix(consumer, seqNo)))
  }

  lemma {:induction false} DigitsInjective(m: nat, n: nat)
    requires Digits(m) == Digits(n)
    ensures m == n
  {
    assert forall i, j :: 0 <= i < 10 && 0 <= j < 10 && Digit(i) == Digit(j) ==> i == j;
    var a, b := Digits(m), Digits(n);
    assert m >= 10 <==> |a| > 1;
    assert n >= 10 <==> |b| > 1;
    if m >= 10 {
      assert a[..|a| - 1] == Digits(m / 10) && b[..|b| - 1] == Digits(n / 10);
      assert a[|a| - 1] == Digit(m % 10) && b[|b| - 1] == Digit(n % 10);
      DigitsInjective(m / 10, n / 10);
    }
  }

  /** The number a string of decimal digits stands for. */
  function Value(s: string): int {
    if s == [] then 0 else 10 * Value(s[..|s| - 1]) + (s[|s| - 1] as int - '0' as int)
  }

  lemma {:induction false} DigitsReadBack(n: nat)
    ensures Value(Digits(n)) == n
  {
    assert forall d :: 0 <= d < 10 ==> Digit(d) as int - '0' as int == d;
    if n < 10 {
      assert Digits(n)[..0] == [];
    } else {
      DigitsReadBack(n / 10);
      assert Digits(n)[..|Digits(n)| - 1] == Digits(n / 10);
    }
  }

  /** The last hyphen splits a name: what follows it holds no hyphen. */
  lemma LastHyphen(a: string, d: string, b: string, e: string)
    requires a + "-" + d == b + "-" + e
    requires '-' !in d && '-' !in e
    ensures a == b && d == e
  {
    var s, t := a + "-" + d, b + "-" + e;
    HyphenPosition(a, d);
    HyphenPosition(b, e);
    assert s[|a|] == '-' && t[|b|] == '-';
    assert |a| == |b|;
    assert s[..|a|] == a && t[..|b|] == b;
    assert s[|a| + 1..] == d && t[|b| + 1..] == e;
  }

  lemma HyphenPosition(a: string, d: string)
    requires '-' !in d
    ensures forall i :: |a| < i < |a + "-" + d| ==> (a + "-" + d)[i] != '-'
  {
    forall i | |a| < i < |a + "-" + d|
      ensures (a + "-" + d)[i] != '-'
    {
      assert (a + "-" + d)[i] == d[i - |a| - 1];
    }
  }

  lemma DropPrefix(p: string, s: string, t: string)
    requires p + s == p + t
    ensures s == t
  {
    assert s == (p + s)[|p|..];
  }

  lemma SuffixInjective(consumer: string, n: nat, consumer': string, n': nat)
    requires Suffix(consumer, n) == Suffix(consumer', n')
    ensures consumer == consumer' && n == n'
  {
    LastHyphen(consumer, Digits(n), consumer', Digits(n'));
    DigitsInjective(n, n');
  }

  /** One run never gives one id to two different (phase, consumer, number) triples,
      whatever hyphens and digits the consumer ids contain. */
  lemma IdsInjective(run: string, phase: string, consumer: string, n: nat,
                     phase': string, consumer': string, n': nat)
    requires IsPhase(phase) && IsPhase(phase')
    requires MakeReservationID(run, phase, consumer, n) == MakeReservationID(run, phase', consumer', n')
    ensures phase == phase' && consumer == consumer' && n == n'
  {
    var s, t := "-" + Suffix(consumer, n), "-" + Suffix(consumer', n');
    DropPrefix(Prefix(run), phase + s, phase' + t);
    assert phase == (phase + s)[..7] && phase' == (phase' + t)[..7];
    DropPrefix(phase, s, t);
    DropPrefix("-", Suffix(consumer, n), Suffix(consumer', n'));
    SuffixInjective(consumer, n, consumer', n');
  }

  /** The restriction to non-negative numbers is needed: a minus sign is a hyphen too. */
  lemma NegativeNumbersCollide(run: string, phase: string)
    ensures MakeReservationID(run, phase, "c-", 5) == MakeReservationID(run, phase, "c", -5)
  {
    assert Decimal(5) == "5" && Decimal(-5) == "-5";
    assert Suffix("c-", 5) == "c--5" == Suffix("c", -5);
  }

  /** The ConsumerChoice suite names the reservation by scenario position. */
  function ChoiceReservationID(run: string, consumer: string, scenarioIndex: nat, rep: nat): string {
    MakeReservationID(run, "cc" + Digits(scenarioIndex + 1), consumer, rep)
  }

  lemma ChoiceIdsInjective(run: string, consumer: string, i: nat, rep: nat, j: nat, rep': nat)
    requires ChoiceReservationID(run, consumer, i, rep) == ChoiceReservationID(run, consumer, j, rep')
    ensures i == j && rep == rep'
  {
    var d, e := Digits(i + 1), Digits(j + 1);
    var s, t := Suffix(consumer, rep), Suffix(consumer, rep');
    DropPrefix(Prefix(run), ("cc" + d) + ("-" + s), ("cc" + e) + ("-" + t));
    CommonTail("cc" + d, consumer, Digits(rep), "cc" + e, Digits(rep'));
    DropPrefix("cc", d, e);
    DigitsInjective(i + 1, j + 1);
    DigitsInjective(rep, rep');
  }

  lemma CommonTail(a: string, c: string, m: string, b: string, n: string)
    requires a + ("-" + (c + "-" + m)) == b + ("-" + (c + "-" + n))
    requires '-' !in m && '-' !in n
    ensures a == b && m == n
  {
    var x, y := a + ("-" + c), b + ("-" + c);
    assert x + "-" + m == a + ("-" + (c + "-" + m));
    assert y + "-" + n == b + ("-" + (c + "-" + n));
    LastHyphen(x, m, y, n);
    assert |a| == |b|;
    assert a == x[..|a|] && b == y[..|b|];
  }
}
