/** Decimal rendering of numbers, as fmt.Sprintf("%d") does it. */
module Decimal {

  function Digit(n: nat): char
    requires n < 10
  {
    ('0' as int + n) as char
  }

  function Render(n: nat): (s: string)
    ensures s != []
  {
    if n < 10 then [Digit(n)] else Render(n / 10) + [Digit(n % 10)]
  }

  /** The number that a text of digits stands for. */
  function Value(s: string): int {
    if s == [] then 0 else 10 * Value(s[..|s| - 1]) + (s[|s| - 1] as int - '0' as int)
  }

  /** Rendering is read back, in digits and without leading zeros. */
  lemma {:induction false} RenderReadsBack(n: nat)
    ensures Value(Render(n)) == n
    ensures forall i :: 0 <= i < |Render(n)| ==> '0' <= Render(n)[i] <= '9'
    ensures n > 0 ==> Render(n)[0] != '0'
    decreases n
  {
    if n < 10 {
      assert Value([]) == 0 && [Digit(n)][..0] == [];
    } else {
      RenderReadsBack(n / 10);
      assert Render(n)[..|Render(n)| - 1] == Render(n / 10);
    }
  }

  /** Different numbers look different. */
  lemma {:induction false} RenderInjective(m: nat, n: nat)
    requires Render(m) == Render(n)
    ensures m == n
    decreases m + n
  {
    var s, t := Render(m), Render(n);
    assert s[|s| - 1] == Digit(m % 10) && t[|t| - 1] == Digit(n % 10);
    if m >= 10 && n >= 10 {
      assert s[..|s| - 1] == Render(m / 10) && t[..|t| - 1] == Render(n / 10);
      RenderInjective(m / 10, n / 10);
    }
  }
}
