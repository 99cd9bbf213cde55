/** Texts: containment of one in another, and decimal numbers. */
module Texts {
  predicate Contains(s: string, part: string) {
    part <= s || (s != "" && Contains(s[1..], part))
  }

  lemma {:induction false} ContainsAt(s: string, part: string, i: nat)
    requires i <= |s| && part <= s[i..]
    ensures Contains(s, part)
  {
    if i > 0 {
      assert s[1..][i - 1..] == s[i..];
      ContainsAt(s[1..], part, i - 1);
    }
  }

  /** Containment is standing at some place. */
  lemma {:induction false} ContainsIff(s: string, part: string)
    ensures Contains(s, part) <==> exists i :: 0 <= i <= |s| && part <= s[i..]
  {
    if part <= s {
      assert part <= s[0..];
    } else if s != "" {
      ContainsIff(s[1..], part);
      if Contains(s[1..], part) {
        var i :| 0 <= i <= |s[1..]| && part <= s[1..][i..];
        assert s[1..][i..] == s[i + 1..];
      }
      forall i | 0 <= i <= |s| && part <= s[i..]
        ensures Contains(s, part)
      {
        ContainsAt(s, part, i);
      }
    }
  }

  /** A part needs its first two letters side by side. */
  lemma {:induction false} NotContained(s: string, part: string)
    requires |part| >= 2 && forall i :: 0 <= i < |s| - 1 ==> !(s[i] == part[0] && s[i + 1] == part[1])
    ensures !Contains(s, part)
  {
    if s != "" {
      assert |s| >= 2 ==> !(s[0] == part[0] && s[1] == part[1]);
      assert !(part <= s);
      NotContained(s[1..], part);
    }
  }

  predicate IsDigits(s: string) {
    forall c <- s :: '0' <= c <= '9'
  }

  /** The number that decimal digits stand for. */
  function ReadDecimal(s: string): int {
    if s == "" then 0 else 10 * ReadDecimal(s[..|s| - 1]) + (s[|s| - 1] as int - '0' as int)
  }

  /** The shortest text of digits that reads as the number. */
  function Decimal(n: nat): (r: string)
    ensures IsDigits(r) && |r| >= 1 && (n >= 10 ==> |r| >= 2)
    ensures ReadDecimal(r) == n && (n > 0 ==> r[0] != '0')
  {
    if n < 10 then [Digit(n)] else Decimal(n / 10) + [Digit(n % 10)]
  }

  function Digit(n: nat): (c: char)
    requires n < 10
    ensures '0' <= c <= '9' && c as int == '0' as int + n
  {
    '0' + n as char
  }
}
