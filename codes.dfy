/** The merchant-side transaction code of a QR payment
    (`Pago::generarCodigoTransaccion`): the fixed prefix `grupo16sa-` and a
    random number from 0 to 99999 left-padded with zeros to five digits. */
module TransactionCodes {
  import opened Common

  const Prefix: string := "grupo16sa-"

  /** A value `rand(0, 99999)` can return. */
  type Draw = n: nat | n <= 99999

  /** 10 to the power `k`. */
  function Pow10(k: nat): nat {
    if k == 0 then 1 else 10 * Pow10(k - 1)
  }

  /** `k` copies of `c`. */
  function Repeat(c: char, k: nat): (s: string)
    ensures |s| == k && forall i :: 0 <= i < k ==> s[i] == c
  {
    if k == 0 then [] else [c] + Repeat(c, k - 1)
  }

  /** PHP `str_pad($s, $width, $c, STR_PAD_LEFT)`. */
  function PadLeft(s: string, width: nat, c: char): (r: string)
    ensures |r| == if |s| >= width then |s| else width
    ensures r[|r| - |s|..] == s
    ensures forall i :: 0 <= i < |r| - |s| ==> r[i] == c
  {
    if |s| >= width then s else Repeat(c, width - |s|) + s
  }

  /** The code built from one draw. */
  function Code(n: Draw): string {
    Prefix + PadLeft(NatText(n), 5, '0')
  }

  /** A number below 10^k prints with at most k digits. */
  lemma {:induction false} NatTextLength(n: nat, k: nat)
    requires 1 <= k && n < Pow10(k)
    ensures |NatText(n)| <= k
  {
    if n >= 10 {
      NatTextLength(n / 10, k - 1);
    }
  }

  /** Leading zeros do not change the value of a digit string. */
  lemma {:induction false} LeadingZeros(z: nat, s: string)
    requires AllDigits(s)
    ensures AllDigits(Repeat('0', z) + s)
    ensures DigitsValue(Repeat('0', z) + s) == DigitsValue(s)
  {
    var t := Repeat('0', z) + s;
    if s == [] {
      assert t == Repeat('0', z);
      if z > 0 {
        assert t[..|t| - 1] == Repeat('0', z - 1);
        LeadingZeros(z - 1, []);
        assert Repeat('0', z - 1) + [] == Repeat('0', z - 1);
      }
    } else {
      assert t[..|t| - 1] == Repeat('0', z) + s[..|s| - 1];
      LeadingZeros(z, s[..|s| - 1]);
    }
  }

  /** The number a well-formed code carries, if `s` is one. */
  function ParseCode(s: string): Option<nat> {
    if |s| == |Prefix| + 5 && s[..|Prefix|] == Prefix && AllDigits(s[|Prefix|..])
    then Some(DigitsValue(s[|Prefix|..]))
    else None
  }

  /** Every code is the prefix followed by exactly five digits, and reading it
      back gives the draw: distinct draws give distinct codes. */
  lemma CodeRoundTrip(n: Draw)
    ensures |Code(n)| == |Prefix| + 5 && Code(n)[..|Prefix|] == Prefix
    ensures AllDigits(Code(n)[|Prefix|..])
    ensures ParseCode(Code(n)) == Some(n)
  {
    NatTextLength(n, 5);
    var digits := NatText(n);
    var padded := PadLeft(digits, 5, '0');
    assert padded == Repeat('0', 5 - |digits|) + digits;
    LeadingZeros(5 - |digits|, digits);
    NatTextRoundTrip(n);
    assert Code(n)[|Prefix|..] == padded;
  }

  lemma CodeInjective(a: Draw, b: Draw)
    requires Code(a) == Code(b)
    ensures a == b
  {
    CodeRoundTrip(a);
    CodeRoundTrip(b);
  }

  /** What the do-while loop returns when `rand` yields `draws` in turn and
      `taken` says which codes are already stored: the first code not taken,
      or `None` when every draw collides. */
  function FirstFresh(draws: seq<Draw>, taken: set<string>): (r: Option<string>)
    ensures r.Some? ==> r.value !in taken && ParseCode(r.value).Some?
    ensures r.Some? ==> exists i | 0 <= i < |draws| :: r.value == Code(draws[i])
    ensures r.None? <==> forall i | 0 <= i < |draws| :: Code(draws[i]) in taken
  {
    if draws == [] then None
    else if Code(draws[0]) !in taken then
      CodeRoundTrip(draws[0]);
      Some(Code(draws[0]))
    else
      var r := FirstFresh(draws[1..], taken);
      assert forall i | 0 <= i < |draws[1..]| :: draws[1..][i] == draws[i + 1];
      assert r.Some? ==> exists i | 0 <= i < |draws| :: r.value == Code(draws[i]) by {
        if r.Some? {
          var i :| 0 <= i < |draws[1..]| && r.value == Code(draws[1..][i]);
          assert r.value == Code(draws[i + 1]);
        }
      }
      r
  }
}
