/** ethers' `formatEther`: an amount of wei written as a decimal number of ether. */
module Ether {
  import opened Js

  const WEI_PER_ETHER: nat := 1_000_000_000_000_000_000
  const ETHER_DECIMALS: nat := 18

  /** `s` with zeros in front up to `width` characters. */
  function PadZeros(s: string, width: nat): (r: string)
    ensures |r| == if |s| < width then width else |s|
    ensures r[|r| - |s|..] == s
    ensures forall i | 0 <= i < |r| - |s| :: r[i] == '0'
  {
    if |s| >= width then s
    else
      var r := Zeros(width - |s|) + s;
      assert r[|r| - |s|..] == s;
      r
  }

  /** `k` zeros. */
  function Zeros(k: nat): (z: string)
    ensures |z| == k && forall i | 0 <= i < k :: z[i] == '0'
  {
    if k == 0 then "" else Zeros(k - 1) + "0"
  }

  /** `s` without its trailing zeros, keeping at least its first digit. */
  function TrimTrailingZeros(s: string): (r: string)
    requires |s| > 0
    ensures 0 < |r| <= |s| && r == s[..|r|]
    ensures |r| > 1 ==> r[|r| - 1] != '0'
    ensures forall i | |r| <= i < |s| :: s[i] == '0'
  {
    if |s| > 1 && s[|s| - 1] == '0' then TrimTrailingZeros(s[..|s| - 1]) else s
  }

  /** The digits after the point: eighteen places, trailing zeros dropped
      down to one digit. */
  function Fraction(wei: nat): (f: string)
    requires wei < WEI_PER_ETHER
  {
    TrimTrailingZeros(PadZeros(NatToString(wei), ETHER_DECIMALS))
  }

  /** `formatEther(wei)`: whole ether, a point, then the fraction. */
  function FormatEther(wei: nat): string {
    NatToString(wei / WEI_PER_ETHER) + "." + Fraction(wei % WEI_PER_ETHER)
  }

  /** A whole number of ether is written with a single zero after the point. */
  lemma FormatWholeEther(wei: nat)
    requires wei % WEI_PER_ETHER == 0
    ensures FormatEther(wei) == NatToString(wei / WEI_PER_ETHER) + ".0"
  {
    var pad := PadZeros(NatToString(0), ETHER_DECIMALS);
    assert forall i | 0 <= i < |pad| :: pad[i] == '0';
    assert Fraction(0) == "0";
  }

  /** The fraction never ends in a zero unless it is the single digit 0,
      and it is the single digit 0 exactly for a whole number of ether. */
  lemma FractionShape(wei: nat)
    requires wei < WEI_PER_ETHER
    ensures |Fraction(wei)| > 0
    ensures Fraction(wei) == "0" <==> wei == 0
    ensures |Fraction(wei)| > 1 ==> Fraction(wei)[|Fraction(wei)| - 1] != '0'
  {
    var d := NatToString(wei);
    var pad := PadZeros(d, ETHER_DECIMALS);
    if wei == 0 {
      assert forall i | 0 <= i < |pad| :: pad[i] == '0';
    }
    ZeroFractionOnlyForZero(wei);
  }

  /** Only no wei at all has the fraction 0. */
  lemma ZeroFractionOnlyForZero(wei: nat)
    requires wei < WEI_PER_ETHER
    ensures Fraction(wei) == "0" ==> wei == 0
  {
    if Fraction(wei) == "0" {
      var d := NatToString(wei);
      var pad := PadZeros(d, ETHER_DECIMALS);
      AllZerosTrimmed(pad);
      assert pad[|pad| - |d|..] == d;
      assert d[0] == pad[|pad| - |d|];
      LeadingZeroNumeral(wei);
    }
  }

  /** A numeral that starts with 0 is the numeral of zero. */
  lemma LeadingZeroNumeral(n: nat)
    requires NatToString(n)[0] == '0'
    ensures n == 0
  {
    NatToStringValue(n);
    assert DigitsValue("0", 10) == 0;
  }

  /** A text that trims down to the single digit 0 is all zeros. */
  lemma AllZerosTrimmed(s: string)
    requires |s| > 0 && TrimTrailingZeros(s) == "0"
    ensures forall i | 0 <= i < |s| :: s[i] == '0'
  {
    var r := TrimTrailingZeros(s);
    assert |r| == 1 && r == s[..1];
    forall i | 0 <= i < |s|
      ensures s[i] == '0'
    {
      if i == 0 {
        assert s[0] == r[0];
      }
    }
  }
}
