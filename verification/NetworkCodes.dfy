/** Mobile country and network codes as they are printed: each half-octet as a decimal number, with
    nothing in between. */
module NetworkCodes {
  import opened DecimalText

  // ----- Codes

  /** Three half-octets of the country code and two of the network code; its third is not printed. */
  datatype Plmn = Plmn(mcc1: nat, mcc2: nat, mcc3: nat, mnc1: nat, mnc2: nat)

  function MccText(p: Plmn): string {
    Dec(p.mcc1) + Dec(p.mcc2) + Dec(p.mcc3)
  }

  function MncText(p: Plmn): string {
    Dec(p.mnc1) + Dec(p.mnc2)
  }

  predicate Nibbles(p: Plmn) {
    p.mcc1 < 16 && p.mcc2 < 16 && p.mcc3 < 16 && p.mnc1 < 16 && p.mnc2 < 16
  }

  predicate Decimal(p: Plmn) {
    p.mcc1 < 10 && p.mcc2 < 10 && p.mcc3 < 10 && p.mnc1 < 10 && p.mnc2 < 10
  }

  /** The text of a half-octet: a digit, or a one and a digit up to five. */
  function NibbleText(n: nat): string
    requires n < 16
  {
    if n < 10 then ['0' + n as char] else ['1', '0' + (n - 10) as char]
  }

  lemma DecOfNibble(n: nat)
    requires n < 16
    ensures Dec(n) == NibbleText(n)
  {
    if n >= 10 {
      assert n / 10 == 1 && Dec(1) == ['1'];
    }
  }

  // ----- Which codes share a text

  /** Half-octets 11, y are printed as 1, 10 + y are. */
  predicate MncTwins(p: Plmn, q: Plmn) {
    p.mnc1 == 11 && p.mnc2 <= 5 && q.mnc1 == 1 && q.mnc2 == 10 + p.mnc2
  }

  /** The same in the first or the last two places; 10 + x, 1, z as 1, x, 10 + z; and 11, 11, z as
      1, 11, 10 + z. */
  predicate MccTwins(p: Plmn, q: Plmn) {
    || (p.mcc1 == 11 && p.mcc2 <= 5 && q.mcc1 == 1 && q.mcc2 == 10 + p.mcc2 && q.mcc3 == p.mcc3)
    || (p.mcc2 == 11 && p.mcc3 <= 5 && q.mcc2 == 1 && q.mcc3 == 10 + p.mcc3 && q.mcc1 == p.mcc1)
    || (p.mcc1 >= 10 && p.mcc2 == 1 && p.mcc3 <= 5 && q.mcc1 == 1 && q.mcc2 == p.mcc1 - 10 && q.mcc3 == 10 + p.mcc3)
    || (p.mcc1 == 11 && p.mcc2 == 11 && p.mcc3 <= 5 && q.mcc1 == 1 && q.mcc2 == 11 && q.mcc3 == 10 + p.mcc3)
  }

  predicate SameMnc(p: Plmn, q: Plmn) {
    (p.mnc1 == q.mnc1 && p.mnc2 == q.mnc2) || MncTwins(p, q) || MncTwins(q, p)
  }

  predicate SameMcc(p: Plmn, q: Plmn) {
    (p.mcc1 == q.mcc1 && p.mcc2 == q.mcc2 && p.mcc3 == q.mcc3) || MccTwins(p, q) || MccTwins(q, p)
  }

  /** The two codes are printed alike. */
  predicate SameCode(p: Plmn, q: Plmn) {
    SameMcc(p, q) && SameMnc(p, q)
  }

  /** Two network codes have one text if and only if they are equal or twins. */
  lemma MncAlikeIff(p: Plmn, q: Plmn)
    requires Nibbles(p) && Nibbles(q)
    ensures MncText(p) == MncText(q) <==> SameMnc(p, q)
  {
    DecOfNibble(p.mnc1);
    DecOfNibble(p.mnc2);
    DecOfNibble(q.mnc1);
    DecOfNibble(q.mnc2);
    hide Dec;
    var s, t := NibbleText(p.mnc1) + NibbleText(p.mnc2), NibbleText(q.mnc1) + NibbleText(q.mnc2);
    assert SameMnc(p, q) ==> s == t;
    if s == t {
      assert s[0] == t[0] && s[1] == t[1];
      assert |s| > 2 ==> s[2] == t[2];
      assert |s| > 3 ==> s[3] == t[3];
    }
  }

  /** Two country codes have one text if and only if they are equal or twins. */
  lemma MccAlikeIff(p: Plmn, q: Plmn)
    requires Nibbles(p) && Nibbles(q)
    ensures MccText(p) == MccText(q) <==> SameMcc(p, q)
  {
    MccDigits(p);
    MccDigits(q);
    hide MccText, NibbleText;
    if MccText(p) == MccText(q) {
      SameDigits(p, q);
    } else if MccTwins(p, q) {
      TwinsShareDigits(p, q);
    } else if MccTwins(q, p) {
      TwinsShareDigits(q, p);
    }
  }

  lemma TwinsShareDigits(p: Plmn, q: Plmn)
    requires Nibbles(p) && Nibbles(q) && MccTwins(p, q)
    ensures NibbleText(p.mcc1) + NibbleText(p.mcc2) + NibbleText(p.mcc3) ==
            NibbleText(q.mcc1) + NibbleText(q.mcc2) + NibbleText(q.mcc3)
  {
    var s := NibbleText(p.mcc1) + NibbleText(p.mcc2) + NibbleText(p.mcc3);
    var t := NibbleText(q.mcc1) + NibbleText(q.mcc2) + NibbleText(q.mcc3);
    assert |s| == |t| && s[0] == t[0] && s[1] == t[1] && s[2] == t[2] && s[3] == t[3];
    assert |s| > 4 ==> s[4] == t[4];
  }

  lemma MccDigits(p: Plmn)
    requires Nibbles(p)
    ensures MccText(p) == NibbleText(p.mcc1) + NibbleText(p.mcc2) + NibbleText(p.mcc3)
  {
    DecOfNibble(p.mcc1);
    DecOfNibble(p.mcc2);
    DecOfNibble(p.mcc3);
    hide Dec;
  }

  lemma SameDigits(p: Plmn, q: Plmn)
    requires Nibbles(p) && Nibbles(q)
    requires NibbleText(p.mcc1) + NibbleText(p.mcc2) + NibbleText(p.mcc3) ==
             NibbleText(q.mcc1) + NibbleText(q.mcc2) + NibbleText(q.mcc3)
    ensures SameMcc(p, q)
  {
    var s := NibbleText(p.mcc1) + NibbleText(p.mcc2) + NibbleText(p.mcc3);
    var t := NibbleText(q.mcc1) + NibbleText(q.mcc2) + NibbleText(q.mcc3);
    assert s[0] == t[0] && s[1] == t[1] && s[2] == t[2];
    assert |s| > 3 ==> s[3] == t[3];
    assert |s| > 4 ==> s[4] == t[4];
    assert |s| > 5 ==> s[5] == t[5];
  }

  // ----- Which codes are ambiguous

  predicate AmbiguousMnc(p: Plmn) {
    (p.mnc1 == 11 && p.mnc2 <= 5) || (p.mnc1 == 1 && p.mnc2 >= 10)
  }

  predicate AmbiguousMcc(p: Plmn) {
    || (p.mcc1 == 11 && p.mcc2 <= 5) || (p.mcc1 == 1 && p.mcc2 >= 10)
    || (p.mcc2 == 11 && p.mcc3 <= 5) || (p.mcc2 == 1 && p.mcc3 >= 10)
    || (p.mcc1 >= 10 && p.mcc2 == 1 && p.mcc3 <= 5) || (p.mcc1 == 1 && p.mcc2 <= 5 && p.mcc3 >= 10)
  }

  /** Another code with the text of an ambiguous one. */
  function Twin(p: Plmn): (q: Plmn)
    requires Nibbles(p) && (AmbiguousMcc(p) || AmbiguousMnc(p))
    ensures Nibbles(q) && q != p && SameCode(p, q)
  {
    if p.mnc1 == 11 && p.mnc2 <= 5 then p.(mnc1 := 1, mnc2 := 10 + p.mnc2)
    else if p.mnc1 == 1 && p.mnc2 >= 10 then p.(mnc1 := 11, mnc2 := p.mnc2 - 10)
    else if p.mcc1 == 11 && p.mcc2 <= 5 then p.(mcc1 := 1, mcc2 := 10 + p.mcc2)
    else if p.mcc1 == 1 && p.mcc2 >= 10 then p.(mcc1 := 11, mcc2 := p.mcc2 - 10)
    else if p.mcc2 == 11 && p.mcc3 <= 5 then p.(mcc2 := 1, mcc3 := 10 + p.mcc3)
    else if p.mcc2 == 1 && p.mcc3 >= 10 then p.(mcc2 := 11, mcc3 := p.mcc3 - 10)
    else if p.mcc1 >= 10 then p.(mcc1 := 1, mcc2 := p.mcc1 - 10, mcc3 := 10 + p.mcc3)
    else p.(mcc1 := 10 + p.mcc2, mcc2 := 1, mcc3 := p.mcc3 - 10)
  }

  /** The printed code fails to tell which code it is if and only if one of its two parts has one of
      these forms; a code of decimal digits never does. */
  lemma AmbiguousIff(p: Plmn)
    requires Nibbles(p)
    ensures (exists q :: Nibbles(q) && q != p && MccText(q) == MccText(p) && MncText(q) == MncText(p)) <==>
            AmbiguousMcc(p) || AmbiguousMnc(p)
    ensures Decimal(p) ==> !AmbiguousMcc(p) && !AmbiguousMnc(p)
  {
    hide MccText, MncText;
    if AmbiguousMcc(p) || AmbiguousMnc(p) {
      var q := Twin(p);
      MccAlikeIff(p, q);
      MncAlikeIff(p, q);
    } else {
      forall q | Nibbles(q) && MccText(q) == MccText(p) && MncText(q) == MncText(p) ensures q == p {
        MccAlikeIff(p, q);
        MncAlikeIff(p, q);
      }
    }
  }
}
