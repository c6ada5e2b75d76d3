/** Decoding a user's location (section 8.21 of 3GPP TS 29.274) and printing it as text. */
module UserLocation {
  import opened Common
  import opened DecimalText
  import opened NetworkCodes

  type Octet = x: int | 0 <= x < 256

  /** A number without its last digit; nothing is left of a single digit. */
  function Tens(n: nat): string {
    if n < 10 then "" else Dec(n / 10)
  }

  lemma ValOfTens(n: nat)
    ensures Val(Tens(n)) == n / 10 && '-' !in Tens(n)
  {
    ValOfDec(n / 10);
  }

  // ----- Dashes

  function Joined(pieces: seq<string>): string
    requires pieces != []
  {
    if |pieces| == 1 then pieces[0] else pieces[0] + "-" + Joined(pieces[1..])
  }

  function Split(s: string): (pieces: seq<string>)
    ensures pieces != []
  {
    if s == "" then [""]
    else if s[0] == '-' then [""] + Split(s[1..])
    else var rest := Split(s[1..]); [[s[0]] + rest[0]] + rest[1..]
  }

  lemma {:induction false} SplitPiece(p: string, rest: string)
    requires '-' !in p
    ensures Split(p) == [p]
    ensures Split(p + "-" + rest) == [p] + Split(rest)
  {
    if p == "" {
      assert (p + "-" + rest)[1..] == rest;
    } else {
      SplitPiece(p[1..], rest);
      assert (p + "-" + rest)[1..] == p[1..] + "-" + rest;
      assert p == [p[0]] + p[1..];
    }
  }

  lemma {:induction false} SplitJoined(pieces: seq<string>)
    requires pieces != [] && forall p | p in pieces :: '-' !in p
    ensures Split(Joined(pieces)) == pieces
  {
    if |pieces| == 1 {
      SplitPiece(pieces[0], "");
    } else {
      SplitJoined(pieces[1..]);
      SplitPiece(pieces[0], Joined(pieces[1..]));
    }
  }

  // ----- Octets

  /** Low nibble first; the high nibble of the second octet, the third digit of the network code, is
      not used. */
  function PlmnAt(d: seq<Octet>, at: nat): Plmn
    requires at + 3 <= |d|
    ensures Nibbles(PlmnAt(d, at))
  {
    Plmn(d[at] % 16, d[at] / 16, d[at + 1] % 16, d[at + 2] % 16, d[at + 2] / 16)
  }

  function WordAt(d: seq<Octet>, at: nat): nat
    requires at + 2 <= |d|
  {
    d[at] as int * 256 + d[at + 1]
  }

  /** The upper 20 bits of a 28-bit cell identity; the four bits before them are spare. */
  function StationAt(d: seq<Octet>, at: nat): nat
    requires at + 3 <= |d|
  {
    d[at] as int % 16 * 65536 + d[at + 1] as int * 256 + d[at + 2]
  }

  function PlmnText(p: Plmn): string {
    MccText(p) + "-" + MncText(p)
  }

  // ----- Printing

  /** The last digit of the cell is set apart as its sector. */
  function CgiText(p: Plmn, lac: nat, ci: nat): string {
    Joined([MccText(p), MncText(p), Dec(lac), Tens(ci), Dec(ci % 10)])
  }

  function PairText(p: Plmn, a: nat, b: nat): string {
    Joined([MccText(p), MncText(p), Dec(a), Dec(b)])
  }

  function TaiText(p: Plmn, tac: nat): string {
    Joined([MccText(p), MncText(p), Dec(tac)])
  }

  lemma JoinedFirst(p: string, rest: seq<string>)
    requires rest != []
    ensures Joined([p] + rest) == p + "-" + Joined(rest)
  {
    assert ([p] + rest)[1..] == rest;
  }

  lemma JoinedThree(a: string, b: string, c: string)
    ensures Joined([a, b, c]) == (a + "-" + b) + "-" + c
  {
    JoinedFirst(b, [c]);
    JoinedFirst(a, [b, c]);
    assert [a] + [b, c] == [a, b, c] && [b] + [c] == [b, c];
    assert a + "-" + (b + "-" + c) == (a + "-" + b) + "-" + c;
  }

  lemma JoinedFour(a: string, b: string, c: string, d: string)
    ensures Joined([a, b, c, d]) == (a + "-" + b) + "-" + (c + "-" + d)
  {
    JoinedThree(b, c, d);
    JoinedFirst(a, [b, c, d]);
    assert [a] + [b, c, d] == [a, b, c, d];
    hide Joined;
    assert a + "-" + ((b + "-" + c) + "-" + d) == (a + "-" + b) + "-" + (c + "-" + d);
  }

  lemma JoinedFive(a: string, b: string, c: string, d: string, e: string)
    ensures Joined([a, b, c, d, e]) == (a + "-" + b) + "-" + (c + "-" + d) + "-" + e
  {
    JoinedFour(b, c, d, e);
    JoinedFirst(a, [b, c, d, e]);
    assert [a] + [b, c, d, e] == [a, b, c, d, e];
    hide Joined;
    assert a + "-" + ((b + "-" + c) + "-" + (d + "-" + e)) == (a + "-" + b) + "-" + (c + "-" + d) + "-" + e;
  }

  lemma FormatsJoin(p: Plmn, a: nat, b: nat)
    ensures CgiText(p, a, b) == PlmnText(p) + "-" + (Dec(a) + "-" + Tens(b)) + "-" + Dec(b % 10)
    ensures PairText(p, a, b) == PlmnText(p) + "-" + (Dec(a) + "-" + Dec(b))
    ensures TaiText(p, a) == PlmnText(p) + "-" + Dec(a)
  {
    hide Joined, MccText, MncText, Dec, Tens;
    JoinedFive(MccText(p), MncText(p), Dec(a), Tens(b), Dec(b % 10));
    JoinedFour(MccText(p), MncText(p), Dec(a), Dec(b));
    JoinedThree(MccText(p), MncText(p), Dec(a));
  }

  /** Prints the cell, then overwrites its last character with a dash and appends it again. */
  method FormatCgi(plmn: string, lac: nat, ci: nat, ghost p: Plmn) returns (value: string)
    requires plmn == PlmnText(p)
    ensures value == CgiText(p, lac, ci)
  {
    var text := Dec(lac) + "-" + Dec(ci);
    ValOfDec(ci);
    var sector := [text[|text| - 1]];
    value := plmn;
    value := value + "-";
    value := value + text;
    value := value[|value| - 1 := '-'];
    value := value + sector;
    assert Dec(ci) == Tens(ci) + Dec(ci % 10);
    assert value == plmn + "-" + (Dec(lac) + "-" + Tens(ci)) + "-" + Dec(ci % 10);
    FormatsJoin(p, lac, ci);
  }

  method FormatPair(plmn: string, a: nat, b: nat, ghost p: Plmn) returns (value: string)
    requires plmn == PlmnText(p)
    ensures value == PairText(p, a, b)
  {
    value := plmn;
    value := value + "-";
    value := value + (Dec(a) + "-" + Dec(b));
    FormatsJoin(p, a, b);
  }

  method FormatTai(plmn: string, tac: nat, ghost p: Plmn) returns (value: string)
    requires plmn == PlmnText(p)
    ensures value == TaiText(p, tac)
  {
    value := plmn;
    value := value + "-";
    value := value + Dec(tac);
    FormatsJoin(p, tac, 0);
  }

  // ----- The decoder

  const CGI := 0
  const SAI := 1
  const RAI := 2
  const TAI := 128
  const ECGI := 129
  const TAI_ECGI := 130

  datatype Location = Location(cgi: Field, rai: Field, tai: Field, ecgi: Field)

  const KINDS := {CGI, SAI, RAI, TAI, ECGI, TAI_ECGI}

  /** The octets of each known kind, after the one that names it. */
  function SizeOf(kind: Octet): nat {
    if kind == TAI then 5 else if kind == TAI_ECGI then 12 else 7
  }

  /** An unknown kind, or a known one that is either complete or refused as too short. */
  predicate Decodable(d: seq<Octet>) {
    d != [] && (d[0] in KINDS ==> |d| < SizeOf(d[0]) || Exact(d))
  }

  predicate Exact(d: seq<Octet>) {
    d != [] && (d[0] in KINDS ==> |d| == SizeOf(d[0]) + 1)
  }

  const TOO_SHORT := -1
  const UNKNOWN_KIND := -2

  /** The text of each part; a combined location is printed with its first network code throughout. */
  function Texts(d: seq<Octet>, was: Location): Location
    requires Exact(d)
  {
    if d[0] == CGI then
      was.(cgi := NonNull(CgiText(PlmnAt(d, 1), WordAt(d, 4), WordAt(d, 6))))
    else if d[0] == RAI then
      was.(rai := NonNull(PairText(PlmnAt(d, 1), WordAt(d, 4), d[6])))
    else if d[0] == TAI then
      was.(tai := NonNull(TaiText(PlmnAt(d, 1), WordAt(d, 4))))
    else if d[0] == ECGI then
      was.(ecgi := NonNull(PairText(PlmnAt(d, 1), StationAt(d, 4), d[7])))
    else if d[0] == TAI_ECGI then
      was.(tai := NonNull(TaiText(PlmnAt(d, 1), WordAt(d, 4))),
           ecgi := NonNull(PairText(PlmnAt(d, 1), StationAt(d, 9), d[12])))
    else was
  }

  method ParseUserLocation(d: seq<Octet>, was: Location) returns (code: int, loc: Location)
    requires Decodable(d)
    ensures if d[0] !in {0, 1, 2, 128, 129, 130} then code == -2 && loc == was
            else if |d| < (if d[0] == 128 then 5 else if d[0] == 130 then 12 else 7) then code == -1 && loc == was
            else code == 0 && Prints(d, was, loc)
    ensures code == 0 ==> loc == Texts(d, was)
  {
    hide CgiText, PairText, TaiText, PlmnText, PlmnAt, WordAt, StationAt, Prints;
    loc := was;
    if d[0] !in {CGI, SAI, RAI, TAI, ECGI, TAI_ECGI} {
      return UNKNOWN_KIND, loc;
    }
    if |d| < SizeOf(d[0]) {
      return TOO_SHORT, loc;
    }
    code := 0;
    ghost var p := PlmnAt(d, 1);
    var plmn := PlmnText(PlmnAt(d, 1));
    var text;
    if d[0] == CGI {
      text := FormatCgi(plmn, WordAt(d, 4), WordAt(d, 6), p);
      loc := loc.(cgi := NonNull(text));
    } else if d[0] == RAI {
      text := FormatPair(plmn, WordAt(d, 4), d[6], p);
      loc := loc.(rai := NonNull(text));
    } else if d[0] == TAI {
      text := FormatTai(plmn, WordAt(d, 4), p);
      loc := loc.(tai := NonNull(text));
    } else if d[0] == ECGI {
      text := FormatPair(plmn, StationAt(d, 4), d[7], p);
      loc := loc.(ecgi := NonNull(text));
    } else if d[0] == TAI_ECGI {
      text := FormatTai(plmn, WordAt(d, 4), p);
      loc := loc.(tai := NonNull(text));
      text := FormatPair(plmn, StationAt(d, 9), d[12], p);
      loc := loc.(ecgi := NonNull(text));
    }
    TextsSayTheOctets(d, was);
  }

  // ----- Reading back

  function Digits(s: string): seq<int> {
    seq(|s|, k requires 0 <= k < |s| => s[k] as int - '0' as int)
  }

  function Values(pieces: seq<string>): seq<int> {
    seq(|pieces|, k requires 0 <= k < |pieces| => Val(pieces[k]))
  }

  /** The country, the network and the numbers that follow them in a printed location. */
  function Read(s: string): Option<(string, string, seq<int>)> {
    var pieces := Split(s);
    if |pieces| < 2 then None else Some((pieces[0], pieces[1], Values(pieces[2..])))
  }

  lemma CodesHaveNoDash(p: Plmn)
    ensures '-' !in MccText(p) && '-' !in MncText(p)
  {
    ValOfDec(p.mcc1);
    ValOfDec(p.mcc2);
    ValOfDec(p.mcc3);
    ValOfDec(p.mnc1);
    ValOfDec(p.mnc2);
  }

  /** A decimal code's digits can be read off its text. */
  lemma DecimalDigits(p: Plmn)
    requires Decimal(p)
    ensures Digits(MccText(p)) == [p.mcc1, p.mcc2, p.mcc3] && Digits(MncText(p)) == [p.mnc1, p.mnc2]
  {
  }

  /** A printed location reads back as the texts of its codes and the numbers printed. */
  lemma ReadPrinted(p: Plmn, numbers: seq<string>)
    requires forall n | n in numbers :: '-' !in n
    ensures Read(Joined([MccText(p), MncText(p)] + numbers)) == Some((MccText(p), MncText(p), Values(numbers)))
  {
    CodesHaveNoDash(p);
    hide MccText, MncText;
    var pieces := [MccText(p), MncText(p)] + numbers;
    SplitJoined(pieces);
    assert pieces[2..] == numbers;
  }

  lemma CgiReadsBack(p: Plmn, lac: nat, ci: nat)
    ensures Read(CgiText(p, lac, ci)) == Some((MccText(p), MncText(p), [lac, ci / 10, ci % 10]))
    ensures Decimal(p) ==> Digits(MccText(p)) == [p.mcc1, p.mcc2, p.mcc3] && Digits(MncText(p)) == [p.mnc1, p.mnc2]
  {
    var numbers := [Dec(lac), Tens(ci), Dec(ci % 10)];
    ValOfDec(lac);
    ValOfTens(ci);
    ValOfDec(ci % 10);
    ReadPrinted(p, numbers);
    if Decimal(p) {
      DecimalDigits(p);
    }
    assert [MccText(p), MncText(p)] + numbers == [MccText(p), MncText(p), Dec(lac), Tens(ci), Dec(ci % 10)];
    assert Values(numbers) == [lac, ci / 10, ci % 10];
    hide MccText, MncText, Dec, Tens, Read;
  }

  lemma PairReadsBack(p: Plmn, a: nat, b: nat)
    ensures Read(PairText(p, a, b)) == Some((MccText(p), MncText(p), [a, b]))
    ensures Decimal(p) ==> Digits(MccText(p)) == [p.mcc1, p.mcc2, p.mcc3] && Digits(MncText(p)) == [p.mnc1, p.mnc2]
  {
    var numbers := [Dec(a), Dec(b)];
    ValOfDec(a);
    ValOfDec(b);
    ReadPrinted(p, numbers);
    if Decimal(p) {
      DecimalDigits(p);
    }
    assert [MccText(p), MncText(p)] + numbers == [MccText(p), MncText(p), Dec(a), Dec(b)];
    assert Values(numbers) == [a, b];
    hide MccText, MncText, Dec, Read;
  }

  lemma TaiReadsBack(p: Plmn, tac: nat)
    ensures Read(TaiText(p, tac)) == Some((MccText(p), MncText(p), [tac]))
    ensures Decimal(p) ==> Digits(MccText(p)) == [p.mcc1, p.mcc2, p.mcc3] && Digits(MncText(p)) == [p.mnc1, p.mnc2]
  {
    var numbers := [Dec(tac)];
    ValOfDec(tac);
    ReadPrinted(p, numbers);
    if Decimal(p) {
      DecimalDigits(p);
    }
    assert [MccText(p), MncText(p)] + numbers == [MccText(p), MncText(p), Dec(tac)];
    assert Values(numbers) == [tac];
    hide MccText, MncText, Dec, Read;
  }

  // ----- What is printed, octet by octet

  /** A set field whose text begins with the half-octets of octets 1 to 3 as decimal numbers: three
      for the country and two for the network, the low half of each octet first. */
  ghost predicate HasCodes(f: Field, d: seq<Octet>)
    requires |d| >= 4
  {
    && !f.isNull && Read(f.v).Some?
    && Read(f.v).value.0 == Dec(d[1] % 16) + Dec(d[1] / 16) + Dec(d[2] % 16)
    && Read(f.v).value.1 == Dec(d[3] % 16) + Dec(d[3] / 16)
  }

  /** The numbers after the codes. */
  function NumbersIn(f: Field): seq<int> {
    match Read(f.v)
    case None => []
    case Some((_, _, numbers)) => numbers
  }

  ghost predicate PrintsCgi(d: seq<Octet>, f: Field)
    requires |d| == 8
  {
    var n := NumbersIn(f);
    && HasCodes(f, d) && |n| == 3
    && n[0] / 256 == d[4] && n[0] % 256 == d[5]
    && (10 * n[1] + n[2]) / 256 == d[6] && (10 * n[1] + n[2]) % 256 == d[7] && 0 <= n[2] < 10
  }

  ghost predicate PrintsRai(d: seq<Octet>, f: Field)
    requires |d| == 8
  {
    var n := NumbersIn(f);
    HasCodes(f, d) && |n| == 2 && n[0] / 256 == d[4] && n[0] % 256 == d[5] && n[1] == d[6]
  }

  ghost predicate PrintsTai(d: seq<Octet>, f: Field)
    requires |d| >= 6
  {
    var n := NumbersIn(f);
    HasCodes(f, d) && |n| == 1 && n[0] / 256 == d[4] && n[0] % 256 == d[5]
  }

  /** The cell, whose octets begin at `at`: twenty bits and eight. */
  ghost predicate PrintsEcgi(d: seq<Octet>, at: nat, f: Field)
    requires 4 <= at && |d| == at + 4
  {
    var n := NumbersIn(f);
    && HasCodes(f, d) && |n| == 2
    && n[0] / 65536 == d[at] % 16 && n[0] / 256 % 256 == d[at + 1] && n[0] % 256 == d[at + 2] && n[1] == d[at + 3]
  }

  /** What decoding a location does, from its octets alone: which texts it sets, and what they say. */
  ghost predicate Prints(d: seq<Octet>, was: Location, loc: Location)
    requires d != []
  {
    if d[0] == 0 then |d| == 8 && loc == was.(cgi := loc.cgi) && PrintsCgi(d, loc.cgi)
    else if d[0] == 2 then |d| == 8 && loc == was.(rai := loc.rai) && PrintsRai(d, loc.rai)
    else if d[0] == 128 then |d| == 6 && loc == was.(tai := loc.tai) && PrintsTai(d, loc.tai)
    else if d[0] == 129 then |d| == 8 && loc == was.(ecgi := loc.ecgi) && PrintsEcgi(d, 4, loc.ecgi)
    else if d[0] == 130 then
      |d| == 13 && loc == was.(tai := loc.tai, ecgi := loc.ecgi) && PrintsTai(d, loc.tai) && PrintsEcgi(d, 9, loc.ecgi)
    else loc == was
  }

  lemma WordOctets(d: seq<Octet>, at: nat)
    requires at + 2 <= |d|
    ensures WordAt(d, at) / 256 == d[at] && WordAt(d, at) % 256 == d[at + 1]
  {
  }

  lemma StationOctets(d: seq<Octet>, at: nat)
    requires at + 3 <= |d|
    ensures var n := StationAt(d, at); n / 65536 == d[at] % 16 && n / 256 % 256 == d[at + 1] && n % 256 == d[at + 2]
  {
    var n := StationAt(d, at);
    assert n / 256 == (d[at] as int) % 16 * 256 + d[at + 1];
  }

  lemma CodeOctets(d: seq<Octet>)
    requires |d| >= 4
    ensures MccText(PlmnAt(d, 1)) == Dec(d[1] % 16) + Dec(d[1] / 16) + Dec(d[2] % 16)
    ensures MncText(PlmnAt(d, 1)) == Dec(d[3] % 16) + Dec(d[3] / 16)
  {
    hide Dec;
  }

  lemma CgiOctets(d: seq<Octet>)
    requires |d| == 8
    ensures PrintsCgi(d, NonNull(CgiText(PlmnAt(d, 1), WordAt(d, 4), WordAt(d, 6))))
  {
    CodeOctets(d);
    WordOctets(d, 4);
    WordOctets(d, 6);
    CgiReadsBack(PlmnAt(d, 1), WordAt(d, 4), WordAt(d, 6));
    hide CgiText, MccText, MncText, PlmnAt, WordAt, Dec, Read;
  }

  lemma RaiOctets(d: seq<Octet>)
    requires |d| == 8
    ensures PrintsRai(d, NonNull(PairText(PlmnAt(d, 1), WordAt(d, 4), d[6])))
  {
    CodeOctets(d);
    WordOctets(d, 4);
    PairReadsBack(PlmnAt(d, 1), WordAt(d, 4), d[6]);
    hide PairText, MccText, MncText, PlmnAt, WordAt, Dec, Read;
  }

  lemma TaiOctets(d: seq<Octet>)
    requires |d| >= 6
    ensures PrintsTai(d, NonNull(TaiText(PlmnAt(d, 1), WordAt(d, 4))))
  {
    CodeOctets(d);
    WordOctets(d, 4);
    TaiReadsBack(PlmnAt(d, 1), WordAt(d, 4));
    hide TaiText, MccText, MncText, PlmnAt, WordAt, Dec, Read;
  }

  lemma EcgiOctets(d: seq<Octet>, at: nat)
    requires 4 <= at && |d| == at + 4
    ensures PrintsEcgi(d, at, NonNull(PairText(PlmnAt(d, 1), StationAt(d, at), d[at + 3])))
  {
    CodeOctets(d);
    StationOctets(d, at);
    PairReadsBack(PlmnAt(d, 1), StationAt(d, at), d[at + 3]);
    hide PairText, MccText, MncText, PlmnAt, StationAt, Dec, Read;
  }

  /** Every complete location is printed as its octets say. */
  lemma TextsSayTheOctets(d: seq<Octet>, was: Location)
    requires Exact(d)
    ensures Prints(d, was, Texts(d, was))
  {
    hide CgiText, PairText, TaiText, PlmnAt, WordAt, StationAt, PrintsCgi, PrintsRai, PrintsTai, PrintsEcgi;
    if d[0] == 0 {
      CgiOctets(d);
    } else if d[0] == 2 {
      RaiOctets(d);
    } else if d[0] == 128 {
      TaiOctets(d);
    } else if d[0] == 129 {
      EcgiOctets(d, 4);
    } else if d[0] == 130 {
      TaiOctets(d);
      EcgiOctets(d, 9);
    }
  }

  /** Decimal codes can be read off their texts digit by digit. */
  lemma DecimalCodes(d: seq<Octet>, f: Field)
    requires |d| >= 4 && HasCodes(f, d)
    requires d[1] % 16 < 10 && d[1] / 16 < 10 && d[2] % 16 < 10 && d[3] % 16 < 10 && d[3] / 16 < 10
    ensures Digits(Read(f.v).value.0) == [d[1] % 16, d[1] / 16, d[2] % 16]
    ensures Digits(Read(f.v).value.1) == [d[3] % 16, d[3] / 16]
  {
    hide Read;
  }

  const SAMPLE := Plmn(2, 5, 0, 0, 1)

  lemma SampleCodes()
    ensures PlmnText(SAMPLE) == "250-01"
  {
  }

  lemma SampleNumbers()
    ensures Dec(1) == "1" && Dec(3) == "3" && Dec(7) == "7" && Dec(9) == "9" && Tens(123) == "12"
  {
    assert Dec(12) == Dec(1) + "2";
  }

  lemma SampleCgi()
    ensures CgiText(SAMPLE, 7, 123) == "250-01-7-12-3"
  {
    hide Dec, Tens, CgiText, PlmnText;
    FormatsJoin(SAMPLE, 7, 123);
    SampleCodes();
    SampleNumbers();
  }

  lemma SamplePairs()
    ensures PairText(SAMPLE, 7, 9) == "250-01-7-9" && PairText(SAMPLE, 3, 9) == "250-01-3-9"
    ensures TaiText(SAMPLE, 1) == "250-01-1"
  {
    hide Dec, Tens, PairText, TaiText, PlmnText;
    FormatsJoin(SAMPLE, 7, 9);
    FormatsJoin(SAMPLE, 3, 9);
    FormatsJoin(SAMPLE, 1, 0);
    SampleCodes();
    SampleNumbers();
  }

  /** Some locations of network 250-01. */
  lemma Samples(was: Location)
    ensures Texts([0, 0x52, 0xF0, 0x10, 0, 7, 0, 123], was) == was.(cgi := NonNull("250-01-7-12-3"))
    ensures Texts([2, 0x52, 0xF0, 0x10, 0, 7, 9, 0xFF], was) == was.(rai := NonNull("250-01-7-9"))
    ensures Texts([128, 0x52, 0xF0, 0x10, 0, 1], was) == was.(tai := NonNull("250-01-1"))
    ensures Texts([129, 0x52, 0xF0, 0x10, 0, 0, 3, 9], was) == was.(ecgi := NonNull("250-01-3-9"))
  {
    SampleCgi();
    SamplePairs();
    hide CgiText, PairText, TaiText;
  }

  // ----- What printing keeps

  /** The codes in two locations are printed alike. */
  predicate SameCodes(d: seq<Octet>, e: seq<Octet>)
    requires |d| >= 4 && |e| >= 4
  {
    SameCode(PlmnAt(d, 1), PlmnAt(e, 1))
  }

  /** What the text of a location depends on, octet by octet: the codes up to their twins, and all
      else but the third network digit, the spare bits, the padding octet and a combined location's
      second network code. */
  predicate SameKept(d: seq<Octet>, e: seq<Octet>)
    requires Exact(d) && Exact(e) && d[0] == e[0]
  {
    if d[0] == CGI then
      SameCodes(d, e) && d[4] == e[4] && d[5] == e[5] && d[6] == e[6] && d[7] == e[7]
    else if d[0] == RAI then
      SameCodes(d, e) && d[4] == e[4] && d[5] == e[5] && d[6] == e[6]
    else if d[0] == TAI then
      SameCodes(d, e) && d[4] == e[4] && d[5] == e[5]
    else if d[0] == ECGI then
      SameCodes(d, e) && d[4] % 16 == e[4] % 16 && d[5] == e[5] && d[6] == e[6] && d[7] == e[7]
    else if d[0] == TAI_ECGI then
      && SameCodes(d, e) && d[4] == e[4] && d[5] == e[5]
      && d[9] % 16 == e[9] % 16 && d[10] == e[10] && d[11] == e[11] && d[12] == e[12]
    else true
  }

  lemma SameWord(d: seq<Octet>, e: seq<Octet>, at: nat)
    requires at + 2 <= |d| && at + 2 <= |e|
    ensures WordAt(d, at) == WordAt(e, at) <==> d[at] == e[at] && d[at + 1] == e[at + 1]
  {
  }

  lemma SameStation(d: seq<Octet>, e: seq<Octet>, at: nat)
    requires at + 3 <= |d| && at + 3 <= |e|
    ensures StationAt(d, at) == StationAt(e, at) <==>
            d[at] % 16 == e[at] % 16 && d[at + 1] == e[at + 1] && d[at + 2] == e[at + 2]
  {
  }

  lemma SameTexts(p: Plmn, q: Plmn)
    requires Nibbles(p) && Nibbles(q)
    ensures SameCode(p, q) <==> MccText(p) == MccText(q) && MncText(p) == MncText(q)
  {
    MccAlikeIff(p, q);
    MncAlikeIff(p, q);
    hide MccText, MncText;
  }

  /** Two codes are printed alike if and only if they are the same or twins in each part. */
  lemma CodesAlikeIff(p: Plmn, q: Plmn)
    requires Nibbles(p) && Nibbles(q)
    ensures PlmnText(p) == PlmnText(q) <==> SameCode(p, q)
  {
    CodesHaveNoDash(p);
    CodesHaveNoDash(q);
    SplitPiece(MccText(p), MncText(p));
    SplitPiece(MccText(q), MncText(q));
    SplitPiece(MncText(p), "");
    SplitPiece(MncText(q), "");
    SameTexts(p, q);
    hide MccText, MncText, SameCode, Split;
    assert PlmnText(p) == PlmnText(q) ==>
           ([MccText(p)] + [MncText(p)])[0] == ([MccText(q)] + [MncText(q)])[0]
           && ([MccText(p)] + [MncText(p)])[1] == ([MccText(q)] + [MncText(q)])[1];
  }

  lemma SameCgi(p: Plmn, lac: nat, ci: nat, p': Plmn, lac': nat, ci': nat)
    requires Nibbles(p) && Nibbles(p')
    ensures CgiText(p, lac, ci) == CgiText(p', lac', ci') <==> SameCode(p, p') && lac == lac' && ci == ci'
  {
    CgiReadsBack(p, lac, ci);
    CgiReadsBack(p', lac', ci');
    SameTexts(p, p');
    hide Read, MccText, MncText, SameCode, Dec, Tens, Joined;
    var a, b := [lac, ci / 10, ci % 10], [lac', ci' / 10, ci' % 10];
    assert a[0] == lac && a[1] == ci / 10 && a[2] == ci % 10 && b[0] == lac' && b[1] == ci' / 10 && b[2] == ci' % 10;
  }

  lemma SamePair(p: Plmn, a: nat, b: nat, p': Plmn, a': nat, b': nat)
    requires Nibbles(p) && Nibbles(p')
    ensures PairText(p, a, b) == PairText(p', a', b') <==> SameCode(p, p') && a == a' && b == b'
  {
    PairReadsBack(p, a, b);
    PairReadsBack(p', a', b');
    SameTexts(p, p');
    hide Read, MccText, MncText, SameCode, Dec, Joined;
    assert [a, b][0] == a && [a, b][1] == b && [a', b'][0] == a' && [a', b'][1] == b';
  }

  lemma SameTai(p: Plmn, t: nat, p': Plmn, t': nat)
    requires Nibbles(p) && Nibbles(p')
    ensures TaiText(p, t) == TaiText(p', t') <==> SameCode(p, p') && t == t'
  {
    TaiReadsBack(p, t);
    TaiReadsBack(p', t');
    SameTexts(p, p');
    hide Read, MccText, MncText, SameCode, Dec, Joined;
    assert [t][0] == t && [t'][0] == t';
  }

  /** Two locations of one kind are printed alike if and only if they agree on everything that is
      kept: whatever their codes. */
  lemma PrintedAlikeIff(d: seq<Octet>, e: seq<Octet>, was: Location)
    requires Exact(d) && Exact(e) && d[0] == e[0]
    ensures Texts(d, was) == Texts(e, was) <==> SameKept(d, e)
  {
    hide CgiText, PairText, TaiText, PlmnAt, WordAt, StationAt, SameCode, Nibbles;
    if d[0] in {CGI, RAI, TAI, ECGI, TAI_ECGI} {
      var p, p' := PlmnAt(d, 1), PlmnAt(e, 1);
      SameWord(d, e, 4);
      if d[0] == CGI {
        SameWord(d, e, 6);
        SameCgi(p, WordAt(d, 4), WordAt(d, 6), p', WordAt(e, 4), WordAt(e, 6));
      } else if d[0] == RAI {
        SamePair(p, WordAt(d, 4), d[6], p', WordAt(e, 4), e[6]);
      } else if d[0] == ECGI {
        SameStation(d, e, 4);
        SamePair(p, StationAt(d, 4), d[7], p', StationAt(e, 4), e[7]);
      } else {
        SameTai(p, WordAt(d, 4), p', WordAt(e, 4));
        if d[0] == TAI_ECGI {
          SameStation(d, e, 9);
          SamePair(p, StationAt(d, 9), d[12], p', StationAt(e, 9), e[12]);
        }
      }
    }
  }

  /** Decimal codes, and all that are not ambiguous, are printed alike only if they are the same,
      octet by octet, but for the third network digit. */
  lemma UnambiguousCodesAreKept(d: seq<Octet>, e: seq<Octet>)
    requires |d| >= 4 && |e| >= 4
    requires !AmbiguousMcc(PlmnAt(d, 1)) && !AmbiguousMnc(PlmnAt(d, 1))
    ensures SameCodes(d, e) <==> d[1] == e[1] && d[2] % 16 == e[2] % 16 && d[3] == e[3]
    ensures Decimal(PlmnAt(d, 1)) ==> !AmbiguousMcc(PlmnAt(d, 1)) && !AmbiguousMnc(PlmnAt(d, 1))
  {
    var p, q := PlmnAt(d, 1), PlmnAt(e, 1);
    assert p == q <==> d[1] == e[1] && d[2] % 16 == e[2] % 16 && d[3] == e[3];
    hide PlmnAt;
    if SameCode(p, q) {
      SameTexts(p, q);
      AmbiguousIff(p);
      hide MccText, MncText, SameCode, AmbiguousMcc, AmbiguousMnc;
    }
  }

  /** Two locations whose country codes are twins. */
  lemma NonDecimalCodesCollide()
    ensures var d, e := [128, 0xB1, 0x01, 0x00, 0, 1], [128, 0x1B, 0x01, 0x00, 0, 1];
            && Exact(d) && Exact(e) && d != e && AmbiguousMcc(PlmnAt(d, 1))
            && forall was :: Texts(d, was) == Texts(e, was)
  {
    var d: seq<Octet>, e: seq<Octet> := [128, 0xB1, 0x01, 0x00, 0, 1], [128, 0x1B, 0x01, 0x00, 0, 1];
    var p, q := Plmn(1, 11, 1, 0, 0), Plmn(11, 1, 1, 0, 0);
    assert PlmnAt(d, 1) == p && PlmnAt(e, 1) == q;
    assert d[1] != e[1];
    forall was ensures Texts(d, was) == Texts(e, was) {
      PrintedAlikeIff(d, e, was);
    }
  }

  /** A combined location's cell is printed as its own network's if and only if the network of its
      tracking area is printed alike. */
  lemma CombinedCellIff(d: seq<Octet>, was: Location)
    requires Exact(d) && d[0] == TAI_ECGI
    ensures Texts(d, was).ecgi == NonNull(PairText(PlmnAt(d, 6), StationAt(d, 9), d[12])) <==>
            SameCode(PlmnAt(d, 1), PlmnAt(d, 6))
  {
    hide CgiText, PairText, TaiText, PlmnAt, WordAt, StationAt, SameCode, Nibbles;
    SamePair(PlmnAt(d, 1), StationAt(d, 9), d[12], PlmnAt(d, 6), StationAt(d, 9), d[12]);
  }

  /** A cell of network 001-01 at the border of network 002-01 is printed as one of the latter. */
  lemma BorderCellIsMisprinted(was: Location)
    ensures var d := [130, 0x00, 0x02, 0x10, 0, 7, 0x00, 0x01, 0x10, 0, 0, 3, 9];
            && Exact(d) && PlmnAt(d, 6) == Plmn(0, 0, 1, 0, 1)
            && Texts(d, was).ecgi != NonNull(PairText(PlmnAt(d, 6), StationAt(d, 9), d[12]))
            && Texts(d, was).ecgi == NonNull(PairText(Plmn(0, 0, 2, 0, 1), StationAt(d, 9), d[12]))
  {
    var d: seq<Octet> := [130, 0x00, 0x02, 0x10, 0, 7, 0x00, 0x01, 0x10, 0, 0, 3, 9];
    assert PlmnAt(d, 1) == Plmn(0, 0, 2, 0, 1) && PlmnAt(d, 6) == Plmn(0, 0, 1, 0, 1);
    CombinedCellIff(d, was);
    hide PairText, TaiText, PlmnAt;
  }
}
