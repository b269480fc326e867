/** IPv4 addresses as Python's `ipaddress.IPv4Address` handles them: the strict
    dotted-quad text (four decimal octets, ASCII digits only, at most three
    digits, no leading zero, at most 255), the 32-bit integer value, the text
    `str()` gives back, and `address + n`. */
module IPv4 {
  import opened PyErrors
  import opened PyStr

  /** `int(IPv4Address(...))`. */
  type Address = x: int | 0 <= x < 0x1_0000_0000

  type Octet = x: int | 0 <= x < 256

  predicate IsAsciiDigit(c: char)
  {
    '0' <= c <= '9'
  }

  predicate AllDigits(s: string)
  {
    forall i :: 0 <= i < |s| ==> IsAsciiDigit(s[i])
  }

  /** `int(s, 10)` for a text of ASCII digits. */
  function DigitsValue(s: string): nat
    requires AllDigits(s)
    decreases |s|
  {
    if |s| == 0 then 0 else DigitsValue(s[..|s| - 1]) * 10 + (s[|s| - 1] as int - '0' as int)
  }

  function DigitChar(d: int): (c: char)
    requires 0 <= d < 10
    ensures IsAsciiDigit(c) && c as int - '0' as int == d
  {
    ('0' as int + d) as char
  }

  /** `str(n)`: the decimal digits of `n`, without leading zeros. */
  function Decimal(n: nat): (s: string)
    ensures |s| >= 1 && AllDigits(s)
    ensures n >= 10 ==> s[0] != '0'
    decreases n
  {
    if n < 10 then [DigitChar(n)] else Decimal(n / 10) + [DigitChar(n % 10)]
  }

  /** A text without a leading zero, apart from "0" itself. */
  predicate Canonical(s: string)
  {
    |s| >= 1 && AllDigits(s) && (s == "0" || s[0] != '0')
  }

  lemma {:induction false} DecimalValue(n: nat)
    ensures DigitsValue(Decimal(n)) == n
    decreases n
  {
    if n >= 10 {
      DecimalValue(n / 10);
      var s := Decimal(n);
      assert s[..|s| - 1] == Decimal(n / 10);
    }
  }

  lemma {:induction false} DecimalLength(n: nat, bound: nat)
    requires n < bound && (bound == 10 || bound == 100 || bound == 1000)
    ensures |Decimal(n)| <= (if bound == 10 then 1 else if bound == 100 then 2 else 3)
    decreases n
  {
    if n >= 10 {
      DecimalLength(n / 10, bound / 10);
    }
  }

  lemma {:induction false} DecimalCanonical(n: nat)
    ensures Canonical(Decimal(n))
  {
    if n < 10 {
      assert n == 0 ==> Decimal(n) == "0";
    }
  }

  /** The value of a canonical text, written back in decimal, is that text. */
  lemma {:induction false} ValueDecimal(s: string)
    requires Canonical(s)
    ensures Decimal(DigitsValue(s)) == s
    decreases |s|
  {
    var n := DigitsValue(s);
    if |s| == 1 {
    } else {
      var init := s[..|s| - 1];
      assert init[0] == s[0];
      assert Canonical(init);
      ValueDecimal(init);
      LeadingDigitPositive(init);
      assert DigitsValue(init) >= 1;
      assert n / 10 == DigitsValue(init) && n % 10 == s[|s| - 1] as int - '0' as int;
      assert s == init + [s[|s| - 1]];
    }
  }

  lemma {:induction false} LeadingDigitPositive(s: string)
    requires AllDigits(s) && |s| >= 1 && s[0] != '0'
    ensures DigitsValue(s) >= 1
    decreases |s|
  {
    if |s| > 1 {
      var init := s[..|s| - 1];
      assert init[0] == s[0];
      LeadingDigitPositive(init);
    }
  }

  /** `_parse_octet`: one decimal field of a dotted quad. */
  function ParseOctet(s: string): (r: Result<Octet>)
    ensures r.Ok? ==> Canonical(s) && |s| <= 3 && r.value == DigitsValue(s)
  {
    if |s| == 0 then Err(AddressValueError(s))
    else if !AllDigits(s) then Err(AddressValueError(s))
    else if |s| > 3 then Err(AddressValueError(s))
    else if s != "0" && s[0] == '0' then Err(AddressValueError(s))
    else if DigitsValue(s) > 255 then Err(AddressValueError(s))
    else Ok(DigitsValue(s))
  }

  /** The address whose four bytes, most significant first, are the octets. */
  function FromOctets(o0: Octet, o1: Octet, o2: Octet, o3: Octet): Address
  {
    ((o0 * 256 + o1) * 256 + o2) * 256 + o3
  }

  /** `IPv4Address(text)`: exactly four dot-separated octets. */
  function Parse(text: string): Result<Address>
  {
    if |text| == 0 then Err(AddressValueError(text))
    else
      var parts := Split(text, '.');
      if |parts| != 4 then Err(AddressValueError(text))
      else
        match (ParseOctet(parts[0]), ParseOctet(parts[1]), ParseOctet(parts[2]), ParseOctet(parts[3]))
        case (Ok(o0), Ok(o1), Ok(o2), Ok(o3)) => Ok(FromOctets(o0, o1, o2, o3))
        case _ => Err(AddressValueError(text))
  }

  /** The four bytes of an address, most significant first. */
  function Octets(a: Address): (o: seq<Octet>)
    ensures |o| == 4
  {
    [a / 0x100_0000, (a / 0x1_0000) % 256, (a / 256) % 256, a % 256]
  }

  /** `str(IPv4Address(a))`: the octets in decimal, joined by dots. */
  function Format(a: Address): string
  {
    var o := Octets(a);
    Join([Decimal(o[0]), Decimal(o[1]), Decimal(o[2]), Decimal(o[3])], '.')
  }

  /** `IPv4Address(a) + k`, which fails outside the 32-bit range. */
  function Offset(a: Address, k: int): (r: Result<Address>)
    ensures r.Ok? <==> 0 <= a + k < 0x1_0000_0000
    ensures r.Ok? ==> r.value == a + k
  {
    if 0 <= a + k < 0x1_0000_0000 then Ok(a + k) else Err(AddressValueError(""))
  }

  lemma OctetsRoundTrip(a: Address)
    ensures FromOctets(Octets(a)[0], Octets(a)[1], Octets(a)[2], Octets(a)[3]) == a
  {
  }

  lemma FromOctetsRoundTrip(o0: Octet, o1: Octet, o2: Octet, o3: Octet)
    ensures Octets(FromOctets(o0, o1, o2, o3)) == [o0, o1, o2, o3]
  {
  }

  lemma OctetText(o: Octet)
    ensures ParseOctet(Decimal(o)) == Ok(o)
    ensures '.' !in Decimal(o)
  {
    DecimalValue(o);
    DecimalLength(o, 1000);
    DecimalCanonical(o);
    var s := Decimal(o);
    assert forall i :: 0 <= i < |s| ==> s[i] != '.';
  }

  /** The text of an address is digits and dots only. */
  lemma FormatDigits(a: Address)
    ensures forall i :: 0 <= i < |Format(a)| ==> IsAsciiDigit(Format(a)[i]) || Format(a)[i] == '.'
  {
    var o := Octets(a);
    var parts := [Decimal(o[0]), Decimal(o[1]), Decimal(o[2]), Decimal(o[3])];
    JoinChars(parts, '.');
  }

  lemma {:induction false} JoinChars(parts: seq<string>, sep: char)
    requires forall k :: 0 <= k < |parts| ==> AllDigits(parts[k])
    ensures forall i :: 0 <= i < |Join(parts, sep)| ==> IsAsciiDigit(Join(parts, sep)[i]) || Join(parts, sep)[i] == sep
    decreases |parts|
  {
    if |parts| > 1 {
      JoinChars(parts[1..], sep);
    }
  }

  /** The text of an address parses back to it. */
  lemma ParseFormat(a: Address)
    ensures Parse(Format(a)) == Ok(a)
  {
    var o := Octets(a);
    var parts := [Decimal(o[0]), Decimal(o[1]), Decimal(o[2]), Decimal(o[3])];
    OctetText(o[0]);
    OctetText(o[1]);
    OctetText(o[2]);
    OctetText(o[3]);
    assert forall i :: 0 <= i < 4 ==> '.' !in parts[i];
    SplitJoin(parts, '.');
    OctetsRoundTrip(a);
    assert |Format(a)| > 0;
  }

  /** An accepted text is the text of the address it denotes: `ipaddress` accepts
      only the canonical spelling. */
  lemma FormatParse(text: string)
    requires Parse(text).Ok?
    ensures Format(Parse(text).value) == text
  {
    var parts := Split(text, '.');
    var o0, o1, o2, o3 := ParseOctet(parts[0]).value, ParseOctet(parts[1]).value,
                          ParseOctet(parts[2]).value, ParseOctet(parts[3]).value;
    FromOctetsRoundTrip(o0, o1, o2, o3);
    ValueDecimal(parts[0]);
    ValueDecimal(parts[1]);
    ValueDecimal(parts[2]);
    ValueDecimal(parts[3]);
    assert [Decimal(o0), Decimal(o1), Decimal(o2), Decimal(o3)] == parts;
  }
}
