/** The browser IPv4 parser of the configuration: labels in three radices, left-padded partial addresses. */
module IPv4 {
  import opened Numerals

  newtype uint64 = n: int | 0 <= n < 0x1_0000_0000_0000_0000

  const MAX_LABEL: nat := 0xFFFF_FFFF

  predicate HexPrefix(part: string) {
    |part| >= 2 && part[0] == '0' && (part[1] == 'x' || part[1] == 'X')
  }

  /** The radix of a label and its digits after the prefix. */
  function Radix(part: string): (r: (nat, string))
    ensures r.0 in {8, 10, 16}
  {
    if HexPrefix(part) then (16, part[2..])
    else if |part| >= 2 && part[0] == '0' then (8, part[1..])
    else (10, part)
  }

  /** A label is a number of at most 32 bits; "0x" alone is zero. */
  function Number(part: string): (r: Option<nat>)
    ensures r.Some? ==> r.value <= MAX_LABEL
  {
    var (base, digits) := Radix(part);
    if part == "" || !AllDigits(digits, base) || Positional(digits, base) > MAX_LABEL then None
    else Some(Positional(digits, base))
  }

  lemma {:induction false} PositionalGrows(s: string, n: nat, base: nat)
    requires n <= |s| && base > 0
    ensures Positional(s[..n], base) <= Positional(s, base)
    decreases |s|
  {
    if n == |s| {
      assert s[..n] == s;
    } else {
      assert s[..|s| - 1][..n] == s[..n];
      PositionalGrows(s[..|s| - 1], n, base);
      TimesGrows(Positional(s[..|s| - 1], base), base);
    }
  }

  lemma TimesGrows(x: nat, base: nat)
    requires base > 0
    ensures x <= x * base
  {
  }

  lemma PositionalStep(s: string, i: nat, base: nat)
    requires i < |s|
    ensures Positional(s[..i + 1], base) == Positional(s[..i], base) * base + DigitValue(s[i])
  {
    assert s[..i + 1][..i] == s[..i];
  }

  /** The 64-bit accumulator never wraps: it is checked against 32 bits after every digit. */
  method ParseBrowserIPv4Number(part: string) returns (r: Option<nat>)
    ensures r == Number(part)
  {
    hide Positional;
    if part == "" { return None; }
    var base: uint64, digits := 10, part;
    if |part| >= 2 && part[0] == '0' && (part[1] == 'x' || part[1] == 'X') {
      base, digits := 16, part[2..];
    } else if |part| >= 2 && part[0] == '0' {
      base, digits := 8, part[1..];
    }
    assert Radix(part) == (base as nat, digits);
    var value: uint64 := 0;
    NoDigits(base as nat);
    for i := 0 to |digits|
      invariant forall k | 0 <= k < i :: DigitValue(digits[k]) < base as nat
      invariant value as nat == Positional(digits[..i], base as nat) && value <= 0xFFFF_FFFF
    {
      var digit: uint64;
      if '0' <= digits[i] <= '9' {
        digit := (digits[i] as int - '0' as int) as uint64;
      } else if 'a' <= digits[i] <= 'f' && base == 16 {
        digit := (digits[i] as int - 'a' as int + 10) as uint64;
      } else if 'A' <= digits[i] <= 'F' && base == 16 {
        digit := (digits[i] as int - 'A' as int + 10) as uint64;
      } else {
        return None;
      }
      if digit >= base { return None; }
      PositionalStep(digits, i, base as nat);
      value := value * base + digit;
      if value > 0xFFFF_FFFF {
        PositionalGrows(digits, i + 1, base as nat);
        return None;
      }
    }
    assert digits[..|digits|] == digits;
    r := Some(value as nat);
  }

  // ---- Addresses ----

  /** 256 to the power of k. */
  function Weight(k: nat): (w: nat)
    ensures w > 0
  {
    if k == 0 then 1 else 256 * Weight(k - 1)
  }

  /** The parts of a partial address: one byte each but the last, which fills the remaining bytes. */
  predicate Parts(numbers: seq<nat>) {
    && 1 <= |numbers| <= 4
    && (forall i | 0 <= i < |numbers| - 1 :: numbers[i] <= 255)
    && numbers[|numbers| - 1] < Weight(5 - |numbers|)
  }

  /** The leading bytes weigh from the top; the last part is added as it is. */
  function Leading(numbers: seq<nat>, count: nat): nat
    requires count <= |numbers| && count <= 4
  {
    if count == 0 then 0 else Leading(numbers, count - 1) + numbers[count - 1] * Weight(4 - count)
  }

  function Address(numbers: seq<nat>): nat
    requires Parts(numbers)
  {
    Leading(numbers, |numbers| - 1) + numbers[|numbers| - 1]
  }

  function Numbers(parts: seq<string>): (r: Option<seq<nat>>)
    ensures r.Some? ==> |r.value| == |parts|
  {
    if parts == [] then Some([])
    else
      var front, last := Numbers(parts[..|parts| - 1]), Number(parts[|parts| - 1]);
      if front.None? || last.None? then None else Some(front.value + [last.value])
  }

  function ParseHost(host: string): Option<nat> {
    var parts := Split(host, '.');
    var numbers := Numbers(parts);
    if numbers.None? || !Parts(numbers.value) then None else Some(Address(numbers.value))
  }

  lemma Weights()
    ensures Weight(0) == 1 && Weight(1) == 0x100 && Weight(2) == 0x1_0000 && Weight(3) == 0x100_0000
      && Weight(4) == 0x1_0000_0000
  {
    assert Weight(2) == 256 * Weight(1);
    assert Weight(3) == 256 * Weight(2);
    assert Weight(4) == 256 * Weight(3);
  }

  lemma {:induction false} LeadingBounded(numbers: seq<nat>, count: nat)
    requires Parts(numbers) && count < |numbers|
    ensures Leading(numbers, count) + Weight(4 - count) <= Weight(4)
  {
    Weights();
    if count > 0 {
      LeadingBounded(numbers, count - 1);
      assert numbers[count - 1] <= 255;
      assert numbers[count - 1] * Weight(4 - count) <= 255 * Weight(4 - count);
      assert Weight(5 - count) == 256 * Weight(4 - count);
    }
  }

  /** Every parsed address is below 2^32. */
  lemma AddressBounded(numbers: seq<nat>)
    requires Parts(numbers)
    ensures Address(numbers) < 0x1_0000_0000
  {
    Weights();
    LeadingBounded(numbers, |numbers| - 1);
  }

  lemma AddressForms(numbers: seq<nat>)
    requires Parts(numbers)
    ensures |numbers| == 1 ==> Address(numbers) == numbers[0]
    ensures |numbers| == 2 ==> numbers[1] < 0x100_0000 && Address(numbers) == numbers[0] * 0x100_0000 + numbers[1]
    ensures |numbers| == 3 ==>
      numbers[2] < 0x1_0000 && Address(numbers) == numbers[0] * 0x100_0000 + numbers[1] * 0x1_0000 + numbers[2]
    ensures |numbers| == 4 ==>
      && numbers[3] < 0x100
      && Address(numbers) == numbers[0] * 0x100_0000 + numbers[1] * 0x1_0000 + numbers[2] * 0x100 + numbers[3]
  {
    Weights();
    assert Leading(numbers, 0) == 0;
    if |numbers| >= 2 { assert Leading(numbers, 1) == numbers[0] * 0x100_0000; }
    if |numbers| >= 3 { assert Leading(numbers, 2) == Leading(numbers, 1) + numbers[1] * 0x1_0000; }
    if |numbers| == 4 { assert Leading(numbers, 3) == Leading(numbers, 2) + numbers[2] * 0x100; }
  }

  /** For a fixed part count different parts give different addresses. */
  lemma AddressInjective(a: seq<nat>, b: seq<nat>)
    requires Parts(a) && Parts(b) && |a| == |b| && Address(a) == Address(b)
    ensures a == b
  {
    hide Address, Leading, Weight;
    AddressForms(a);
    AddressForms(b);
    if |a| == 2 {
      assert a[0] == b[0];
    } else if |a| == 3 {
      assert a[0] == b[0] && a[1] == b[1];
    } else if |a| == 4 {
      assert a[0] == b[0] && a[1] == b[1] && a[2] == b[2];
    }
  }

  // ---- Parsing a host ----

  method ParseBrowserIPv4Host(host: string) returns (r: Option<seq<nat>>)
    ensures r == var address := ParseHost(host); if address.None? then None else Some(Quad(address.value))
  {
    var parts := Split(host, '.');
    if |parts| > 4 {
      NumbersCount(parts);
      return None;
    }
    Weights();
    hide Split, Number, Address, Weight;
    var numbers: seq<uint64> := [];
    for i := 0 to |parts|
      invariant |numbers| == i && Numbers(parts[..i]) == Some(Nats(numbers))
      invariant forall k | 0 <= k < i :: numbers[k] <= 0xFFFF_FFFF && (k < |parts| - 1 ==> numbers[k] <= 255)
    {
      assert parts[..i + 1][..i] == parts[..i];
      var value := ParseBrowserIPv4Number(parts[i]);
      if value.None? {
        NumbersFail(parts, i + 1);
        return None;
      }
      if i < |parts| - 1 && value.value > 255 {
        TooBig(parts, i);
        return None;
      }
      assert Nats(numbers + [value.value as uint64]) == Nats(numbers) + [value.value];
      numbers := numbers + [value.value as uint64];
    }
    assert parts[..|parts|] == parts;
    r := Addressed(numbers);
  }

  /** The last part's limit, and the bytes of the value. */
  method Addressed(numbers: seq<uint64>) returns (r: Option<seq<nat>>)
    requires 1 <= |numbers| <= 4 && forall k | 0 <= k < |numbers| - 1 :: numbers[k] <= 255
    ensures r == if Parts(Nats(numbers)) then Some(Quad(Address(Nats(numbers)))) else None
  {
    Weights();
    hide Address, Weight;
    var limit := if |numbers| == 1 then 0x1_0000_0000
                 else if |numbers| == 2 then 0x100_0000
                 else if |numbers| == 3 then 0x1_0000 else 0x100;
    if numbers[|numbers| - 1] >= limit { return None; }
    assert Parts(Nats(numbers));
    var value := Combine(numbers);
    r := Some([(value / 0x100_0000) as nat, (value / 0x1_0000 % 0x100) as nat, (value / 0x100 % 0x100) as nat,
               (value % 0x100) as nat]);
  }

  /** The shifts of the leading parts, in 64 bits. */
  method Combine(numbers: seq<uint64>) returns (value: uint64)
    requires Parts(Nats(numbers))
    ensures value as nat == Address(Nats(numbers)) && value < 0x1_0000_0000
  {
    Weights();
    value := 0;
    for i := 0 to |numbers| - 1
      invariant value as nat == Leading(Nats(numbers), i) && value as nat < 0x1_0000_0000
    {
      LeadingBounded(Nats(numbers), i + 1);
      var shift := if i == 0 then 0x100_0000 else if i == 1 then 0x1_0000 else 0x100;
      value := value + numbers[i] * shift;
    }
    AddressBounded(Nats(numbers));
    value := value + numbers[|numbers| - 1];
  }

  function Nats(numbers: seq<uint64>): (r: seq<nat>)
    ensures |r| == |numbers| && forall i | 0 <= i < |numbers| :: r[i] == numbers[i] as nat
  {
    seq(|numbers|, i requires 0 <= i < |numbers| => numbers[i] as nat)
  }

  /** The four bytes of an address. */
  function Quad(address: nat): seq<nat> {
    [address / 0x100_0000, address / 0x1_0000 % 0x100, address / 0x100 % 0x100, address % 0x100]
  }

  lemma {:induction false} NumbersFail(parts: seq<string>, i: nat)
    requires i <= |parts| && Numbers(parts[..i]).None?
    ensures Numbers(parts).None?
    decreases |parts|
  {
    if i == |parts| {
      assert parts[..i] == parts;
    } else {
      assert parts[..|parts| - 1][..i] == parts[..i];
      NumbersFail(parts[..|parts| - 1], i);
    }
  }

  lemma {:induction false} NumbersAt(parts: seq<string>, i: nat)
    requires i < |parts| && Numbers(parts).Some?
    ensures Number(parts[i]) == Some(Numbers(parts).value[i])
    decreases |parts|
  {
    if i < |parts| - 1 {
      NumbersAt(parts[..|parts| - 1], i);
    }
  }

  lemma NumbersCount(parts: seq<string>)
    requires |parts| > 4
    ensures Numbers(parts).None? || !Parts(Numbers(parts).value)
  {
  }

  lemma TooBig(parts: seq<string>, i: nat)
    requires i < |parts| - 1 && Number(parts[i]).Some? && Number(parts[i]).value > 255
    ensures Numbers(parts).None? || !Parts(Numbers(parts).value)
  {
    if Numbers(parts).Some? {
      NumbersAt(parts, i);
    }
  }

  // ---- Formatting and reparsing ----

  function Labels(quad: seq<nat>): (labels: seq<string>)
    ensures |labels| == |quad| && forall i | 0 <= i < |quad| :: labels[i] == Spelled(quad[i], 10)
  {
    seq(|quad|, i requires 0 <= i < |quad| => Spelled(quad[i], 10))
  }

  function Format(quad: seq<nat>): string {
    Join(Labels(quad), '.')
  }

  lemma FormatJoins(quad: seq<nat>)
    ensures Format(quad) == Join(Labels(quad), '.')
  {
  }

  /** A decimal label reads as itself. */
  lemma DecimalLabel(n: nat)
    requires n <= 255
    ensures Number(Spelled(n, 10)) == Some(n) && '.' !in Spelled(n, 10)
  {
    SpelledIsPositional(n, 10);
    SpelledChars(n, 10);
  }

  lemma {:induction false} NumbersAll(parts: seq<string>, values: seq<nat>)
    requires |parts| == |values| && forall i | 0 <= i < |parts| :: Number(parts[i]) == Some(values[i])
    ensures Numbers(parts) == Some(values)
  {
    if parts != [] {
      NumbersAll(parts[..|parts| - 1], values[..|values| - 1]);
      assert values == values[..|values| - 1] + [values[|values| - 1]];
    }
  }

  lemma FormattedParts(quad: seq<nat>)
    requires |quad| == 4 && forall i | 0 <= i < 4 :: quad[i] <= 255
    ensures Numbers(Split(Format(quad), '.')) == Some(quad)
  {
    var parts := Labels(quad);
    forall i | 0 <= i < 4 ensures Number(parts[i]) == Some(quad[i]) && '.' !in parts[i] {
      DecimalLabel(quad[i]);
    }
    hide Numbers, Number, Split, Join, Spelled;
    SplitJoin(parts, '.');
    NumbersAll(parts, quad);
  }

  lemma QuadSums(address: nat)
    requires address < 0x1_0000_0000
    ensures |Quad(address)| == 4 && forall i | 0 <= i < 4 :: Quad(address)[i] <= 255
    ensures var q := Quad(address); q[0] * 0x100_0000 + q[1] * 0x1_0000 + q[2] * 0x100 + q[3] == address
  {
    assert address / 0x1_0000 == address / 0x100 / 0x100;
    assert address / 0x100_0000 == address / 0x1_0000 / 0x100;
  }

  /** Dotted decimal text of an address parses back to it. */
  lemma FormatFixpoint(address: nat)
    requires address < 0x1_0000_0000
    ensures ParseHost(Format(Quad(address))) == Some(address)
  {
    var quad := Quad(address);
    hide Address, Format, Numbers, Split, Quad, Weight;
    QuadSums(address);
    FormattedParts(quad);
    Weights();
    AddressForms(quad);
  }
}
