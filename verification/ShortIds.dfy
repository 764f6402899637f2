/** A correlation id as something a person can read, say and type back (eventlog/events.py). */
module ShortIds {

  /** Crockford's base 32. */
  const ALPHABET: string := "0123456789ABCDEFGHJKMNPQRSTVWXYZ"

  const LENGTH: nat := 12

  // ------------------------------------------------------------------ digits

  /** In the alphabet: a digit or a capital, but not one of I, L, O and U. */
  predicate IsDigit(c: char) {
    '0' <= c <= '9' || ('A' <= c <= 'Z' && c != 'I' && c != 'L' && c != 'O' && c != 'U')
  }

  /** What a digit is worth. */
  function Worth(c: char): (d: nat)
    requires IsDigit(c)
    ensures d < 32
  {
    if c <= '9' then c as int - '0' as int
    else if c <= 'H' then c as int - 'A' as int + 10
    else if c <= 'K' then c as int - 'J' as int + 18
    else if c <= 'N' then c as int - 'M' as int + 20
    else if c <= 'T' then c as int - 'P' as int + 22
    else c as int - 'V' as int + 27
  }

  /** The digit of that worth. */
  function Digit(d: nat): (c: char)
    requires d < 32
    ensures IsDigit(c) && Worth(c) == d
  {
    if d < 16 then ListsLow(d); ALPHABET[d] else ListsHigh(d); ALPHABET[d]
  }

  /** The alphabet lists the digits by their worth, each once. */
  lemma ListsLow(d: nat)
    requires d < 16
    ensures |ALPHABET| == 32 && IsDigit(ALPHABET[d]) && Worth(ALPHABET[d]) == d
  {
  }

  lemma ListsHigh(d: nat)
    requires 16 <= d < 32
    ensures |ALPHABET| == 32 && IsDigit(ALPHABET[d]) && Worth(ALPHABET[d]) == d
  {
  }

  lemma Listed(c: char)
    ensures IsDigit(c) <==> c in ALPHABET
  {
    if c in ALPHABET {
      var d :| 0 <= d < |ALPHABET| && ALPHABET[d] == c;
      if d < 16 { ListsLow(d); } else { ListsHigh(d); }
    }
    if IsDigit(c) {
      WorthIsPlace(c);
      assert Digit(Worth(c)) in ALPHABET;
    }
  }

  lemma WorthIsPlace(c: char)
    requires IsDigit(c)
    ensures Digit(Worth(c)) == c
  {
    hide Digit;
    SameWorth(c, Digit(Worth(c)));
  }

  lemma SameWorth(a: char, b: char)
    requires IsDigit(a) && IsDigit(b) && Worth(a) == Worth(b)
    ensures a == b
  {
  }

  // ------------------------------------------------------------------ codes

  predicate IsCode(s: string) { |s| == LENGTH && AllDigits(s) }

  predicate AllDigits(s: string) { forall i | 0 <= i < |s| :: IsDigit(s[i]) }

  function Power(k: nat): nat { if k == 0 then 1 else 32 * Power(k - 1) }

  const MASK: nat := 0x1000_0000_0000_0000       // 2 to the 60th

  lemma SixtyBits()
    ensures Power(LENGTH) == MASK
  {
    assert Power(4) == 0x10_0000 by { assert Power(2) == 1024; }
    assert Power(8) == 0x100_0000_0000 by { assert Power(6) == 0x4000_0000; }
    assert Power(10) == 0x4_0000_0000_0000;
  }

  /** The lowest `k` digits of a number, highest first. */
  function Digits(n: nat, k: nat): (s: string)
    ensures |s| == k && AllDigits(s)
  {
    if k == 0 then [] else Digits(n / 32, k - 1) + [Digit(n % 32)]
  }

  /** The number a string of digits stands for. */
  function Value(s: string): (n: nat)
    requires AllDigits(s)
    ensures n < Power(|s|)
  {
    if s == [] then 0 else Value(s[..|s| - 1]) * 32 + Worth(s[|s| - 1])
  }

  lemma {:induction false} DigitsDecode(n: nat, k: nat)
    requires n < Power(k)
    ensures Value(Digits(n, k)) == n
  {
    if k > 0 {
      hide Digit, Worth;
      DigitsDecode(n / 32, k - 1);
      assert Digits(n, k)[..k - 1] == Digits(n / 32, k - 1);
    }
  }

  lemma NextDigit(v: nat, d: nat, k: nat)
    requires d < 32
    ensures Digits(v * 32 + d, k + 1) == Digits(v, k) + [Digit(d)]
  {
    hide Digit, Worth;
    assert (v * 32 + d) / 32 == v && (v * 32 + d) % 32 == d;
  }

  lemma ValueStep(s: string)
    requires AllDigits(s) && s != []
    ensures AllDigits(s[..|s| - 1]) && Value(s) == Value(s[..|s| - 1]) * 32 + Worth(s[|s| - 1])
  {
    hide Worth, IsDigit;
  }

  lemma {:induction false} ValueEncodes(s: string)
    requires AllDigits(s)
    ensures Digits(Value(s), |s|) == s
  {
    if s == [] {
      assert Digits(0, 0) == [];
    } else {
      var most, last := s[..|s| - 1], s[|s| - 1];
      assert s == most + [last] && IsDigit(last) && AllDigits(most);
      hide *;
      ValueStep(s);
      ValueEncodes(most);
      WorthIsPlace(last);
      NextDigit(Value(most), Worth(last), |most|);
    }
  }

  /** The code of an id, named by what it decodes to. */
  function Code(id: nat): string { Digits(id % MASK, LENGTH) }

  /** Decoding a code gives the low sixty bits of its id; and every code is some id's. */
  lemma CodeDecodes(id: nat)
    ensures IsCode(Code(id)) && |Code(id)| == 12 && Value(Code(id)) == id % 0x1000_0000_0000_0000
  {
    SixtyBits();
    DigitsDecode(id % MASK, LENGTH);
  }

  lemma CodeIsOnto(s: string)
    requires IsCode(s)
    ensures Value(s) < MASK && Code(Value(s)) == s
  {
    hide Digits, Value, Power;
    SixtyBits();
    ValueEncodes(s);
    Below(Value(s));
  }

  lemma Below(n: nat)
    requires n < MASK
    ensures n % MASK == n
  {
  }

  /** Two ids share a code exactly when they agree in those bits. */
  lemma SharedCode(a: nat, b: nat)
    ensures Code(a) == Code(b) <==> a % MASK == b % MASK
  {
    CodeDecodes(a);
    CodeDecodes(b);
  }

  function Reversed(s: string): string { if s == [] then [] else Reversed(s[1..]) + [s[0]] }

  lemma {:induction false} ReversedMore(s: string, c: char)
    ensures Reversed(s + [c]) == [c] + Reversed(s)
  {
    if s == [] {
      assert [] + [c] == [c] && [c][1..] == [];
    } else {
      ReversedMore(s[1..], c);
      assert (s + [c])[1..] == s[1..] + [c];
    }
  }

  /** `short_id`. */
  method ShortId(id: nat) returns (code: string)
    ensures code == Code(id)
  {
    hide Digit, Worth;
    var number: nat := id % MASK;
    var digits: string := [];
    for i := 0 to LENGTH
      invariant Digits(id % MASK, LENGTH) == Digits(number, LENGTH - i) + Reversed(digits)
    {
      var quotient, remainder := number / 32, number % 32;
      ReversedMore(digits, Digit(remainder));
      assert Digits(number, LENGTH - i) == Digits(quotient, LENGTH - i - 1) + [Digit(remainder)];
      number, digits := quotient, digits + [Digit(remainder)];
    }
    code := Reversed(digits);
  }

  // ------------------------------------------------------------------ the ids themselves

  /** The fields of section 5.7 of RFC 9562, highest first: 48, 4, 12, 2 and 62 bits. */
  function Assembled(time: nat, version: nat, randA: nat, variant: nat, randB: nat): nat {
    (((time * 16 + version) * 4096 + randA) * 4 + variant) * 0x4000_0000_0000_0000 + randB
  }

  /** A code is drawn from the random bits alone: not the clock, nor the version, nor the variant. */
  lemma CodeIsRandomBits(time: nat, version: nat, randA: nat, variant: nat, randB: nat)
    ensures Code(Assembled(time, version, randA, variant, randB)) == Code(randB)
  {
    hide Code;
    Multiple((((time * 16 + version) * 4096 + randA) * 4 + variant) * 4, randB);
    SharedCode(Assembled(time, version, randA, variant, randB), randB);
  }

  predicate Bytes(s: seq<int>) { forall i | 0 <= i < |s| :: 0 <= s[i] < 256 }

  function Power256(k: nat): nat { if k == 0 then 1 else 256 * Power256(k - 1) }

  function BigEndian(s: seq<int>): (n: nat)
    requires Bytes(s)
    ensures n < Power256(|s|)
  {
    if s == [] then 0 else BigEndian(s[..|s| - 1]) * 256 + s[|s| - 1]
  }

  /** `to_bytes`, big-endian. */
  function ToBytes(n: nat, k: nat): (s: seq<int>)
    ensures |s| == k && Bytes(s)
  {
    if k == 0 then [] else ToBytes(n / 256, k - 1) + [n % 256]
  }

  lemma {:induction false} ToBytesBack(n: nat, k: nat)
    requires n < Power256(k)
    ensures BigEndian(ToBytes(n, k)) == n
  {
    if k > 0 {
      ToBytesBack(n / 256, k - 1);
      assert ToBytes(n, k)[..k - 1] == ToBytes(n / 256, k - 1);
    }
  }

  lemma Reassociate(x: nat, p: nat)
    ensures x * p * 256 == x * (256 * p)
  {
  }

  lemma {:induction false} BigEndianJoin(a: seq<int>, b: seq<int>)
    requires Bytes(a) && Bytes(b)
    ensures Bytes(a + b) && BigEndian(a + b) == BigEndian(a) * Power256(|b|) + BigEndian(b)
    decreases |b|
  {
    if b == [] {
      assert a + b == a;
    } else {
      var most, last := b[..|b| - 1], b[|b| - 1];
      BigEndianJoin(a, most);
      assert (a + b)[..|a + b| - 1] == a + most;
      JoinOneMore(BigEndian(a), BigEndian(most), Power256(|most|), last);
    }
  }

  lemma JoinOneMore(a: nat, b: nat, p: nat, last: int)
    ensures 256 * (a * p + b) + last == a * (256 * p) + (256 * b + last)
  {
    Reassociate(a, p);
  }

  lemma Powers()
    ensures Power256(6) == 0x1_0000_0000_0000 && Power256(7) == 0x100_0000_0000_0000
    ensures Power256(10) == 0x1_0000_0000_0000_0000_0000
  {
    assert Power256(3) == 0x100_0000;
    assert Power256(6) == 0x1_0000_0000_0000;
  }

  /** The id made of a clock reading and ten random bytes: version 7, the variant of the RFC, the clock
      in front, and the code of the random bytes themselves. */
  method NewCorrelationId(millis: nat, random: seq<int>) returns (raw: array<int>)
    requires millis < 0x1_0000_0000_0000 && |random| == 10 && Bytes(random)
    ensures fresh(raw) && raw.Length == 16 && Bytes(raw[..])
    ensures raw[..] == Stamped(millis, random)
  {
    var clock := ToBytes(millis, 6);
    raw := new int[16](i requires 0 <= i < 16 => if i < 6 then clock[i] else random[i - 6]);
    // the low four bits kept under a 7, the low six under binary 10
    raw[6] := raw[6] % 16 + 0x70;
    raw[8] := raw[8] % 64 + 0x80;
  }

  function Stamped(millis: nat, random: seq<int>): (s: seq<int>)
    requires |random| == 10 && Bytes(random)
    ensures |s| == 16 && Bytes(s)
  {
    ToBytes(millis, 6) + [random[0] % 16 + 0x70, random[1], random[2] % 64 + 0x80] + random[3..]
  }

  /** The fields of a new id. */
  lemma StampedFields(millis: nat, random: seq<int>)
    requires millis < 0x1_0000_0000_0000 && |random| == 10 && Bytes(random)
    ensures BigEndian(Stamped(millis, random)) ==
            Assembled(millis, 7, random[0] % 16 * 256 + random[1], 2,
                      random[2] % 64 * 0x100_0000_0000_0000 + BigEndian(random[3..]))
    ensures Code(BigEndian(Stamped(millis, random))) == Code(BigEndian(random))
  {
    hide BigEndian, Code, ToBytes, Power256;
    var h0, h1, h2 := random[0] % 16 + 0x70, random[1], random[2] % 64 + 0x80;
    StampedSplit(millis, random, [h0, h1, h2]);
    SameLowBits(millis, h0 * 256 + h1, random[0] * 256 + random[1], random[2], BigEndian(random[3..]));
    SharedCode(BigEndian(Stamped(millis, random)), BigEndian(random));
  }

  /** The id, and the random bytes as they came, as a head and the last seven bytes. */
  lemma StampedSplit(millis: nat, random: seq<int>, head: seq<int>)
    requires millis < 0x1_0000_0000_0000 && |random| == 10 && Bytes(random)
    requires head == [random[0] % 16 + 0x70, random[1], random[2] % 64 + 0x80]
    ensures BigEndian(Stamped(millis, random)) ==
            millis * 0x1_0000_0000_0000_0000_0000 +
              ((head[0] * 256 + head[1]) * 256 + head[2]) * 0x100_0000_0000_0000 + BigEndian(random[3..])
    ensures BigEndian(random) == ((random[0] * 256 + random[1]) * 256 + random[2]) * 0x100_0000_0000_0000 +
            BigEndian(random[3..])
  {
    hide BigEndian, Power256, ToBytes;
    RandomSplit(random);
    ThenSeven(head, random[3..]);
    ClockFirst(millis, head + random[3..]);
    assert ToBytes(millis, 6) + (head + random[3..]) == Stamped(millis, random);
  }

  lemma RandomSplit(random: seq<int>)
    requires |random| == 10 && Bytes(random)
    ensures BigEndian(random) ==
            ((random[0] * 256 + random[1]) * 256 + random[2]) * 0x100_0000_0000_0000 + BigEndian(random[3..])
  {
    hide BigEndian, Power256;
    ThenSeven(random[..3], random[3..]);
    assert random[..3] + random[3..] == random;
  }

  lemma ThenSeven(head: seq<int>, tail: seq<int>)
    requires |head| == 3 && Bytes(head) && |tail| == 7 && Bytes(tail)
    ensures Bytes(head + tail)
    ensures BigEndian(head + tail) == ((head[0] * 256 + head[1]) * 256 + head[2]) * 0x100_0000_0000_0000 +
            BigEndian(tail)
  {
    Powers();
    ThreeBytes(head);
    BigEndianJoin(head, tail);
  }

  lemma ClockFirst(millis: nat, rest: seq<int>)
    requires millis < 0x1_0000_0000_0000 && |rest| == 10 && Bytes(rest)
    ensures Bytes(ToBytes(millis, 6) + rest)
    ensures BigEndian(ToBytes(millis, 6) + rest) == millis * 0x1_0000_0000_0000_0000_0000 + BigEndian(rest)
  {
    hide BigEndian, ToBytes;
    Powers();
    ToBytesBack(millis, 6);
    BigEndianJoin(ToBytes(millis, 6), rest);
  }

  /** Only the low four bits of the third byte, and what follows it, are in the low sixty. */
  lemma SameLowBits(millis: nat, h: nat, g: nat, r: nat, t: nat)
    ensures (millis * 0x1_0000_0000_0000_0000_0000 + (h * 256 + (r % 64 + 0x80)) * 0x100_0000_0000_0000 + t) % MASK ==
            ((g * 256 + r) * 0x100_0000_0000_0000 + t) % MASK
  {
    var z := r % 64 * 0x100_0000_0000_0000 + t;
    assert r == r / 64 * 64 + r % 64;
    Multiple(millis * 0x10_0000 + h * 16 + 8, z);
    Multiple(g * 16 + r / 64 * 4, z);
  }

  lemma Multiple(q: nat, z: nat)
    ensures (q * MASK + z) % MASK == z % MASK
  {
  }

  lemma ThreeBytes(s: seq<int>)
    requires |s| == 3 && Bytes(s)
    ensures BigEndian(s) == (s[0] * 256 + s[1]) * 256 + s[2]
  {
    assert BigEndian(s[..1]) == s[0] by { assert s[..1][..0] == []; }
    assert s[..2][..1] == s[..1];
  }

  /** Ids made later sort later. */
  lemma TimeOrdered(a: nat, b: nat, r: seq<int>, q: seq<int>)
    requires a < b < 0x1_0000_0000_0000 && |r| == 10 && Bytes(r) && |q| == 10 && Bytes(q)
    ensures BigEndian(Stamped(a, r)) < BigEndian(Stamped(b, q))
  {
    hide ToBytes, Code;
    StampedFields(a, r);
    StampedFields(b, q);
    Powers();
    hide BigEndian, Power256;
  }

  // ------------------------------------------------------------------ reading one back

  predicate Ascii(s: string) { forall i | 0 <= i < |s| :: s[i] <= 127 as char }

  /** What Unicode says of the characters beyond ASCII: which are white space, and what each is in upper
      case, one character or several. Nothing here depends on it. */
  datatype Unicode = Unicode(space: char -> bool, upper: char -> string)

  /** What `strip` takes off the ends. */
  predicate IsSpace(c: char, u: Unicode) {
    if c <= 127 as char then c == ' ' || 9 as char <= c <= 13 as char || 28 as char <= c <= 31 as char else u.space(c)
  }

  function StripLeft(s: string, u: Unicode): string {
    if s != [] && IsSpace(s[0], u) then StripLeft(s[1..], u) else s
  }

  function StripRight(s: string, u: Unicode): string {
    if s != [] && IsSpace(s[|s| - 1], u) then StripRight(s[..|s| - 1], u) else s
  }

  function Strip(s: string, u: Unicode): string { StripRight(StripLeft(s, u), u) }

  function Upper(c: char): char { if 'a' <= c <= 'z' then (c as int - 32) as char else c }

  function UpperCase(s: string, u: Unicode): string {
    if s == [] then [] else (if s[0] <= 127 as char then [Upper(s[0])] else u.upper(s[0])) + UpperCase(s[1..], u)
  }

  /** Crockford's three confusions. */
  function Fold(c: char): char { if c == 'I' || c == 'L' then '1' else if c == 'O' then '0' else c }

  /** Spaces and hyphens dropped, confusions folded. */
  function Clean(s: string): string {
    if s == [] then [] else (if s[0] == ' ' || s[0] == '-' then [] else [Fold(s[0])]) + Clean(s[1..])
  }

  /** `normalise_short_id`; nothing where the text is not a code. */
  function Normalise(text: string, u: Unicode): string {
    var cleaned := Clean(UpperCase(Strip(text, u), u));
    if IsCode(cleaned) then cleaned else []
  }

  /** The characters a person may write for a digit: itself, in either case, and the look-alikes. */
  predicate WrittenFor(c: char, digit: char) {
    || c == digit || ('A' <= digit <= 'Z' && c as int == digit as int + 32)
    || (digit == '1' && c in "IiLl") || (digit == '0' && c in "Oo")
  }

  /** A spelling of a code: its digits in order, each written some way, spaces and hyphens anywhere. */
  predicate Spells(text: string, code: string) {
    if text == [] then code == []
    else if text[0] == ' ' || text[0] == '-' then Spells(text[1..], code)
    else code != [] && WrittenFor(text[0], code[0]) && Spells(text[1..], code[1..])
  }

  lemma ReadAs(c: char, digit: char)
    requires IsDigit(digit)
    ensures c != ' ' && c != '-' ==> (Fold(Upper(c)) == digit <==> WrittenFor(c, digit))
    ensures (Upper(c) == ' ' || Upper(c) == '-') <==> c == ' ' || c == '-'
  {
  }

  lemma {:induction false} CleanReads(text: string, code: string, u: Unicode)
    requires AllDigits(code) && Ascii(text)
    ensures Clean(UpperCase(text, u)) == code <==> Spells(text, code)
  {
    if text != [] {
      ReadAs(text[0], if code == [] then '0' else code[0]);
      var upper := UpperCase(text, u);
      assert upper[0] == Upper(text[0]) && upper[1..] == UpperCase(text[1..], u);
      if text[0] == ' ' || text[0] == '-' {
        CleanReads(text[1..], code, u);
      } else if code != [] {
        CleanReads(text[1..], code[1..], u);
        assert code == [code[0]] + code[1..];
        assert Clean(upper)[0] == Fold(upper[0]) && Clean(upper)[1..] == Clean(upper[1..]);
      }
    }
  }

  /** An ASCII text is read as a code exactly when, but for white space at its ends, it spells that code. */
  lemma ReadsWhatItSpells(text: string, code: string, u: Unicode)
    requires IsCode(code) && Ascii(text)
    ensures Normalise(text, u) == code <==> Spells(Strip(text, u), code)
  {
    StripIsAscii(text, u);
    CleanReads(Strip(text, u), code, u);
  }

  /** And an ASCII text that spells no code reads as nothing. */
  lemma NoCodeReadsEmpty(text: string, u: Unicode)
    requires Ascii(text) && forall code | IsCode(code) :: !Spells(Strip(text, u), code)
    ensures Normalise(text, u) == []
  {
    var cleaned := Clean(UpperCase(Strip(text, u), u));
    if IsCode(cleaned) { ReadsWhatItSpells(text, cleaned, u); }
  }

  /** What is stripped is the white space at the two ends, all of it and nothing else. */
  lemma StripMeans(text: string, u: Unicode) returns (before: string, after: string)
    ensures text == before + Strip(text, u) + after
    ensures forall c | c in before || c in after :: IsSpace(c, u)
    ensures var s := Strip(text, u); s != [] ==> !IsSpace(s[0], u) && !IsSpace(s[|s| - 1], u)
  {
    var rest := StripLeft(text, u);
    before := LeftMeans(text, u);
    after := RightMeans(rest, u);
    var s := Strip(text, u);
    assert s != [] ==> s[0] == rest[0];
    assert text == before + (s + after) == before + s + after;
  }

  lemma {:induction false} LeftMeans(text: string, u: Unicode) returns (before: string)
    ensures text == before + StripLeft(text, u) && forall c | c in before :: IsSpace(c, u)
    ensures StripLeft(text, u) != [] ==> !IsSpace(StripLeft(text, u)[0], u)
  {
    if text != [] && IsSpace(text[0], u) {
      var most := LeftMeans(text[1..], u);
      before := [text[0]] + most;
    } else {
      before := [];
    }
  }

  lemma {:induction false} RightMeans(text: string, u: Unicode) returns (after: string)
    ensures text == StripRight(text, u) + after && forall c | c in after :: IsSpace(c, u)
    ensures StripRight(text, u) != [] ==> !IsSpace(StripRight(text, u)[|StripRight(text, u)| - 1], u)
  {
    if text != [] && IsSpace(text[|text| - 1], u) {
      var most := RightMeans(text[..|text| - 1], u);
      after := most + [text[|text| - 1]];
      assert text == text[..|text| - 1] + [text[|text| - 1]];
    } else {
      after := [];
    }
  }

  /** Of the ASCII characters, white space is these ten. */
  lemma AsciiSpaces(c: char, u: Unicode)
    requires c <= 127 as char
    ensures IsSpace(c, u) <==> c as int in {9, 10, 11, 12, 13, 28, 29, 30, 31, 32}
  {
  }

  lemma {:induction false} StripIsAscii(text: string, u: Unicode)
    requires Ascii(text)
    ensures Ascii(Strip(text, u))
  {
    LeftIsAscii(text, u);
    RightIsAscii(StripLeft(text, u), u);
  }

  lemma {:induction false} LeftIsAscii(text: string, u: Unicode)
    requires Ascii(text)
    ensures Ascii(StripLeft(text, u))
  {
    if text != [] && IsSpace(text[0], u) { LeftIsAscii(text[1..], u); }
  }

  lemma {:induction false} RightIsAscii(text: string, u: Unicode)
    requires Ascii(text)
    ensures Ascii(StripRight(text, u))
  {
    if text != [] && IsSpace(text[|text| - 1], u) { RightIsAscii(text[..|text| - 1], u); }
  }

  /** A code's characters are the alphabet's, and so ASCII. */
  lemma CodeIsInAlphabet(s: string)
    ensures IsCode(s) <==> |s| == LENGTH && forall c | c in s :: c in ALPHABET
    ensures IsCode(s) ==> Ascii(s)
  {
    forall c ensures IsDigit(c) <==> c in ALPHABET { Listed(c); }
    assert forall i | 0 <= i < |s| :: s[i] in s;
  }

  lemma {:induction false} CodeSpellsItself(code: string, u: Unicode)
    requires AllDigits(code)
    ensures Spells(code, code) && StripLeft(code, u) == code && StripRight(code, u) == code
  {
    if code != [] { CodeSpellsItself(code[1..], u); }
  }

  /** A code reads as itself, whatever Unicode says, so reading twice reads no differently. */
  lemma CodesAreFixed(code: string, u: Unicode)
    requires IsCode(code)
    ensures Normalise(code, u) == code
  {
    CodeSpellsItself(code, u);
    CodeIsInAlphabet(code);
    ReadsWhatItSpells(code, code, u);
  }

  lemma Idempotent(text: string, u: Unicode)
    ensures Normalise(Normalise(text, u), u) == Normalise(text, u)
  {
    if Normalise(text, u) != [] { CodesAreFixed(Normalise(text, u), u); }
  }

  /** Whatever a person writes for the code of an id comes back as that code, however it is spaced,
      hyphenated, cased or confused. */
  lemma WrittenDownAndBack(id: nat, before: string, text: string, after: string, u: Unicode)
    requires Spells(text, Code(id)) && Spaces(before) && Spaces(after)
    ensures Normalise(before + text + after, u) == Code(id)
  {
    CodeDecodes(id);
    SpellingIsAscii(text, Code(id));
    StripsToSpelling(before, text, after, Code(id), u);
    ReadsWhatItSpells(before + text + after, Code(id), u);
  }

  /** ASCII white space. */
  predicate Spaces(s: string) { Ascii(s) && forall i | 0 <= i < |s| :: IsSpace(s[i], Unicode(_ => false, c => [c])) }

  lemma {:induction false} SpellingIsAscii(text: string, code: string)
    requires Spells(text, code) && AllDigits(code)
    ensures Ascii(text)
  {
    if text != [] {
      var rest := if text[0] == ' ' || text[0] == '-' then code else code[1..];
      SpellingIsAscii(text[1..], rest);
      assert text == [text[0]] + text[1..];
    }
  }

  lemma {:induction false} StripsToSpelling(before: string, text: string, after: string, code: string, u: Unicode)
    requires Spells(text, code) && code != [] && AllDigits(code) && Spaces(before) && Spaces(after)
    ensures Spells(Strip(before + text + after, u), code)
    decreases |before|, |text|, |after|
  {
    var all := before + text + after;
    if before != [] {
      assert all[1..] == before[1..] + text + after;
      StripsToSpelling(before[1..], text, after, code, u);
    } else if IsSpace(text[0], u) {
      ReadAs(text[0], code[0]);
      assert all[1..] == before + text[1..] + after;
      StripsToSpelling(before, text[1..], after, code, u);
    } else {
      assert all == text + after && StripLeft(all, u) == all;
      StripsRight(text, after, code, u);
    }
  }

  lemma {:induction false} StripsRight(text: string, after: string, code: string, u: Unicode)
    requires Spells(text, code) && AllDigits(code) && Spaces(after)
    ensures Spells(StripRight(text + after, u), code)
    decreases |after|, |text|
  {
    if after != [] {
      assert (text + after)[..|text + after| - 1] == text + after[..|after| - 1];
      StripsRight(text, after[..|after| - 1], code, u);
    } else {
      assert text + after == text;
      if text != [] && IsSpace(text[|text| - 1], u) {
        SpellingIsAscii(text, code);
        LastIsASpace(text, code, u);
        StripsRight(text[..|text| - 1], [], code, u);
        assert text[..|text| - 1] + [] == text[..|text| - 1];
      }
    }
  }

  /** White space at the end of a spelling spells nothing. */
  lemma {:induction false} LastIsASpace(text: string, code: string, u: Unicode)
    requires text != [] && Spells(text, code) && AllDigits(code) && Ascii(text) && IsSpace(text[|text| - 1], u)
    ensures Spells(text[..|text| - 1], code)
  {
    if |text| == 1 {
      if code != [] { ReadAs(text[0], code[0]); }
    } else {
      assert text[1..][..|text| - 2] == text[..|text| - 1][1..];
      LastIsASpace(text[1..], if text[0] == ' ' || text[0] == '-' then code else code[1..], u);
    }
  }

  /** `U` stands for nothing: a text with one in it spells no code at all. */
  lemma {:induction false} NoU(text: string, code: string)
    requires 'U' in text || 'u' in text
    ensures AllDigits(code) ==> !Spells(text, code)
  {
    if text[0] == 'U' || text[0] == 'u' {
      if code != [] && AllDigits(code) { ReadAs(text[0], code[0]); }
    } else {
      assert 'U' in text[1..] || 'u' in text[1..];
      NoU(text[1..], code);
      if code != [] { NoU(text[1..], code[1..]); }
    }
  }
}
