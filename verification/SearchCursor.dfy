/** The search cursor of server/internal/api/search_filters.go: a sequence number in
    unpadded base64url. */
module SearchCursor {
  import opened Options

  type Byte = x: nat | x < 256

  const MIN_INT64: int := -0x8000_0000_0000_0000
  const MAX_INT64: int := 0x7fff_ffff_ffff_ffff

  /** The URL alphabet of section 5 of RFC 4648. */
  function Letter(v: nat): char
    requires v < 64
  {
    if v < 26 then ('A' as int + v) as char
    else if v < 52 then ('a' as int + v - 26) as char
    else if v < 62 then ('0' as int + v - 52) as char
    else if v == 62 then '-' else '_'
  }

  function Value(c: char): (v: Option<nat>)
    ensures v.Some? ==> v.value < 64
  {
    if 'A' <= c <= 'Z' then Some(c as int - 'A' as int)
    else if 'a' <= c <= 'z' then Some(c as int - 'a' as int + 26)
    else if '0' <= c <= '9' then Some(c as int - '0' as int + 52)
    else if c == '-' then Some(62) else if c == '_' then Some(63) else None
  }

  lemma LetterValue(v: nat)
    requires v < 64
    ensures Value(Letter(v)) == Some(v)
  {}

  /** A sextet of two neighbouring bytes, and a byte of two neighbouring sextets. */
  function High(x: Byte): (v: nat)
    ensures v < 64
  {
    x / 4
  }

  function Middle(x: Byte, y: Byte): (v: nat)
    ensures v < 64
  {
    x % 4 * 16 + y / 16
  }

  function Low(y: Byte, z: Byte): (v: nat)
    ensures v < 64
  {
    y % 16 * 4 + z / 64
  }

  function Last(z: Byte): (v: nat)
    ensures v < 64
  {
    z % 64
  }

  function First8(a: nat, b: nat): Byte
    requires a < 64 && b < 64
  {
    a * 4 + b / 16
  }

  function Second8(b: nat, c: nat): Byte
    requires b < 64 && c < 64
  {
    b % 16 * 16 + c / 4
  }

  function Third8(c: nat, d: nat): Byte
    requires c < 64 && d < 64
  {
    c % 4 * 64 + d
  }

  /** Unpadded: three bytes to four letters, the rest to two or three. */
  function Encode64(s: seq<Byte>): (t: string)
    ensures 3 * |t| <= 4 * |s| + 2
  {
    if s == [] then ""
    else if |s| == 1 then [Letter(High(s[0])), Letter(Middle(s[0], 0))]
    else if |s| == 2 then [Letter(High(s[0])), Letter(Middle(s[0], s[1])), Letter(Low(s[1], 0))]
    else [Letter(High(s[0])), Letter(Middle(s[0], s[1])), Letter(Low(s[1], s[2])), Letter(Last(s[2]))] + Encode64(s[3..])
  }

  /** Trailing bits are ignored; a single letter left over is an error. */
  function Decode64(t: string): Option<seq<Byte>> {
    if t == "" then Some([])
    else if |t| == 1 || Value(t[0]).None? || Value(t[1]).None? then None
    else
      var a, b := Value(t[0]).value, Value(t[1]).value;
      if |t| == 2 then Some([First8(a, b)])
      else if Value(t[2]).None? then None
      else
        var c := Value(t[2]).value;
        if |t| == 3 then Some([First8(a, b), Second8(b, c)])
        else if Value(t[3]).None? || Decode64(t[4..]).None? then None
        else Some([First8(a, b), Second8(b, c), Third8(c, Value(t[3]).value)] + Decode64(t[4..]).value)
  }

  lemma Regroup(x: Byte, y: Byte, z: Byte)
    ensures First8(High(x), Middle(x, y)) == x && Second8(Middle(x, y), Low(y, z)) == y && Third8(Low(y, z), Last(z)) == z
  {}

  lemma ReadFour(a: char, b: char, c: char, d: char, rest: string, more: seq<Byte>)
    requires Value(a).Some? && Value(b).Some? && Value(c).Some? && Value(d).Some? && Decode64(rest) == Some(more)
    ensures Decode64([a, b, c, d] + rest) == Some([First8(Value(a).value, Value(b).value),
      Second8(Value(b).value, Value(c).value), Third8(Value(c).value, Value(d).value)] + more)
  {
    hide Value, First8, Second8, Third8;
    assert ([a, b, c, d] + rest)[4..] == rest;
  }

  lemma ReadFew(a: char, b: char, c: char)
    requires Value(a).Some? && Value(b).Some?
    ensures Decode64([a, b]) == Some([First8(Value(a).value, Value(b).value)])
    ensures Value(c).Some? ==>
      Decode64([a, b, c]) == Some([First8(Value(a).value, Value(b).value), Second8(Value(b).value, Value(c).value)])
  {
    hide Value, First8, Second8, Third8;
  }

  /** The letters of the first three bytes, missing ones read as zero. */
  lemma LettersReadBack(x: Byte, y: Byte, z: Byte)
    ensures Value(Letter(High(x))) == Some(High(x)) && Value(Letter(Middle(x, y))) == Some(Middle(x, y))
    ensures Value(Letter(Low(y, z))) == Some(Low(y, z)) && Value(Letter(Last(z))) == Some(Last(z))
  {
    LetterValue(High(x));
    LetterValue(Middle(x, y));
    LetterValue(Low(y, z));
    LetterValue(Last(z));
  }

  lemma OneEncoded(s: seq<Byte>)
    requires |s| == 1
    ensures Encode64(s) == [Letter(High(s[0])), Letter(Middle(s[0], 0))]
  {
    hide Letter, Value, High, Middle, Low, Last;
  }

  lemma OneDecoded(x: Byte)
    ensures Decode64([Letter(High(x)), Letter(Middle(x, 0))]) == Some([First8(High(x), Middle(x, 0))])
  {
    LetterValue(High(x));
    LetterValue(Middle(x, 0));
    hide First8, High, Middle, Letter, Value, Decode64;
    ReadFew(Letter(High(x)), Letter(Middle(x, 0)), Letter(High(x)));
  }

  lemma OneRoundTrip(s: seq<Byte>)
    requires |s| == 1
    ensures Decode64(Encode64(s)) == Some(s)
  {
    hide Letter, High, Middle, First8, Second8, Third8, Low, Last, Encode64, Decode64;
    OneEncoded(s);
    OneDecoded(s[0]);
    Regroup(s[0], 0, 0);
    assert s == [s[0]];
  }

  lemma TwoRoundTrip(x: Byte, y: Byte)
    ensures Decode64(Encode64([x, y])) == Some([x, y])
  {
    LettersReadBack(x, y, 0);
    Regroup(x, y, 0);
    hide Letter, Value, High, Middle, Low, Last, First8, Second8, Third8, Decode64;
    assert Encode64([x, y]) == [Letter(High(x)), Letter(Middle(x, y)), Letter(Low(y, 0))];
    ReadFew(Letter(High(x)), Letter(Middle(x, y)), Letter(Low(y, 0)));
  }

  lemma ThreeRoundTrip(x: Byte, y: Byte, z: Byte, rest: seq<Byte>)
    requires Decode64(Encode64(rest)) == Some(rest)
    ensures Decode64(Encode64([x, y, z] + rest)) == Some([x, y, z] + rest)
  {
    LettersReadBack(x, y, z);
    Regroup(x, y, z);
    hide Letter, Value, High, Middle, Low, Last, First8, Second8, Third8, Decode64;
    var s := [x, y, z] + rest;
    assert s[3..] == rest;
    assert Encode64(s) == [Letter(High(x)), Letter(Middle(x, y)), Letter(Low(y, z)), Letter(Last(z))] + Encode64(rest);
    ReadFour(Letter(High(x)), Letter(Middle(x, y)), Letter(Low(y, z)), Letter(Last(z)), Encode64(rest), rest);
  }

  lemma {:induction false} Base64RoundTrip(s: seq<Byte>)
    ensures Decode64(Encode64(s)) == Some(s)
  {
    if s == [] {
      assert Encode64(s) == "" && Decode64("") == Some([]);
    } else {
      hide Encode64, Decode64;
      if |s| == 1 {
        OneRoundTrip(s);
      } else if |s| == 2 {
        TwoRoundTrip(s[0], s[1]);
        assert s == [s[0], s[1]];
      } else {
        Base64RoundTrip(s[3..]);
        ThreeRoundTrip(s[0], s[1], s[2], s[3..]);
        assert s == [s[0], s[1], s[2]] + s[3..];
      }
    }
  }

  // ---- Numbers -----------------------------------------------------------------------

  /** strconv.FormatInt in base ten. */
  function Digits(n: nat): (s: seq<Byte>)
    ensures |s| > 0 && forall i | 0 <= i < |s| :: 48 <= s[i] <= 57
  {
    if n < 10 then [48 + n] else Digits(n / 10) + [48 + n % 10]
  }

  function FormatInt(n: int): seq<Byte> { if n < 0 then [45] + Digits(-n) else Digits(n) }

  function Number(s: seq<Byte>): Option<nat> {
    if s == [] then None
    else
      var d := s[|s| - 1];
      if d < 48 || d > 57 then None
      else if |s| == 1 then Some(d - 48)
      else if Number(s[..|s| - 1]).None? then None
      else Some(10 * Number(s[..|s| - 1]).value + (d - 48))
  }

  /** strconv.ParseInt: an optional sign and digits, within 64 bits. */
  function ParseInt(s: seq<Byte>): Option<int> {
    if s == [] then None
    else
      var body := if s[0] == 43 || s[0] == 45 then s[1..] else s;
      var n := Number(body);
      if n.None? then None
      else
        var size: int := n.value;
        var value := if s[0] == 45 then -size else size;
        if MIN_INT64 <= value <= MAX_INT64 then Some(value) else None
  }

  lemma {:induction false} DigitsReadBack(n: nat)
    ensures Number(Digits(n)) == Some(n)
  {
    if n >= 10 {
      DigitsReadBack(n / 10);
      assert Digits(n)[..|Digits(n)| - 1] == Digits(n / 10);
    }
  }

  lemma NumberRoundTrip(n: int)
    requires MIN_INT64 <= n <= MAX_INT64
    ensures ParseInt(FormatInt(n)) == Some(n)
  {
    if n < 0 {
      DigitsReadBack(-n);
      assert FormatInt(n)[1..] == Digits(-n);
    } else {
      DigitsReadBack(n);
    }
  }

  function Power(k: nat): nat { if k == 0 then 1 else 10 * Power(k - 1) }

  lemma {:induction false} FewDigits(n: nat, k: nat)
    requires k > 0 && n < Power(k)
    ensures |Digits(n)| <= k
  {
    if n >= 10 {
      assert k > 1 by { assert Power(1) == 10 * Power(0) && Power(0) == 1; }
      assert n / 10 < Power(k - 1);
      FewDigits(n / 10, k - 1);
    }
  }

  lemma NineteenDigits()
    ensures Power(19) == 10_000_000_000_000_000_000
  {
    assert Power(0) == 1;
    assert Power(4) == 10_000;
    assert Power(8) == 100_000_000;
    assert Power(12) == 1_000_000_000_000;
    assert Power(16) == 10_000_000_000_000_000;
  }

  // ---- The cursor ----------------------------------------------------------------------

  const PREFIX: string := "search:"

  function EncodeSearchCursor(sequence: int): string { PREFIX + Encode64(FormatInt(sequence)) }

  /** Line breaks inside the encoding are skipped. */
  function Unbroken(t: string): string {
    if t == "" then "" else (if t[0] == '\r' || t[0] == '\n' then "" else [t[0]]) + Unbroken(t[1..])
  }

  function DecodeSearchCursor(cursor: string): Option<int> {
    if |cursor| < |PREFIX| || cursor[..|PREFIX|] != PREFIX || |cursor| > 40 then None
    else
      var data := Decode64(Unbroken(cursor[|PREFIX|..]));
      if data.None? then None
      else
        var sequence := ParseInt(data.value);
        if sequence.None? || sequence.value < 1 then None else sequence
  }

  lemma {:induction false} EncodedIsUnbroken(s: seq<Byte>)
    ensures Unbroken(Encode64(s)) == Encode64(s)
  {
    hide Letter;
    LettersAreUnbroken();
    if |s| > 2 {
      EncodedIsUnbroken(s[3..]);
      FourUnbroken(Encode64(s)[..4], Encode64(s[3..]));
      assert Encode64(s) == Encode64(s)[..4] + Encode64(s[3..]);
    } else if |s| == 1 {
      Plain(Encode64(s));
    } else if |s| == 2 {
      Plain(Encode64(s));
    }
  }

  lemma LettersAreUnbroken()
    ensures forall v: nat | v < 64 :: Letter(v) != '\r' && Letter(v) != '\n'
  {}

  lemma {:induction false} Plain(t: string)
    requires forall i | 0 <= i < |t| :: t[i] != '\r' && t[i] != '\n'
    ensures Unbroken(t) == t
  {
    if t != "" { Plain(t[1..]); }
  }

  lemma {:induction false} FourUnbroken(a: string, b: string)
    requires (forall i | 0 <= i < |a| :: a[i] != '\r' && a[i] != '\n') && Unbroken(b) == b
    ensures Unbroken(a + b) == a + b
  {
    if a == "" {
      assert a + b == b;
    } else {
      FourUnbroken(a[1..], b);
      assert (a + b)[1..] == a[1..] + b;
    }
  }

  /** A cursor carries its sequence back for every value from 1 up, and is refused
      for every other. */
  lemma CursorRoundTrip(sequence: int)
    requires MIN_INT64 <= sequence <= MAX_INT64
    ensures DecodeSearchCursor(EncodeSearchCursor(sequence)) == if sequence >= 1 then Some(sequence) else None
  {
    var s := FormatInt(sequence);
    NineteenDigits();
    FewDigits(if sequence < 0 then -sequence else sequence, 19);
    NumberRoundTrip(sequence);
    Base64RoundTrip(s);
    EncodedIsUnbroken(s);
    hide Digits, Encode64, Decode64, ParseInt, Number, Unbroken, Power;
    assert |s| <= 20;
    var cursor := EncodeSearchCursor(sequence);
    assert |cursor| <= 40;
    assert cursor[|PREFIX|..] == Encode64(s) && cursor[..|PREFIX|] == PREFIX;
  }
}
