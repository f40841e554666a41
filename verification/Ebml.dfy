/** Variable-length integers of section 4 of RFC 8794, as ebmlVInt and ebmlUint in
    server/internal/api/voice_notes.go read them, and the extent of an
    unknown-size cluster. */
module Ebml {
  import opened Options

  type Byte = x: nat | x < 256
  type Bytes = seq<Byte>

  function BigEndian(s: Bytes): nat { if s == [] then 0 else 256 * BigEndian(s[..|s| - 1]) + s[|s| - 1] }

  function Power(base: nat, n: nat): nat { if n == 0 then 1 else base * Power(base, n - 1) }

  /** 2^(8-n): the marker bit within the first byte of an n-byte integer. */
  function Top(n: nat): nat
    requires 1 <= n <= 8
  {
    if n == 1 then 128 else if n == 2 then 64 else if n == 3 then 32 else if n == 4 then 16
    else if n == 5 then 8 else if n == 6 then 4 else if n == 7 then 2 else 1
  }

  /** 2^(7n): the marker bit of the whole integer. */
  function Marker(n: nat): nat
    requires 1 <= n <= 8
  {
    Top(n) * Power(256, n - 1)
  }

  /** One more than the number of leading zero bits of a nonzero byte. */
  function Length(first: Byte): (n: nat)
    requires first > 0
    ensures 1 <= n <= 8 && Top(n) <= first < 2 * Top(n)
  {
    if first >= 128 then 1 else if first >= 64 then 2 else if first >= 32 then 3 else if first >= 16 then 4
    else if first >= 8 then 5 else if first >= 4 then 6 else if first >= 2 then 7 else 8
  }

  datatype Read = Read(value: nat, length: nat)

  /** An identifier keeps its marker bit and has at most four bytes. */
  function VInt(data: Bytes, id: bool): Option<Read> {
    if data == [] || data[0] == 0 then None
    else
      var n := Length(data[0]);
      if (id && n > 4) || |data| < n then None
      else if id then Some(Read(BigEndian(data[..n]), n))
      else Some(Read(BigEndian(data[..n]) % Marker(n), n))
  }

  function Unsigned(data: Bytes): Option<nat> {
    if 1 <= |data| <= 8 then Some(BigEndian(data)) else None
  }

  lemma {:induction false} BigEndianBound(s: Bytes)
    ensures BigEndian(s) < Power(256, |s|)
  {
    if s != [] { BigEndianBound(s[..|s| - 1]); }
  }

  lemma {:induction false} BigEndianAppend(a: Bytes, b: Bytes)
    ensures BigEndian(a + b) == BigEndian(a) * Power(256, |b|) + BigEndian(b)
  {
    if b == [] {
      assert a + b == a;
    } else {
      var init := b[..|b| - 1];
      BigEndianAppend(a, init);
      assert (a + b)[..|a + b| - 1] == a + init;
      Shuffle(BigEndian(a), Power(256, |init|), BigEndian(init));
    }
  }

  lemma Shuffle(a: nat, p: nat, b: nat)
    ensures 256 * (a * p + b) == a * (256 * p) + 256 * b
  {}

  lemma {:induction false} PowerGrows(n: nat)
    ensures Power(256, n) > 0 && Power(256, n + 1) == 256 * Power(256, n)
  {
    if n > 0 { PowerGrows(n - 1); }
  }

  lemma BelowProduct(q: nat, t: nat, w: nat, rest: nat)
    requires q < t && rest < w
    ensures q * w + rest < t * w
  {
    assert (q + 1) * w <= t * w;
  }

  lemma ModOnce(m: nat, y: nat)
    requires y < m
    ensures (m + y) % m == y
  {}

  lemma Between(t: nat, w: nat, first: nat, rest: nat)
    requires t <= first < 2 * t && rest < w
    ensures first * w + rest == t * w + ((first - t) * w + rest) && (first - t) * w + rest < t * w
    ensures t * w > 0 && (first * w + rest) % (t * w) == (first - t) * w + rest
  {
    BelowProduct(first - t, t, w, rest);
    assert first * w == t * w + (first - t) * w;
    ModOnce(t * w, (first - t) * w + rest);
  }

  /** Reading an n-byte size removes the marker and nothing else. */
  lemma SizeValue(data: Bytes, n: nat)
    requires data != [] && data[0] > 0 && n == Length(data[0]) && |data| >= n
    ensures Marker(n) > 0 && BigEndian(data[..n]) % Marker(n) < Marker(n)
    ensures BigEndian(data[..n]) == Marker(n) + BigEndian(data[..n]) % Marker(n)
  {
    PowerGrows(n - 1);
    assert data[..n] == [data[0]] + data[1..n];
    BigEndianAppend([data[0]], data[1..n]);
    assert [data[0]][..0] == [] && BigEndian([]) == 0;
    BigEndianBound(data[1..n]);
    Between(Top(n), Power(256, n - 1), data[0], BigEndian(data[1..n]));
  }

  // ---- Writing them ------------------------------------------------------------------

  function Tail(v: nat, n: nat): (s: Bytes)
    ensures |s| == n
  {
    if n == 0 then [] else Tail(v / 256, n - 1) + [v % 256]
  }

  lemma {:induction false} TailReadsBack(v: nat, n: nat)
    requires v < Power(256, n)
    ensures BigEndian(Tail(v, n)) == v
  {
    if n > 0 {
      assert v / 256 < Power(256, n - 1);
      TailReadsBack(v / 256, n - 1);
      assert Tail(v, n)[..n - 1] == Tail(v / 256, n - 1);
    }
  }

  /** The n-byte encoding of a size, section 4 of RFC 8794. */
  function Encoded(v: nat, n: nat): Bytes
    requires 1 <= n <= 8
  {
    Tail(Marker(n) + v, n)
  }

  lemma EncodedFirst(v: nat, n: nat)
    requires 1 <= n <= 8 && v < Marker(n)
    ensures Encoded(v, n)[0] > 0 && Length(Encoded(v, n)[0]) == n && BigEndian(Encoded(v, n)) == Marker(n) + v
  {
    PowerGrows(n - 1);
    var x, w := Marker(n) + v, Power(256, n - 1);
    Doubled(Top(n), w);
    TailReadsBack(x, n);
    var s := Encoded(v, n);
    assert s == [s[0]] + s[1..];
    BigEndianAppend([s[0]], s[1..]);
    assert [s[0]][..0] == [] && BigEndian([]) == 0;
    BigEndianBound(s[1..]);
    FirstDigit(s[0], w, BigEndian(s[1..]), Top(n));
    OnlyLength(s[0], n);
  }

  lemma Doubled(t: nat, w: nat)
    requires t <= 128
    ensures 2 * (t * w) <= 256 * w
  {}

  lemma FirstDigit(first: nat, w: nat, rest: nat, t: nat)
    requires w > 0 && rest < w && t * w <= first * w + rest < 2 * (t * w)
    ensures t <= first < 2 * t
  {
    assert first < t ==> (first + 1) * w <= t * w;
    assert first >= 2 * t ==> first * w >= 2 * t * w;
  }

  lemma OnlyLength(first: Byte, n: nat)
    requires 1 <= n <= 8 && Top(n) <= first < 2 * Top(n)
    ensures first > 0 && Length(first) == n
  {}

  /** A size survives being written in any length that holds it and read back,
      whatever follows it. */
  lemma SizeRoundTrip(v: nat, n: nat, rest: Bytes)
    requires 1 <= n <= 8 && v < Marker(n)
    ensures VInt(Encoded(v, n) + rest, false) == Some(Read(v, n))
  {
    EncodedFirst(v, n);
    var data := Encoded(v, n) + rest;
    assert data[..n] == Encoded(v, n) && data[0] == Encoded(v, n)[0];
    SizeValue(data, n);
  }

  // ---- Reading them -----------------------------------------------------------------

  lemma MaskTest(first: Byte, n: nat)
    requires 1 <= n <= 8 && 0 < first < 2 * Top(n)
    ensures (first / Top(n)) % 2 == 0 ==> n < 8 && first < Top(n) && Top(n) / 2 == Top(n + 1)
    ensures (first / Top(n)) % 2 != 0 ==> n == Length(first) && first % Top(n) == first - Top(n)
  {
    if first < Top(n) {
      assert first / Top(n) == 0;
    } else {
      assert first / Top(n) == 1;
      OnlyLength(first, n);
    }
  }

  lemma FirstAndRest(data: Bytes, n: nat)
    requires data != [] && data[0] > 0 && n == Length(data[0]) && |data| >= n
    ensures BigEndian(data[..n]) == data[0] * Power(256, n - 1) + BigEndian(data[1..n])
    ensures Marker(n) > 0 && BigEndian(data[..n]) % Marker(n) == (data[0] - Top(n)) * Power(256, n - 1) + BigEndian(data[1..n])
  {
    PowerGrows(n - 1);
    assert data[..n] == [data[0]] + data[1..n];
    BigEndianAppend([data[0]], data[1..n]);
    assert [data[0]][..0] == [] && BigEndian([]) == 0;
    BigEndianBound(data[1..n]);
    Between(Top(n), Power(256, n - 1), data[0], BigEndian(data[1..n]));
  }

  lemma NextDigit(data: Bytes, first: nat, i: nat)
    requires 1 <= i < |data|
    ensures (first * Power(256, i - 1) + BigEndian(data[1..i])) * 256 + data[i] == first * Power(256, i) + BigEndian(data[1..i + 1])
  {
    assert data[1..i + 1][..i - 1] == data[1..i];
    Shuffle(first, Power(256, i - 1), BigEndian(data[1..i]));
  }

  /** Counts leading zero bits with a moving mask, then accumulates bytes. */
  method EbmlVInt(data: Bytes, id: bool) returns (r: Option<Read>)
    ensures r == VInt(data, id)
  {
    hide Marker, BigEndian;
    if |data| == 0 || data[0] == 0 {
      return None;
    }
    var n, mask: nat := 1, 0x80;
    while (data[0] / mask) % 2 == 0
      invariant 1 <= n <= 8 && mask == Top(n) && data[0] < mask + mask
      decreases 8 - n
    {
      MaskTest(data[0], n);
      n, mask := n + 1, mask / 2;
    }
    MaskTest(data[0], n);
    if n > 8 || (id && n > 4) || |data| < n {
      return None;
    }
    var v: nat := data[0];
    if !id {
      v := v % mask;
    }
    FirstAndRest(data, n);
    ghost var first: nat := v;
    var i := 1;
    assert data[1..1] == [] && Power(256, 0) == 1 && BigEndian([]) == 0 by { NoDigits(); }
    while i < n
      invariant 1 <= i <= n && v == first * Power(256, i - 1) + BigEndian(data[1..i])
    {
      NextDigit(data, first, i);
      v := v * 256 + data[i];
      i := i + 1;
    }
    return Some(Read(v, n));
  }

  lemma NoDigits()
    ensures BigEndian([]) == 0 && Power(256, 0) == 1
  {}

  method EbmlUint(data: Bytes) returns (r: Option<nat>)
    ensures r == Unsigned(data)
    ensures r.Some? ==> r.value < Power(256, 8)
  {
    if |data| == 0 || |data| > 8 {
      return None;
    }
    var v: nat, i := 0, 0;
    while i < |data|
      invariant 0 <= i <= |data| && v == BigEndian(data[..i])
    {
      assert data[..i + 1][..i] == data[..i];
      v := v * 256 + data[i];
      i := i + 1;
    }
    assert data[..i] == data;
    BigEndianBound(data);
    PowerMonotone(|data|, 8);
    return Some(v);
  }

  lemma {:induction false} PowerMonotone(a: nat, b: nat)
    requires a <= b
    ensures Power(256, a) <= Power(256, b)
  {
    if a < b {
      PowerMonotone(a, b - 1);
      PowerGrows(b - 1);
    }
  }

  // ---- Unknown-size clusters ----------------------------------------------------------

  /** Identifiers that cannot be children of a cluster. */
  predicate TopLevel(id: nat) {
    id in {0x1f43b675, 0x1549a966, 0x1654ae6b, 0x1c53bb6b, 0x114d9b74, 0x1254c367, 0x1941a469, 0x1043a770}
  }

  /** The length of the complete element at a position, if there is one that a
      cluster may contain. */
  function Element(body: Bytes, at: nat): Option<nat>
    requires at <= |body|
  {
    var id := VInt(body[at..], true);
    if id.None? || TopLevel(id.value.value) then None
    else
      var size := VInt(body[at + id.value.length..], false);
      if size.None? || size.value.value == Marker(size.value.length) - 1
         || size.value.value > |body| - at - id.value.length - size.value.length
      then None
      else Some(id.value.length + size.value.length + size.value.value)
  }

  /** [from, to) is complete elements, one after the other. */
  predicate Elements(body: Bytes, from: nat, to: nat)
    requires from <= to <= |body|
    decreases if from <= to then to - from else 0
  {
    from == to || (Element(body, from).Some? && from + Element(body, from).value <= to && Element(body, from).value > 0
                   && Elements(body, from + Element(body, from).value, to))
  }

  predicate Ends(body: Bytes, at: nat)
    requires at <= |body|
  {
    at == |body| || (VInt(body[at..], true).Some? && TopLevel(VInt(body[at..], true).value.value))
  }

  lemma VIntFits(data: Bytes, id: bool)
    ensures VInt(data, id).Some? ==> 1 <= VInt(data, id).value.length <= |data| && VInt(data, id).value.length <= 8
    ensures VInt(data, id).Some? && !id ==> VInt(data, id).value.value < Marker(VInt(data, id).value.length)
  {
    if VInt(data, id).Some? { SizeValue(data, Length(data[0])); }
  }

  lemma ElementFits(body: Bytes, at: nat)
    requires at <= |body|
    ensures Element(body, at).Some? ==> 0 < Element(body, at).value <= |body| - at && !Ends(body, at)
  {
    VIntFits(body[at..], true);
    if Element(body, at).Some? {
      VIntFits(body[at + VInt(body[at..], true).value.length..], false);
    }
  }

  lemma {:induction false} ElementsExtend(body: Bytes, from: nat, mid: nat)
    requires from <= mid <= |body| && Elements(body, from, mid) && Element(body, mid).Some?
    ensures mid + Element(body, mid).value <= |body| && Elements(body, from, mid + Element(body, mid).value)
    decreases mid - from
  {
    hide Element, Ends, VInt, Marker, TopLevel;
    ElementFits(body, mid);
    if from < mid {
      ElementsExtend(body, from + Element(body, from).value, mid);
    }
  }

  /** Two readings of the same bytes cannot end in different places. */
  lemma {:induction false} OneEnd(body: Bytes, from: nat, p: nat, q: nat)
    requires from <= p <= |body| && from <= q <= |body|
    requires Elements(body, from, p) && Ends(body, p) && Elements(body, from, q) && Ends(body, q)
    ensures p == q
    decreases p - from
  {
    ElementFits(body, from);
    hide Element, VInt, TopLevel;
    if from < p && from < q {
      OneEnd(body, from + Element(body, from).value, p, q);
    }
  }

  /** A reading that is stuck short of an end cannot be completed. */
  lemma {:induction false} NoEnd(body: Bytes, from: nat, stuck: nat, q: nat)
    requires from <= stuck <= |body| && Elements(body, from, stuck) && Element(body, stuck).None? && !Ends(body, stuck)
    requires from <= q <= |body| && Elements(body, from, q)
    ensures !Ends(body, q)
    decreases stuck - from
  {
    ElementFits(body, from);
    hide Element;
    if from < stuck && from < q {
      NoEnd(body, from + Element(body, from).value, stuck, q);
    }
  }

  /** The size of a cluster that does not declare one: p is returned exactly when
      the bytes before p are complete elements and p is the end or a top-level
      identifier (section 6.2 of RFC 8794). */
  method UnknownClusterSize(body: Bytes) returns (r: Option<nat>)
    ensures r.Some? ==> r.value <= |body| && Elements(body, 0, r.value) && Ends(body, r.value)
    ensures r.None? ==> forall q: nat | q <= |body| && Elements(body, 0, q) :: !Ends(body, q)
  {
    hide VInt, Marker, Elements, TopLevel;
    var position := 0;
    NothingRead(body);
    while position < |body|
      invariant 0 <= position <= |body| && Elements(body, 0, position)
      decreases |body| - position
    {
      var id := EbmlVInt(body[position..], true);
      VIntFits(body[position..], true);
      if id.None? {
        StuckEverywhere(body, position);
        return None;
      }
      if TopLevel(id.value.value) {
        return Some(position);
      }
      var size := EbmlVInt(body[position + id.value.length..], false);
      VIntFits(body[position + id.value.length..], false);
      if size.None? || size.value.value == Marker(size.value.length) - 1
         || size.value.value > |body| - position - id.value.length - size.value.length {
        StuckEverywhere(body, position);
        return None;
      }
      ElementFits(body, position);
      ElementsExtend(body, 0, position);
      position := position + id.value.length + size.value.length + size.value.value;
    }
    return Some(position);
  }

  lemma NothingRead(body: Bytes)
    ensures Elements(body, 0, 0)
  {}

  lemma StuckEverywhere(body: Bytes, stuck: nat)
    requires stuck <= |body| && Elements(body, 0, stuck) && Element(body, stuck).None? && !Ends(body, stuck)
    ensures forall q: nat | q <= |body| && Elements(body, 0, q) :: !Ends(body, q)
  {
    hide Element, Elements, Ends;
    forall q: nat | q <= |body| && Elements(body, 0, q) ensures !Ends(body, q) {
      NoEnd(body, 0, stuck, q);
    }
  }
}
