/** The MP4 walk of server/internal/api/voice_notes.go over untrusted bytes, with
    its 64-bit tick arithmetic. */
module VoiceMp4 {
  import opened Ebml
  import opened Options
  import opened Walks

  const MAX_BOXES: nat := 100000
  const MAX_DEPTH: nat := 8
  const MAX_SAMPLES: nat := 200000
  const WORD: nat := 0x1_0000_0000_0000_0000
  const MAX_UINT32: nat := 0xffff_ffff

  /** Unsigned 64-bit sums and products wrap. */
  function Add64(a: nat, b: nat): nat { (a + b) % WORD }

  function Mul64(a: nat, b: nat): nat { (a * b) % WORD }

  predicate Kind(s: Bytes, text: string) { |s| == |text| && forall i | 0 <= i < |s| :: s[i] == text[i] as int }

  function U32(s: Bytes, at: nat): (v: nat)
    requires at + 4 <= |s|
    ensures v <= MAX_UINT32
  {
    BigEndianBound(s[at..at + 4]);
    Widths();
    BigEndian(s[at..at + 4])
  }

  lemma Widths()
    ensures Power(256, 4) == 0x1_0000_0000 && Power(256, 8) == WORD
  {
    assert Power(256, 0) == 1;
    assert Power(256, 1) == 0x100;
    assert Power(256, 2) == 0x1_0000;
    assert Power(256, 3) == 0x100_0000;
    assert Power(256, 4) == 0x1_0000_0000;
    assert Power(256, 5) == 0x100_0000_0000;
    assert Power(256, 6) == 0x1_0000_0000_0000;
    assert Power(256, 7) == 0x100_0000_0000_0000;
  }

  function U64(s: Bytes, at: nat): (v: nat)
    requires at + 8 <= |s|
    ensures v < WORD
  {
    BigEndianBound(s[at..at + 8]);
    Widths();
    BigEndian(s[at..at + 8])
  }

  // ---- Structure -------------------------------------------------------------------

  datatype Event = Opens(kind: Bytes) | Leaf(kind: Bytes, part: Bytes) | ClosesFragment

  datatype Header = Header(kind: Bytes, head: nat, size: nat)

  /** A box: 32-bit size, 64-bit size after a one, or the rest after a zero. */
  function HeaderOf(body: Bytes): (h: Option<Header>)
    ensures h.Some? ==> 8 <= h.value.head <= h.value.size <= |body|
  {
    if |body| < 8 || (U32(body, 0) == 1 && |body| < 16) then None
    else
      var head := if U32(body, 0) == 1 then 16 else 8;
      var declared := if U32(body, 0) == 1 then U64(body, 8) else U32(body, 0);
      var size := if declared == 0 then |body| else declared;
      if size < head || size > |body| then None else Some(Header(body[4..8], head, size))
  }

  predicate Container(kind: Bytes) {
    || Kind(kind, "moov") || Kind(kind, "trak") || Kind(kind, "mdia") || Kind(kind, "minf")
    || Kind(kind, "stbl") || Kind(kind, "moof") || Kind(kind, "mvex")
  }

  predicate Traf(kind: Bytes) { Kind(kind, "traf") }

  function Closing(kind: Bytes): seq<Event> { if Traf(kind) then [ClosesFragment] else [] }

  function Inside(kind: Bytes, inner: Option<seq<Event>>): Option<seq<Event>> {
    if inner.None? then None else Some([Opens(kind)] + inner.value + Closing(kind))
  }

  function Flatten(body: Bytes, depth: nat): Option<seq<Event>>
    decreases |body|
  {
    if depth > MAX_DEPTH then None
    else if body == [] then Some([])
    else
      var h := HeaderOf(body);
      if h.None? then None
      else
        var part, rest := body[h.value.head..h.value.size], body[h.value.size..];
        var own := if Container(h.value.kind) || Traf(h.value.kind) then Inside(h.value.kind, Flatten(part, depth + 1))
                   else Some([Leaf(h.value.kind, part)]);
        Both(own, Flatten(rest, depth))
  }

  /** The events of one box. */
  function Own(kind: Bytes, part: Bytes, depth: nat): Option<seq<Event>> {
    if Container(kind) || Traf(kind) then Inside(kind, Flatten(part, depth + 1)) else Some([Leaf(kind, part)])
  }

  // ---- Meaning -----------------------------------------------------------------------

  datatype Run = Run(count: nat, ticks: nat, isExplicit: bool)

  datatype Fragment = Fragment(track: nat, start: nat, hasStart: bool, defaultDuration: nat, runs: seq<Run>)

  const EMPTY_FRAGMENT: Fragment := Fragment(0, 0, false, 0, [])

  /** The variables the walk captures, and the fragment it is inside, if any. */
  datatype Reading = Reading(handlers: nat, media: nat, headers: nat, codecs: nat, clockHeaders: nat, scale: nat,
                             audioTrack: nat, trexTrack: nat, trexDuration: nat, duration: real,
                             fragments: seq<Fragment>, boxes: nat, samples: nat, fragment: Option<Fragment>)

  const START: Reading := Reading(0, 0, 0, 0, 0, 0, 0, 0, 0, 0.0, [], 0, 0, None)

  function Bit(flags: nat, bit: nat): bool
    requires bit > 0
  {
    (flags / bit) % 2 == 1
  }

  /** The low 24 bits of a full box's first word. */
  function Flags(part: Bytes): nat
    requires |part| >= 4
  {
    U32(part, 0) % 0x100_0000
  }

  function TrackHeader(part: Bytes): Option<nat> {
    if |part| >= 20 && part[0] == 0 then Some(U32(part, 12))
    else if |part| >= 32 && part[0] == 1 then Some(U32(part, 20))
    else None
  }

  /** The media header's scale and duration in ticks. */
  function MediaHeader(part: Bytes): Option<(nat, nat)> {
    if |part| >= 24 && part[0] == 0 then Some((U32(part, 12), U32(part, 16)))
    else if |part| >= 36 && part[0] == 1 then Some((U32(part, 20), U64(part, 24)))
    else None
  }

  function Seconds(ticks: nat, scale: nat): real
    requires scale > 0
  {
    ticks as real * 1000.0 / scale as real
  }

  predicate KnownTicks(ticks: nat) { ticks != 0 && ticks != MAX_UINT32 && ticks != WORD - 1 }

  predicate GoodCodec(part: Bytes) {
    && |part| >= 16 && U32(part, 4) == 1 && U32(part, 8) >= 36 && U32(part, 8) == |part| - 8
    && (Kind(part[12..16], "mp4a") || Kind(part[12..16], "Opus"))
  }

  function FragmentHeaderLength(flags: nat): nat {
    8 + (if Bit(flags, 1) then 8 else 0) + (if Bit(flags, 2) then 4 else 0) + (if Bit(flags, 8) then 4 else 0)
      + (if Bit(flags, 0x10) then 4 else 0) + (if Bit(flags, 0x20) then 4 else 0)
  }

  function DefaultAt(flags: nat): nat { 8 + (if Bit(flags, 1) then 8 else 0) + (if Bit(flags, 2) then 4 else 0) }

  /** tfhd: the track and the default sample duration, once per fragment. */
  function FragmentHeader(f: Fragment, part: Bytes): Option<Fragment> {
    if |part| < 8 || f.track != 0 then None
    else
      var flags := Flags(part);
      if |part| != FragmentHeaderLength(flags) then None
      else Some(f.(track := U32(part, 4), defaultDuration := if Bit(flags, 8) then U32(part, DefaultAt(flags)) else f.defaultDuration))
  }

  function DecodeTime(f: Fragment, part: Bytes): Option<Fragment> {
    if f.hasStart then None
    else if |part| == 8 && part[0] == 0 then Some(f.(start := U32(part, 4), hasStart := true))
    else if |part| == 12 && part[0] == 1 then Some(f.(start := U64(part, 4), hasStart := true))
    else None
  }

  /** trun: where the samples start, and how many bytes each takes. */
  function SamplesAt(flags: nat): nat { 8 + (if Bit(flags, 1) then 4 else 0) + (if Bit(flags, 4) then 4 else 0) }

  function Width(flags: nat): nat {
    (if Bit(flags, 0x100) then 4 else 0) + (if Bit(flags, 0x200) then 4 else 0)
      + (if Bit(flags, 0x400) then 4 else 0) + (if Bit(flags, 0x800) then 4 else 0)
  }

  /** Durations of the first n samples, added up without a bound. */
  function SampleSum(part: Bytes, flags: nat, n: nat): nat
    requires SamplesAt(flags) + n * Width(flags) <= |part| && Width(flags) >= 4
  {
    if n == 0 then 0
    else
      assert SamplesAt(flags) + (n - 1) * Width(flags) + 4 <= |part|;
      SampleSum(part, flags, n - 1) + U32(part, SamplesAt(flags) + (n - 1) * Width(flags))
  }

  predicate GoodSample(part: Bytes, flags: nat, i: nat)
    requires SamplesAt(flags) + (i + 1) * Width(flags) <= |part|
  {
    var at := SamplesAt(flags) + i * Width(flags);
    assert (i + 1) * Width(flags) == i * Width(flags) + Width(flags);
    && (Bit(flags, 0x100) ==> U32(part, at) != 0)
    && (Bit(flags, 0x800) ==> U32(part, at + Width(flags) - 4) == 0)
  }

  lemma WithinSamples(part: Bytes, flags: nat, count: nat, i: nat)
    requires SamplesAt(flags) + count * Width(flags) == |part| && i < count
    ensures SamplesAt(flags) + (i + 1) * Width(flags) <= |part| && SamplesAt(flags) + i * Width(flags) <= |part|
  {
    assert (i + 1) * Width(flags) <= count * Width(flags);
    assert i * Width(flags) <= (i + 1) * Width(flags);
  }

  predicate GoodSamples(part: Bytes, flags: nat, count: nat)
    requires SamplesAt(flags) + count * Width(flags) == |part|
  {
    forall i | 0 <= i < count :: (WithinSamples(part, flags, count, i); GoodSample(part, flags, i))
  }

  /** trun, given the samples counted before it. */
  function TrackRun(samples: nat, part: Bytes): Option<Run> {
    if |part| < 8 || part[0] > 1 then None
    else
      var flags, count := Flags(part), U32(part, 4);
      if count == 0 || samples + count > MAX_SAMPLES || SamplesAt(flags) + count * Width(flags) != |part| then None
      else if !GoodSamples(part, flags, count) then None
      else Some(Run(count, if Bit(flags, 0x100) then SampleSum(part, flags, count) else 0, Bit(flags, 0x100)))
  }

  function LeafStep(st: Reading, kind: Bytes, part: Bytes): Option<Reading> {
    if Kind(kind, "ftyp") then
      if |part| < 8 then None else Some(st.(headers := st.headers + 1))
    else if Kind(kind, "tkhd") then
      var track := TrackHeader(part);
      if track.None? || track.value == 0 || st.audioTrack != 0 then None else Some(st.(audioTrack := track.value))
    else if Kind(kind, "hdlr") then
      if |part| < 12 || !Kind(part[8..12], "soun") then None else Some(st.(handlers := st.handlers + 1))
    else if Kind(kind, "mdat") then
      Some(if |part| > 0 then st.(media := st.media + 1) else st)
    else if Kind(kind, "stsd") then
      if GoodCodec(part) then Some(st.(codecs := st.codecs + 1)) else None
    else if Kind(kind, "mdhd") then
      var clock := MediaHeader(part);
      if clock.None? || clock.value.0 == 0 then None
      else Some(st.(clockHeaders := st.clockHeaders + 1, scale := clock.value.0,
                    duration := if KnownTicks(clock.value.1) then Seconds(clock.value.1, clock.value.0) else st.duration))
    else if Kind(kind, "trex") then
      if |part| != 24 || st.trexTrack != 0 then None
      else Some(st.(trexTrack := U32(part, 4), trexDuration := U32(part, 12)))
    else if Kind(kind, "tfhd") then
      if st.fragment.None? || FragmentHeader(st.fragment.value, part).None? then None
      else Some(st.(fragment := FragmentHeader(st.fragment.value, part)))
    else if Kind(kind, "tfdt") then
      if st.fragment.None? || DecodeTime(st.fragment.value, part).None? then None
      else Some(st.(fragment := DecodeTime(st.fragment.value, part)))
    else if Kind(kind, "trun") then
      if st.fragment.None? || TrackRun(st.samples, part).None? then None
      else
        var f, run := st.fragment.value, TrackRun(st.samples, part).value;
        Some(st.(samples := st.samples + run.count, fragment := Some(f.(runs := f.runs + [run]))))
    else Some(st)
  }

  function Step(st: Reading, e: Event): Option<Reading> {
    match e
    case ClosesFragment =>
      if st.fragment.None? || st.fragment.value.track == 0 || st.fragment.value.runs == [] then None
      else Some(st.(fragments := st.fragments + [st.fragment.value], fragment := None))
    case Opens(kind) =>
      if st.boxes + 1 > MAX_BOXES || (Traf(kind) && st.fragment.Some?) then None
      else Some(st.(boxes := st.boxes + 1, fragment := if Traf(kind) then Some(EMPTY_FRAGMENT) else st.fragment))
    case Leaf(kind, part) =>
      if st.boxes + 1 > MAX_BOXES then None else LeafStep(st.(boxes := st.boxes + 1), kind, part)
  }

  const STEP: (Reading, Event) -> Option<Reading> := (st, e) => Step(st, e)

  // ---- The clock -----------------------------------------------------------------------

  /** The media header's duration and scale, last one first. */
  function MediaDuration(events: seq<Event>): real {
    if events == [] then 0.0
    else
      var e := events[|events| - 1];
      if e.Leaf? && Kind(e.kind, "mdhd") && MediaHeader(e.part).Some? && MediaHeader(e.part).value.0 > 0
         && KnownTicks(MediaHeader(e.part).value.1)
      then Seconds(MediaHeader(e.part).value.1, MediaHeader(e.part).value.0)
      else MediaDuration(events[..|events| - 1])
  }

  function MediaScale(events: seq<Event>): nat {
    if events == [] then 0
    else
      var e := events[|events| - 1];
      if e.Leaf? && Kind(e.kind, "mdhd") && MediaHeader(e.part).Some? then MediaHeader(e.part).value.0
      else MediaScale(events[..|events| - 1])
  }

  lemma {:induction false} SampleSumBound(part: Bytes, flags: nat, n: nat)
    requires SamplesAt(flags) + n * Width(flags) <= |part| && Width(flags) >= 4
    ensures SampleSum(part, flags, n) <= n * MAX_UINT32
  {
    if n > 0 {
      assert SamplesAt(flags) + (n - 1) * Width(flags) + 4 <= |part|;
      SampleSumBound(part, flags, n - 1);
    }
  }

  predicate BoundedRun(r: Run) { r.count <= MAX_SAMPLES && r.ticks <= r.count * MAX_UINT32 }

  predicate BoundedFragment(f: Fragment) {
    f.start < WORD && f.defaultDuration <= MAX_UINT32 && forall i | 0 <= i < |f.runs| :: BoundedRun(f.runs[i])
  }

  /** Everything read from 32-bit fields stays small. */
  predicate Bounded(st: Reading) {
    && st.trexDuration <= MAX_UINT32 && st.samples <= MAX_SAMPLES && (st.clockHeaders > 0 ==> st.scale > 0)
    && (st.fragment.Some? ==> BoundedFragment(st.fragment.value))
    && forall i | 0 <= i < |st.fragments| :: BoundedFragment(st.fragments[i])
  }

  lemma RunBounded(samples: nat, part: Bytes)
    ensures TrackRun(samples, part).Some? ==> BoundedRun(TrackRun(samples, part).value)
    ensures TrackRun(samples, part).Some? ==> samples + TrackRun(samples, part).value.count <= MAX_SAMPLES
  {
    hide GoodSamples, SampleSum;
    if TrackRun(samples, part).Some? && Bit(Flags(part), 0x100) {
      SampleSumBound(part, Flags(part), U32(part, 4));
    }
  }

  lemma LeafBounded(st: Reading, kind: Bytes, part: Bytes)
    requires Bounded(st) && LeafStep(st, kind, part).Some?
    ensures Bounded(LeafStep(st, kind, part).value)
  {
    RunBounded(st.samples, part);
    hide Kind, TrackRun, GoodCodec, BoundedRun, U32, U64, Flags, FragmentHeaderLength, DefaultAt, Seconds;
    FieldsBounded(st, part);
  }

  lemma FieldsBounded(st: Reading, part: Bytes)
    requires st.fragment.Some? ==> BoundedFragment(st.fragment.value)
    ensures st.fragment.Some? && FragmentHeader(st.fragment.value, part).Some? ==>
      BoundedFragment(FragmentHeader(st.fragment.value, part).value)
    ensures st.fragment.Some? && DecodeTime(st.fragment.value, part).Some? ==>
      BoundedFragment(DecodeTime(st.fragment.value, part).value)
  {
    hide BoundedRun;
  }

  lemma StepBounded(st: Reading, e: Event)
    requires Bounded(st) && Step(st, e).Some?
    ensures Bounded(Step(st, e).value)
  {
    hide LeafStep, BoundedRun;
    if e.Leaf? { LeafBounded(st.(boxes := st.boxes + 1), e.kind, e.part); }
  }

  /** What the walk has gathered about the clock. */
  lemma {:induction false} FoldGathers(events: seq<Event>)
    requires Fold(STEP, START, events).Some?
    ensures var st := Fold(STEP, START, events).value;
      Bounded(st) && st.duration == MediaDuration(events) && st.scale == MediaScale(events)
  {
    hide Bounded, Step;
    if events == [] {
      StartsBounded();
    } else {
      var before, e := events[..|events| - 1], events[|events| - 1];
      FoldGathers(before);
      StepBounded(Fold(STEP, START, before).value, e);
      ClockStep(Fold(STEP, START, before).value, before, e);
      assert before + [e] == events;
    }
  }

  lemma StartsBounded()
    ensures Bounded(START)
  {}

  lemma ClockStep(st: Reading, events: seq<Event>, e: Event)
    requires Step(st, e).Some? && st.duration == MediaDuration(events) && st.scale == MediaScale(events)
    ensures Step(st, e).value.duration == MediaDuration(events + [e]) && Step(st, e).value.scale == MediaScale(events + [e])
  {
    assert (events + [e])[..|events|] == events && (events + [e])[|events|] == e;
    hide MediaHeader, TrackRun, GoodCodec, FragmentHeader, DecodeTime, TrackHeader, Seconds, KnownTicks;
    if e.Leaf? && Kind(e.kind, "mdhd") { OneKind(e.kind); }
  }

  /** A box has one kind. */
  lemma OneKind(kind: Bytes)
    requires Kind(kind, "mdhd")
    ensures !Kind(kind, "ftyp") && !Kind(kind, "tkhd") && !Kind(kind, "hdlr") && !Kind(kind, "mdat") && !Kind(kind, "stsd")
  {
    assert kind[0] == 'm' as int && kind[2] == 'h' as int;
    assert "ftyp"[0] == 'f' && "tkhd"[0] == 't' && "hdlr"[0] == 'h' && "mdat"[2] == 'a' && "stsd"[0] == 's';
  }

  // ---- The walk ------------------------------------------------------------------------

  /** The samples of one run: durations are added with a guard against wrapping,
      nonzero composition offsets are refused. */
  method ReadSamples(part: Bytes, flags: nat, count: nat) returns (r: Option<nat>)
    requires SamplesAt(flags) + count * Width(flags) == |part| && Width(flags) >= 4 && count <= MAX_SAMPLES
    ensures r.Some? <==> GoodSamples(part, flags, count)
    ensures r.Some? ==> r.value == if Bit(flags, 0x100) then SampleSum(part, flags, count) else 0
  {
    hide U32, GoodSample, Bit, SamplesAt, Width;
    var isExplicit, ticks: nat, i := Bit(flags, 0x100), 0, 0;
    while i < count
      invariant 0 <= i <= count && SamplesAt(flags) + i * Width(flags) <= |part|
      invariant ticks == if isExplicit then SampleSum(part, flags, i) else 0
      invariant forall j | 0 <= j < i :: (WithinSamples(part, flags, count, j); GoodSample(part, flags, j))
    {
      WithinSamples(part, flags, count, i);
      SampleRead(part, flags, i);
      if isExplicit {
        SampleSumBound(part, flags, i);
        var t := U32(part, SamplesAt(flags) + i * Width(flags));
        NeverWraps(i, ticks, t);
        if t == 0 || ticks > WORD - 1 - t {
          return None;
        }
        ticks := Add64(ticks, t);
      }
      if Bit(flags, 0x800) && U32(part, SamplesAt(flags) + i * Width(flags) + Width(flags) - 4) != 0 {
        return None;
      }
      i := i + 1;
    }
    return Some(ticks);
  }

  method ReadRun(samples: nat, part: Bytes) returns (r: Option<Run>)
    ensures r == TrackRun(samples, part)
  {
    hide U32, Flags, SampleSum, GoodSamples, SamplesAt, Bit;
    if |part| < 8 || part[0] > 1 {
      return None;
    }
    var flags, count := Flags(part), U32(part, 4);
    if count == 0 || samples + count > MAX_SAMPLES {
      return None;
    }
    if SamplesAt(flags) > |part| || SamplesAt(flags) + count * Width(flags) != |part| {
      return None;
    }
    var isExplicit, ticks := Bit(flags, 0x100), Some(0);
    if isExplicit || Bit(flags, 0x800) {
      WideEnough(part, flags);
      hide Width;
      ticks := ReadSamples(part, flags, count);
      if ticks.None? {
        return None;
      }
    } else {
      PlainSamples(part, flags, count);
    }
    return Some(Run(count, ticks.value, isExplicit));
  }

  lemma WideEnough(part: Bytes, flags: nat)
    requires Bit(flags, 0x100) || Bit(flags, 0x800)
    ensures Width(flags) >= 4
    ensures SamplesAt(flags) <= |part| ==> SampleSum(part, flags, 0) == 0
  {}

  lemma SampleRead(part: Bytes, flags: nat, i: nat)
    requires SamplesAt(flags) + (i + 1) * Width(flags) <= |part| && Width(flags) >= 4
    ensures SamplesAt(flags) + i * Width(flags) + Width(flags) <= |part|
    ensures SampleSum(part, flags, i + 1) == SampleSum(part, flags, i) + U32(part, SamplesAt(flags) + i * Width(flags))
    ensures GoodSample(part, flags, i) <==>
      && (Bit(flags, 0x100) ==> U32(part, SamplesAt(flags) + i * Width(flags)) != 0)
      && (Bit(flags, 0x800) ==> U32(part, SamplesAt(flags) + i * Width(flags) + Width(flags) - 4) == 0)
  {
    hide U32, SamplesAt, Width;
    assert (i + 1) * Width(flags) == i * Width(flags) + Width(flags);
  }

  lemma PlainSamples(part: Bytes, flags: nat, count: nat)
    requires SamplesAt(flags) + count * Width(flags) == |part| && !Bit(flags, 0x100) && !Bit(flags, 0x800)
    ensures GoodSamples(part, flags, count)
  {
    hide U32, SamplesAt, Width;
    forall i | 0 <= i < count ensures (WithinSamples(part, flags, count, i); GoodSample(part, flags, i)) {
      WithinSamples(part, flags, count, i);
    }
  }

  /** At most two hundred thousand 32-bit durations cannot reach 2^64. */
  lemma NeverWraps(i: nat, ticks: nat, t: nat)
    requires i <= MAX_SAMPLES && ticks <= i * MAX_UINT32 && t <= MAX_UINT32
    ensures ticks <= WORD - 1 - t && Add64(ticks, t) == ticks + t
  {}

  /** The variables that the recursive closure captures; `fragment` is its last
      parameter. */
  class Walker {
    var handlers: nat
    var media: nat
    var headers: nat
    var codecs: nat
    var clockHeaders: nat
    var scale: nat
    var audioTrack: nat
    var trexTrack: nat
    var trexDuration: nat
    var duration: real
    var fragments: seq<Fragment>
    var boxes: nat
    var samples: nat
    var fragment: Option<Fragment>

    ghost function Value(): Reading
      reads this
    {
      Reading(handlers, media, headers, codecs, clockHeaders, scale, audioTrack, trexTrack, trexDuration, duration,
              fragments, boxes, samples, fragment)
    }

    constructor ()
      ensures Value() == START
    {
      handlers, media, headers, codecs, clockHeaders, scale := 0, 0, 0, 0, 0, 0;
      audioTrack, trexTrack, trexDuration, duration, fragments := 0, 0, 0, 0.0, [];
      boxes, samples, fragment := 0, 0, None;
    }

    /** The boxes whose content is not walked. */
    method ReadLeaf(kind: Bytes, part: Bytes) returns (ok: bool)
      modifies this
      ensures ok <==> LeafStep(old(Value()), kind, part).Some?
      ensures ok ==> Value() == LeafStep(old(Value()), kind, part).value
    {
      hide Kind, MediaHeader, TrackRun, GoodCodec, FragmentHeader, DecodeTime, TrackHeader, Seconds, KnownTicks, U32;
      if Kind(kind, "ftyp") {
        if |part| < 8 { return false; }
        headers := headers + 1;
      } else if Kind(kind, "tkhd") {
        var track := TrackHeader(part);
        if track.None? || track.value == 0 || audioTrack != 0 { return false; }
        audioTrack := track.value;
      } else if Kind(kind, "hdlr") {
        if |part| < 12 || !Kind(part[8..12], "soun") { return false; }
        handlers := handlers + 1;
      } else if Kind(kind, "mdat") {
        if |part| > 0 { media := media + 1; }
      } else if Kind(kind, "stsd") {
        if !GoodCodec(part) { return false; }
        codecs := codecs + 1;
      } else if Kind(kind, "mdhd") {
        var clock := MediaHeader(part);
        if clock.None? || clock.value.0 == 0 { return false; }
        clockHeaders, scale := clockHeaders + 1, clock.value.0;
        if KnownTicks(clock.value.1) {
          duration := Seconds(clock.value.1, scale);
        }
      } else if Kind(kind, "trex") {
        if |part| != 24 || trexTrack != 0 { return false; }
        trexTrack, trexDuration := U32(part, 4), U32(part, 12);
      } else {
        ok := ReadFragmentLeaf(kind, part);
        return ok;
      }
      return true;
    }

    method ReadFragmentLeaf(kind: Bytes, part: Bytes) returns (ok: bool)
      requires !Kind(kind, "ftyp") && !Kind(kind, "tkhd") && !Kind(kind, "hdlr") && !Kind(kind, "mdat") && !Kind(kind, "stsd")
      requires !Kind(kind, "mdhd") && !Kind(kind, "trex")
      modifies this
      ensures ok <==> LeafStep(old(Value()), kind, part).Some?
      ensures ok ==> Value() == LeafStep(old(Value()), kind, part).value
    {
      hide Kind, TrackRun, FragmentHeader, DecodeTime;
      if Kind(kind, "tfhd") {
        if fragment.None? || FragmentHeader(fragment.value, part).None? { return false; }
        fragment := FragmentHeader(fragment.value, part);
      } else if Kind(kind, "tfdt") {
        if fragment.None? || DecodeTime(fragment.value, part).None? { return false; }
        fragment := DecodeTime(fragment.value, part);
      } else if Kind(kind, "trun") {
        if fragment.None? { return false; }
        var run := ReadRun(samples, part);
        if run.None? { return false; }
        samples := samples + run.value.count;
        fragment := Some(fragment.value.(runs := fragment.value.runs + [run.value]));
      }
      return true;
    }

    method Walk(data: Bytes, depth: nat) returns (ok: bool)
      modifies this
      decreases |data|, 0
      ensures ok <==> Accepted(STEP, old(Value()), Flatten(data, depth))
      ensures ok ==> Fold(STEP, old(Value()), Flatten(data, depth).value) == Some(Value())
    {
      hide Step, Fold, Flatten, HeaderOf, Both, Inside, Accepted, Continues, Own;
      var body := data;
      ghost var start, done: seq<Event> := Value(), [];
      FlattenEdges(start, data, depth);
      ContinuesAtFirst(Flatten(data, depth));
      FoldNothing(STEP, start);
      if depth > MAX_DEPTH {
        return false;
      }
      while |body| > 0
        invariant |body| <= |data| && depth <= MAX_DEPTH
        invariant Continues(Flatten(data, depth), Flatten(body, depth), done) && Fold(STEP, start, done) == Some(Value())
        decreases |body|
      {
        ghost var now := Value();
        FlattenNext(start, now, body, depth, data, done);
        boxes := boxes + 1;
        if boxes > MAX_BOXES {
          TooMany(STEP, start, now, Flatten(data, depth), Flatten(body, depth), done);
          return false;
        }
        var h := HeaderOf(body);
        if h.None? {
          return false;
        }
        var part, rest := body[h.value.head..h.value.size], body[h.value.size..];
        ghost var own := Own(h.value.kind, part, depth);
        ElementDone(STEP, start, now, Flatten(data, depth), done, own, Flatten(rest, depth));
        var read := ReadBox(h.value.kind, part, depth, now);
        if !read {
          return false;
        }
        done := done + own.value;
        body := rest;
      }
      assert body == [];
      FlattenEdges(start, body, depth);
      ContinuesAtLast(Flatten(data, depth), done);
      AcceptedIs(STEP, start, Flatten(data, depth), Value());
      return true;
    }

    /** The switch on the box's kind; `now` is the state before it was counted. */
    method ReadBox(kind: Bytes, part: Bytes, depth: nat, ghost now: Reading) returns (ok: bool)
      requires now.boxes + 1 <= MAX_BOXES && Value() == now.(boxes := now.boxes + 1)
      modifies this
      decreases |part|, 1
      ensures ok <==> Accepted(STEP, now, Own(kind, part, depth))
      ensures ok ==> Own(kind, part, depth).Some? && Fold(STEP, now, Own(kind, part, depth).value) == Some(Value())
    {
      hide LeafStep, Fold, Flatten, HeaderOf, Accepted, Kind;
      ghost var inner := Flatten(part, depth + 1);
      if Traf(kind) {
        InsideDone(STEP, now, Opens(kind), inner, [ClosesFragment]);
        if fragment.Some? {
          return false;
        }
        fragment := Some(EMPTY_FRAGMENT);
        ok := Walk(part, depth + 1);
        if !ok {
          return;
        }
        AcceptedHas(STEP, Step(now, Opens(kind)).value, inner);
        SingleRead(STEP, Value(), ClosesFragment);
        AcceptedIff(STEP, now, Own(kind, part, depth));
        if fragment.None? || fragment.value.track == 0 || |fragment.value.runs| == 0 {
          return false;
        }
        fragments, fragment := fragments + [fragment.value], None;
      } else if Container(kind) {
        InsideDone(STEP, now, Opens(kind), inner, []);
        ok := Walk(part, depth + 1);
        if ok {
          AcceptedHas(STEP, Step(now, Opens(kind)).value, inner);
          FoldNothing(STEP, Value());
        }
        AcceptedIs(STEP, now, Own(kind, part, depth), Value());
      } else {
        SingleRead(STEP, now, Leaf(kind, part));
        ok := ReadLeaf(kind, part);
        AcceptedOne(STEP, now, Leaf(kind, part));
      }
    }
  }

  lemma AcceptedIff<S, E>(step: (S, E) -> Option<S>, st: S, events: Option<seq<E>>)
    ensures Accepted(step, st, events) <==> events.Some? && Fold(step, st, events.value).Some?
  {}

  lemma FlattenEdges(st: Reading, data: Bytes, depth: nat)
    ensures depth > MAX_DEPTH ==> Flatten(data, depth).None? && !Accepted(STEP, st, Flatten(data, depth))
    ensures data == [] && depth <= MAX_DEPTH ==> Flatten(data, depth) == Some([])
  {
    hide HeaderOf;
  }

  lemma FlattenNext(st: Reading, now: Reading, body: Bytes, depth: nat, data: Bytes, done: seq<Event>)
    requires body != [] && depth <= MAX_DEPTH && Continues(Flatten(data, depth), Flatten(body, depth), done)
    ensures HeaderOf(body).None? ==> !Accepted(STEP, st, Flatten(data, depth))
    ensures HeaderOf(body).Some? ==>
      var h := HeaderOf(body).value;
      Flatten(body, depth) == Both(Own(h.kind, body[h.head..h.size], depth), Flatten(body[h.size..], depth))
    ensures now.boxes + 1 > MAX_BOXES && Flatten(body, depth).Some? ==>
      Flatten(body, depth).value != [] && STEP(now, Flatten(body, depth).value[0]).None?
  {
    hide HeaderOf, LeafStep, Kind;
    assert Flatten(body, depth).None? ==> Flatten(data, depth).None?;
  }

  // ---- The note -----------------------------------------------------------------------

  predicate Whole(st: Reading) { st.headers == 1 && st.handlers == 1 && st.codecs == 1 && st.clockHeaders == 1 && st.media > 0 }

  function Fallback(st: Reading, f: Fragment): nat { if f.defaultDuration == 0 then st.trexDuration else f.defaultDuration }

  /** A run's length in ticks, over unbounded numbers. */
  function RunTicks(r: Run, fallback: nat): nat { if r.isExplicit then r.ticks else r.count * fallback }

  function FragmentTicks(runs: seq<Run>, fallback: nat): nat {
    if runs == [] then 0 else FragmentTicks(runs[..|runs| - 1], fallback) + RunTicks(runs[|runs| - 1], fallback)
  }

  /** Where the first k fragments end: one without a decode time starts where the
      one before it ended. */
  function EndTicks(st: Reading, k: nat): nat
    requires k <= |st.fragments|
  {
    if k == 0 then 0
    else
      var f := st.fragments[k - 1];
      (if f.hasStart then f.start else EndTicks(st, k - 1)) + FragmentTicks(f.runs, Fallback(st, f))
  }

  predicate Timed(f: Fragment, fallback: nat) { fallback != 0 || forall i | 0 <= i < |f.runs| :: f.runs[i].isExplicit }

  /** The fragments belong to the audio track, have durations, and end before 2^64. */
  predicate FragmentsFit(st: Reading, k: nat)
    requires k <= |st.fragments|
  {
    forall j | 0 <= j < k ::
      var f := st.fragments[j];
      && st.audioTrack != 0 && f.track == st.audioTrack && (st.trexTrack == 0 || st.trexTrack == st.audioTrack)
      && Timed(f, Fallback(st, f)) && FragmentTicks(f.runs, Fallback(st, f)) < WORD && EndTicks(st, j + 1) < WORD
  }

  /** The latest of the media header's duration and the first k fragments' ends. */
  function Latest(st: Reading, k: nat): real
    requires k <= |st.fragments| && st.scale > 0
  {
    if k == 0 then st.duration
    else
      var d := Seconds(EndTicks(st, k), st.scale);
      if d > Latest(st, k - 1) then d else Latest(st, k - 1)
  }

  /** One fragment's runs, added with wrapping arithmetic behind guards. */
  method AddRuns(f: Fragment, fallback: nat) returns (r: Option<nat>)
    requires BoundedFragment(f) && fallback <= MAX_UINT32
    ensures r.Some? <==> Timed(f, fallback) && FragmentTicks(f.runs, fallback) < WORD
    ensures r.Some? ==> r.value == FragmentTicks(f.runs, fallback)
  {
    var ticks: nat, i := 0, 0;
    while i < |f.runs|
      invariant 0 <= i <= |f.runs| && ticks == FragmentTicks(f.runs[..i], fallback) < WORD
      invariant fallback != 0 || forall j | 0 <= j < i :: f.runs[j].isExplicit
    {
      assert f.runs[..i + 1][..i] == f.runs[..i];
      RunFits(f.runs[i], fallback);
      var n := f.runs[i].ticks;
      if !f.runs[i].isExplicit {
        if fallback == 0 {
          return None;
        }
        n := Mul64(f.runs[i].count, fallback);
      }
      if ticks > WORD - 1 - n {
        TicksGrow(f.runs, fallback, i + 1);
        return None;
      }
      ticks := Add64(ticks, n);
      i := i + 1;
    }
    assert f.runs[..i] == f.runs;
    return Some(ticks);
  }

  lemma RunFits(r: Run, fallback: nat)
    requires BoundedRun(r) && fallback <= MAX_UINT32
    ensures RunTicks(r, fallback) < WORD && r.ticks < WORD && Mul64(r.count, fallback) == r.count * fallback
  {
    assert r.count * fallback <= MAX_SAMPLES * MAX_UINT32;
    assert r.count * MAX_UINT32 <= MAX_SAMPLES * MAX_UINT32;
  }

  lemma {:induction false} TicksGrow(runs: seq<Run>, fallback: nat, i: nat)
    requires i <= |runs|
    ensures FragmentTicks(runs[..i], fallback) <= FragmentTicks(runs, fallback)
    decreases |runs|
  {
    if i < |runs| {
      TicksGrow(runs[..|runs| - 1], fallback, i);
      assert runs[..|runs| - 1][..i] == runs[..i];
    } else {
      assert runs[..i] == runs;
    }
  }

  /** The tail of `voiceMP4`. */
  method Total(st: Reading) returns (r: Option<real>)
    requires Bounded(st) && Whole(st)
    ensures r.Some? <==> FragmentsFit(st, |st.fragments|) && Latest(st, |st.fragments|) > 0.0
    ensures r.Some? ==> r.value == Latest(st, |st.fragments|)
  {
    hide BoundedFragment, Timed, FragmentTicks, Seconds, Fallback;
    var next: nat, duration, k := 0, st.duration, 0;
    while k < |st.fragments|
      invariant 0 <= k <= |st.fragments| && FragmentsFit(st, k) && next == EndTicks(st, k) < WORD
      invariant duration == Latest(st, k)
    {
      var f := st.fragments[k];
      if st.audioTrack == 0 || f.track != st.audioTrack || (st.trexTrack != 0 && st.trexTrack != st.audioTrack) {
        return None;
      }
      FallbackFits(st, k);
      var start := if f.hasStart then f.start else next;
      var ticks := AddRuns(f, Fallback(st, f));
      if ticks.None? || start > WORD - 1 - ticks.value {
        return None;
      }
      next := Add64(start, ticks.value);
      var d := Seconds(next, st.scale);
      if d > duration {
        duration := d;
      }
      k := k + 1;
    }
    if duration <= 0.0 {
      return None;
    }
    return Some(duration);
  }

  lemma FallbackFits(st: Reading, k: nat)
    requires Bounded(st) && k < |st.fragments|
    ensures Fallback(st, st.fragments[k]) <= MAX_UINT32 && st.fragments[k].start < WORD && BoundedFragment(st.fragments[k])
  {
    hide BoundedRun;
  }

  /** The events of a document that reads as a voice note, and what they leave. */
  predicate Note(data: Bytes, events: seq<Event>, st: Reading) {
    && Flatten(data, 0) == Some(events) && Fold(STEP, START, events) == Some(st)
    && Whole(st) && st.scale > 0 && FragmentsFit(st, |st.fragments|) && Latest(st, |st.fragments|) > 0.0
  }

  method VoiceMP4(data: Bytes) returns (r: Option<real>)
    ensures r.Some? <==> exists events, st :: Note(data, events, st)
    ensures forall events, st | Note(data, events, st) :: r == Some(Latest(st, |st.fragments|))
  {
    var w := new Walker();
    var ok := w.Walk(data, 0);
    if !ok {
      return None;
    }
    ghost var events := Flatten(data, 0).value;
    FoldGathers(events);
    hide Fold, Flatten, FragmentsFit, Latest, BoundedFragment;
    if w.headers != 1 || w.handlers != 1 || w.codecs != 1 || w.clockHeaders != 1 || w.media == 0 {
      return None;
    }
    var st := Reading(w.handlers, w.media, w.headers, w.codecs, w.clockHeaders, w.scale, w.audioTrack, w.trexTrack, w.trexDuration,
                      w.duration, w.fragments, w.boxes, w.samples, w.fragment);
    r := Total(st);
    assert r.Some? ==> Note(data, events, st);
  }

  lemma {:induction false} LatestIsLatest(st: Reading, k: nat, n: nat)
    requires st.scale > 0 && k <= n <= |st.fragments|
    ensures Latest(st, k) <= Latest(st, n)
  {
    hide EndTicks, Seconds;
    if k < n { LatestIsLatest(st, k, n - 1); }
  }

  lemma {:induction false} LatestIsOne(st: Reading, n: nat)
    requires st.scale > 0 && n <= |st.fragments|
    ensures Latest(st, n) == st.duration || exists k :: 1 <= k <= n && Latest(st, n) == Seconds(EndTicks(st, k), st.scale)
  {
    hide EndTicks, Seconds;
    if n > 0 {
      LatestIsOne(st, n - 1);
      if Latest(st, n) == Seconds(EndTicks(st, n), st.scale) {
        var k := n;
        assert 1 <= k <= n && Latest(st, n) == Seconds(EndTicks(st, k), st.scale);
      } else if Latest(st, n) != st.duration {
        var k :| 1 <= k <= n - 1 && Latest(st, n - 1) == Seconds(EndTicks(st, k), st.scale);
        assert 1 <= k <= n && Latest(st, n) == Seconds(EndTicks(st, k), st.scale);
      }
    }
  }

  /** The result is the latest of the media header's duration and every fragment's
      end, all computed without wrapping: none is later, and one is it. */
  lemma ResultIsLatest(data: Bytes, events: seq<Event>, st: Reading)
    requires Note(data, events, st)
    ensures var r := Latest(st, |st.fragments|);
      && st.duration == MediaDuration(events) && st.scale == MediaScale(events) && st.duration <= r
      && (forall k | 1 <= k <= |st.fragments| :: Seconds(EndTicks(st, k), st.scale) <= r)
      && (r == st.duration || exists k :: 1 <= k <= |st.fragments| && r == Seconds(EndTicks(st, k), st.scale))
  {
    FoldGathers(events);
    hide Fold, Flatten, FragmentsFit, EndTicks, Seconds, Bounded;
    LatestIsLatest(st, 0, |st.fragments|);
    LatestIsOne(st, |st.fragments|);
    forall k | 1 <= k <= |st.fragments| ensures Seconds(EndTicks(st, k), st.scale) <= Latest(st, |st.fragments|) {
      LatestIsLatest(st, k, |st.fragments|);
    }
  }
}
