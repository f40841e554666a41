/** The WebM walk of server/internal/api/voice_notes.go over untrusted bytes. */
module VoiceWebm {
  import opened Ebml
  import opened Options
  import opened Walks

  const SEGMENT: nat := 0x18538067
  const CLUSTER: nat := 0x1f43b675
  const HEADER: nat := 0x1a45dfa3
  const MAX_ELEMENTS: nat := 200000
  const MAX_DEPTH: nat := 8

  /** Elements whose content is walked. */
  predicate Master(id: nat) { id in {HEADER, SEGMENT, 0x1549a966, 0x1654ae6b, 0xae, CLUSTER, 0xa0} }

  // ---- Structure -----------------------------------------------------------------

  /** What a document says, in order: a master opens, or a leaf with its data. */
  datatype Event = Opens(id: nat) | Leaf(id: nat, part: Bytes)

  datatype Header = Header(id: nat, head: nat, size: nat)

  /** Where a cluster without a size ends. */
  ghost function ClusterSize(body: Bytes): Option<nat> {
    if p: nat :| p <= |body| && Elements(body, 0, p) && Ends(body, p) then Some(p) else None
  }

  /** An element's identifier, the bytes before its data, and the data's size. Only
      segments and clusters may leave the size open. */
  ghost function HeaderOf(body: Bytes): (h: Option<Header>)
    ensures h.Some? ==> h.value.head > 0 && h.value.head + h.value.size <= |body|
  {
    VIntFits(body, true);
    var id := VInt(body, true);
    if id.None? then None
    else
      VIntFits(body[id.value.length..], false);
      var size := VInt(body[id.value.length..], false);
      if size.None? then None
      else
        var head := id.value.length + size.value.length;
        var open := size.value.value == Marker(size.value.length) - 1;
        if open && id.value.value == SEGMENT then Some(Header(id.value.value, head, |body| - head))
        else if open && id.value.value == CLUSTER then
          if ClusterSize(body[head..]).None? then None else Some(Header(id.value.value, head, ClusterSize(body[head..]).value))
        else if open || size.value.value > |body| - head then None
        else Some(Header(id.value.value, head, size.value.value))
  }

  ghost function Flatten(body: Bytes, depth: nat): Option<seq<Event>>
    decreases |body|
  {
    if depth > MAX_DEPTH then None
    else if body == [] then Some([])
    else
      var h := HeaderOf(body);
      if h.None? then None
      else
        var part, rest := body[h.value.head..h.value.head + h.value.size], body[h.value.head + h.value.size..];
        var own := if Master(h.value.id) then Inside(h.value.id, Flatten(part, depth + 1)) else Some([Leaf(h.value.id, part)]);
        Both(own, Flatten(rest, depth))
  }

  function Inside(id: nat, inner: Option<seq<Event>>): Option<seq<Event>> {
    if inner.None? then None else Some([Opens(id)] + inner.value)
  }

  // ---- Meaning ---------------------------------------------------------------------

  /** The variables the walk captures; stamps are in the document's ticks. */
  datatype Reading = Reading(tracks: nat, blocks: nat, codecs: nat, headers: nat, docTypes: nat, trackNumber: nat,
                             scale: nat, duration: real, maxStamp: int, cluster: int, elements: nat)

  const START: Reading := Reading(0, 0, 0, 0, 0, 0, 1000000, 0.0, 0, 0, 0)

  /** Two bytes as a signed number. */
  function Signed(s: Bytes): int
    requires |s| == 2
  {
    var v: nat := BigEndian(s);
    if v >= 0x8000 then v - 0x10000 else v
  }

  predicate Ascii(part: Bytes, text: string) {
    |part| == |text| && forall i | 0 <= i < |part| :: part[i] == text[i] as int
  }

  /** The block's time stamp relative to its cluster, if it belongs to the track. */
  function BlockOffset(part: Bytes, trackNumber: nat): Option<int> {
    var track := VInt(part, false);
    if track.None? || trackNumber == 0 || track.value.value != trackNumber || |part| < track.value.length + 4 then None
    else Some(Signed(part[track.value.length..track.value.length + 2]))
  }

  predicate Block(e: Event) { e.Leaf? && (e.id == 0xa3 || e.id == 0xa1) }

  /** Floating-point durations are read by a given function, None for NaN and
      infinities. */
  type Floats = Bytes -> Option<real>

  function LeafStep(floats: Floats, st: Reading, id: nat, part: Bytes): Option<Reading> {
    if id == 0x4282 then
      if Ascii(part, "webm") || Ascii(part, "matroska") then Some(st.(docTypes := st.docTypes + 1)) else None
    else if id == 0xd7 then
      var v := Unsigned(part);
      if v.None? || v.value < 1 || st.trackNumber != 0 then None else Some(st.(trackNumber := v.value))
    else if id == 0x83 then
      if Unsigned(part) == Some(2) then Some(st.(tracks := st.tracks + 1)) else None
    else if id == 0x86 then
      if Ascii(part, "A_OPUS") || Ascii(part, "A_VORBIS") then Some(st.(codecs := st.codecs + 1)) else None
    else if id == 0x2ad7b1 then
      var v := Unsigned(part);
      if v.None? || v.value < 1 || v.value > 1000000000 then None else Some(st.(scale := v.value))
    else if id == 0x4489 then
      if |part| != 4 && |part| != 8 then None
      else
        var d := floats(part);
        if d.None? || d.value < 0.0 then None else Some(st.(duration := d.value))
    else if id == 0xe7 then
      var v := Unsigned(part);
      if v.None? || v.value > 121000000000 then None else Some(st.(cluster := v.value))
    else if id == 0xa3 || id == 0xa1 then
      var offset := BlockOffset(part, st.trackNumber);
      if offset.None? || st.cluster + offset.value < 0 then None
      else
        var stamp := st.cluster + offset.value;
        Some(st.(maxStamp := if stamp > st.maxStamp then stamp else st.maxStamp, blocks := st.blocks + 1))
    else Some(st)
  }

  function Step(floats: Floats, st: Reading, e: Event): Option<Reading> {
    if st.elements + 1 > MAX_ELEMENTS then None
    else
      var st' := st.(elements := st.elements + 1);
      match e
      case Opens(id) =>
        Some(if id == HEADER then st'.(headers := st'.headers + 1) else if id == CLUSTER then st'.(cluster := 0) else st')
      case Leaf(id, part) => LeafStep(floats, st', id, part)
  }

  function Stepper(floats: Floats): (Reading, Event) -> Option<Reading> { (st, e) => Step(floats, st, e) }

  // ---- Time stamps ------------------------------------------------------------------

  /** The cluster time in effect after the events: the last one given since the
      last cluster opened. */
  function ClusterTime(events: seq<Event>): int {
    if events == [] then 0
    else
      var e := events[|events| - 1];
      if e == Opens(CLUSTER) then 0
      else if e.Leaf? && e.id == 0xe7 && Unsigned(e.part).Some? then Unsigned(e.part).value
      else ClusterTime(events[..|events| - 1])
  }

  /** The last declared scale, or the default of a million. */
  function Scale(events: seq<Event>): nat {
    if events == [] then 1000000
    else
      var e := events[|events| - 1];
      if e.Leaf? && e.id == 0x2ad7b1 && Unsigned(e.part).Some? then Unsigned(e.part).value else Scale(events[..|events| - 1])
  }

  function DeclaredDuration(floats: Floats, events: seq<Event>): real {
    if events == [] then 0.0
    else
      var e := events[|events| - 1];
      if e.Leaf? && e.id == 0x4489 && floats(e.part).Some? then floats(e.part).value
      else DeclaredDuration(floats, events[..|events| - 1])
  }

  /** The block's own stamp, wherever its track number ends. */
  function Stamp(events: seq<Event>, i: nat): int
    requires i < |events| && Block(events[i])
  {
    var track := VInt(events[i].part, false);
    if track.None? || |events[i].part| < track.value.length + 2 then 0
    else ClusterTime(events[..i]) + Signed(events[i].part[track.value.length..track.value.length + 2])
  }

  /** What the walk has gathered after reading some events. */
  ghost predicate Gathered(floats: Floats, st: Reading, events: seq<Event>) {
    && st.cluster == ClusterTime(events) && st.scale == Scale(events) && st.duration == DeclaredDuration(floats, events)
    && st.elements == |events| && st.maxStamp >= 0
    && (forall i | 0 <= i < |events| && Block(events[i]) :: 0 <= Stamp(events, i) <= st.maxStamp)
    && (st.blocks > 0 ==> exists i :: 0 <= i < |events| && Block(events[i]) && Stamp(events, i) == st.maxStamp)
    && (st.blocks == 0 ==> st.maxStamp == 0)
  }

  lemma EarlierStamps(events: seq<Event>, e: Event, i: nat)
    requires i < |events| && Block(events[i])
    ensures (events + [e])[i] == events[i] && Stamp(events + [e], i) == Stamp(events, i)
  {
    assert (events + [e])[..i] == events[..i];
  }

  lemma LastStamp(events: seq<Event>, e: Event)
    requires Block(e)
    ensures (events + [e])[|events|] == e
    ensures var track := VInt(e.part, false); track.Some? && |e.part| >= track.value.length + 2 ==>
      Stamp(events + [e], |events|) == ClusterTime(events) + Signed(e.part[track.value.length..track.value.length + 2])
  {
    assert (events + [e])[..|events|] == events;
  }

  lemma OneMore(floats: Floats, events: seq<Event>, e: Event)
    ensures ClusterTime(events + [e]) == if e == Opens(CLUSTER) then 0
      else if e.Leaf? && e.id == 0xe7 && Unsigned(e.part).Some? then Unsigned(e.part).value else ClusterTime(events)
    ensures Scale(events + [e])
         == if e.Leaf? && e.id == 0x2ad7b1 && Unsigned(e.part).Some? then Unsigned(e.part).value else Scale(events)
    ensures DeclaredDuration(floats, events + [e])
         == if e.Leaf? && e.id == 0x4489 && floats(e.part).Some? then floats(e.part).value else DeclaredDuration(floats, events)
  {
    assert (events + [e])[..|events|] == events;
  }

  lemma GatheredBlock(floats: Floats, st: Reading, events: seq<Event>, e: Event)
    requires Gathered(floats, st, events) && Block(e) && Step(floats, st, e).Some?
    ensures Gathered(floats, Step(floats, st, e).value, events + [e])
  {
    OneMore(floats, events, e);
    LastStamp(events, e);
    forall i | 0 <= i < |events| && Block(events[i])
      ensures (events + [e])[i] == events[i] && Stamp(events + [e], i) == Stamp(events, i)
    {
      EarlierStamps(events, e, i);
    }
    hide Stamp, ClusterTime, Scale, DeclaredDuration, VInt, Unsigned;
    var st' := Step(floats, st, e).value;
    var now := events + [e];
    assert Stamp(now, |events|) == st.cluster + BlockOffset(e.part, st.trackNumber).value;
    if st'.maxStamp != st.maxStamp || st.blocks == 0 {
      assert Block(now[|events|]) && Stamp(now, |events|) == st'.maxStamp;
    } else {
      var i :| 0 <= i < |events| && Block(events[i]) && Stamp(events, i) == st.maxStamp;
      assert Block(now[i]) && Stamp(now, i) == st'.maxStamp;
    }
  }

  lemma OtherFields(floats: Floats, st: Reading, events: seq<Event>, e: Event)
    requires Gathered(floats, st, events) && !Block(e) && Step(floats, st, e).Some?
    ensures var t := Step(floats, st, e).value; var now := events + [e];
      && t.cluster == ClusterTime(now) && t.scale == Scale(now) && t.duration == DeclaredDuration(floats, now)
      && t.elements == |now| && t.maxStamp == st.maxStamp && t.blocks == st.blocks
  {
    OneMore(floats, events, e);
    hide Stamp, ClusterTime, Scale, DeclaredDuration, VInt, Unsigned, Ascii;
  }

  lemma GatheredOther(floats: Floats, st: Reading, events: seq<Event>, e: Event)
    requires Gathered(floats, st, events) && !Block(e) && Step(floats, st, e).Some?
    ensures Gathered(floats, Step(floats, st, e).value, events + [e])
  {
    OtherFields(floats, st, events, e);
    forall i | 0 <= i < |events| && Block(events[i])
      ensures (events + [e])[i] == events[i] && Stamp(events + [e], i) == Stamp(events, i)
    {
      EarlierStamps(events, e, i);
    }
    hide Stamp, ClusterTime, Scale, DeclaredDuration, Step;
    if st.blocks > 0 {
      var i :| 0 <= i < |events| && Block(events[i]) && Stamp(events, i) == st.maxStamp;
      assert Block((events + [e])[i]) && Stamp(events + [e], i) == st.maxStamp;
    }
  }

  /** The walk's variables are what the events say. */
  lemma {:induction false} FoldGathers(floats: Floats, events: seq<Event>)
    requires Fold(Stepper(floats), START, events).Some?
    ensures Gathered(floats, Fold(Stepper(floats), START, events).value, events)
  {
    hide Step, Gathered;
    if events == [] {
      NothingGathered(floats);
    } else {
      var before, e := events[..|events| - 1], events[|events| - 1];
      FoldGathers(floats, before);
      assert before + [e] == events;
      if Block(e) {
        GatheredBlock(floats, Fold(Stepper(floats), START, before).value, before, e);
      } else {
        GatheredOther(floats, Fold(Stepper(floats), START, before).value, before, e);
      }
    }
  }

  lemma NothingGathered(floats: Floats)
    ensures Gathered(floats, START, [])
  {}

  // ---- The walk ------------------------------------------------------------------------

  /** The variables that the recursive closure captures. */
  class Walker {
    const floats: Floats
    var tracks: nat
    var blocks: nat
    var codecs: nat
    var headers: nat
    var docTypes: nat
    var trackNumber: nat
    var scale: nat
    var duration: real
    var maxStamp: int
    var cluster: int
    var elements: nat

    ghost function Value(): Reading
      reads this
    {
      Reading(tracks, blocks, codecs, headers, docTypes, trackNumber, scale, duration, maxStamp, cluster, elements)
    }

    constructor (floats: Floats)
      ensures this.floats == floats && Value() == START
    {
      this.floats := floats;
      tracks, blocks, codecs, headers, docTypes, trackNumber := 0, 0, 0, 0, 0, 0;
      scale, duration, maxStamp, cluster, elements := 1000000, 0.0, 0, 0, 0;
    }

    /** A leaf's content, once the element has been counted. */
    method ReadLeaf(id: nat, part: Bytes) returns (ok: bool)
      modifies this
      ensures ok <==> LeafStep(floats, old(Value()), id, part).Some?
      ensures ok ==> Value() == LeafStep(floats, old(Value()), id, part).value
    {
      hide VInt, Unsigned, Ascii;
      match id {
        case 0x4282 =>
          if !Ascii(part, "webm") && !Ascii(part, "matroska") { return false; }
          docTypes := docTypes + 1;
        case 0xd7 =>
          var v := EbmlUint(part);
          if v.None? || v.value < 1 || trackNumber != 0 { return false; }
          trackNumber := v.value;
        case 0x83 =>
          var v := EbmlUint(part);
          if v.None? || v.value != 2 { return false; }
          tracks := tracks + 1;
        case 0x86 =>
          if !Ascii(part, "A_OPUS") && !Ascii(part, "A_VORBIS") { return false; }
          codecs := codecs + 1;
        case 0x2ad7b1 =>
          var v := EbmlUint(part);
          if v.None? || v.value < 1 || v.value > 1000000000 { return false; }
          scale := v.value;
        case 0x4489 =>
          if |part| != 4 && |part| != 8 { return false; }
          var d := floats(part);
          if d.None? || d.value < 0.0 { return false; }
          duration := d.value;
        case 0xe7 =>
          var v := EbmlUint(part);
          if v.None? || v.value > 121000000000 { return false; }
          cluster := v.value;
        case _ =>
          if id == 0xa3 || id == 0xa1 {
            ok := ReadBlock(part);
            return ok;
          }
      }
      return true;
    }

    method ReadBlock(part: Bytes) returns (ok: bool)
      modifies this
      ensures ok <==> LeafStep(floats, old(Value()), 0xa3, part).Some?
      ensures ok <==> LeafStep(floats, old(Value()), 0xa1, part).Some?
      ensures ok ==> Value() == LeafStep(floats, old(Value()), 0xa3, part).value == LeafStep(floats, old(Value()), 0xa1, part).value
    {
      VIntFits(part, false);
      var track := EbmlVInt(part, false);
      if track.None? || trackNumber == 0 || track.value.value != trackNumber || |part| < track.value.length + 4 {
        return false;
      }
      var stamp := cluster + Signed(part[track.value.length..track.value.length + 2]);
      if stamp < 0 {
        return false;
      }
      if stamp > maxStamp {
        maxStamp := stamp;
      }
      blocks := blocks + 1;
      return true;
    }

    /** One body: counts, sizes and reads its elements in order. */
    method Walk(data: Bytes, depth: nat) returns (ok: bool)
      modifies this
      decreases |data|, 0
      ensures ok <==> Accepted(Stepper(floats), old(Value()), Flatten(data, depth))
      ensures ok ==> Fold(Stepper(floats), old(Value()), Flatten(data, depth).value) == Some(Value())
    {
      hide Step, Fold, Flatten, HeaderOf, Both, Inside, Accepted, Continues, Stepper;
      var body := data;
      ghost var step, start, done: seq<Event> := Stepper(floats), Value(), [];
      FlattenEdges(floats, start, data, depth);
      ContinuesAtFirst(Flatten(data, depth));
      FoldNothing(step, start);
      if depth > MAX_DEPTH {
        return false;
      }
      while |body| > 0
        invariant |body| <= |data| && depth <= MAX_DEPTH
        invariant Continues(Flatten(data, depth), Flatten(body, depth), done) && Fold(step, start, done) == Some(Value())
        decreases |body|
      {
        ghost var now := Value();
        FlattenNext(floats, start, body, depth, data, done);
        elements := elements + 1;
        if elements > MAX_ELEMENTS {
          OneTooMany(floats, now);
          TooMany(step, start, now, Flatten(data, depth), Flatten(body, depth), done);
          return false;
        }
        var h := ReadHeader(body);
        if h.None? {
          return false;
        }
        var part, rest := body[h.value.head..h.value.head + h.value.size], body[h.value.head + h.value.size..];
        ghost var own := Own(h.value.id, part, depth);
        ElementDone(step, start, now, Flatten(data, depth), done, own, Flatten(rest, depth));
        var read := ReadElement(h.value.id, part, depth, now);
        if !read {
          return false;
        }
        done := done + own.value;
        body := rest;
      }
      assert body == [];
      FlattenEdges(floats, start, body, depth);
      ContinuesAtLast(Flatten(data, depth), done);
      AcceptedIs(step, start, Flatten(data, depth), Value());
      return true;
    }

    /** The switch on the element's identifier; `now` is the state before it was
        counted. */
    method ReadElement(id: nat, part: Bytes, depth: nat, ghost now: Reading) returns (ok: bool)
      requires now.elements + 1 <= MAX_ELEMENTS && Value() == now.(elements := now.elements + 1)
      modifies this
      decreases |part|, 1
      ensures ok <==> Accepted(Stepper(floats), now, Own(id, part, depth))
      ensures ok ==> Own(id, part, depth).Some? && Fold(Stepper(floats), now, Own(id, part, depth).value) == Some(Value())
    {
      hide LeafStep, Fold, Flatten, HeaderOf, Accepted;
      if Master(id) {
        if id == HEADER {
          headers := headers + 1;
        } else if id == CLUSTER {
          cluster := 0;
        }
        ghost var inner := Flatten(part, depth + 1);
        InsideDone(Stepper(floats), now, Opens(id), inner, []);
        assert inner.Some? ==> [Opens(id)] + inner.value + [] == Own(id, part, depth).value;
        assert Stepper(floats)(now, Opens(id)) == Some(Value());
        ok := Walk(part, depth + 1);
        if ok {
          AcceptedHas(Stepper(floats), Step(floats, now, Opens(id)).value, inner);
          FoldNothing(Stepper(floats), Value());
        }
        AcceptedIs(Stepper(floats), now, Own(id, part, depth), Value());
      } else {
        SingleRead(Stepper(floats), now, Leaf(id, part));
        ok := ReadLeaf(id, part);
        AcceptedOne(Stepper(floats), now, Leaf(id, part));
      }
    }
  }

  /** The events of one element. */
  ghost function Own(id: nat, part: Bytes, depth: nat): Option<seq<Event>> {
    if Master(id) then Inside(id, Flatten(part, depth + 1)) else Some([Leaf(id, part)])
  }

  /** Identifier, size field and data size; an open cluster is measured. */
  method ReadHeader(body: Bytes) returns (h: Option<Header>)
    ensures h == HeaderOf(body)
  {
    hide VInt, Marker, ClusterSize;
    VIntFits(body, true);
    var id := EbmlVInt(body, true);
    if id.None? {
      return None;
    }
    VIntFits(body[id.value.length..], false);
    var size := EbmlVInt(body[id.value.length..], false);
    if size.None? {
      return None;
    }
    var head := id.value.length + size.value.length;
    var length := size.value.value;
    if length == Marker(size.value.length) - 1 {
      if id.value.value != SEGMENT && id.value.value != CLUSTER {
        return None;
      }
      length := |body| - head;
      if id.value.value == CLUSTER {
        var end := UnknownClusterSize(body[head..]);
        ClusterSizeIs(body[head..], end);
        if end.None? {
          return None;
        }
        length := end.value;
      }
    }
    if length > |body| - head {
      return None;
    }
    return Some(Header(id.value.value, head, length));
  }

  lemma ClusterSizeIs(body: Bytes, end: Option<nat>)
    requires end.Some? ==> end.value <= |body| && Elements(body, 0, end.value) && Ends(body, end.value)
    requires end.None? ==> forall q: nat | q <= |body| && Elements(body, 0, q) :: !Ends(body, q)
    ensures ClusterSize(body) == end
    ensures end.Some? ==> end.value <= |body|
  {
    hide Elements, Ends;
    if end.Some? {
      OneEnd(body, 0, end.value, ClusterSize(body).value);
    }
  }

  // ---- What the loop needs to know ---------------------------------------------------------

  lemma FlattenEdges(floats: Floats, st: Reading, data: Bytes, depth: nat)
    ensures depth > MAX_DEPTH ==> Flatten(data, depth).None? && !Accepted(Stepper(floats), st, Flatten(data, depth))
    ensures data == [] && depth <= MAX_DEPTH ==> Flatten(data, depth) == Some([])
  {
    hide HeaderOf;
  }

  lemma FlattenNext(floats: Floats, st: Reading, body: Bytes, depth: nat, data: Bytes, done: seq<Event>)
    requires body != [] && depth <= MAX_DEPTH && Continues(Flatten(data, depth), Flatten(body, depth), done)
    ensures HeaderOf(body).None? ==> !Accepted(Stepper(floats), st, Flatten(data, depth))
    ensures HeaderOf(body).Some? ==>
      var h := HeaderOf(body).value;
      Flatten(body, depth) == Both(Own(h.id, body[h.head..h.head + h.size], depth), Flatten(body[h.head + h.size..], depth))
    ensures Flatten(body, depth).Some? ==> Flatten(body, depth).value != []
  {
    hide HeaderOf;
    assert Flatten(body, depth).None? ==> Flatten(data, depth).None?;
  }

  lemma OneTooMany(floats: Floats, now: Reading)
    requires now.elements + 1 > MAX_ELEMENTS
    ensures forall e: Event :: Stepper(floats)(now, e).None?
  {
    hide LeafStep;
  }

  // ---- The note -----------------------------------------------------------------------

  /** Exactly one audio track, codec, header and document type, and some blocks. */
  predicate Whole(st: Reading) { st.tracks == 1 && st.codecs == 1 && st.headers == 1 && st.docTypes == 1 && st.blocks > 0 }

  function Longest(st: Reading): real { if st.duration > st.maxStamp as real then st.duration else st.maxStamp as real }

  /** Ticks at a scale in nanoseconds, as milliseconds. */
  function Milliseconds(ticks: real, scale: nat): real { ticks * scale as real / 1000000.0 }

  /** The events of a document that reads as a voice note. */
  ghost predicate Note(floats: Floats, data: Bytes, events: seq<Event>) {
    && Flatten(data, 0) == Some(events) && Fold(Stepper(floats), START, events).Some?
    && Whole(Fold(Stepper(floats), START, events).value)
  }

  method VoiceWebM(floats: Floats, data: Bytes) returns (r: Option<real>)
    ensures r.Some? <==> exists events :: Note(floats, data, events)
    ensures forall events | Note(floats, data, events) ::
      r == Some(Milliseconds(Longest(Fold(Stepper(floats), START, events).value), Scale(events)))
  {
    var w := new Walker(floats);
    var ok := w.Walk(data, 0);
    if !ok {
      return None;
    }
    ghost var events := Flatten(data, 0).value;
    FoldGathers(floats, events);
    hide Fold, Flatten, Stepper;
    if w.tracks != 1 || w.codecs != 1 || w.headers != 1 || w.docTypes != 1 || w.blocks == 0 {
      return None;
    }
    assert Note(floats, data, events);
    var longest := w.maxStamp as real;
    if w.duration > longest {
      longest := w.duration;
    }
    return Some(Milliseconds(longest, w.scale));
  }

  lemma ScaledOrder(a: real, b: real, scale: nat)
    requires a <= b
    ensures Milliseconds(a, scale) <= Milliseconds(b, scale)
  {
    assert a * scale as real <= b * scale as real;
  }

  /** The result is the latest of the declared duration and every block's stamp, at
      the scale in force when the document ends: none is later, and one is it. */
  lemma ResultIsLatest(floats: Floats, data: Bytes, events: seq<Event>)
    requires Note(floats, data, events)
    ensures var r := Milliseconds(Longest(Fold(Stepper(floats), START, events).value), Scale(events));
      && Milliseconds(DeclaredDuration(floats, events), Scale(events)) <= r
      && (forall i | 0 <= i < |events| && Block(events[i]) ::
            0 <= Stamp(events, i) && Milliseconds(Stamp(events, i) as real, Scale(events)) <= r)
      && (|| r == Milliseconds(DeclaredDuration(floats, events), Scale(events))
          || exists i :: 0 <= i < |events| && Block(events[i]) && r == Milliseconds(Stamp(events, i) as real, Scale(events)))
  {
    FoldGathers(floats, events);
    var st := Fold(Stepper(floats), START, events).value;
    hide Fold, Flatten, Stepper, Stamp, Milliseconds, Scale, DeclaredDuration, Note, Block;
    ScaledOrder(st.duration, Longest(st), st.scale);
    forall i | 0 <= i < |events| && Block(events[i])
      ensures 0 <= Stamp(events, i) && Milliseconds(Stamp(events, i) as real, Scale(events)) <= Milliseconds(Longest(st), st.scale)
    {
      ScaledOrder(Stamp(events, i) as real, Longest(st), st.scale);
    }
    var i :| 0 <= i < |events| && Block(events[i]) && Stamp(events, i) == st.maxStamp;
  }
}
