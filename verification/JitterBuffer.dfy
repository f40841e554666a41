/** The voice jitter buffer of apps/web/public/voicePlayback.worklet.js. */
module JitterBuffer {
  type Samples = seq<real>

  /** 120 ms and 40 ms at 48 kHz. */
  const LIMIT: nat := 5760
  const PREBUFFER: nat := 1920

  function Flat(chunks: seq<Samples>): Samples { if chunks == [] then [] else chunks[0] + Flat(chunks[1..]) }

  lemma {:induction false} FlatAppend(a: seq<Samples>, b: seq<Samples>)
    ensures Flat(a + b) == Flat(a) + Flat(b)
  {
    if a == [] {
      assert a + b == b;
    } else {
      FlatAppend(a[1..], b);
      assert (a + b)[1..] == a[1..] + b && (a + b)[0] == a[0];
    }
  }

  lemma FlatOne(c: Samples)
    ensures Flat([c]) == c
  {
    assert [c][1..] == [] && Flat([]) == [];
  }

  function Zeros(n: nat): (z: Samples)
    ensures |z| == n && forall i | 0 <= i < n :: z[i] == 0.0
  {
    seq(n, i => 0.0)
  }

  function Min(a: nat, b: nat): nat { if a < b then a else b }

  /** The fewest oldest remainders to drop so that n more samples fit. */
  function Stale(chunks: seq<Samples>, n: nat): (k: nat)
    ensures k <= |chunks|
    ensures k < |chunks| ==> |Flat(chunks[k..])| + n <= LIMIT
    ensures forall j | 0 <= j < k :: |Flat(chunks[j..])| + n > LIMIT
  {
    if chunks == [] || |Flat(chunks)| + n <= LIMIT then 0
    else
      var k := Stale(chunks[1..], n);
      assert forall j | 1 <= j <= |chunks| :: chunks[1..][j - 1..] == chunks[j..];
      k + 1
  }

  /** `a` is `b` with some samples left out. */
  ghost predicate Subsequence(a: Samples, b: Samples) {
    || a == []
    || (b != [] && (Subsequence(a, b[..|b| - 1])
                    || (a[|a| - 1] == b[|b| - 1] && Subsequence(a[..|a| - 1], b[..|b| - 1]))))
  }

  lemma {:induction false} MoreSkipped(a: Samples, b: Samples, c: Samples)
    requires Subsequence(a, b)
    ensures Subsequence(a, b + c)
  {
    if c == [] {
      assert b + c == b;
    } else {
      MoreSkipped(a, b, c[..|c| - 1]);
      assert (b + c)[..|b + c| - 1] == b + c[..|c| - 1];
    }
  }

  lemma {:induction false} MorePlayed(a: Samples, b: Samples, c: Samples)
    requires Subsequence(a, b)
    ensures Subsequence(a + c, b + c)
  {
    if c == [] {
      assert a + c == a && b + c == b;
    } else {
      MorePlayed(a, b, c[..|c| - 1]);
      assert (a + c)[..|a + c| - 1] == a + c[..|c| - 1] && (b + c)[..|b + c| - 1] == b + c[..|c| - 1];
    }
  }

  /** Where the pending samples begin moves on by what was taken. */
  lemma TakenFrom(received: Samples, pending: Samples, part: Samples, rest: Samples)
    requires |pending| <= |received| && pending == received[|received| - |pending|..] && pending == part + rest
    ensures received[..|received| - |rest|] == received[..|received| - |pending|] + part
  {
    var k := |received| - |pending|;
    assert received[k..][..|part|] == part;
  }

  /** What was played is what was received, in order, without what was lost. */
  ghost predicate Heard(received: Samples, samples: nat, played: Samples, lost: nat) {
    && samples <= |received| && |played| + lost + samples == |received|
    && Subsequence(played, received[..|received| - samples])
  }

  lemma NothingHeard()
    ensures Heard([], 0, [], 0)
  {}

  lemma Skips(received: Samples, pending: Samples, part: Samples, rest: Samples, played: Samples, lost: nat)
    requires Heard(received, |pending|, played, lost) && pending == received[|received| - |pending|..] && pending == part + rest
    ensures Heard(received, |rest|, played, lost + |part|)
  {
    hide Subsequence;
    TakenFrom(received, pending, part, rest);
    MoreSkipped(played, received[..|received| - |pending|], part);
  }

  lemma Plays(received: Samples, pending: Samples, part: Samples, rest: Samples, played: Samples, lost: nat)
    requires Heard(received, |pending|, played, lost) && pending == received[|received| - |pending|..] && pending == part + rest
    ensures Heard(received, |rest|, played + part, lost)
  {
    hide Subsequence;
    TakenFrom(received, pending, part, rest);
    MorePlayed(played, received[..|received| - |pending|], part);
  }

  lemma FlatFirst(chunks: seq<Samples>)
    requires chunks != []
    ensures Flat(chunks) == chunks[0] + Flat(chunks[1..])
  {}

  class VoicePlayback {
    var queue: seq<Samples>
    var offset: nat
    var samples: nat
    var started: bool
    /** Every sample accepted since the last reset. */
    ghost var received: Samples
    /** Every sample put out since then, padding apart, and how many were dropped. */
    ghost var played: Samples
    ghost var lost: nat

    /** The first chunk without what has been played of it, and the rest. */
    ghost function Remainders(): seq<Samples>
      reads this`queue, this`offset
      requires queue == [] || offset <= |queue[0]|
    {
      if queue == [] then [] else [queue[0][offset..]] + queue[1..]
    }

    ghost predicate Valid()
      reads this
    {
      Buffered() && Heard(received, samples, played, lost)
    }

    ghost predicate Buffered()
      reads this`queue, this`offset, this`samples, this`received
    {
      && (queue == [] ==> offset == 0)
      && (queue != [] ==> offset <= |queue[0]|)
      && samples == |Flat(Remainders())| <= LIMIT
      && samples <= |received| && Flat(Remainders()) == received[|received| - samples..]
    }

    ghost function Pending(): Samples
      reads this
      requires Valid()
    {
      Flat(Remainders())
    }

    constructor ()
      ensures Valid() && Pending() == [] && !started && received == [] && played == []
    {
      hide Heard;
      NothingHeard();
      queue, offset, samples, started, received, played, lost := [], 0, 0, false, [], [], 0;
    }

    method Reset()
      modifies this
      ensures Valid() && Pending() == [] && !started && received == [] && played == []
    {
      hide Heard;
      NothingHeard();
      queue, offset, samples, started, received, played, lost := [], 0, 0, false, [], [], 0;
    }

    /** One whole remainder is dropped. */
    method DropOldest()
      requires Valid() && queue != []
      modifies this`queue, this`offset, this`samples, this`lost
      ensures Valid() && Remainders() == old(Remainders())[1..] && samples <= old(samples)
    {
      hide Heard;
      ghost var before := Remainders();
      FlatFirst(before);
      Skips(received, Flat(before), before[0], Flat(before[1..]), played, lost);
      lost := lost + |before[0]|;
      var stale := queue[0];
      queue := queue[1..];
      samples := samples - (|stale| - offset);
      offset := 0;
      assert Remainders() == before[1..] by {
        if queue != [] { assert queue[0][0..] == queue[0] && [queue[0]] + queue[1..] == queue; }
      }
    }

    /** New audio wins over stale queued speech; an oversized packet only clears. */
    method Audio(data: Samples)
      requires Valid()
      modifies this
      ensures Valid() && started == old(started)
      ensures var kept := old(Remainders())[Stale(old(Remainders()), |data|)..];
        Remainders() == if |data| <= LIMIT then kept + [data] else kept
      ensures received == if |data| <= LIMIT then old(received) + data else old(received)
      ensures played == old(played)
    {
      hide Heard, Flat;
      ghost var before, dropped: nat := Remainders(), 0;
      while samples + |data| > LIMIT && |queue| > 0
        invariant Valid() && dropped <= |before| && Remainders() == before[dropped..]
        invariant forall j | 0 <= j < dropped :: |Flat(before[j..])| + |data| > LIMIT
        invariant started == old(started) && received == old(received) && played == old(played)
        decreases |queue|
      {
        assert before[dropped..][1..] == before[dropped + 1..];
        DropOldest();
        dropped := dropped + 1;
      }
      NothingLeft();
      OnlyStale(before, |data|, dropped);
      if |data| <= LIMIT {
        Push(data);
      }
    }

    method Push(data: Samples)
      requires Valid() && samples + |data| <= LIMIT
      modifies this`queue, this`samples, this`received
      ensures Valid() && started == old(started)
      ensures Remainders() == old(Remainders()) + [data] && received == old(received) + data
    {
      hide Subsequence;
      FlatAppend(Remainders(), [data]);
      FlatOne(data);
      ghost var was := Remainders();
      queue := queue + [data];
      samples := samples + |data|;
      received := received + data;
      assert Remainders() == was + [data] by {
        if |queue| > 1 { assert queue[1..] == old(queue)[1..] + [data]; } else { assert queue == [data] && data[0..] == data; }
      }
      assert received[|received| - samples..] == old(received[|received| - samples..]) + data;
      assert received[..|received| - samples] == old(received[..|received| - samples]);
    }

    /** Up to `room` samples of the first chunk; a chunk played out is removed. */
    method TakeFirst(room: nat) returns (part: Samples)
      requires Valid() && queue != [] && room > 0
      modifies this`queue, this`offset, this`samples, this`played
      ensures Valid() && |part| <= room && part + Pending() == old(Pending()) && played == old(played) + part
      ensures |queue| < |old(queue)| || (|queue| == |old(queue)| && |part| > 0)
    {
      hide Heard, Flat;
      ghost var before := Flat(Remainders());
      part := Advance(room);
      Plays(received, before, part, Flat(Remainders()), played, lost);
      played := played + part;
    }

    method Advance(room: nat) returns (part: Samples)
      requires Buffered() && queue != [] && room > 0
      modifies this`queue, this`offset, this`samples
      ensures Buffered() && |part| <= room && part + Flat(Remainders()) == old(Flat(Remainders()))
      ensures |queue| < |old(queue)| || (|queue| == |old(queue)| && |part| > 0)
    {
      ghost var before := Remainders();
      FlatFirst(before);
      var current := queue[0];
      var count := Min(room, |current| - offset);
      part := current[offset..offset + count];
      offset := offset + count;
      samples := samples - count;
      if offset == |current| {
        queue := queue[1..];
        offset := 0;
        assert Remainders() == before[1..] by {
          if queue != [] { assert queue[0][0..] == queue[0] && [queue[0]] + queue[1..] == queue; }
        }
        assert part == before[0];
      } else {
        FlatAppend([current[offset..]], before[1..]);
        FlatOne(current[offset..]);
        assert Remainders() == [current[offset..]] + before[1..];
        assert part + current[offset..] == before[0];
        assert part + (current[offset..] + Flat(before[1..])) == part + current[offset..] + Flat(before[1..]);
      }
      assert part + Flat(Remainders()) == Flat(before);
      TailOf(received, Flat(before), part, Flat(Remainders()));
    }

    /** Fills the output with the oldest pending samples, in order, and silence
        after them. Playback starts with at least 40 ms pending, stops when it runs
        dry, and then starts again only with as much. */
    method Process(output: array<real>)
      requires Valid()
      modifies this`queue, this`offset, this`samples, this`started, this`played, output
      ensures Valid()
      ensures !old(started) && old(samples) < PREBUFFER ==>
        Pending() == old(Pending()) && !started && output[..] == Zeros(output.Length) && played == old(played)
      ensures old(started) || old(samples) >= PREBUFFER ==>
        var n := Min(output.Length, old(samples));
        && output[..] == old(Pending())[..n] + Zeros(output.Length - n) && Pending() == old(Pending())[n..]
        && (started <==> old(samples) >= output.Length) && played == old(played) + old(Pending())[..n]
    {
      hide Heard, Flat;
      Fill(output);
      if !started {
        if samples < PREBUFFER {
          return;
        }
        started := true;
      }
      var written := Play(output);
      if written < output.Length {
        started := false;
      }
    }

    /** The copying loop of `process`, over an output already filled with silence. */
    method Play(output: array<real>) returns (written: nat)
      requires Valid() && output[..] == Zeros(output.Length)
      modifies this`queue, this`offset, this`samples, this`played, output
      ensures Valid() && written == Min(output.Length, old(samples)) && played == old(played) + old(Pending())[..written]
      ensures output[..] == old(Pending())[..written] + Zeros(output.Length - written) && Pending() == old(Pending())[written..]
    {
      hide Flat, Buffered, Heard, Zeros, Remainders, Pending, Valid;
      ghost var before, total := Pending(), samples;
      written := 0;
      SamplesCount();
      Untouched(output, before);
      while written < output.Length && |queue| > 0
        invariant 0 <= written <= output.Length && Valid() && written <= |before| == total && Pending() == before[written..]
        invariant output[..] == before[..written] + Zeros(output.Length - written) && played == old(played) + before[..written]
        decreases |queue|, output.Length - written
      {
        ghost var w := written;
        written := CopyNext(output, written, before);
        PlayedOn(old(played), before, w, written);
      }
      if written < output.Length {
        NothingLeft();
      }
    }

    method CopyNext(output: array<real>, written: nat, ghost before: Samples) returns (more: nat)
      requires Valid() && queue != [] && written < output.Length && written <= |before| && Pending() == before[written..]
      requires output[..] == before[..written] + Zeros(output.Length - written)
      modifies this`queue, this`offset, this`samples, this`played, output
      ensures Valid() && written <= more <= output.Length && more <= |before| && Pending() == before[more..]
      ensures played == old(played) + before[written..more]
      ensures output[..] == before[..more] + Zeros(output.Length - more)
      ensures |queue| < |old(queue)| || (|queue| == |old(queue)| && more > written)
    {
      hide Flat, Buffered, Heard, Zeros, Remainders, Pending, Valid;
      var part := TakeFirst(output.Length - written);
      Moved(before, written, part, Pending());
      Write(output, written, part);
      Placed(before, written, part, output[..], output.Length);
      more := written + |part|;
      assert before[written..more] == before[..more][written..] == part;
    }

    lemma SamplesCount()
      requires Valid()
      ensures |Pending()| == samples
    {}

    lemma NothingLeft()
      requires Valid()
      ensures queue == [] ==> Pending() == []
    {}
  }

  method Fill(output: array<real>)
    modifies output
    ensures output[..] == Zeros(output.Length)
  {
    var i := 0;
    while i < output.Length
      invariant 0 <= i <= output.Length && forall j | 0 <= j < i :: output[j] == 0.0
    {
      output[i] := 0.0;
      i := i + 1;
    }
  }

  /** `output.set(part, at)`. */
  method Write(output: array<real>, at: nat, part: Samples)
    requires at + |part| <= output.Length
    modifies output
    ensures output[..] == old(output[..])[..at] + part + old(output[..])[at + |part|..]
  {
    var i := 0;
    while i < |part|
      invariant 0 <= i <= |part|
      invariant forall j | 0 <= j < output.Length ::
        output[j] == if at <= j < at + i then part[j - at] else old(output[j])
    {
      output[at + i] := part[i];
      i := i + 1;
    }
  }

  lemma Untouched(output: array<real>, before: Samples)
    requires output[..] == Zeros(output.Length)
    ensures before[0..] == before && output[..] == before[..0] + Zeros(output.Length - 0)
  {}

  /** A part written over the front of the silence. */
  lemma Placed(before: Samples, w: nat, part: Samples, now: Samples, n: nat)
    requires w + |part| <= |before| && w + |part| <= n && before[..w] + part == before[..w + |part|]
    requires var was := before[..w] + Zeros(n - w); now == was[..w] + part + was[w + |part|..]
    ensures now == before[..w + |part|] + Zeros(n - (w + |part|))
  {
    var was := before[..w] + Zeros(n - w);
    assert was[..w] == before[..w] && was[w + |part|..] == Zeros(n - (w + |part|));
  }

  lemma PlayedOn(earlier: Samples, before: Samples, w: nat, more: nat)
    requires w <= more <= |before|
    ensures earlier + before[..w] + before[w..more] == earlier + before[..more]
  {
    assert before[..w] + before[w..more] == before[..more];
  }

  lemma Moved(before: Samples, w: nat, part: Samples, rest: Samples)
    requires w <= |before| && part + rest == before[w..]
    ensures w + |part| <= |before| && rest == before[w + |part|..] && before[..w] + part == before[..w + |part|]
  {
    assert |part| + |rest| == |before| - w;
    assert part == (part + rest)[..|part|] && rest == (part + rest)[|part|..];
  }

  lemma TailOf(received: Samples, pending: Samples, part: Samples, rest: Samples)
    requires |pending| <= |received| && pending == received[|received| - |pending|..] && pending == part + rest
    ensures |rest| <= |received| && rest == received[|received| - |rest|..]
  {
    assert rest == pending[|part|..];
  }

  lemma OnlyStale(chunks: seq<Samples>, n: nat, k: nat)
    requires k <= |chunks| && (forall j | 0 <= j < k :: |Flat(chunks[j..])| + n > LIMIT)
    requires k < |chunks| ==> |Flat(chunks[k..])| + n <= LIMIT
    ensures k == Stale(chunks, n)
  {
    var s := Stale(chunks, n);
    assert |Flat(chunks[s..])| >= 0 && |Flat(chunks[k..])| >= 0;
  }
}
