/** validateVoiceNote in server/internal/api/voice_notes.go: the two containers
    behind one duration check. */
module VoiceNote {
  import opened Ebml
  import opened Options
  import M = VoiceMp4
  import W = VoiceWebm
  import Walks

  const MAX_VOICE_NOTE_BYTES: nat := 10 * 0x10_0000

  datatype Mime = Webm | Mp4

  predicate Sized(data: Bytes, duration: int) { 1 <= duration <= 120000 && 16 <= |data| <= MAX_VOICE_NOTE_BYTES }

  predicate StartsEbml(data: Bytes) { |data| >= 4 && BigEndian(data[..4]) == 0x1a45dfa3 }

  predicate Close(actual: real, duration: int) {
    actual <= 120250.0 && -2500.0 <= actual - duration as real <= 2500.0
  }

  /** Durations in milliseconds; floating-point durations are read by `floats`. */
  method ValidateVoiceNote(floats: W.Floats, data: Bytes, duration: int) returns (mime: Option<Mime>)
    ensures mime == Some(Webm) <==> Sized(data, duration) && StartsEbml(data) && exists events ::
      W.Note(floats, data, events) && Close(WebmLength(floats, events), duration)
    ensures mime == Some(Mp4) <==> Sized(data, duration) && !StartsEbml(data) && exists events, st ::
      M.Note(data, events, st) && Close(M.Latest(st, |st.fragments|), duration)
  {
    hide M.Note, W.Flatten, Walks.Fold, W.Whole;
    if duration < 1 || duration > 120000 || |data| < 16 || |data| > MAX_VOICE_NOTE_BYTES {
      return None;
    }
    var actual: Option<real>;
    if BigEndian(data[..4]) == 0x1a45dfa3 {
      actual := W.VoiceWebM(floats, data);
      mime := Some(Webm);
    } else {
      actual := M.VoiceMP4(data);
      mime := Some(Mp4);
    }
    if actual.None? || actual.value > 120250.0 || actual.value - duration as real > 2500.0 || actual.value - duration as real < -2500.0 {
      return None;
    }
  }

  function WebmLength(floats: W.Floats, events: seq<W.Event>): real {
    var st := Walks.Fold(W.Stepper(floats), W.START, events);
    if st.None? then 0.0 else W.Milliseconds(W.Longest(st.value), W.Scale(events))
  }

  /** In an accepted WebM note no block plays later than 120250 ms, whichever
      cluster it is in and whatever scale the document declares. */
  lemma NoLateBlock(floats: W.Floats, data: Bytes, duration: int, events: seq<W.Event>, i: nat)
    requires W.Note(floats, data, events) && Close(WebmLength(floats, events), duration)
    requires i < |events| && W.Block(events[i])
    ensures 0 <= W.Stamp(events, i) && W.Milliseconds(W.Stamp(events, i) as real, W.Scale(events)) <= 120250.0
  {
    W.ResultIsLatest(floats, data, events);
    hide Walks.Fold, W.Flatten, W.Stamp, W.Milliseconds, W.Longest;
  }

  /** In an accepted MP4 note no fragment ends later than 120250 ms. */
  lemma NoLateFragment(data: Bytes, duration: int, events: seq<M.Event>, st: M.Reading, k: nat)
    requires M.Note(data, events, st) && Close(M.Latest(st, |st.fragments|), duration) && 1 <= k <= |st.fragments|
    ensures M.Seconds(M.EndTicks(st, k), st.scale) <= 120250.0 && M.MediaDuration(events) <= 120250.0
  {
    M.ResultIsLatest(data, events, st);
    hide Walks.Fold, M.Flatten, M.EndTicks, M.Seconds;
  }
}
