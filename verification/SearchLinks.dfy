/** Why the SQL link prefilter of server/internal/api/search_filters.go loses no
    message: hiding code and spoilers cannot create a link. */
module SearchLinks {
  import opened Options

  /** The first occurrence of a text at or after a position. */
  function Find(s: string, p: string, from: nat): (at: Option<nat>)
    requires p != ""
    ensures at.Some? ==> from <= at.value && at.value + |p| <= |s|
    decreases if from <= |s| then |s| - from else 0
  {
    if from + |p| > |s| then None else if s[from..from + |p|] == p then Some(from) else Find(s, p, from + 1)
  }

  predicate Starts(s: string, p: string) { |p| <= |s| && s[..|p|] == p }

  /** The length of the hidden text at the front: a code block, inline code, or a
      spoiler, tried in this order. */
  function Hidden(s: string): (n: Option<nat>)
    ensures n.Some? ==> 0 < n.value <= |s|
  {
    if Starts(s, "```") && Find(s, "```", 3).Some? then Some(Find(s, "```", 3).value + 3)
    else if Starts(s, "`") && Find(s, "`", 1).Some? then Some(Find(s, "`", 1).value + 1)
    else if Starts(s, "||") && Find(s, "||", 2).Some? then Some(Find(s, "||", 2).value + 2)
    else None
  }

  /** Every hidden text becomes one space. */
  function Masked(body: string): string {
    if body == "" then ""
    else if Hidden(body).Some? then " " + Masked(body[Hidden(body).value..])
    else [body[0]] + Masked(body[1..])
  }

  function Lower(c: char): char { if 'A' <= c <= 'Z' then (c as int + 32) as char else c }

  /** A text at a position, letters compared without case. */
  predicate SameText(s: string, at: nat, p: string) {
    at + |p| <= |s| && forall i | 0 <= i < |p| :: Lower(s[at + i]) == p[i]
  }

  /** https?:// */
  predicate SchemeAt(s: string, at: nat) { SameText(s, at, "http://") || SameText(s, at, "https://") }

  /** What the SQL prefilter asks of a body. */
  ghost predicate Prefiltered(body: string) { exists at: nat :: at <= |body| && SchemeAt(body, at) }

  predicate LinkChar(c: char) { c !in " \t\n\r<>" }

  /** Some match of the link pattern in the masked text passes the URL checks. */
  ghost predicate HasVisibleLink(body: string, acceptable: string -> bool) {
    exists at: nat, end: nat ::
      && SchemeAt(Masked(body), at) && at < end <= |Masked(body)|
      && (forall i | at <= i < end :: LinkChar(Masked(body)[i])) && acceptable(Masked(body)[at..end])
  }

  predicate Unspaced(s: string) { forall i | 0 <= i < |s| :: s[i] != ' ' }

  /** A masked text that begins without a space begins like the body. */
  lemma {:induction false} MaskedPrefix(body: string, n: nat)
    requires n <= |Masked(body)| && Unspaced(Masked(body)[..n])
    ensures n <= |body| && body[..n] == Masked(body)[..n]
  {
    hide Hidden;
    if n > 0 {
      assert Masked(body)[..n][0] == Masked(body)[0];
      if Hidden(body).None? {
        assert Masked(body)[1..] == Masked(body[1..]);
        assert Masked(body[1..])[..n - 1] == Masked(body)[..n][1..];
        MaskedPrefix(body[1..], n - 1);
        assert body[..n] == [body[0]] + body[1..][..n - 1];
      }
    }
  }

  lemma SamePrefix(a: string, b: string, p: string)
    requires SameText(a, 0, p) && |p| <= |b| && b[..|p|] == a[..|p|]
    ensures SameText(b, 0, p)
  {
    forall i | 0 <= i < |p| ensures Lower(b[0 + i]) == p[i] {
      assert b[..|p|][i] == a[..|p|][i] && Lower(a[0 + i]) == p[i];
    }
  }

  lemma TextUnspaced(s: string, p: string)
    requires SameText(s, 0, p) && Unspaced(p)
    ensures Unspaced(s[..|p|])
  {
    forall i | 0 <= i < |p| ensures s[..|p|][i] != ' ' {
      assert Lower(s[0 + i]) == p[i] && p[i] != ' ';
    }
  }

  lemma Shifted(body: string, k: nat, at: nat)
    requires k <= |body| && SchemeAt(body[k..], at)
    ensures SchemeAt(body, k + at)
  {
    forall i | 0 <= i < |body| - k ensures body[k..][i] == body[k + i] {}
    if SameText(body[k..], at, "http://") {
      assert SameText(body, k + at, "http://");
    } else {
      assert SameText(body, k + at, "https://");
    }
  }

  /** A scheme in the masked text was already in the body. */
  lemma {:induction false} SchemeWasThere(body: string, at: nat)
    requires SchemeAt(Masked(body), at)
    ensures Prefiltered(body)
    decreases |body|
  {
    if at == 0 {
      FrontScheme(body);
    } else if Hidden(body).Some? {
      var k := Hidden(body).value;
      AfterFirst(" ", Masked(body[k..]), at);
      SchemeWasThere(body[k..], at - 1);
      Later(body, k);
    } else {
      AfterFirst([body[0]], Masked(body[1..]), at);
      SchemeWasThere(body[1..], at - 1);
      Later(body, 1);
    }
  }

  lemma Later(body: string, k: nat)
    requires k <= |body| && Prefiltered(body[k..])
    ensures Prefiltered(body)
  {
    hide SchemeAt;
    var at: nat :| at <= |body[k..]| && SchemeAt(body[k..], at);
    Shifted(body, k, at);
  }

  lemma AfterFirst(first: string, rest: string, at: nat)
    requires |first| == 1 && at > 0 && SchemeAt(first + rest, at)
    ensures SchemeAt(rest, at - 1)
  {
    assert (first + rest)[1..] == rest;
    if SameText(first + rest, at, "http://") {
      OneLess(first + rest, at, "http://");
    } else {
      OneLess(first + rest, at, "https://");
    }
  }

  lemma OneLess(s: string, at: nat, p: string)
    requires at > 0 && SameText(s, at, p)
    ensures SameText(s[1..], at - 1, p)
  {
    forall i | 0 <= i < |p| ensures Lower(s[1..][at - 1 + i]) == p[i] {
      assert Lower(s[at + i]) == p[i];
    }
  }

  lemma FrontScheme(body: string)
    requires SchemeAt(Masked(body), 0)
    ensures Prefiltered(body)
  {
    hide Masked;
    var p := if SameText(Masked(body), 0, "http://") then "http://" else "https://";
    TextUnspaced(Masked(body), p);
    MaskedPrefix(body, |p|);
    SamePrefix(Masked(body), body, p);
    assert SchemeAt(body, 0);
  }

  /** Every message with a visible link passes the prefilter, whatever the checks on
      the link's URL are. */
  lemma PrefilterKeepsLinks(body: string, acceptable: string -> bool)
    requires HasVisibleLink(body, acceptable)
    ensures Prefiltered(body)
  {
    hide SchemeAt, Masked;
    var at: nat, end: nat :| SchemeAt(Masked(body), at) && at < end <= |Masked(body)|
      && (forall i | at <= i < end :: LinkChar(Masked(body)[i])) && acceptable(Masked(body)[at..end]);
    SchemeWasThere(body, at);
  }
}
