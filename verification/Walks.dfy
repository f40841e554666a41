/** Nested containers read in document order: events folded into a state, and what
    a loop over one body keeps while it reads them. */
module Walks {
  import opened Options

  function Fold<S, E>(step: (S, E) -> Option<S>, st: S, events: seq<E>): Option<S> {
    if events == [] then Some(st)
    else
      var before := Fold(step, st, events[..|events| - 1]);
      if before.None? then None else step(before.value, events[|events| - 1])
  }

  lemma FoldNothing<S, E>(step: (S, E) -> Option<S>, st: S)
    ensures Fold(step, st, []) == Some(st)
  {}

  lemma {:induction false} FoldAppend<S, E>(step: (S, E) -> Option<S>, st: S, a: seq<E>, b: seq<E>)
    ensures Fold(step, st, a + b) == if Fold(step, st, a).None? then None else Fold(step, Fold(step, st, a).value, b)
  {
    if b == [] {
      assert a + b == a;
    } else {
      FoldAppend(step, st, a, b[..|b| - 1]);
      assert (a + b)[..|a + b| - 1] == a + b[..|b| - 1];
    }
  }

  lemma FoldOne<S, E>(step: (S, E) -> Option<S>, st: S, now: S, done: seq<E>, e: E)
    requires Fold(step, st, done) == Some(now)
    ensures Fold(step, st, done + [e]) == step(now, e)
  {
    assert (done + [e])[..|done|] == done;
  }

  lemma FoldStuck<S, E>(step: (S, E) -> Option<S>, st: S, now: S, done: seq<E>, e: E, more: seq<E>)
    requires Fold(step, st, done) == Some(now) && step(now, e).None?
    ensures Fold(step, st, done + ([e] + more)).None?
  {
    assert done + ([e] + more) == done + [e] + more;
    FoldOne(step, st, now, done, e);
    FoldAppend(step, st, done + [e], more);
  }

  /** A body is accepted if it has a structure and its events can all be read. */
  predicate Accepted<S, E>(step: (S, E) -> Option<S>, st: S, events: Option<seq<E>>) {
    events.Some? && Fold(step, st, events.value).Some?
  }

  /** What a body says, given what its first element and the rest of it say. */
  function Both<E>(own: Option<seq<E>>, others: Option<seq<E>>): Option<seq<E>> {
    if own.None? || others.None? then None else Some(own.value + others.value)
  }

  /** The whole is what is done and then the rest. */
  predicate Continues<E(==)>(whole: Option<seq<E>>, rest: Option<seq<E>>, done: seq<E>) {
    (whole.Some? <==> rest.Some?) && (rest.Some? ==> whole.value == done + rest.value)
  }

  lemma ContinuesAtFirst<E>(whole: Option<seq<E>>)
    ensures Continues(whole, whole, [])
  {
    if whole.Some? { assert [] + whole.value == whole.value; }
  }

  lemma ContinuesAtLast<E>(whole: Option<seq<E>>, done: seq<E>)
    requires Continues(whole, Some([]), done)
    ensures whole == Some(done)
  {
    assert done + [] == done;
  }

  /** What comes next cannot be read. */
  lemma TooMany<S, E>(step: (S, E) -> Option<S>, st: S, now: S, whole: Option<seq<E>>, rest: Option<seq<E>>, done: seq<E>)
    requires Continues(whole, rest, done) && Fold(step, st, done) == Some(now)
    requires rest.Some? ==> rest.value != [] && step(now, rest.value[0]).None?
    ensures !Accepted(step, st, whole)
  {
    hide Fold;
    if rest.Some? {
      FoldStuck(step, st, now, done, rest.value[0], rest.value[1..]);
      assert [rest.value[0]] + rest.value[1..] == rest.value;
    }
  }

  /** One element's own events, read from the state reached so far. */
  lemma ElementDone<S, E>(step: (S, E) -> Option<S>, st: S, now: S, whole: Option<seq<E>>, done: seq<E>,
                          own: Option<seq<E>>, others: Option<seq<E>>)
    requires Continues(whole, Both(own, others), done) && Fold(step, st, done) == Some(now)
    ensures !Accepted(step, now, own) ==> !Accepted(step, st, whole)
    ensures Accepted(step, now, own) ==>
      Continues(whole, others, done + own.value) && Fold(step, st, done + own.value) == Fold(step, now, own.value)
  {
    hide Fold;
    if own.Some? {
      FoldAppend(step, st, done, own.value);
      if others.Some? {
        assert done + (own.value + others.value) == done + own.value + others.value;
        FoldAppend(step, st, done + own.value, others.value);
      }
    }
  }

  /** A container is its opening, its content and its closing. */
  lemma InsideDone<S, E>(step: (S, E) -> Option<S>, now: S, open: E, inner: Option<seq<E>>, close: seq<E>)
    ensures var own := if inner.None? then None else Some([open] + inner.value + close);
      && (step(now, open).None? ==> !Accepted(step, now, own))
      && (step(now, open).Some? ==>
            && (!Accepted(step, step(now, open).value, inner) ==> !Accepted(step, now, own))
            && (Accepted(step, step(now, open).value, inner) ==>
                  Fold(step, now, own.value) == Fold(step, Fold(step, step(now, open).value, inner.value).value, close)))
  {
    if inner.Some? {
      assert [open] + inner.value + close == [open] + (inner.value + close);
      FoldNothing(step, now);
      FoldOne(step, now, now, [], open);
      assert [] + [open] == [open];
      FoldAppend(step, now, [open], inner.value + close);
      if step(now, open).Some? {
        FoldAppend(step, step(now, open).value, inner.value, close);
      }
    }
  }

  lemma SingleRead<S, E>(step: (S, E) -> Option<S>, now: S, e: E)
    ensures Fold(step, now, [e]) == step(now, e)
  {
    FoldNothing(step, now);
    FoldOne(step, now, now, [], e);
    assert [] + [e] == [e];
  }

  lemma AcceptedIs<S, E>(step: (S, E) -> Option<S>, st: S, events: Option<seq<E>>, last: S)
    ensures events.Some? && Fold(step, st, events.value) == Some(last) ==> Accepted(step, st, events)
  {}

  lemma AcceptedHas<S, E>(step: (S, E) -> Option<S>, st: S, events: Option<seq<E>>)
    requires Accepted(step, st, events)
    ensures events.Some? && Fold(step, st, events.value).Some?
  {}

  lemma AcceptedOne<S, E>(step: (S, E) -> Option<S>, st: S, e: E)
    ensures Accepted(step, st, Some([e])) <==> step(st, e).Some?
  {
    SingleRead(step, st, e);
  }
}
