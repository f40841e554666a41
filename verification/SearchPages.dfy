/** Filtered message search of server/internal/api/search_filters.go: bounded scans
    joined by cursors. */
module SearchPages {
  import opened Options
  import opened SearchCursor

  const MAX_SCAN: nat := 2000
  const LINK_BATCH: nat := 100

  /** A message that passed the SQL filter; `link` is whether its body has a
      visible link. */
  datatype Message = Message(sequence: int, link: bool)

  /** All rows passing the SQL filter, newest first. */
  predicate Descending(rows: seq<Message>) { forall i, j | 0 <= i < j < |rows| :: rows[i].sequence > rows[j].sequence }

  /** Rows older than a sequence. */
  function Below(rows: seq<Message>, before: int): seq<Message> {
    if rows == [] then []
    else if rows[0].sequence < before then rows else Below(rows[1..], before)
  }

  /** One SQL query. */
  function Query(rows: seq<Message>, before: int, batch: nat): seq<Message> {
    var older := Below(rows, before);
    if |older| <= batch then older else older[..batch]
  }

  predicate Shown(m: Message, links: bool) { !links || m.link }

  function Matching(rows: seq<Message>, links: bool): seq<Message> {
    if rows == [] then []
    else Matching(rows[..|rows| - 1], links) + if Shown(rows[|rows| - 1], links) then [rows[|rows| - 1]] else []
  }

  datatype Page = Page(messages: seq<Message>, next: Option<int>)

  function Limit(limit: int): nat { if limit < 1 || limit > 100 then 50 else limit }

  /** A page shows the matching messages down to its cursor, or all of them; it
      stops at a cursor only when it is full or has looked at enough rows. */
  ghost predicate IsPage(rows: seq<Message>, before: int, links: bool, limit: nat, page: Page) {
    && |page.messages| <= limit
    && match page.next
       case None => page.messages == Matching(Below(rows, before), links)
       case Some(_) => exists k :: StopsAt(Below(rows, before), links, limit, page, k)
  }

  predicate StopsAt(older: seq<Message>, links: bool, limit: nat, page: Page, k: int) {
    && 1 <= k <= |older| && page.next == Some(older[k - 1].sequence) && page.messages == Matching(older[..k], links)
    && (|page.messages| == limit || k >= MAX_SCAN)
  }

  // ---- Rows ------------------------------------------------------------------------

  lemma {:induction false} BelowSuffix(rows: seq<Message>, before: int)
    ensures |Below(rows, before)| <= |rows| && Below(rows, before) == rows[|rows| - |Below(rows, before)|..]
    ensures Descending(rows) ==> Descending(Below(rows, before)) && forall m | m in Below(rows, before) :: m.sequence < before
  {
    if rows != [] && rows[0].sequence >= before {
      BelowSuffix(rows[1..], before);
      assert Descending(rows) ==> Descending(rows[1..]);
    }
  }

  /** Moving the bound down to the k-th older row drops exactly the first k. */
  lemma {:induction false} BelowAgain(rows: seq<Message>, before: int, k: nat)
    requires Descending(rows) && 1 <= k <= |Below(rows, before)|
    ensures Below(rows, Below(rows, before)[k - 1].sequence) == Below(rows, before)[k..]
  {
    var older := Below(rows, before);
    if rows[0].sequence >= before {
      assert Descending(rows[1..]);
      BelowSuffix(rows[1..], before);
      BelowAgain(rows[1..], before, k);
      assert older[k - 1] in older;
    } else {
      Skipped(rows, k);
    }
  }

  lemma {:induction false} Skipped(rows: seq<Message>, k: nat)
    requires Descending(rows) && 1 <= k <= |rows|
    ensures Below(rows, rows[k - 1].sequence) == rows[k..]
  {
    if k > 1 {
      assert rows[1..][k - 2] == rows[k - 1] && rows[0].sequence > rows[k - 1].sequence;
      Skipped(rows[1..], k - 1);
      assert rows[1..][k - 1..] == rows[k..];
    } else if |rows| > 1 {
      assert rows[1..] != [] && rows[1].sequence < rows[0].sequence;
    }
  }

  lemma {:induction false} MatchingAppend(a: seq<Message>, b: seq<Message>, links: bool)
    ensures Matching(a + b, links) == Matching(a, links) + Matching(b, links)
  {
    if b == [] {
      assert a + b == a;
    } else {
      MatchingAppend(a, b[..|b| - 1], links);
      assert (a + b)[..|a + b| - 1] == a + b[..|b| - 1];
    }
  }

  // ---- The scan ----------------------------------------------------------------------

  /** One batch of rows, found after `seen` others. */
  method ReadRows(ghost older: seq<Message>, found: seq<Message>, ghost seen: nat, links: bool, limit: nat, sofar: seq<Message>)
    returns (messages: seq<Message>, count: nat)
    requires seen + |found| <= |older| && found == older[seen..seen + |found|]
    requires sofar == Matching(older[..seen], links) && |sofar| <= limit
    ensures count <= |found| && messages == Matching(older[..seen + count], links)
    ensures |messages| <= limit ==> count == |found|
    ensures |messages| <= limit + 1
  {
    messages, count := sofar, 0;
    while count < |found|
      invariant 0 <= count <= |found| && messages == Matching(older[..seen + count], links) && |messages| <= limit
    {
      NextShown(older, seen + count, links);
      var message := found[count];
      count := count + 1;
      if !links || message.link {
        messages := messages + [message];
        if |messages| > limit {
          return;
        }
      }
    }
  }

  lemma NextShown(older: seq<Message>, n: nat, links: bool)
    requires n < |older|
    ensures Matching(older[..n + 1], links) == Matching(older[..n], links) + if Shown(older[n], links) then [older[n]] else []
  {
    assert older[..n + 1][..n] == older[..n];
  }

  /** Queries in batches until the page is full, the rows run out, or enough rows
      have been looked at. */
  method Search(rows: seq<Message>, start: int, links: bool, wanted: int) returns (page: Page)
    requires Descending(rows)
    ensures IsPage(rows, start, links, Limit(wanted), page)
  {
    hide Matching, Below, Descending;
    var limit := Limit(wanted);
    var batch := if links then LINK_BATCH else limit + 1;
    ghost var older := Below(rows, start);
    var messages: seq<Message>, before, scanned: nat := [], start, 0;
    NothingRead(older, links);
    while scanned < MAX_SCAN
      invariant scanned <= |older| && messages == Matching(older[..scanned], links) && |messages| <= limit
      invariant Below(rows, before) == older[scanned..]
      invariant scanned > 0 ==> before == older[scanned - 1].sequence
      decreases |older| - scanned
    {
      var found := Query(rows, before, batch);
      var more, count := ReadRows(older, found, scanned, links, limit, messages);
      if |more| > limit {
        ghost var k := LastShown(older, links, scanned + count, limit);
        page := Page(more[..limit], Some(more[limit - 1].sequence));
        assert StopsAt(older, links, limit, page, k);
        return;
      }
      messages, scanned := more, scanned + count;
      if count < batch {
        assert older[..scanned] == older;
        return Page(messages, None);
      }
      before := found[count - 1].sequence;
      Continue(rows, start, scanned);
    }
    page := Page(messages, Some(before));
    assert StopsAt(older, links, limit, page, scanned);
  }

  lemma NothingRead(older: seq<Message>, links: bool)
    ensures older[0..] == older && Matching(older[..0], links) == []
  {}

  /** The place right after the limit-th message shown. */
  lemma {:induction false} LastShown(older: seq<Message>, links: bool, n: nat, limit: nat) returns (k: nat)
    requires n <= |older| && 1 <= limit < |Matching(older[..n], links)|
    ensures 1 <= k <= n && Matching(older[..k], links) == Matching(older[..n], links)[..limit]
    ensures older[k - 1] == Matching(older[..n], links)[limit - 1]
  {
    assert older[..n][..n - 1] == older[..n - 1];
    var before := Matching(older[..n - 1], links);
    if |before| > limit {
      k := LastShown(older, links, n - 1, limit);
    } else {
      k := LastAt(older, links, n - 1);
    }
  }

  lemma {:induction false} LastAt(older: seq<Message>, links: bool, n: nat) returns (k: nat)
    requires n <= |older| && Matching(older[..n], links) != []
    ensures 1 <= k <= n && Matching(older[..k], links) == Matching(older[..n], links)
    ensures older[k - 1] == Matching(older[..n], links)[|Matching(older[..n], links)| - 1]
  {
    assert older[..n][..n - 1] == older[..n - 1];
    if Shown(older[n - 1], links) {
      k := n;
    } else {
      k := LastAt(older, links, n - 1);
    }
  }

  lemma Continue(rows: seq<Message>, start: int, scanned: nat)
    requires Descending(rows) && scanned <= |Below(rows, start)|
    ensures scanned > 0 ==> Below(rows, Below(rows, start)[scanned - 1].sequence) == Below(rows, start)[scanned..]
  {
    if scanned > 0 { BelowAgain(rows, start, scanned); }
  }

  // ---- Following cursors ---------------------------------------------------------------

  /** Pages fetched one after another, each but the first from the cursor before it. */
  ghost predicate Chain(rows: seq<Message>, before: int, links: bool, limit: nat, pages: seq<Page>)
    decreases |pages|
  {
    pages != [] ==>
      && IsPage(rows, before, links, limit, pages[0])
      && (|pages| > 1 ==> pages[0].next.Some? && Chain(rows, pages[0].next.value, links, limit, pages[1..]))
  }

  function Shows(pages: seq<Page>): seq<Message> { if pages == [] then [] else pages[0].messages + Shows(pages[1..]) }

  /** The rows a chain has not come to: nothing once a page has no cursor. */
  function Remaining(rows: seq<Message>, before: int, pages: seq<Page>): seq<Message> {
    if pages == [] then Below(rows, before)
    else if pages[|pages| - 1].next.None? then []
    else Below(rows, pages[|pages| - 1].next.value)
  }

  /** Every cursor is past at least one more row: a chain whose pages all have one is
      no longer than the rows, so following cursors comes to an end. */
  lemma {:induction false} FewPages(rows: seq<Message>, before: int, links: bool, limit: nat, pages: seq<Page>)
    requires Descending(rows) && Chain(rows, before, links, limit, pages) && forall p | p in pages :: p.next.Some?
    ensures |pages| + |Remaining(rows, before, pages)| <= |Below(rows, before)|
    decreases |pages|
  {
    var older := Below(rows, before);
    if pages != [] {
      assert pages[0] in pages && pages[|pages| - 1] in pages;
      var k :| StopsAt(older, links, limit, pages[0], k);
      BelowAgain(rows, before, k);
      FewPages(rows, pages[0].next.value, links, limit, pages[1..]);
    }
  }

  /** Following cursors shows every matching message once, newest first: what a chain
      has shown and what remains make up the whole. */
  lemma {:induction false} NoGapNoRepeat(rows: seq<Message>, before: int, links: bool, limit: nat, pages: seq<Page>)
    requires Descending(rows) && Chain(rows, before, links, limit, pages)
    ensures Shows(pages) + Matching(Remaining(rows, before, pages), links) == Matching(Below(rows, before), links)
    decreases |pages|
  {
    hide IsPage, Below, Matching, Descending;
    if pages != [] {
      if pages[0].next.Some? {
        PageSplits(rows, before, links, limit, pages[0]);
        assert |pages| > 1 ==> pages[1..][|pages| - 2] == pages[|pages| - 1];
        NoGapNoRepeat(rows, pages[0].next.value, links, limit, pages[1..]);
        assert Shows(pages) == pages[0].messages + Shows(pages[1..]);
      } else {
        LastPage(rows, before, links, limit, pages[0]);
        assert |pages| == 1 && pages[1..] == [] && Shows(pages[1..]) == [];
      }
    }
  }

  lemma PageSplits(rows: seq<Message>, before: int, links: bool, limit: nat, page: Page)
    requires Descending(rows) && IsPage(rows, before, links, limit, page) && page.next.Some?
    ensures page.messages + Matching(Below(rows, page.next.value), links) == Matching(Below(rows, before), links)
  {
    var older := Below(rows, before);
    var k :| StopsAt(older, links, limit, page, k);
    BelowAgain(rows, before, k);
    MatchingAppend(older[..k], older[k..], links);
    assert older[..k] + older[k..] == older;
  }

  lemma LastPage(rows: seq<Message>, before: int, links: bool, limit: nat, page: Page)
    requires IsPage(rows, before, links, limit, page) && page.next.None?
    ensures page.messages == Matching(Below(rows, before), links) && Matching([], links) == []
  {}

  // ---- Cursors as text -------------------------------------------------------------------

  /** A reply names its cursor in text, or has the empty one. */
  datatype Reply = Reply(messages: seq<Message>, beforeId: string)

  function ReplyOf(page: Page): Reply {
    Reply(page.messages, if page.next.None? then "" else EncodeSearchCursor(page.next.value))
  }

  /** Where a request starts: at the newest row, at its cursor, or at the message it
      names, if the user sees such a message. */
  function Start(ids: map<string, int>, beforeId: string): Option<int> {
    if beforeId == "" then Some(MAX_INT64)
    else if PREFIX <= beforeId then DecodeSearchCursor(beforeId)
    else if beforeId in ids then Some(ids[beforeId]) else None
  }

  /** SearchMessagesFiltered; None stands for its not-found error. */
  method SearchMessages(rows: seq<Message>, ids: map<string, int>, beforeId: string, links: bool, wanted: int)
    returns (reply: Option<Reply>, ghost page: Page)
    requires Descending(rows)
    ensures reply.None? <==> Start(ids, beforeId).None?
    ensures reply.Some? ==> reply == Some(ReplyOf(page)) && IsPage(rows, Start(ids, beforeId).value, links, Limit(wanted), page)
  {
    hide IsPage, Descending;
    var start := Start(ids, beforeId);
    page := Page([], None);
    if start.None? {
      return None, page;
    }
    var found := Search(rows, start.value, links, wanted);
    return Some(ReplyOf(found)), found;
  }

  predicate Stored(rows: seq<Message>) {
    Descending(rows) && forall m | m in rows :: 1 <= m.sequence < MAX_INT64
  }

  /** The text of a page's cursor starts the next request right below the page. */
  lemma CursorContinues(rows: seq<Message>, ids: map<string, int>, before: int, links: bool, limit: nat, page: Page)
    requires Stored(rows) && IsPage(rows, before, links, limit, page) && page.next.Some?
    ensures ReplyOf(page).beforeId != "" && Start(ids, ReplyOf(page).beforeId) == page.next
    ensures |Below(rows, page.next.value)| < |Below(rows, before)|
  {
    var k :| StopsAt(Below(rows, before), links, limit, page, k);
    BelowSuffix(rows, before);
    BelowAgain(rows, before, k);
    assert Below(rows, before)[k - 1] in rows;
    CursorRoundTrip(page.next.value);
    hide DecodeSearchCursor, Below, Matching, Descending;
  }

  lemma AllBelow(rows: seq<Message>)
    requires Stored(rows)
    ensures Below(rows, MAX_INT64) == rows
  {
    if rows != [] { assert rows[0] in rows; }
  }

  /** One page more. */
  lemma {:induction false} ChainGrows(rows: seq<Message>, before: int, links: bool, limit: nat, pages: seq<Page>, page: Page)
    requires Chain(rows, before, links, limit, pages) && forall p | p in pages :: p.next.Some?
    requires IsPage(rows, if pages == [] then before else pages[|pages| - 1].next.value, links, limit, page)
    ensures Chain(rows, before, links, limit, pages + [page])
    decreases |pages|
  {
    if pages != [] {
      assert pages[0] in pages;
      assert (pages + [page])[1..] == pages[1..] + [page];
      ChainGrows(rows, pages[0].next.value, links, limit, pages[1..], page);
    }
  }

  lemma {:induction false} ShowsGrows(pages: seq<Page>, page: Page)
    ensures Shows(pages + [page]) == Shows(pages) + page.messages
  {
    if pages == [] {
      assert Shows([page][1..]) == [];
    } else {
      assert (pages + [page])[1..] == pages[1..] + [page];
      ShowsGrows(pages[1..], page);
    }
  }

  /** A client that repeats its request with each reply's cursor is done after finitely
      many, and has then seen exactly the matching messages, newest first. */
  method FollowCursors(rows: seq<Message>, ids: map<string, int>, links: bool, wanted: int) returns (shown: seq<Message>)
    requires Stored(rows)
    ensures shown == Matching(rows, links)
  {
    hide IsPage, Below, Descending, DecodeSearchCursor, EncodeSearchCursor;
    shown := [];
    var cursor, done := "", false;
    ghost var pages: seq<Page>, at := [], MAX_INT64;
    AllBelow(rows);
    while !done
      invariant Chain(rows, MAX_INT64, links, Limit(wanted), pages) && shown == Shows(pages)
      invariant !done ==> forall p | p in pages :: p.next.Some?
      invariant !done && pages != [] ==> pages[|pages| - 1] in pages
      invariant !done ==> Start(ids, cursor) == Some(at) && at == (if pages == [] then MAX_INT64 else pages[|pages| - 1].next.value)
      invariant done ==> pages != [] && pages[|pages| - 1].next.None?
      decreases if done then 0 else |Below(rows, at)| + 1
    {
      var reply, page := SearchMessages(rows, ids, cursor, links, wanted);
      ChainGrows(rows, MAX_INT64, links, Limit(wanted), pages, page);
      ShowsGrows(pages, page);
      pages, shown := pages + [page], shown + reply.value.messages;
      if page.next.Some? {
        CursorContinues(rows, ids, at, links, Limit(wanted), page);
        at := page.next.value;
      }
      cursor := reply.value.beforeId;
      done := cursor == "";
    }
    NoGapNoRepeat(rows, MAX_INT64, links, Limit(wanted), pages);
  }
}
