/**
 * Reading a conversation page by page. Each page scans for candidates without a lock, then reads
 * again, under the conversation lock, which of them may still be shown; the store may have
 * changed in any way in between, and between pages. Heights number messages from one.
 */
module AuditedPaging {
  import opened Common

  type Height = nat

  datatype Message = Message(
    sender: Option<string>, text: Option<string>, createdAt: int, deleted: bool, revoked: bool, expiresAt: Option<int>)
  datatype Archived = Archived(sender: Option<string>, text: Option<string>, createdAt: int, retainUntil: int)
  datatype Store = Store(messages: map<Height, Message>, archive: map<Height, Archived>, clearedBefore: nat, now: int)

  /** `cursor` zero is no cursor, as the source tests it for truth. */
  datatype Query = Query(
    archive: bool, sender: Option<string>, from: Option<int>, to: Option<int>, text: Option<string>, limit: nat)

  predicate Contains(text: string, part: string) {
    exists i | 0 <= i <= |text| :: part <= text[i..]
  }

  predicate Fits(q: Query, sender: Option<string>, text: Option<string>, createdAt: int) {
    && (q.sender.Some? ==> sender == q.sender)
    && (q.from.Some? ==> q.from.value <= createdAt)
    && (q.to.Some? ==> createdAt <= q.to.value)
    && (q.text.Some? ==> text.Some? && Contains(text.value, q.text.value))
  }

  /** Clearing, recalling, deleting and burning hide a message; the archive forgets after its term. */
  predicate Shown(s: Store, q: Query, h: Height) {
    if q.archive then
      && h in s.archive && s.archive[h].retainUntil > s.now
      && Fits(q, s.archive[h].sender, s.archive[h].text, s.archive[h].createdAt)
    else
      && h in s.messages && !s.messages[h].deleted && !s.messages[h].revoked
      && h > s.clearedBefore
      && (s.messages[h].expiresAt.Some? ==> s.messages[h].expiresAt.value > s.now)
      && Fits(q, s.messages[h].sender, s.messages[h].text, s.messages[h].createdAt)
  }

  predicate Below(h: Height, cursor: Height) {
    cursor == 0 || h < cursor
  }

  function Matching(s: Store, q: Query, cursor: Height): set<Height> {
    set h | h in (if q.archive then s.archive.Keys else s.messages.Keys) && Shown(s, q, h) && Below(h, cursor)
  }

  predicate Numbered(s: Store) {
    0 !in s.messages && 0 !in s.archive
  }

  // ----- What hides a message, and what a filter leaves

  /** A text filter asks for a part of the text. */
  lemma ContainsAPart(text: string, part: string)
    ensures Contains(text, part) <==> exists before, after :: text == before + part + after
  {
    if Contains(text, part) {
      var i :| 0 <= i <= |text| && part <= text[i..];
      assert text == text[..i] + part + text[i..][|part|..];
    }
    if before, after :| text == before + part + after {
      assert text[|before|..] == part + after;
      assert part <= text[|before|..];
    }
  }

  /** A message is filtered out exactly for its sender, its time, or for lacking the text. */
  lemma FilteredOutExactlyWhen(q: Query, sender: Option<string>, text: Option<string>, createdAt: int)
    ensures !Fits(q, sender, text, createdAt) <==>
      || (q.sender.Some? && sender != q.sender)
      || (q.from.Some? && createdAt < q.from.value)
      || (q.to.Some? && createdAt > q.to.value)
      || (q.text.Some? && (text.None? || forall before, after :: text.value != before + q.text.value + after))
  {
    if q.text.Some? && text.Some? { ContainsAPart(text.value, q.text.value); }
  }

  /** A message is hidden exactly when it is deleted, recalled, cleared, burnt, or filtered out. */
  lemma HiddenExactlyWhen(s: Store, q: Query, h: Height)
    requires !q.archive && h in s.messages
    ensures var m := s.messages[h];
      !Shown(s, q, h) <==>
        || m.deleted || m.revoked || h <= s.clearedBefore || (m.expiresAt.Some? && m.expiresAt.value <= s.now)
        || !Fits(q, m.sender, m.text, m.createdAt)
  {
  }

  /** An archived message is hidden exactly when its term is over or it is filtered out; clearing and recalling do not reach it. */
  lemma ArchivedHiddenExactlyWhen(s: Store, q: Query, h: Height)
    requires q.archive && h in s.archive
    ensures var m := s.archive[h];
      !Shown(s, q, h) <==> m.retainUntil <= s.now || !Fits(q, m.sender, m.text, m.createdAt)
  {
  }

  // ----- Ordering

  lemma {:induction false} GreatestExists(s: set<Height>)
    requires s != {}
    ensures exists m | m in s :: forall h | h in s :: h <= m
  {
    var x :| x in s;
    if s == {x} {
    } else {
      GreatestExists(s - {x});
      var y :| y in s - {x} && forall h | h in s - {x} :: h <= y;
      var m := if y > x then y else x;
      forall h | h in s ensures h <= m {
        if h != x { assert h in s - {x}; }
      }
    }
  }

  function Greatest(s: set<Height>): (m: Height)
    requires s != {}
    ensures m in s && forall h | h in s :: h <= m
  {
    GreatestExists(s);
    var m :| m in s && forall h | h in s :: h <= m;
    m
  }

  /** `ORDER BY height DESC LIMIT n`. */
  function Top(s: set<Height>, n: nat): seq<Height> {
    if s == {} || n == 0 then [] else [Greatest(s)] + Top(s - {Greatest(s)}, n - 1)
  }

  ghost predicate Descending(s: seq<Height>) {
    forall i, j | 0 <= i < j < |s| :: s[i] > s[j]
  }

  /** `top` is the n greatest of `s`, in order; whatever was cut off lies below all of them. */
  ghost predicate IsTop(s: set<Height>, top: seq<Height>, n: nat) {
    && Descending(top) && |top| <= n
    && (forall h | h in top :: h in s)
    && (forall h | h in s && h !in top :: |top| == n && forall t | t in top :: h < t)
  }

  lemma TopOfOneMore(s: set<Height>, m: Height, top: seq<Height>, n: nat)
    requires m in s && (forall h | h in s :: h <= m) && IsTop(s - {m}, top, n)
    ensures IsTop(s, [m] + top, n + 1)
  {
    var all := [m] + top;
    forall i, j | 0 <= i < j < |all| ensures all[i] > all[j] {
      assert all[j] == top[j - 1] && top[j - 1] in s - {m};
      if i > 0 { assert all[i] == top[i - 1]; }
    }
    forall h | h in s && h !in all ensures |all| == n + 1 && forall t | t in all :: h < t {
      assert h in s - {m} && h !in top;
    }
  }

  lemma {:induction false} TopIsTop(s: set<Height>, n: nat)
    ensures IsTop(s, Top(s, n), n)
  {
    if s != {} && n > 0 {
      TopIsTop(s - {Greatest(s)}, n - 1);
      TopOfOneMore(s, Greatest(s), Top(s - {Greatest(s)}, n - 1), n - 1);
    }
  }

  /** The n greatest, in order; whatever was cut off lies below all of them. */
  lemma TopIs(s: set<Height>, n: nat)
    ensures Descending(Top(s, n))
    ensures forall h | h in Top(s, n) :: h in s
    ensures |Top(s, n)| <= n
    ensures forall h | h in s && h !in Top(s, n) :: |Top(s, n)| == n && forall t | t in Top(s, n) :: h < t
  {
    TopIsTop(s, n);
  }

  // ----- One page

  datatype Page = Page(rows: seq<Height>, next: Option<Height>)

  function PageCursor(candidates: seq<Height>, survivors: seq<Height>, limit: nat): Option<Height>
    requires limit > 0
  {
    if |survivors| > limit then Some(survivors[limit - 1])
    else if |candidates| > limit then Some(candidates[|candidates| - 1])
    else None
  }

  function Candidates(scan: Store, q: Query, cursor: Height): seq<Height> {
    Top(Matching(scan, q, cursor), q.limit + 1)
  }

  /** The recheck reads the candidates again, by key, at most as many as there were. */
  function Survivors(scan: Store, locked: Store, q: Query, cursor: Height): seq<Height> {
    var candidates := Candidates(scan, q, cursor);
    Top(set h | h in candidates && h in Matching(locked, q, cursor), |candidates|)
  }

  function ReadPage(scan: Store, locked: Store, q: Query, cursor: Height): Page
    requires q.limit > 0
  {
    var survivors := Survivors(scan, locked, q, cursor);
    Page(
      if |survivors| > q.limit then survivors[..q.limit] else survivors,
      PageCursor(Candidates(scan, q, cursor), survivors, q.limit))
  }

  lemma {:induction false} TopCounts(s: set<Height>, n: nat)
    ensures |Top(s, n)| == if |s| < n then |s| else n
  {
    if s != {} && n > 0 { TopCounts(s - {Greatest(s)}, n - 1); }
  }

  /** A page is the last exactly when its scan found no more than it may hold, whatever the recheck left of it. */
  lemma LastPageExactlyWhen(scan: Store, locked: Store, q: Query, cursor: Height)
    requires q.limit > 0
    ensures ReadPage(scan, locked, q, cursor).next.None? <==> |Matching(scan, q, cursor)| <= q.limit
  {
    var candidates := Candidates(scan, q, cursor);
    TopCounts(Matching(scan, q, cursor), q.limit + 1);
    var kept := set h | h in candidates && h in Matching(locked, q, cursor);
    TopIs(kept, |candidates|);
  }

  lemma {:induction false} TopTakesAll(s: set<Height>, n: nat)
    requires |s| <= n
    ensures forall h | h in s :: h in Top(s, n)
  {
    if s != {} { TopTakesAll(s - {Greatest(s)}, n - 1); }
  }

  function Elements(s: seq<Height>): set<Height> {
    set h | h in s
  }

  lemma {:induction false} AtMost(s: seq<Height>)
    ensures |Elements(s)| <= |s|
  {
    if s == [] {
      assert Elements(s) == {};
    } else {
      AtMost(s[1..]);
      assert Elements(s) == Elements(s[1..]) + {s[0]};
    }
  }

  lemma SurvivorsAre(scan: Store, locked: Store, q: Query, cursor: Height)
    ensures var candidates := Candidates(scan, q, cursor); var survivors := Survivors(scan, locked, q, cursor);
      && Descending(survivors)
      && forall h :: h in survivors <==> h in candidates && h in Matching(locked, q, cursor)
  {
    var candidates := Candidates(scan, q, cursor);
    var kept := set h | h in candidates && h in Matching(locked, q, cursor);
    TopIs(kept, |candidates|);
    AtMost(candidates);
    SubsetSize(kept, Elements(candidates));
    TopTakesAll(kept, |candidates|);
  }

  lemma {:induction false} SubsetSize(a: set<Height>, b: set<Height>)
    requires a <= b
    ensures |a| <= |b|
  {
    if a != {} {
      var x :| x in a;
      SubsetSize(a - {x}, b - {x});
    }
  }

  /** Rows descend, were shown under the lock, and lie between the cursors. */
  lemma PageRows(scan: Store, locked: Store, q: Query, cursor: Height)
    requires q.limit > 0
    ensures var p := ReadPage(scan, locked, q, cursor);
      && Descending(p.rows) && |p.rows| <= q.limit
      && (forall h | h in p.rows :: Shown(locked, q, h) && Below(h, cursor))
      && (p.next.Some? ==> forall h | h in p.rows :: p.next.value <= h)
  {
    SurvivorsAre(scan, locked, q, cursor);
    TopIs(Matching(scan, q, cursor), q.limit + 1);
    var survivors := Survivors(scan, locked, q, cursor);
    var p := ReadPage(scan, locked, q, cursor);
    forall h | h in p.rows ensures Shown(locked, q, h) && Below(h, cursor) { assert h in survivors; }
    if p.next.Some? && |survivors| <= q.limit {
      var candidates := Candidates(scan, q, cursor);
      forall h | h in p.rows ensures p.next.value <= h {
        assert h in survivors && h in candidates;
        var i :| 0 <= i < |candidates| && candidates[i] == h;
        if i < |candidates| - 1 { assert candidates[i] > candidates[|candidates| - 1]; }
      }
    }
  }

  /** The next cursor is the height of a scanned message below this cursor. */
  lemma NextDescends(scan: Store, locked: Store, q: Query, cursor: Height)
    requires q.limit > 0
    ensures var p := ReadPage(scan, locked, q, cursor);
      p.next.Some? ==> Below(p.next.value, cursor) && Shown(scan, q, p.next.value)
  {
    SurvivorsAre(scan, locked, q, cursor);
    TopIs(Matching(scan, q, cursor), q.limit + 1);
    var p := ReadPage(scan, locked, q, cursor);
    if p.next.Some? { assert p.next.value in Candidates(scan, q, cursor); }
  }

  /** A message shown at both reads is on the page or left to the pages below. */
  lemma NothingIsSkipped(scan: Store, locked: Store, q: Query, cursor: Height, h: Height)
    requires q.limit > 0 && Below(h, cursor) && Shown(scan, q, h) && Shown(locked, q, h)
    ensures var p := ReadPage(scan, locked, q, cursor); h in p.rows || (p.next.Some? && h < p.next.value)
  {
    var candidates := Candidates(scan, q, cursor);
    var survivors := Survivors(scan, locked, q, cursor);
    SurvivorsAre(scan, locked, q, cursor);
    TopIs(Matching(scan, q, cursor), q.limit + 1);
    assert h in Matching(scan, q, cursor) && h in Matching(locked, q, cursor);
    if h in candidates {
      var i :| 0 <= i < |survivors| && survivors[i] == h;
      if i >= q.limit { assert survivors[q.limit - 1] > survivors[i]; }
    } else if |survivors| > q.limit {
      assert survivors[q.limit - 1] in survivors;
    } else {
      assert candidates[|candidates| - 1] in candidates;
    }
  }

  // ----- Following the cursor

  /** What the store was at the scan and at the recheck of one page. */
  datatype Reads = Reads(scan: Store, locked: Store)

  /** The rows of all pages, following `nextCursor` until it is null or the reads run out. */
  function Follow(q: Query, cursor: Height, pages: seq<Reads>): seq<Height>
    requires q.limit > 0
    decreases |pages|
  {
    if pages == [] then []
    else
      var p := ReadPage(pages[0].scan, pages[0].locked, q, cursor);
      p.rows + if p.next.Some? then Follow(q, p.next.value, pages[1..]) else []
  }

  predicate ReachesTheEnd(q: Query, cursor: Height, pages: seq<Reads>)
    requires q.limit > 0
    decreases |pages|
  {
    && pages != []
    && var p := ReadPage(pages[0].scan, pages[0].locked, q, cursor);
       p.next.None? || ReachesTheEnd(q, p.next.value, pages[1..])
  }

  ghost predicate AllNumbered(pages: seq<Reads>) {
    forall i | 0 <= i < |pages| :: Numbered(pages[i].scan)
  }

  ghost predicate ShownThroughout(q: Query, pages: seq<Reads>, h: Height) {
    forall i | 0 <= i < |pages| :: Shown(pages[i].scan, q, h) && Shown(pages[i].locked, q, h)
  }

  /** Heights strictly descend over all pages, so no message appears twice. */
  lemma {:induction false} PagesDescend(q: Query, cursor: Height, pages: seq<Reads>)
    requires q.limit > 0 && AllNumbered(pages)
    ensures Descending(Follow(q, cursor, pages))
    ensures forall h | h in Follow(q, cursor, pages) :: Below(h, cursor)
    decreases |pages|
  {
    if pages != [] {
      var p := ReadPage(pages[0].scan, pages[0].locked, q, cursor);
      PageRows(pages[0].scan, pages[0].locked, q, cursor);
      NextDescends(pages[0].scan, pages[0].locked, q, cursor);
      if p.next.Some? {
        assert Numbered(pages[0].scan) && p.next.value > 0;
        PagesDescend(q, p.next.value, pages[1..]);
        Joined(p.rows, Follow(q, p.next.value, pages[1..]), p.next.value);
      }
    }
  }

  lemma Joined(a: seq<Height>, b: seq<Height>, between: Height)
    requires Descending(a) && Descending(b)
    requires (forall h | h in a :: between <= h) && (forall h | h in b :: h < between)
    ensures Descending(a + b)
  {
    forall i, j | 0 <= i < j < |a + b| ensures (a + b)[i] > (a + b)[j] {
      if i < |a| <= j {
        assert (a + b)[i] in a && (a + b)[j] in b;
      }
    }
  }

  /** A message shown throughout is returned by a walk that reaches the end, whatever vanishes around it. */
  lemma {:induction false} ShownThroughoutIsReturned(q: Query, cursor: Height, pages: seq<Reads>, h: Height)
    requires q.limit > 0 && AllNumbered(pages) && ReachesTheEnd(q, cursor, pages)
    requires ShownThroughout(q, pages, h) && Below(h, cursor)
    ensures h in Follow(q, cursor, pages)
    decreases |pages|
  {
    var p := ReadPage(pages[0].scan, pages[0].locked, q, cursor);
    NothingIsSkipped(pages[0].scan, pages[0].locked, q, cursor, h);
    if h !in p.rows { ShownThroughoutIsReturned(q, p.next.value, pages[1..], h); }
  }

  /** Exactly once, from the top. */
  lemma ReturnedExactlyOnce(q: Query, pages: seq<Reads>, h: Height)
    requires q.limit > 0 && AllNumbered(pages) && ReachesTheEnd(q, 0, pages) && ShownThroughout(q, pages, h)
    ensures exists i :: 0 <= i < |Follow(q, 0, pages)| && Follow(q, 0, pages)[i] == h
    ensures forall i, j | 0 <= i < |Follow(q, 0, pages)| && 0 <= j < |Follow(q, 0, pages)|
              && Follow(q, 0, pages)[i] == h && Follow(q, 0, pages)[j] == h :: i == j
  {
    ShownThroughoutIsReturned(q, 0, pages, h);
    PagesDescend(q, 0, pages);
  }

  /** Nothing is returned that could not be shown at the recheck of its page. */
  lemma {:induction false} ReturnedWasShown(q: Query, cursor: Height, pages: seq<Reads>, h: Height)
    requires q.limit > 0 && h in Follow(q, cursor, pages)
    ensures exists i | 0 <= i < |pages| :: Shown(pages[i].locked, q, h)
    decreases |pages|
  {
    var p := ReadPage(pages[0].scan, pages[0].locked, q, cursor);
    PageRows(pages[0].scan, pages[0].locked, q, cursor);
    if h in p.rows {
      assert Shown(pages[0].locked, q, h);
    } else {
      ReturnedWasShown(q, p.next.value, pages[1..], h);
      var i :| 0 <= i < |pages[1..]| && Shown(pages[1..][i].locked, q, h);
      assert pages[i + 1] == pages[1..][i];
    }
  }

  /** Below a cursor there are at most as many pages as its height, however many messages arrive. */
  lemma {:induction false} WalkEnds(q: Query, cursor: Height, pages: seq<Reads>)
    requires q.limit > 0 && AllNumbered(pages) && 0 < cursor <= |pages|
    ensures ReachesTheEnd(q, cursor, pages)
    decreases cursor
  {
    var p := ReadPage(pages[0].scan, pages[0].locked, q, cursor);
    NextDescends(pages[0].scan, pages[0].locked, q, cursor);
    if p.next.Some? {
      assert Numbered(pages[0].scan) && p.next.value > 0;
      WalkEnds(q, p.next.value, pages[1..]);
    }
  }

  /** From the top the bound is the greatest height the first page scans. */
  lemma WalkFromTheTopEnds(q: Query, pages: seq<Reads>, highest: Height)
    requires q.limit > 0 && AllNumbered(pages) && highest < |pages|
    requires forall h: Height | Shown(pages[0].scan, q, h) :: h <= highest
    ensures ReachesTheEnd(q, 0, pages)
  {
    var p := ReadPage(pages[0].scan, pages[0].locked, q, 0);
    NextDescends(pages[0].scan, pages[0].locked, q, 0);
    if p.next.Some? {
      assert Numbered(pages[0].scan) && p.next.value > 0;
      WalkEnds(q, p.next.value, pages[1..]);
    }
  }
}

/** The audited read as the service performs it, one statement after another. */
module AdminImService {
  import opened Common
  import opened AuditedPaging

  datatype AuditEntry = AuditEntry(actor: string, archive: bool, reason: string, textFilterUsed: bool, cursor: Height, limit: nat, returned: nat)
  datatype Outcome = Read | InvalidDateRange | Forbidden | NotFound

  class AdminIm {
    var audit: seq<AuditEntry>

    constructor ()
      ensures audit == []
    {
      audit := [];
    }

    /**
     * No page leaves without its audit entry, and a refused read leaves none. `readable` and `stillReadable`: the
     * conversation is a persisted one before the scan and under its lock.
     */
    method Messages(actor: string, permitted: bool, readable: bool, stillReadable: bool, reason: string,
                    q: Query, cursor: Height, scan: Store, locked: Store)
      returns (outcome: Outcome, rows: seq<Height>, nextCursor: Option<Height>)
      requires q.limit > 0
      modifies this
      ensures var backwards := q.from.Some? && q.to.Some? && q.from.value > q.to.value;
        outcome == if backwards then InvalidDateRange else if !permitted then Forbidden
                   else if readable && stillReadable then Read else NotFound
      ensures outcome == Read ==> Page(rows, nextCursor) == ReadPage(scan, locked, q, cursor)
      ensures outcome == Read ==> audit == old(audit) + [AuditEntry(actor, q.archive, reason, q.text.Some?, cursor, q.limit, |rows|)]
      ensures outcome != Read ==> rows == [] && nextCursor == None && audit == old(audit)
    {
      rows, nextCursor := [], None;
      if q.from.Some? && q.to.Some? && q.from.value > q.to.value { return InvalidDateRange, rows, nextCursor; }
      if !permitted { return Forbidden, rows, nextCursor; }
      if !readable { return NotFound, rows, nextCursor; }
      var candidates := Top(Matching(scan, q, cursor), q.limit + 1);
      if !stillReadable { return NotFound, rows, nextCursor; }
      var survivors := Top(set h | h in candidates && h in Matching(locked, q, cursor), |candidates|);
      rows := survivors;
      if |survivors| > q.limit { rows := survivors[..q.limit]; }
      if |survivors| > q.limit {
        nextCursor := Some(survivors[q.limit - 1]);
      } else if |candidates| > q.limit {
        nextCursor := Some(candidates[|candidates| - 1]);
      }
      audit := audit + [AuditEntry(actor, q.archive, reason, q.text.Some?, cursor, q.limit, |rows|)];
      outcome := Read;
    }
  }
}
