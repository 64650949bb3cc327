/**
 * Announcing revoked scopes to the other instances. Advancing a generation leaves its row pending;
 * a notifier reads the row, announces what it read, and clears the pending mark of that generation.
 */
module ScopeNotices {
  import opened Common
  import opened SessionTables

  type NotifierId = nat

  datatype Notice = Notice(scope: ScopeId, generation: nat, exempt: Option<FamilyId>)

  /** A notifier between its read and its write. */
  datatype Notifier = Notifier(notice: Notice, delivered: bool)

  datatype World = World(t: Tables, announced: set<Notice>, notifiers: map<NotifierId, Notifier>)

  datatype Step =
    | AdvanceScope(user: UserId, key: ScopeKey, exempt: Option<FamilyId>)
    | ReadPending(n: NotifierId, scope: ScopeId)
    | Announce(n: NotifierId, delivered: bool)
    | ClearPending(n: NotifierId)
    | Lost(n: NotifierId)

  function NoticeOf(scope: ScopeId, g: Generation): Notice {
    Notice(scope, g.generation, g.exempt)
  }

  /** Only the generation that was announced loses its mark. */
  function Cleared(gens: map<ScopeId, Generation>, notice: Notice): map<ScopeId, Generation> {
    if notice.scope in gens && gens[notice.scope].generation == notice.generation && gens[notice.scope].pending
    then gens[notice.scope := gens[notice.scope].(pending := false)] else gens
  }

  function Do(w: World, step: Step): World {
    match step
    case AdvanceScope(user, key, exempt) => w.(t := Advance(w.t, user, key, exempt))
    case ReadPending(n, scope) =>
      if scope in w.t.gens then w.(notifiers := w.notifiers[n := Notifier(NoticeOf(scope, w.t.gens[scope]), false)]) else w
    case Announce(n, delivered) =>
      if n in w.notifiers && delivered
      then w.(announced := w.announced + {w.notifiers[n].notice}, notifiers := w.notifiers[n := w.notifiers[n].(delivered := true)])
      else w
    case ClearPending(n) =>
      if n in w.notifiers && w.notifiers[n].delivered
      then w.(t := w.t.(gens := Cleared(w.t.gens, w.notifiers[n].notice)), notifiers := w.notifiers - {n}) else w
    case Lost(n) => w.(notifiers := w.notifiers - {n})
  }

  function Run(w: World, steps: seq<Step>): World
    decreases |steps|
  {
    if steps == [] then w else Run(Do(w, steps[0]), steps[1..])
  }

  predicate Start(w: World) {
    w.t.gens == map[] && w.announced == {} && w.notifiers == map[]
  }

  /** A notice is never ahead of its row, and one of the current generation says what the row says. */
  predicate Faithful(t: Tables, notice: Notice) {
    && notice.scope in t.gens
    && notice.generation <= t.gens[notice.scope].generation
    && (notice.generation == t.gens[notice.scope].generation ==> notice.exempt == t.gens[notice.scope].exempt)
  }

  ghost predicate Inv(w: World) {
    && (forall n | n in w.notifiers ::
          Faithful(w.t, w.notifiers[n].notice) && (w.notifiers[n].delivered ==> w.notifiers[n].notice in w.announced))
    && (forall notice | notice in w.announced :: Faithful(w.t, notice))
    && (forall s | s in w.t.gens && !w.t.gens[s].pending :: NoticeOf(s, w.t.gens[s]) in w.announced)
  }

  lemma StepKeeps(w: World, step: Step)
    requires Inv(w)
    ensures Inv(Do(w, step))
  {
  }

  lemma {:induction false} RunKeeps(w: World, steps: seq<Step>)
    requires Inv(w)
    ensures Inv(Run(w, steps))
    decreases |steps|
  {
    if steps != [] {
      StepKeeps(w, steps[0]);
      RunKeeps(Do(w, steps[0]), steps[1..]);
    }
  }

  /** A cleared mark means that the current generation, with its current exemption, was announced. */
  lemma ClearedMeansAnnounced(start: World, steps: seq<Step>, scope: ScopeId)
    requires Start(start) && scope in Run(start, steps).t.gens && !Run(start, steps).t.gens[scope].pending
    ensures NoticeOf(scope, Run(start, steps).t.gens[scope]) in Run(start, steps).announced
  {
    RunKeeps(start, steps);
  }

  /** A notice overtaken by a later revocation clears nothing. */
  lemma OvertakenClearsNothing(w: World, n: NotifierId)
    requires n in w.notifiers && w.notifiers[n].notice.scope in w.t.gens
    requires w.notifiers[n].notice.generation < w.t.gens[w.notifiers[n].notice.scope].generation
    ensures Do(w, ClearPending(n)).t == w.t
  {
  }

  /** Every revocation is pending until its own generation is announced. */
  lemma RevocationIsPending(w: World, user: UserId, key: ScopeKey, exempt: Option<FamilyId>)
    ensures var w' := Do(w, AdvanceScope(user, key, exempt)); var id := ScopeId(user, key);
      && w'.t.gens == w.t.gens[id := Generation(if id in w.t.gens then w.t.gens[id].generation + 1 else 1, exempt, true)]
      && w'.t.rows == w.t.rows && w'.announced == w.announced && w'.notifiers == w.notifiers
  {
  }

  /** Left alone, a notifier announces what the row says and clears its mark. */
  lemma NoticeAlone(w: World, n: NotifierId, scope: ScopeId)
    requires n !in w.notifiers && scope in w.t.gens && w.t.gens[scope].pending
    ensures var g := w.t.gens[scope]; var w' := Do(Do(Do(w, ReadPending(n, scope)), Announce(n, true)), ClearPending(n));
      && w'.announced == w.announced + {Notice(scope, g.generation, g.exempt)}
      && w'.t.gens == w.t.gens[scope := g.(pending := false)] && w'.notifiers == w.notifiers
  {
    var g := w.t.gens[scope];
    var w1 := Do(w, ReadPending(n, scope));
    var w2 := Do(w1, Announce(n, true));
    assert w1.notifiers[n] == Notifier(Notice(scope, g.generation, g.exempt), false);
    assert w2.notifiers == w.notifiers[n := Notifier(Notice(scope, g.generation, g.exempt), true)];
    assert Do(w2, ClearPending(n)).notifiers == w.notifiers;
  }

  /** A notice that does not get through, or is lost, leaves its row pending. */
  lemma UndeliveredStaysPending(w: World, n: NotifierId, scope: ScopeId)
    requires n in w.notifiers && !w.notifiers[n].delivered && scope in w.t.gens && w.t.gens[scope].pending
    ensures Do(Do(w, Announce(n, false)), ClearPending(n)).t == w.t
    ensures Do(w, Lost(n)).t == w.t && n !in Do(w, Lost(n)).notifiers
  {
  }

  // ----- One pass over the pending rows

  /** The scopes of the page whose announcement got through. */
  function Through(page: seq<ScopeId>, works: set<ScopeId>): seq<ScopeId>
    decreases |page|
  {
    if page == [] then []
    else
      var last := page[|page| - 1];
      Through(page[..|page| - 1], works) + if last in works then [last] else []
  }

  lemma {:induction false} ThroughIs(page: seq<ScopeId>, works: set<ScopeId>)
    ensures forall s :: s in Through(page, works) <==> s in page && s in works
    ensures |Through(page, works)| <= |page|
    ensures |Through(page, works)| == |page| <==> forall s | s in page :: s in works
    decreases |page|
  {
    if page != [] {
      var init, last := page[..|page| - 1], page[|page| - 1];
      ThroughIs(init, works);
      assert page == init + [last];
      assert last in page;
    }
  }

  function NoticesOf(scopes: seq<ScopeId>, gens: map<ScopeId, Generation>): set<Notice>
    requires forall s | s in scopes :: s in gens
  {
    set s | s in scopes :: NoticeOf(s, gens[s])
  }

  class Notifications {
    var gens: map<ScopeId, Generation>
    var announced: set<Notice>

    constructor ()
      ensures gens == map[] && announced == {}
    {
      gens, announced := map[], {};
    }

    method AnnounceOne(scope: ScopeId, works: bool, ghost through: seq<ScopeId>, ghost before: set<Notice>)
      requires scope in gens && forall s | s in through :: s in gens
      requires announced == before + NoticesOf(through, gens)
      modifies this`announced
      ensures announced == before + NoticesOf(through + if works then [scope] else [], gens)
    {
      if works { announced := announced + {NoticeOf(scope, gens[scope])}; }
    }

    /**
     * `page` is what the query returned, a page of pending rows; `works` says for which of them
     * the announcement got through. Batch by batch the page is announced; what got through is
     * cleared afterwards, all at once.
     */
    method NotifyPendingScopeRevocations(page: seq<ScopeId>, works: set<ScopeId>, batchSize: nat) returns (count: nat)
      requires batchSize > 0
      requires forall s | s in page :: s in gens && gens[s].pending
      modifies this
      ensures gens == map s | s in old(gens) :: if s in page && s in works then old(gens)[s].(pending := false) else old(gens)[s]
      ensures forall s | s in page && s in works :: NoticeOf(s, old(gens)[s]) in announced
      ensures forall notice | notice in announced ::
        notice in old(announced) || (notice.scope in page && notice.scope in works && notice == NoticeOf(notice.scope, old(gens)[notice.scope]))
      ensures count <= |page| && (count == |page| <==> forall s | s in page :: s in works)
    {
      var delivered: seq<ScopeId> := [];
      var offset := 0;
      while offset < |page|
        invariant 0 <= offset <= |page| && gens == old(gens)
        invariant delivered == Through(page[..offset], works) && (forall s | s in delivered :: s in gens)
        invariant announced == old(announced) + NoticesOf(delivered, gens)
      {
        var end := if offset + batchSize <= |page| then offset + batchSize else |page|;
        var i := offset;
        while i < end
          invariant offset <= i <= end && gens == old(gens)
          invariant delivered == Through(page[..i], works) && (forall s | s in delivered :: s in gens)
          invariant announced == old(announced) + NoticesOf(delivered, gens)
        {
          assert page[..i + 1][..i] == page[..i] && page[i] in page;
          AnnounceOne(page[i], page[i] in works, delivered, old(announced));
          if page[i] in works { delivered := delivered + [page[i]]; }
          i := i + 1;
        }
        offset := end;
      }
      assert page[..offset] == page;
      ThroughIs(page, works);
      gens := map s | s in gens :: if s in delivered then gens[s].(pending := false) else gens[s];
      count := |delivered|;
    }
  }
}
