/**
 * The avatar frame one user has selected, the sources that entitle the user to it, and the
 * deadline stored with the selection. No deadline means the selection does not end.
 */
module AvatarFrames {
  import opened Common

  type FrameId = nat

  datatype Asset = Asset(minimumVipLevel: Option<int>, isActive: bool)
  datatype Grant = Grant(frame: FrameId, expiresAt: Option<int>, revokedAt: Option<int>)
  datatype Membership = Membership(level: int, expiresAt: Option<int>)
  datatype Source = OfMembership(minimum: int, expiresAt: Option<int>) | OfGrant(expiresAt: Option<int>)

  datatype State = State(
    assets: map<FrameId, Asset>, membership: Membership, grants: seq<Grant>,
    selected: Option<FrameId>, deadline: Option<int>)

  predicate Running(until: Option<int>, now: int) {
    until.None? || until.value > now
  }

  /** Level four never ends, levels one to three end with their expiry. */
  function EffectiveLevel(m: Membership, now: int): int {
    if m.level <= 0 then 0
    else if m.level >= 4 then 4
    else if !Running(m.expiresAt, now) then 0
    else m.level
  }

  function MembershipSources(a: Asset, m: Membership, now: int): seq<Source> {
    var level := EffectiveLevel(m, now);
    if a.minimumVipLevel.Some? && level >= a.minimumVipLevel.value
    then [OfMembership(a.minimumVipLevel.value, if level >= 4 then None else m.expiresAt)] else []
  }

  /** The unrevoked, unexpired grants of this frame, in order. */
  function GrantSources(frame: FrameId, grants: seq<Grant>, now: int): seq<Source>
    decreases |grants|
  {
    if grants == [] then []
    else
      var g := grants[|grants| - 1];
      GrantSources(frame, grants[..|grants| - 1], now)
      + if g.frame == frame && g.revokedAt.None? && Running(g.expiresAt, now) then [OfGrant(g.expiresAt)] else []
  }

  function Sources(frame: FrameId, a: Asset, m: Membership, grants: seq<Grant>, now: int): seq<Source> {
    MembershipSources(a, m, now) + GrantSources(frame, grants, now)
  }

  /** `a` ends no earlier than `b`. */
  predicate NoEarlier(a: Option<int>, b: Option<int>) {
    a.None? || (b.Some? && a.value >= b.value)
  }

  /** The latest end among the sources. */
  function AvailableUntil(sources: seq<Source>): (until: Option<int>)
    requires sources != []
    ensures exists i :: 0 <= i < |sources| && sources[i].expiresAt == until
    ensures forall i :: 0 <= i < |sources| ==> NoEarlier(until, sources[i].expiresAt)
    decreases |sources|
  {
    var last := sources[|sources| - 1].expiresAt;
    if |sources| == 1 then last
    else
      var init := sources[..|sources| - 1];
      var before := AvailableUntil(init);
      assert forall i :: 0 <= i < |init| ==> sources[i] == init[i];
      if NoEarlier(before, last) then before else last
  }

  /** What the others see: the selected frame, if it is active, in time and still owned. */
  predicate Shown(s: State, now: int) {
    && s.selected.Some? && s.selected.value in s.assets && s.assets[s.selected.value].isActive
    && Running(s.deadline, now)
    && Sources(s.selected.value, s.assets[s.selected.value], s.membership, s.grants, now) != []
  }

  function Clear(s: State): State {
    s.(selected := None, deadline := None)
  }

  function SetEquipped(s: State, frame: Option<FrameId>, now: int): State {
    if frame.None? then Clear(s)
    else if frame.value !in s.assets || !s.assets[frame.value].isActive then s
    else
      var sources := Sources(frame.value, s.assets[frame.value], s.membership, s.grants, now);
      if sources == [] then s else s.(selected := frame, deadline := AvailableUntil(sources))
  }

  /** After a change of membership a running selection may be prolonged, and never shortened. */
  function Extend(s: State, next: Membership, now: int): State {
    if s.selected.None? || s.selected.value !in s.assets || !s.assets[s.selected.value].isActive || !Running(s.deadline, now) then s
    else
      var frame := s.selected.value;
      if Sources(frame, s.assets[frame], s.membership, s.grants, now) == [] then s
      else
        var after := Sources(frame, s.assets[frame], next, s.grants, now);
        if after != [] && s.deadline.Some? && !NoEarlier(s.deadline, AvailableUntil(after))
        then s.(deadline := AvailableUntil(after)) else s
  }

  /** After a change of grants the selection ends, or runs as long as its sources. */
  function Recompute(s: State, now: int): State {
    if s.selected.None? then s
    else if s.selected.value !in s.assets || !s.assets[s.selected.value].isActive || !Running(s.deadline, now) then Clear(s)
    else
      var sources := Sources(s.selected.value, s.assets[s.selected.value], s.membership, s.grants, now);
      if sources == [] then Clear(s) else s.(deadline := AvailableUntil(sources))
  }

  // ----- Runs

  /** Only an administrator's membership grant extends; other membership changes do not. */
  datatype Step =
    | Equip(choice: Option<FrameId>)
    | AddGrant(frame: FrameId, expiresAt: Option<int>)
    | RevokeGrant(index: nat)
    | ChangeMembership(next: Membership, prolongs: bool)
    | ChangeAsset(frame: FrameId, asset: Asset)

  function Do(s: State, step: Step, now: int): State {
    match step
    case Equip(choice) => SetEquipped(s, choice, now)
    case AddGrant(frame, expiresAt) =>
      if frame in s.assets && s.assets[frame].isActive && Running(expiresAt, now)
      then Recompute(s.(grants := s.grants + [Grant(frame, expiresAt, None)]), now) else s
    case RevokeGrant(index) =>
      if index < |s.grants| && s.grants[index].revokedAt.None?
      then Recompute(s.(grants := s.grants[index := s.grants[index].(revokedAt := Some(now))]), now) else s
    case ChangeMembership(next, prolongs) => (if prolongs then Extend(s, next, now) else s).(membership := next)
    case ChangeAsset(frame, asset) => s.(assets := s.assets[frame := asset])
  }

  /** Each step happens at its own time. */
  datatype Event = Event(now: int, step: Step)

  function Run(s: State, events: seq<Event>): State
    decreases |events|
  {
    if events == [] then s else Run(Do(s, events[0].step, events[0].now), events[1..])
  }

  /** No event is earlier than `from`, or than the event before it. */
  ghost predicate InOrder(from: int, events: seq<Event>) {
    && (forall i | 0 <= i < |events| :: from <= events[i].now)
    && (forall i, j | 0 <= i < j < |events| :: events[i].now <= events[j].now)
  }

  // ----- The sources at a time

  predicate GrantCounts(g: Grant, frame: FrameId, now: int) {
    g.frame == frame && g.revokedAt.None? && Running(g.expiresAt, now)
  }

  predicate MembershipCounts(a: Asset, m: Membership, now: int) {
    a.minimumVipLevel.Some? && EffectiveLevel(m, now) >= a.minimumVipLevel.value
  }

  lemma {:induction false} GrantSourcesAre(frame: FrameId, grants: seq<Grant>, now: int)
    ensures forall g | g in grants && GrantCounts(g, frame, now) :: OfGrant(g.expiresAt) in GrantSources(frame, grants, now)
    ensures forall x | x in GrantSources(frame, grants, now) ::
      exists g :: g in grants && GrantCounts(g, frame, now) && x == OfGrant(g.expiresAt)
    decreases |grants|
  {
    if grants != [] {
      var init, g := grants[..|grants| - 1], grants[|grants| - 1];
      GrantSourcesAre(frame, init, now);
      assert grants == init + [g];
      forall x | x in GrantSources(frame, grants, now)
        ensures exists h :: h in grants && GrantCounts(h, frame, now) && x == OfGrant(h.expiresAt)
      {
        if x in GrantSources(frame, init, now) {
          var h :| h in init && GrantCounts(h, frame, now) && x == OfGrant(h.expiresAt);
          assert h in grants;
        } else {
          assert g in grants;
        }
      }
    }
  }

  /** A source that ends after `later` is a source at `later` too, at least of as much. */
  lemma SourceLasts(frame: FrameId, a: Asset, m: Membership, grants: seq<Grant>, now: int, later: int, x: Source)
    requires now <= later && x in Sources(frame, a, m, grants, now) && Running(x.expiresAt, later)
    ensures Sources(frame, a, m, grants, later) != []
  {
    GrantSourcesAre(frame, grants, now);
    GrantSourcesAre(frame, grants, later);
    if x in GrantSources(frame, grants, now) {
      var g :| g in grants && GrantCounts(g, frame, now) && x == OfGrant(g.expiresAt);
      assert GrantCounts(g, frame, later);
    } else {
      assert x in MembershipSources(a, m, now);
    }
  }

  /** With its deadline set from the sources at `now`, a selection is shown until the deadline and no longer. */
  lemma ShownExactlyUntil(s: State, now: int, t: int)
    requires s.selected.Some? && s.selected.value in s.assets && s.assets[s.selected.value].isActive && now <= t
    requires var sources := Sources(s.selected.value, s.assets[s.selected.value], s.membership, s.grants, now);
      sources != [] && s.deadline == AvailableUntil(sources)
    ensures Shown(s, t) <==> (s.deadline.None? || t < s.deadline.value)
  {
    var a := s.assets[s.selected.value];
    var sources := Sources(s.selected.value, a, s.membership, s.grants, now);
    var i :| 0 <= i < |sources| && sources[i].expiresAt == s.deadline;
    if Running(s.deadline, t) { SourceLasts(s.selected.value, a, s.membership, s.grants, now, t, sources[i]); }
  }

  // ----- Theorems

  /** Equipped at `now` and left alone, the frame is shown exactly in [now, deadline). */
  lemma EquippedIsShownUntilItsDeadline(s: State, frame: FrameId, now: int, t: int)
    requires now <= t && frame in s.assets && s.assets[frame].isActive
    requires Sources(frame, s.assets[frame], s.membership, s.grants, now) != []
    ensures var s' := Do(s, Equip(Some(frame)), now);
      s'.selected == Some(frame) && (Shown(s', t) <==> (s'.deadline.None? || t < s'.deadline.value))
  {
    ShownExactlyUntil(Do(s, Equip(Some(frame)), now), now, t);
  }

  /** A grant added or revoked leaves no selection, or one shown exactly until its new deadline. */
  lemma RecomputedIsShownUntilItsDeadline(s: State, step: Step, now: int, t: int)
    requires (step.AddGrant? || step.RevokeGrant?) && now <= t && Do(s, step, now) != s
    ensures var s' := Do(s, step, now);
      Shown(s', t) <==> s'.selected.Some? && (s'.deadline.None? || t < s'.deadline.value)
  {
    var s' := Do(s, step, now);
    if s'.selected.Some? { ShownExactlyUntil(s', now, t); }
  }

  /** A membership that extends a selection leaves it shown exactly until the later deadline. */
  lemma ExtendedIsShownUntilItsDeadline(s: State, next: Membership, now: int, t: int)
    requires now <= t && Extend(s, next, now).deadline != s.deadline
    ensures var s' := Do(s, ChangeMembership(next, true), now);
      NoEarlier(s'.deadline, s.deadline) && (Shown(s', t) <==> (s'.deadline.None? || t < s'.deadline.value))
  {
    ShownExactlyUntil(Do(s, ChangeMembership(next, true), now), now, t);
  }

  // ----- Any change of membership

  /** The table's check: a frame asks for no level, or for one of the four. */
  predicate ValidAssets(s: State) {
    forall f | f in s.assets && s.assets[f].minimumVipLevel.Some? :: 1 <= s.assets[f].minimumVipLevel.value <= 4
  }

  predicate Wears(s: State) {
    s.selected.Some? && s.selected.value in s.assets && s.assets[s.selected.value].isActive
  }

  /** The sources only run out: those of later are those of now that last. */
  lemma SourcesRunOut(frame: FrameId, a: Asset, m: Membership, grants: seq<Grant>, now: int, later: int)
    requires now <= later && (a.minimumVipLevel.Some? ==> a.minimumVipLevel.value >= 1)
    ensures Sources(frame, a, m, grants, later) != [] <==>
      Sources(frame, a, m, grants, now) != [] && Running(AvailableUntil(Sources(frame, a, m, grants, now)), later)
  {
    var sources, rest := Sources(frame, a, m, grants, now), Sources(frame, a, m, grants, later);
    if rest != [] { SourceWasThere(frame, a, m, grants, now, later, rest[0]); }
    if sources != [] && Running(AvailableUntil(sources), later) {
      var i :| 0 <= i < |sources| && sources[i].expiresAt == AvailableUntil(sources);
      SourceLasts(frame, a, m, grants, now, later, sources[i]);
    }
  }

  lemma SourceWasThere(frame: FrameId, a: Asset, m: Membership, grants: seq<Grant>, now: int, later: int, x: Source)
    requires now <= later && (a.minimumVipLevel.Some? ==> a.minimumVipLevel.value >= 1)
    requires x in Sources(frame, a, m, grants, later)
    ensures exists i :: 0 <= i < |Sources(frame, a, m, grants, now)| && Running(Sources(frame, a, m, grants, now)[i].expiresAt, later)
  {
    GrantSourcesAre(frame, grants, now);
    GrantSourcesAre(frame, grants, later);
    var sources := Sources(frame, a, m, grants, now);
    if x in GrantSources(frame, grants, later) {
      var g :| g in grants && GrantCounts(g, frame, later) && x == OfGrant(g.expiresAt);
      assert GrantCounts(g, frame, now);
    } else {
      assert x in MembershipSources(a, m, later);
    }
    assert x in sources && Running(x.expiresAt, later);
    var i :| 0 <= i < |sources| && sources[i] == x;
  }

  /**
   * After any change of membership, left alone, the frame is shown exactly while the stored
   * deadline and the last of the remaining sources both run.
   */
  lemma ChangedMembershipIsShownWhile(s: State, next: Membership, prolongs: bool, now: int, t: int)
    requires ValidAssets(s) && now <= t
    ensures var s' := Do(s, ChangeMembership(next, prolongs), now);
      Shown(s', t) <==>
        && Wears(s) && Running(s'.deadline, t)
        && var sources := Sources(s.selected.value, s.assets[s.selected.value], next, s.grants, now);
           sources != [] && Running(AvailableUntil(sources), t)
  {
    if Wears(s) { SourcesRunOut(s.selected.value, s.assets[s.selected.value], next, s.grants, now, t); }
  }

  /** So a running deadline is exact if and only if the remaining sources last as long. */
  lemma DeadlineIsExactWhen(s: State, next: Membership, prolongs: bool, now: int)
    requires ValidAssets(s) && Wears(s) && Running(s.deadline, now)
    ensures var s' := Do(s, ChangeMembership(next, prolongs), now);
      var sources := Sources(s.selected.value, s.assets[s.selected.value], next, s.grants, now);
      (forall t | now <= t :: Shown(s', t) <==> Running(s'.deadline, t))
      <==> sources != [] && NoEarlier(AvailableUntil(sources), s'.deadline)
  {
    var s' := Do(s, ChangeMembership(next, prolongs), now);
    var sources := Sources(s.selected.value, s.assets[s.selected.value], next, s.grants, now);
    forall t | now <= t { ChangedMembershipIsShownWhile(s, next, prolongs, now, t); }
    if sources == [] {
      assert !Shown(s', now) && Running(s'.deadline, now);
    } else if !NoEarlier(AvailableUntil(sources), s'.deadline) {
      var until := AvailableUntil(sources).value;
      var t := if until < now then now else until;
      assert !Shown(s', t) && Running(s'.deadline, t);
    }
  }

  /** Some membership or grant entitles the user to the selected frame. */
  ghost predicate Owned(s: State, now: int) {
    s.selected.Some? && s.selected.value in s.assets &&
    (MembershipCounts(s.assets[s.selected.value], s.membership, now)
     || exists g :: g in s.grants && GrantCounts(g, s.selected.value, now))
  }

  lemma OwnedHasSources(s: State, now: int)
    requires s.selected.Some? && s.selected.value in s.assets
    ensures Owned(s, now) <==> Sources(s.selected.value, s.assets[s.selected.value], s.membership, s.grants, now) != []
  {
    var frame := s.selected.value;
    GrantSourcesAre(frame, s.grants, now);
    var sources := GrantSources(frame, s.grants, now);
    if sources != [] { assert sources[0] in sources; }
  }

  /** Shown at an extending change and owned after it, a frame stays shown for exactly as long as it is owned. */
  lemma ExtendedLastsAsLongAsOwned(s: State, next: Membership, now: int, t: int)
    requires ValidAssets(s) && Shown(s, now) && now <= t
    ensures var s' := Do(s, ChangeMembership(next, true), now); Owned(s', now) ==> (Shown(s', t) <==> Owned(s', t))
  {
    var s' := Do(s, ChangeMembership(next, true), now);
    var frame := s.selected.value;
    ChangedMembershipIsShownWhile(s, next, true, now, t);
    SourcesRunOut(frame, s.assets[frame], next, s.grants, now, t);
    OwnedHasSources(s', now);
    OwnedHasSources(s', t);
  }

  /** An asset taken out of use is hidden at once, and shown again as before if it comes back while the deadline runs and it is owned. */
  lemma DeactivatedIsHidden(s: State, frame: FrameId, asset: Asset, now: int, t: int)
    requires s.selected == Some(frame) && frame in s.assets
    ensures var s' := Do(s, ChangeAsset(frame, asset), now);
      Shown(s', t) <==> asset.isActive && Running(s.deadline, t) && Owned(s', t)
  {
    OwnedHasSources(Do(s, ChangeAsset(frame, asset), now), t);
  }

  /** A grant is made exactly for a frame in use with time to run, and revoked exactly once. */
  lemma GrantsChangeExactlyWhen(s: State, step: Step, now: int)
    ensures var grants := Do(s, step, now).grants;
      match step
      case AddGrant(frame, expiresAt) =>
        grants == if frame in s.assets && s.assets[frame].isActive && (expiresAt.None? || expiresAt.value > now)
                  then s.grants + [Grant(frame, expiresAt, None)] else s.grants
      case RevokeGrant(index) =>
        grants == if index < |s.grants| && s.grants[index].revokedAt.None?
                  then s.grants[index := s.grants[index].(revokedAt := Some(now))] else s.grants
      case _ => grants == s.grants
  {
  }

  /** Shown when a grant is made or revoked, and owned after it, a frame stays shown for exactly as long as it is owned; any other selection ends. */
  lemma RecomputedLastsAsLongAsOwned(s: State, step: Step, now: int, t: int)
    requires ValidAssets(s) && (step.AddGrant? || step.RevokeGrant?) && Do(s, step, now).grants != s.grants && now <= t
    ensures var s' := Do(s, step, now); var kept := s'.(selected := s.selected);
      if s.selected.Some? && s.selected.value in s.assets && s.assets[s.selected.value].isActive
         && Running(s.deadline, now) && Owned(kept, now)
      then s'.selected == s.selected && (Shown(s', t) <==> Owned(s', t))
      else s'.selected.None? && !Shown(s', t)
  {
    var s' := Do(s, step, now);
    var kept := s'.(selected := s.selected);
    if Wears(s) {
      var frame := s.selected.value;
      OwnedHasSources(kept, now);
      OwnedHasSources(kept, t);
      if s'.selected.Some? {
        SourcesRunOut(frame, s.assets[frame], s.membership, s'.grants, now, t);
        ShownExactlyUntil(s', now, t);
      }
    }
  }

  const VIP_TWO: State := State(map[0 := Asset(Some(2), true)], Membership(2, None), [], None, None)
  const UPGRADE: seq<Event> := [Event(0, Equip(Some(0))), Event(10, ChangeMembership(Membership(3, Some(50)), true))]

  /** An unlimited membership upgraded to a limited one: the frame goes with it, the deadline says never. */
  lemma UpgradeHidesBeforeTheDeadline()
    ensures var s := Run(VIP_TWO, UPGRADE); ValidAssets(VIP_TWO) && s.deadline == None && Shown(s, 49) && !Shown(s, 50)
  {
    var worn := Do(VIP_TWO, Equip(Some(0)), 0);
    assert Sources(0, Asset(Some(2), true), Membership(2, None), [], 0) == [OfMembership(2, None)];
    assert worn == VIP_TWO.(selected := Some(0), deadline := None);
    assert UPGRADE[1..] == [UPGRADE[1]] && UPGRADE[1..][1..] == [];
    var s := Do(worn, UPGRADE[1].step, 10);
    assert s == worn.(membership := Membership(3, Some(50)));
    assert Run(worn, UPGRADE[1..]) == s;
  }

  /** Changes of membership, with extension or without, never bring a deadline forward or change the frame. */
  lemma {:induction false} MembershipNeverShortens(s: State, events: seq<Event>)
    requires forall i | 0 <= i < |events| :: events[i].step.ChangeMembership?
    ensures var s' := Run(s, events); s'.selected == s.selected && NoEarlier(s'.deadline, s.deadline)
    decreases |events|
  {
    if events != [] {
      assert events[0].step.ChangeMembership?;
      MembershipNeverShortens(Do(s, events[0].step, events[0].now), events[1..]);
    }
  }

  /** No selection, or one whose deadline has passed. */
  predicate Lapsed(s: State, now: int) {
    s.selected.None? || (s.deadline.Some? && s.deadline.value <= now)
  }

  lemma LapsedStays(s: State, step: Step, now: int)
    requires Lapsed(s, now) && !(step.Equip? && step.choice.Some?)
    ensures Lapsed(Do(s, step, now), now)
  {
  }

  /** Once past its deadline a selection is never shown again until the user equips anew. */
  lemma {:induction false} LapsedIsNeverShown(s: State, from: int, events: seq<Event>, t: int)
    requires Lapsed(s, from) && InOrder(from, events) && from <= t
    requires forall i | 0 <= i < |events| :: events[i].now <= t && !(events[i].step.Equip? && events[i].step.choice.Some?)
    ensures !Shown(Run(s, events), t)
    decreases |events|
  {
    if events != [] {
      var e := events[0];
      assert from <= e.now;
      LapsedStays(s, e.step, e.now);
      assert InOrder(e.now, events[1..]) by {
        forall i | 0 <= i < |events[1..]| ensures e.now <= events[1..][i].now {
          assert events[1..][i] == events[i + 1];
        }
      }
      LapsedIsNeverShown(Do(s, e.step, e.now), e.now, events[1..], t);
    }
  }

  /** A revoked source gives nothing: what is shown has a source that is in force. */
  lemma ShownIsOwned(s: State, now: int)
    requires Shown(s, now)
    ensures var a := s.assets[s.selected.value];
      MembershipCounts(a, s.membership, now) || exists g :: g in s.grants && GrantCounts(g, s.selected.value, now)
  {
    var frame := s.selected.value;
    GrantSourcesAre(frame, s.grants, now);
    var sources := GrantSources(frame, s.grants, now);
    if sources != [] { assert sources[0] in sources; }
  }
}
