/** The selection of one user as the avatar-frame services write it. */
module AvatarFrameService {
  import opened Common
  import opened AvatarFrames

  type UserId = nat

  datatype Outcome =
    | Changed | Replayed | IdempotencyConflict | UserNotFound
    | AssetNotFound | AssetInactive | NotOwned | InvalidExpiry | GrantNotFound | AlreadyRevoked

  /** Who asked for a grant, under which key and for which reason. */
  datatype Request = Request(operator: UserId, key: string, reason: string)
  datatype Withdrawal = Withdrawal(operator: UserId, reason: string)

  /** The grants that were asked for with this key. */
  function Asked(requests: seq<Request>, key: string): set<nat> {
    set i | 0 <= i < |requests| && requests[i].key == key
  }

  predicate Repeats(requests: seq<Request>, grants: seq<Grant>, i: nat, r: Request, frame: FrameId, expiresAt: Option<int>) {
    i < |requests| && i < |grants| && requests[i] == r && grants[i].frame == frame && grants[i].expiresAt == expiresAt
  }

  class Wardrobe {
    var assets: map<FrameId, Asset>
    var membership: Membership
    var grants: seq<Grant>
    var selected: Option<FrameId>
    var deadline: Option<int>
    var requests: seq<Request>
    var withdrawals: map<nat, Withdrawal>

    /** Every grant has its request, under a key of its own, and every revoked one its withdrawal. */
    predicate Valid()
      reads this
    {
      && |requests| == |grants|
      && (forall i, j | 0 <= i < j < |requests| :: requests[i].key != requests[j].key)
      && (forall i | i in withdrawals :: i < |grants|)
      && (forall i | 0 <= i < |grants| :: grants[i].revokedAt.Some? <==> i in withdrawals)
    }

    function Contents(): State
      reads this
    {
      State(assets, membership, grants, selected, deadline)
    }

    constructor (assets: map<FrameId, Asset>, membership: Membership)
      ensures Valid() && Contents() == State(assets, membership, [], None, None)
    {
      requests, withdrawals := [], map[];
      this.assets, this.membership, grants, selected, deadline := assets, membership, [], None, None;
    }

    method ResolveSources(frame: FrameId, asset: Asset, m: Membership, now: int) returns (sources: seq<Source>)
      ensures sources == Sources(frame, asset, m, grants, now)
    {
      sources := [];
      var effectiveLevel := EffectiveLevel(m, now);
      if asset.minimumVipLevel.Some? && effectiveLevel >= asset.minimumVipLevel.value {
        sources := sources + [OfMembership(asset.minimumVipLevel.value, if effectiveLevel >= 4 then None else m.expiresAt)];
      }
      var i := 0;
      while i < |grants|
        invariant 0 <= i <= |grants|
        invariant sources == MembershipSources(asset, m, now) + GrantSources(frame, grants[..i], now)
      {
        assert grants[..i + 1][..i] == grants[..i];
        var grant := grants[i];
        if grant.frame == frame && grant.revokedAt.None? && (grant.expiresAt.None? || grant.expiresAt.value > now) {
          sources := sources + [OfGrant(grant.expiresAt)];
        }
        i := i + 1;
      }
      assert grants[..i] == grants;
    }

    /** The appearance shown to others is there exactly when the frame is shown. */
    method ToPublicAppearance(now: int) returns (appearance: Option<FrameId>)
      ensures appearance == if Shown(Contents(), now) then selected else None
    {
      if selected.None? || selected.value !in assets || !assets[selected.value].isActive { return None; }
      if !(deadline.None? || deadline.value > now) { return None; }
      var sources := ResolveSources(selected.value, assets[selected.value], membership, now);
      appearance := if |sources| == 0 then None else selected;
    }

    method Equip(frame: Option<FrameId>, now: int) returns (outcome: Outcome)
      modifies this`selected, this`deadline
      ensures Contents() == SetEquipped(old(Contents()), frame, now)
      ensures outcome == Changed ==> selected == frame && (frame.None? ==> deadline == None)
      ensures outcome != Changed ==> Contents() == old(Contents())
    {
      if frame.None? {
        selected, deadline := None, None;
        return Changed;
      }
      if frame.value !in assets { return AssetNotFound; }
      if !assets[frame.value].isActive { return AssetInactive; }
      var sources := ResolveSources(frame.value, assets[frame.value], membership, now);
      if |sources| == 0 { return NotOwned; }
      selected, deadline := frame, AvailableUntil(sources);
      outcome := Changed;
    }

    method GrantMembership(next: Membership, now: int)
      modifies this`membership, this`deadline
      ensures Contents() == Do(old(Contents()), ChangeMembership(next, true), now)
    {
      var until := ExtendSelectionContinuity(next, now);
      membership, deadline := next, until;
    }

    method ExtendSelectionContinuity(next: Membership, now: int) returns (until: Option<int>)
      ensures until == Extend(Contents(), next, now).deadline
    {
      until := deadline;
      if selected.None? || selected.value !in assets || !assets[selected.value].isActive { return; }
      if !(deadline.None? || deadline.value > now) { return; }
      var before := ResolveSources(selected.value, assets[selected.value], membership, now);
      if |before| == 0 { return; }
      var after := ResolveSources(selected.value, assets[selected.value], next, now);
      if |after| == 0 { return; }
      var nextDeadline := AvailableUntil(after);
      if deadline.Some? && (nextDeadline.None? || nextDeadline.value > deadline.value) { until := nextDeadline; }
    }

    method RecomputeSelectionContinuity(now: int)
      modifies this`selected, this`deadline
      ensures Contents() == Recompute(old(Contents()), now)
    {
      if selected.None? { return; }
      if selected.value !in assets || !assets[selected.value].isActive || !(deadline.None? || deadline.value > now) {
        selected, deadline := None, None;
        return;
      }
      var sources := ResolveSources(selected.value, assets[selected.value], membership, now);
      if |sources| == 0 {
        selected, deadline := None, None;
        return;
      }
      var until := AvailableUntil(sources);
      if until != deadline { deadline := until; }
    }

    /**
     * A key is good for one grant: asked again with the same content nothing happens, with another content, or by
     * another user (`elsewhere`), the request is refused.
     */
    method GrantFrame(r: Request, frame: FrameId, expiresAt: Option<int>, elsewhere: bool, usersExist: bool, now: int)
      returns (outcome: Outcome)
      requires Valid() && (elsewhere ==> Asked(requests, r.key) == {})
      modifies this`grants, this`selected, this`deadline, this`requests
      ensures Valid()
      ensures Contents() == if outcome == Changed then Do(old(Contents()), AddGrant(frame, expiresAt), now) else old(Contents())
      ensures requests == if outcome == Changed then old(requests) + [r] else old(requests)
      ensures grants == if outcome == Changed then old(grants) + [Grant(frame, expiresAt, None)] else old(grants)
      ensures outcome == Changed <==>
        (!elsewhere && Asked(old(requests), r.key) == {} && usersExist
         && frame in assets && assets[frame].isActive && Running(expiresAt, now))
      ensures outcome == Replayed <==>
        exists i :: i in Asked(old(requests), r.key) && Repeats(old(requests), old(grants), i, r, frame, expiresAt)
      ensures outcome == IdempotencyConflict <==>
        (elsewhere || exists i :: i in Asked(old(requests), r.key) && !Repeats(old(requests), old(grants), i, r, frame, expiresAt))
    {
      if elsewhere { return IdempotencyConflict; }
      var asked := Asked(requests, r.key);
      if asked != {} {
        var i :| i in asked;
        assert forall j | j in asked :: j == i;
        return if Repeats(requests, grants, i, r, frame, expiresAt) then Replayed else IdempotencyConflict;
      }
      if !usersExist { return UserNotFound; }
      if frame !in assets { return AssetNotFound; }
      if !assets[frame].isActive { return AssetInactive; }
      if expiresAt.Some? && expiresAt.value <= now { return InvalidExpiry; }
      FreshKey(requests, r);
      grants, requests := grants + [Grant(frame, expiresAt, None)], requests + [r];
      RecomputeSelectionContinuity(now);
      outcome := Changed;
    }

    /** Revoked once; the same operator repeating the same reason is told so, anyone else is refused. */
    method RevokeFrame(index: nat, w: Withdrawal, operatorExists: bool, now: int) returns (outcome: Outcome)
      requires Valid()
      modifies this`grants, this`selected, this`deadline, this`withdrawals
      ensures Valid()
      ensures Contents() == if outcome == Changed then Do(old(Contents()), RevokeGrant(index), now) else old(Contents())
      ensures withdrawals == if outcome == Changed then old(withdrawals)[index := w] else old(withdrawals)
      ensures |grants| == |old(grants)| && forall i | 0 <= i < |grants| ::
        grants[i] == if i == index && outcome == Changed then old(grants)[i].(revokedAt := Some(now)) else old(grants)[i]
      ensures outcome == Changed <==> index < |old(grants)| && old(grants)[index].revokedAt.None? && operatorExists
      ensures outcome == Replayed <==> index < |old(grants)| && index in old(withdrawals) && old(withdrawals)[index] == w
      ensures outcome == AlreadyRevoked <==> index < |old(grants)| && index in old(withdrawals) && old(withdrawals)[index] != w
    {
      if index >= |grants| { return GrantNotFound; }
      if grants[index].revokedAt.Some? {
        return if withdrawals[index] == w then Replayed else AlreadyRevoked;
      }
      if !operatorExists { return UserNotFound; }
      grants := grants[index := grants[index].(revokedAt := Some(now))];
      withdrawals := withdrawals[index := w];
      RecomputeSelectionContinuity(now);
      outcome := Changed;
    }
  }

  lemma FreshKey(requests: seq<Request>, r: Request)
    requires Asked(requests, r.key) == {}
    requires forall i, j | 0 <= i < j < |requests| :: requests[i].key != requests[j].key
    ensures var after := requests + [r]; forall i, j | 0 <= i < j < |after| :: after[i].key != after[j].key
  {
    forall i | 0 <= i < |requests| ensures requests[i].key != r.key { assert i !in Asked(requests, r.key); }
  }
}
