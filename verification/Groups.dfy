/** Group membership and blocking (server/internal/api/social_store.go,
    privacy_store.go and account_store.go). Each method is one transaction under
    the membership lock. */
module Groups {
  import opened Options

  const GROUP_MEMBER_LIMIT: nat := 10

  /** Lower-cased identifiers, in their order. */
  type User = nat
  type Room = nat

  datatype Role = Owner | Plain

  datatype Member = Member(role: Role, joinedAt: int)

  datatype Group = Group(owner: User, members: map<User, Member>)

  datatype Outcome = Done | Forbidden | Full | NotFound | Conflict | OwnsChannels

  // ---- Succession ---------------------------------------------------------------------

  /** ORDER BY joined_at, user_id. */
  predicate Before(members: map<User, Member>, a: User, b: User)
    requires a in members && b in members
  {
    members[a].joinedAt < members[b].joinedAt || (members[a].joinedAt == members[b].joinedAt && a <= b)
  }

  predicate IsHeir(members: map<User, Member>, u: User) { u in members && forall v | v in members :: Before(members, u, v) }

  /** LIMIT 1. */
  method Heir(members: map<User, Member>) returns (heir: Option<User>)
    ensures members == map[] <==> heir.None?
    ensures heir.Some? ==> IsHeir(members, heir.value)
  {
    heir := None;
    var todo := members.Keys;
    while todo != {}
      invariant todo <= members.Keys
      invariant heir.None? ==> todo == members.Keys
      invariant heir.Some? ==> heir.value in members && forall v | v in members && v !in todo :: Before(members, heir.value, v)
      decreases todo
    {
      var u :| u in todo;
      if heir.None? || !Before(members, heir.value, u) {
        heir := Some(u);
      }
      todo := todo - {u};
    }
  }

  lemma OneHeir(members: map<User, Member>, a: User, b: User)
    requires IsHeir(members, a) && IsHeir(members, b)
    ensures a == b
  {
    assert Before(members, a, b) && Before(members, b, a);
  }

  /** A group after one member has gone; none if nobody is left. */
  ghost predicate Left(g: Group, u: User, after: Option<Group>) {
    var rest := g.members - {u};
    if u != g.owner then after == Some(g.(members := rest))
    else if rest == map[] then after.None?
    else exists heir :: IsHeir(rest, heir) && after == Some(Group(heir, rest[heir := rest[heir].(role := Owner)]))
  }

  /** The earliest to have joined is the only possible new owner. */
  lemma LeftIsOne(g: Group, u: User, a: Option<Group>, b: Option<Group>)
    requires Left(g, u, a) && Left(g, u, b)
    ensures a == b
  {
    var rest := g.members - {u};
    if u == g.owner && rest != map[] {
      var x :| IsHeir(rest, x) && a == Some(Group(x, rest[x := rest[x].(role := Owner)]));
      var y :| IsHeir(rest, y) && b == Some(Group(y, rest[y := rest[y].(role := Owner)]));
      OneHeir(rest, x, y);
    }
  }

  // ---- What every group keeps -------------------------------------------------------------

  predicate Blocked(blocks: set<(User, User)>, a: User, b: User) { (a, b) in blocks || (b, a) in blocks }

  predicate Friends(accepted: set<(User, User)>, a: User, b: User) { (a, b) in accepted || (b, a) in accepted }

  /** Not empty, at most ten, one owner, all accounts live, nobody blocks anybody. */
  predicate GroupOk(g: Group, blocks: set<(User, User)>, live: set<User>) {
    && g.members != map[] && |g.members| <= GROUP_MEMBER_LIMIT
    && g.owner in g.members && (forall u | u in g.members :: g.members[u].role == Owner <==> u == g.owner)
    && g.members.Keys <= live
    && (forall a, b | a in g.members && b in g.members :: (a, b) !in blocks)
  }

  lemma FewerMembers(m: map<User, Member>, u: User)
    ensures |m - {u}| <= |m|
    ensures u in m ==> |m - {u}| == |m| - 1
  {
    if u in m {
      assert m.Keys == (m - {u}).Keys + {u};
    } else {
      assert m - {u} == m;
    }
  }

  lemma LeavingKeeps(g: Group, u: User, after: Option<Group>, blocks: set<(User, User)>, live: set<User>)
    requires GroupOk(g, blocks, live) && Left(g, u, after) && after.Some?
    ensures GroupOk(after.value, blocks, live) && after.value.members.Keys == g.members.Keys - {u}
  {
    FewerMembers(g.members, u);
    var rest := g.members - {u};
    if u == g.owner {
      var heir :| IsHeir(rest, heir) && after == Some(Group(heir, rest[heir := rest[heir].(role := Owner)]));
      assert rest[heir := rest[heir].(role := Owner)].Keys == rest.Keys;
      assert |after.value.members| == |rest|;
    } else {
      assert g.owner in rest;
    }
  }

  /** removeMemberTx's own refusals. */
  function RemovalOutcome(g: Group, actor: User, target: User): Outcome {
    if (actor != g.owner && actor != target) || (target == g.owner && actor != target) then Forbidden
    else if target !in g.members then NotFound
    else Done
  }

  /** addMember's refusals, in order; Done also when the target is already in. */
  function AdditionOutcome(g: Group, banned: bool, live: set<User>, accepted: set<(User, User)>, blocks: set<(User, User)>,
                           actor: User, target: User): Outcome {
    if target == actor || g.owner != actor then Forbidden
    else if |g.members| > GROUP_MEMBER_LIMIT then Full
    else if target !in live || banned then Forbidden
    else if target in g.members then Done
    else if !Friends(accepted, actor, target) || Blocked(blocks, actor, target) then Forbidden
    else if exists m | m in g.members :: Blocked(blocks, m, target) then Forbidden
    else if |g.members| >= GROUP_MEMBER_LIMIT then Full
    else Done
  }

  /** groupPermitted. */
  predicate Permitted(live: set<User>, accepted: set<(User, User)>, blocks: set<(User, User)>, owner: User, ids: seq<User>) {
    && (forall i | 0 <= i < |ids| :: ids[i] in live)
    && (forall i, j | 0 <= i < |ids| && 0 <= j < |ids| :: (ids[i], ids[j]) !in blocks)
    && (forall i | 0 <= i < |ids| && ids[i] != owner :: Friends(accepted, owner, ids[i]))
  }

  predicate Distinct(ids: seq<User>) { forall i, j | 0 <= i < j < |ids| :: ids[i] != ids[j] }

  function CreationOutcome(live: set<User>, accepted: set<(User, User)>, blocks: set<(User, User)>, owner: User, invitees: seq<User>): Outcome {
    if |invitees| < 1 || |invitees| >= GROUP_MEMBER_LIMIT then Full
    else if !Distinct([owner] + invitees) || !Permitted(live, accepted, blocks, owner, [owner] + invitees) then Forbidden
    else Done
  }

  function Roster(owner: User, ids: seq<User>, now: int): map<User, Member> {
    map u | u in ids :: Member(if u == owner then Owner else Plain, now)
  }

  lemma {:induction false} RosterSize(owner: User, ids: seq<User>, now: int)
    ensures |Roster(owner, ids, now)| <= |ids|
  {
    if ids == [] {
      assert Roster(owner, ids, now) == map[];
    } else {
      var init, u := ids[..|ids| - 1], ids[|ids| - 1];
      RosterSize(owner, init, now);
      FewerMembers(Roster(owner, ids, now), u);
      SubMap(Roster(owner, ids, now) - {u}, Roster(owner, init, now));
    }
  }

  lemma SubMap(a: map<User, Member>, b: map<User, Member>)
    requires a.Keys <= b.Keys
    ensures |a| <= |b|
  {
    Subset(a.Keys, b.Keys);
  }

  lemma {:induction false} Subset(a: set<User>, b: set<User>)
    requires a <= b
    ensures |a| <= |b|
  {
    if a != {} {
      var u :| u in a;
      Subset(a - {u}, b - {u});
    }
  }

  lemma CreatedIsOk(live: set<User>, accepted: set<(User, User)>, blocks: set<(User, User)>, owner: User, ids: seq<User>, now: int)
    requires 0 < |ids| <= GROUP_MEMBER_LIMIT && ids[0] == owner && Permitted(live, accepted, blocks, owner, ids)
    ensures GroupOk(Group(owner, Roster(owner, ids, now)), blocks, live)
  {
    RosterSize(owner, ids, now);
    assert owner in ids;
    assert owner in Roster(owner, ids, now);
    forall u | u in ids ensures u in live {}
  }

  lemma AddedIsOk(g: Group, live: set<User>, accepted: set<(User, User)>, blocks: set<(User, User)>, actor: User, target: User, now: int)
    requires GroupOk(g, blocks, live) && AdditionOutcome(g, false, live, accepted, blocks, actor, target) == Done && target !in g.members
    requires forall x :: (x, x) !in blocks
    ensures GroupOk(g.(members := g.members[target := Member(Plain, now)]), blocks, live)
  {
    var more := g.members[target := Member(Plain, now)];
    assert more.Keys == g.members.Keys + {target};
    assert |more| == |g.members| + 1;
    assert forall m | m in g.members :: !Blocked(blocks, m, target);
  }

  function Without(pairs: set<(User, User)>, u: User): set<(User, User)> {
    set p | p in pairs && p.0 != u && p.1 != u
  }

  function Unbanned(bans: set<(Room, User)>, u: User): set<(Room, User)> { set b | b in bans && b.1 != u }

  /** The group under a room id, if there is one. */
  function Under(groups: map<Room, Group>, rid: Room): Option<Group> { if rid in groups then Some(groups[rid]) else None }

  class Store {
    var groups: map<Room, Group>
    var blocks: set<(User, User)>
    /** Friend requests by sender and receiver, waiting and accepted. */
    var pending: set<(User, User)>
    var accepted: set<(User, User)>
    /** Accounts ever made, and those not deleted. */
    var known: set<User>
    var live: set<User>
    var bans: set<(Room, User)>
    var ownsChannels: set<User>

    ghost predicate Valid()
      reads this
    {
      && (forall rid | rid in groups :: GroupOk(groups[rid], blocks, live))
      && (forall u: User :: (u, u) !in blocks)
    }

    /** Room bans are rows of an earlier release; nothing adds to them any more. */
    constructor (bans: set<(Room, User)>)
      ensures Valid() && groups == map[] && blocks == pending == accepted == {} && known == live == {} && ownsChannels == {}
      ensures this.bans == bans
    {
      groups, blocks, pending, accepted, this.bans, ownsChannels := map[], {}, {}, {}, bans, {};
      known, live := {}, {};
    }

    /** A new account under a new identifier. */
    method SignUp(user: User)
      requires Valid() && user !in known
      modifies this`known, this`live
      ensures Valid() && known == old(known) + {user} && live == old(live) + {user}
    {
      known, live := known + {user}, live + {user};
    }

    /** Channels change owners without touching groups. */
    method OwnChannels(user: User, owns: bool)
      requires Valid()
      modifies this`ownsChannels
      ensures Valid() && ownsChannels == if owns then old(ownsChannels) + {user} else old(ownsChannels) - {user}
    {
      ownsChannels := if owns then ownsChannels + {user} else ownsChannels - {user};
    }

    /** One request per pair, in either direction. */
    method RequestFriend(sender: User, receiver: User) returns (r: Outcome)
      requires Valid()
      modifies this`pending
      ensures Valid()
      ensures r == if Blocked(blocks, sender, receiver) then NotFound
                   else if sender == receiver || !({sender, receiver} <= known) || Friends(old(pending) + accepted, sender, receiver) then Conflict
                   else Done
      ensures pending == if r.Done? then old(pending) + {(sender, receiver)} else old(pending)
    {
      if Blocked(blocks, sender, receiver) {
        return NotFound;
      }
      if sender == receiver || sender !in known || receiver !in known || Friends(pending + accepted, sender, receiver) {
        return Conflict;
      }
      pending := pending + {(sender, receiver)};
      return Done;
    }

    method AcceptFriend(sender: User, receiver: User) returns (r: Outcome)
      requires Valid()
      modifies this`pending, this`accepted
      ensures Valid()
      ensures r == if (sender, receiver) in old(pending) && !Blocked(blocks, sender, receiver) then Done else NotFound
      ensures r.Done? ==> pending == old(pending) - {(sender, receiver)} && accepted == old(accepted) + {(sender, receiver)}
      ensures !r.Done? ==> pending == old(pending) && accepted == old(accepted)
    {
      if (sender, receiver) !in pending || Blocked(blocks, sender, receiver) {
        return NotFound;
      }
      pending, accepted := pending - {(sender, receiver)}, accepted + {(sender, receiver)};
      return Done;
    }

    /** Groups outlive the friendships they were made from. */
    method Unfriend(a: User, b: User)
      requires Valid()
      modifies this`pending, this`accepted
      ensures Valid() && pending == old(pending) - {(a, b), (b, a)} && accepted == old(accepted) - {(a, b), (b, a)}
    {
      pending, accepted := pending - {(a, b), (b, a)}, accepted - {(a, b), (b, a)};
    }

    method CreateGroup(rid: Room, owner: User, invitees: seq<User>, now: int) returns (r: Outcome)
      requires Valid() && rid !in groups
      modifies this`groups
      ensures Valid() && r == CreationOutcome(live, accepted, blocks, owner, invitees)
      ensures groups == if r.Done? then old(groups)[rid := Group(owner, Roster(owner, [owner] + invitees, now))] else old(groups)
    {
      hide GroupOk, Permitted, Roster;
      if |invitees| < 1 || |invitees| >= GROUP_MEMBER_LIMIT {
        return Full;
      }
      var ids := [owner] + invitees;
      if !Distinct(ids) || !Permitted(live, accepted, blocks, owner, ids) {
        return Forbidden;
      }
      CreatedIsOk(live, accepted, blocks, owner, ids, now);
      groups := groups[rid := Group(owner, Roster(owner, ids, now))];
      return Done;
    }

    method AddMember(rid: Room, actor: User, target: User, now: int) returns (r: Outcome)
      requires Valid()
      modifies this`groups
      ensures Valid()
      ensures r == if rid !in old(groups) then NotFound
                   else AdditionOutcome(old(groups)[rid], (rid, target) in bans, live, accepted, blocks, actor, target)
      ensures groups == if r.Done? && target !in old(groups)[rid].members
                        then old(groups)[rid := old(groups)[rid].(members := old(groups)[rid].members[target := Member(Plain, now)])]
                        else old(groups)
    {
      hide GroupOk;
      if rid !in groups {
        return NotFound;
      }
      var g := groups[rid];
      if target == actor || g.owner != actor {
        return Forbidden;
      }
      if |g.members| > GROUP_MEMBER_LIMIT {
        return Full;
      }
      if target !in live || (rid, target) in bans {
        return Forbidden;
      }
      if target in g.members {
        return Done;
      }
      if !Friends(accepted, actor, target) || Blocked(blocks, actor, target) {
        return Forbidden;
      }
      if exists m | m in g.members :: Blocked(blocks, m, target) {
        return Forbidden;
      }
      if |g.members| >= GROUP_MEMBER_LIMIT {
        return Full;
      }
      AddedIsOk(g, live, accepted, blocks, actor, target, now);
      groups := groups[rid := g.(members := g.members[target := Member(Plain, now)])];
      return Done;
    }

    /** The deletion and succession of removeMemberTx, once permitted. */
    method Leave(rid: Room, u: User)
      requires rid in groups
      modifies this`groups
      ensures Left(old(groups)[rid], u, Under(groups, rid))
      ensures forall other | other != rid :: Under(groups, other) == Under(old(groups), other)
    {
      var g := groups[rid];
      var rest := g.members - {u};
      if u != g.owner {
        groups := groups[rid := g.(members := rest)];
        return;
      }
      var heir := Heir(rest);
      if heir.None? {
        groups := groups - {rid};
        return;
      }
      groups := groups[rid := Group(heir.value, rest[heir.value := rest[heir.value].(role := Owner)])];
    }

    method RemoveMember(rid: Room, actor: User, target: User) returns (r: Outcome)
      requires Valid()
      modifies this`groups
      ensures Valid()
      ensures r == if rid !in old(groups) then NotFound else RemovalOutcome(old(groups)[rid], actor, target)
      ensures r.Done? ==> Left(old(groups)[rid], target, Under(groups, rid))
      ensures forall other | other != rid || !r.Done? :: Under(groups, other) == Under(old(groups), other)
    {
      if rid !in groups {
        return NotFound;
      }
      var g := groups[rid];
      if (actor != g.owner && actor != target) || (target == g.owner && actor != target) {
        return Forbidden;
      }
      if target !in g.members {
        return NotFound;
      }
      Leave(rid, target);
      OthersStay(old(groups), groups, rid, blocks, live);
      if rid in groups {
        LeavingKeeps(g, target, Some(groups[rid]), blocks, live);
      }
      hide GroupOk, Left;
      return Done;
    }

    /** Leaves every one of the given groups. */
    method LeaveEach(rooms: set<Room>, u: User)
      requires rooms <= groups.Keys
      modifies this`groups
      ensures forall rid | rid in rooms :: Left(old(groups)[rid], u, Under(groups, rid))
      ensures forall rid | rid !in rooms :: Under(groups, rid) == Under(old(groups), rid)
    {
      hide Left;
      var todo := rooms;
      while todo != {}
        invariant todo <= rooms <= old(groups).Keys
        invariant forall rid | rid in rooms && rid !in todo :: Left(old(groups)[rid], u, Under(groups, rid))
        invariant forall rid | rid !in rooms || rid in todo :: Under(groups, rid) == Under(old(groups), rid)
        decreases todo
      {
        var rid :| rid in todo;
        assert Under(groups, rid) == Some(old(groups)[rid]);
        Leave(rid, u);
        todo := todo - {rid};
      }
    }

    /** The block, the end of the friendship, and the blocker's departure from every
        group the two share. */
    method BlockUser(user: User, target: User) returns (r: Outcome)
      requires Valid()
      modifies this
      ensures Valid() && live == old(live) && known == old(known)
      ensures r == if user == target then Forbidden else if target !in old(known) then NotFound else Done
      ensures bans == old(bans) && ownsChannels == old(ownsChannels)
      ensures !r.Done? ==> groups == old(groups) && blocks == old(blocks) && accepted == old(accepted) && pending == old(pending)
      ensures r.Done? ==>
        && blocks == old(blocks) + {(user, target)} && accepted == old(accepted) - {(user, target), (target, user)}
        && pending == old(pending) - {(user, target), (target, user)}
        && (forall rid | rid in Shared(old(groups), user, target) :: Left(old(groups)[rid], user, Under(groups, rid)))
        && (forall rid | rid !in Shared(old(groups), user, target) :: Under(groups, rid) == Under(old(groups), rid))
    {
      if user == target {
        return Forbidden;
      }
      if target !in known {
        return NotFound;
      }
      blocks := blocks + {(user, target)};
      accepted := accepted - {(user, target), (target, user)};
      pending := pending - {(user, target), (target, user)};
      var shared := Shared(groups, user, target);
      hide Shared;
      LeaveEach(shared, user);
      BlockKeeps(old(groups), groups, old(blocks), live, user, target, shared);
      return Done;
    }

    method UnblockUser(user: User, target: User)
      requires Valid()
      modifies this`blocks
      ensures Valid() && blocks == old(blocks) - {(user, target)}
    {
      blocks := blocks - {(user, target)};
    }

    /** Only what an account's deletion does to groups, blocks and friendships. */
    method DeleteAccount(user: User) returns (r: Outcome)
      requires Valid()
      modifies this
      ensures Valid() && known == old(known)
      ensures r == if user !in old(live) then NotFound else if user in old(ownsChannels) then OwnsChannels else Done
      ensures ownsChannels == old(ownsChannels)
      ensures !r.Done? ==>
        groups == old(groups) && blocks == old(blocks) && accepted == old(accepted) && pending == old(pending) && live == old(live) && bans == old(bans)
      ensures r.Done? ==>
        && live == old(live) - {user} && blocks == Without(old(blocks), user) && accepted == Without(old(accepted), user)
        && pending == Without(old(pending), user) && bans == Unbanned(old(bans), user)
        && (forall rid | rid in Joined(old(groups), user) :: Left(old(groups)[rid], user, Under(groups, rid)))
        && (forall rid | rid !in Joined(old(groups), user) :: Under(groups, rid) == Under(old(groups), rid))
    {
      if user !in live {
        return NotFound;
      }
      if user in ownsChannels {
        return OwnsChannels;
      }
      var rooms := Joined(groups, user);
      hide Joined;
      LeaveEach(rooms, user);
      DeletionKeeps(old(groups), groups, blocks, live, user, rooms);
      live := live - {user};
      blocks := Without(blocks, user);
      accepted := Without(accepted, user);
      pending, bans := Without(pending, user), Unbanned(bans, user);
      return Done;
    }

    /** A group's owner may delete it outright. */
    method DeleteGroup(rid: Room, actor: User) returns (r: Outcome)
      requires Valid()
      modifies this`groups
      ensures Valid()
      ensures r == if rid !in old(groups) || actor !in old(groups)[rid].members then NotFound
                   else if old(groups)[rid].owner == actor then Done else Forbidden
      ensures groups == if r.Done? then old(groups) - {rid} else old(groups)
    {
      if rid !in groups || actor !in groups[rid].members {
        return NotFound;
      }
      if groups[rid].owner != actor {
        return Forbidden;
      }
      groups := groups - {rid};
      return Done;
    }
  }

  /** Two new accounts become friends. */
  method Befriended(owner: User, friend: User) returns (s: Store)
    requires owner != friend
    ensures fresh(s) && s.Valid() && s.groups == map[] && s.blocks == {} && s.live == {owner, friend} && s.ownsChannels == {}
    ensures Friends(s.accepted, owner, friend)
  {
    hide GroupOk;
    s := new Store({});
    s.SignUp(owner);
    s.SignUp(friend);
    var r := s.RequestFriend(owner, friend);
    assert r.Done?;
    r := s.AcceptFriend(owner, friend);
    assert r.Done?;
  }

  function Pair(owner: User, friend: User): Group
    requires owner != friend
  {
    Group(owner, map[owner := Member(Owner, 1), friend := Member(Plain, 1)])
  }

  lemma PairRoster(owner: User, friend: User)
    requires owner != friend
    ensures Roster(owner, [owner] + [friend], 1) == Pair(owner, friend).members && Distinct([owner] + [friend])
  {
    var ids := [owner] + [friend];
    assert ids[0] == owner && ids[1] == friend;
  }

  /** They form a group, and its owner's account is deleted: the friend inherits it. */
  method Inherited(rid: Room, owner: User, friend: User) returns (s: Store)
    requires owner != friend
    ensures fresh(s) && s.Valid() && s.groups == map[rid := Group(friend, map[friend := Member(Owner, 1)])] && s.live == {friend}
  {
    hide GroupOk, Roster, Left, Distinct;
    s := Befriended(owner, friend);
    PairRoster(owner, friend);
    var r := s.CreateGroup(rid, owner, [friend], 1);
    ghost var before := s.groups;
    assert r.Done? && before == map[rid := Pair(owner, friend)];
    r := s.DeleteAccount(owner);
    assert Joined(before, owner) == {rid};
    Heritage(owner, friend, Under(s.groups, rid));
    assert forall x | x != rid :: Under(s.groups, x) == Under(before, x) == None;
    assert s.groups.Keys == {rid} by {
      forall x | x in s.groups ensures x == rid { assert Under(s.groups, x).Some?; }
    }
  }

  lemma Heritage(owner: User, friend: User, after: Option<Group>)
    requires owner != friend && Left(Pair(owner, friend), owner, after)
    ensures after == Some(Group(friend, map[friend := Member(Owner, 1)]))
  {
    var rest := Pair(owner, friend).members - {owner};
    assert rest == map[friend := Member(Plain, 1)];
    assert IsHeir(rest, friend) && friend in rest && rest != map[];
    var heir: User :| IsHeir(rest, heir) && after == Some(Group(heir, rest[heir := rest[heir].(role := Owner)]));
    assert rest[friend := rest[friend].(role := Owner)] == map[friend := Member(Owner, 1)];
  }

  function Shared(groups: map<Room, Group>, a: User, b: User): (rooms: set<Room>)
    ensures rooms <= groups.Keys
  {
    set rid | rid in groups && a in groups[rid].members && b in groups[rid].members
  }

  function Joined(groups: map<Room, Group>, u: User): (rooms: set<Room>)
    ensures rooms <= groups.Keys
  {
    set rid | rid in groups && u in groups[rid].members
  }

  lemma OthersStay(before: map<Room, Group>, now: map<Room, Group>, rid: Room, blocks: set<(User, User)>, live: set<User>)
    requires forall x | x in before :: GroupOk(before[x], blocks, live)
    requires forall other | other != rid :: Under(now, other) == Under(before, other)
    ensures forall x | x in now && x != rid :: GroupOk(now[x], blocks, live)
  {
    hide GroupOk;
    forall x | x in now && x != rid ensures GroupOk(now[x], blocks, live) {
      assert Under(now, x) == Under(before, x);
    }
  }

  /** After a block nobody in any group blocks another. */
  lemma BlockKeeps(before: map<Room, Group>, now: map<Room, Group>, blocks: set<(User, User)>, live: set<User>,
                   user: User, target: User, shared: set<Room>)
    requires (forall x | x in before :: GroupOk(before[x], blocks, live)) && shared == Shared(before, user, target)
    requires forall x | x in shared :: Left(before[x], user, Under(now, x))
    requires forall x | x !in shared :: Under(now, x) == Under(before, x)
    ensures forall x | x in now :: GroupOk(now[x], blocks + {(user, target)}, live)
  {
    forall x | x in now ensures GroupOk(now[x], blocks + {(user, target)}, live) {
      if x in shared {
        LeavingKeeps(before[x], user, Some(now[x]), blocks, live);
      } else {
        assert Under(now, x) == Under(before, x);
      }
    }
  }

  lemma DeletionKeeps(before: map<Room, Group>, now: map<Room, Group>, blocks: set<(User, User)>, live: set<User>, user: User,
                      rooms: set<Room>)
    requires (forall x | x in before :: GroupOk(before[x], blocks, live)) && rooms == Joined(before, user)
    requires forall x | x in rooms :: Left(before[x], user, Under(now, x))
    requires forall x | x !in rooms :: Under(now, x) == Under(before, x)
    ensures forall x | x in now :: GroupOk(now[x], Without(blocks, user), live - {user})
  {
    forall x | x in now ensures GroupOk(now[x], Without(blocks, user), live - {user}) {
      if x in rooms {
        LeavingKeeps(before[x], user, Some(now[x]), blocks, live);
      } else {
        assert Under(now, x) == Under(before, x);
      }
    }
  }
}
