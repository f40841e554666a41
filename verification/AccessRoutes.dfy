/** Which requests take accessMu exclusively (server/internal/api/lifecycle.go and
    membershipMutation in server/internal/api/api.go). */
module AccessRoutes {
  predicate HasPrefix(s: string, p: string) { |p| <= |s| && s[..|p|] == p }

  predicate HasSuffix(s: string, p: string) { |p| <= |s| && s[|s| - |p|..] == p }

  predicate Contains(s: string, p: string) { exists i | 0 <= i <= |s| :: HasPrefix(s[i..], p) }

  /** The parts between slashes. */
  function Split(s: string): (parts: seq<string>)
    ensures |parts| >= 1
  {
    if s == "" then [""]
    else
      var rest := Split(s[1..]);
      if s[0] == '/' then [""] + rest else [[s[0]] + rest[0]] + rest[1..]
  }

  predicate Reads(verb: string) { verb == "GET" || verb == "HEAD" }

  predicate LifecycleMutation(verb: string, path: string) {
    && !Reads(verb)
    && (|| path == "me/account"
        || HasPrefix(path, "me/sessions/")
        || HasPrefix(path, "friends/")
        || HasPrefix(path, "privacy/blocks/")
        || HasPrefix(path, "dm-requests/")
        || HasSuffix(path, "/ownership")
        || Contains(path, "/members")
        || Contains(path, "/moderation")
        || (verb == "DELETE" && HasPrefix(path, "rooms/") && |Split(path)| == 2))
  }

  predicate MembershipMutation(verb: string, path: string) {
    var parts := Split(path);
    || (!Reads(verb) && (path == "communities" || HasPrefix(path, "communities/")))
    || (verb == "POST" && (
          || path == "rooms" || path == "rooms/group" || path == "rooms/direct"
          || HasPrefix(path, "privacy/blocks/")
          || (HasPrefix(path, "friends/requests/") && HasSuffix(path, "/accept"))
          || (HasPrefix(path, "dm-requests/") && HasSuffix(path, "/accept"))
          || (HasPrefix(path, "invites/") && HasSuffix(path, "/join"))
          || (|parts| == 3 && parts[0] == "rooms" && parts[2] == "members")))
    || (verb == "DELETE" && (
          || HasPrefix(path, "privacy/blocks/") || HasPrefix(path, "friends/")
          || (|parts| == 2 && parts[0] == "rooms")
          || (|parts| == 4 && parts[0] == "rooms" && parts[2] == "members")))
  }

  /** The lock `authed` takes before it dispatches. */
  predicate TakesExclusiveLock(verb: string, path: string) { LifecycleMutation(verb, path) || MembershipMutation(verb, path) }

  predicate Segment(s: string) { s != "" && forall i | 0 <= i < |s| :: s[i] != '/' }

  lemma {:induction false} SplitAlone(s: string)
    requires Segment(s)
    ensures Split(s) == [s]
  {
    assert Split("") == [""];
    if |s| == 1 {
      assert s[1..] == "";
    } else {
      SplitAlone(s[1..]);
    }
    assert [s[0]] + s[1..] == s;
  }

  lemma {:induction false} SplitSegment(s: string, rest: string)
    requires Segment(s)
    ensures Split(s + "/" + rest) == [s] + Split(rest)
  {
    var whole := s + "/" + rest;
    if |s| == 1 {
      assert whole[1..] == "/" + rest && ("/" + rest)[1..] == rest;
      assert Split("/" + rest) == [""] + Split(rest);
      assert Split(whole) == [[s[0]] + ""] + Split(rest);
    } else {
      SplitSegment(s[1..], rest);
      assert whole[1..] == s[1..] + "/" + rest;
      assert Split(whole) == [[s[0]] + s[1..]] + Split(rest);
    }
    assert [s[0]] + s[1..] == s;
  }

  lemma PrefixOf(p: string, rest: string)
    ensures HasPrefix(p + rest, p)
  {}

  /** Requests under `authed` whose handlers may unsubscribe somebody from a room, or
      disconnect them: those that call unsubscribeUser, unsubscribeRoom, disconnectUser
      or disconnectSession themselves, and those that reconcile a community's access.
      Logging out disconnects too; its handler stands outside `authed` and takes the
      lock exclusively itself. */
  datatype Unsubscribing =
    | DeleteRoom(room: string)
    | AddMember(room: string)
    | RemoveMember(room: string, user: string)
    | TransferOwner(room: string)
    | Moderate(verb: string, room: string, rest: string)
    | Unfriend(user: string)
    | Block(user: string)
    | JoinInvite(token: string)
    | CreateCommunity
    | Community(verb: string, rest: string)
    | RevokeSessions(verb: string, rest: string)
    | DeleteAccount

  predicate WellFormed(u: Unsubscribing) {
    match u
    case DeleteRoom(room) => Segment(room)
    case Community(verb, _) => !Reads(verb)
    case Moderate(verb, _, _) => !Reads(verb)
    case RevokeSessions(verb, _) => !Reads(verb)
    case _ => true
  }

  function Verb(u: Unsubscribing): string {
    match u
    case AddMember(_) => "POST"
    case TransferOwner(_) => "POST"
    case Moderate(verb, _, _) => verb
    case Block(_) => "POST"
    case JoinInvite(_) => "POST"
    case CreateCommunity => "POST"
    case Community(verb, _) => verb
    case RevokeSessions(verb, _) => verb
    case _ => "DELETE"
  }

  function Path(u: Unsubscribing): string {
    match u
    case DeleteRoom(room) => "rooms/" + room
    case AddMember(room) => "rooms/" + room + "/members"
    case RemoveMember(room, user) => "rooms/" + room + "/members" + ("/" + user)
    case TransferOwner(room) => "rooms/" + room + "/ownership"
    case Moderate(_, room, rest) => "rooms/" + room + "/moderation" + rest
    case Unfriend(user) => "friends/" + user
    case Block(user) => "privacy/blocks/" + user
    case JoinInvite(token) => "invites/" + token + "/join"
    case CreateCommunity => "communities"
    case Community(_, rest) => "communities/" + rest
    case RevokeSessions(_, rest) => "me/sessions/" + rest
    case DeleteAccount => "me/account"
  }

  lemma RoomRequest(u: Unsubscribing)
    requires WellFormed(u) && (u.DeleteRoom? || u.AddMember? || u.RemoveMember? || u.TransferOwner? || u.Moderate?)
    ensures LifecycleMutation(Verb(u), Path(u))
  {
    hide Split, HasPrefix, HasSuffix, Contains;
    match u
    case DeleteRoom(room) => RoomPath(room); PrefixOf("rooms/", room);
    case AddMember(room) => Inside("rooms/" + room, "/members", "");
      assert Path(u) == "rooms/" + room + "/members" + "";
    case RemoveMember(room, user) => Inside("rooms/" + room, "/members", "/" + user);
    case TransferOwner(room) => SuffixOf("rooms/" + room, "/ownership");
    case Moderate(_, room, rest) => Inside("rooms/" + room, "/moderation", rest);
  }

  lemma InviteRequest(token: string)
    ensures MembershipMutation("POST", "invites/" + token + "/join")
  {
    hide Split, HasPrefix, HasSuffix, Contains;
    PrefixOf("invites/", token + "/join");
    SuffixOf("invites/" + token, "/join");
    assert "invites/" + token + "/join" == "invites/" + (token + "/join");
  }

  /** Every one of them runs alone. */
  lemma UnsubscribingIsExclusive(u: Unsubscribing)
    requires WellFormed(u)
    ensures TakesExclusiveLock(Verb(u), Path(u))
  {
    hide Split, HasPrefix, HasSuffix, Contains;
    match u
    case Unfriend(user) => PrefixOf("friends/", user);
    case Block(user) => PrefixOf("privacy/blocks/", user);
    case JoinInvite(token) => InviteRequest(token);
    case CreateCommunity =>
    case Community(verb, rest) => PrefixOf("communities/", rest);
    case RevokeSessions(_, rest) => PrefixOf("me/sessions/", rest);
    case DeleteAccount =>
    case _ => RoomRequest(u);
  }

  lemma SuffixOf(rest: string, p: string)
    ensures HasSuffix(rest + p, p)
  {}

  lemma Inside(a: string, p: string, b: string)
    ensures Contains(a + p + b, p)
  {
    var path := a + p + b;
    assert path[|a|..] == p + b;
    assert HasPrefix(path[|a|..], p);
  }

  lemma RoomPath(room: string)
    requires Segment(room)
    ensures Split("rooms/" + room) == ["rooms", room]
  {
    hide Split;
    SplitSegment("rooms", room);
    SplitAlone(room);
    assert "rooms/" + room == "rooms" + "/" + room;
  }
}
