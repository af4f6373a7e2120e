/** Friend requests, friendships and blocks: the friend commands of chat_server.cpp and
    chat_server_blocking.cpp with the table effects of mysql_database.cpp.  Every command runs
    under the friend lock, for a user who is logged in and therefore exists. */
module Friends {
  import opened Text

  type Name = Bytes

  /** `std::string` order: the first difference decides, a prefix comes first. */
  predicate Less(a: Name, b: Name) {
    if b == [] then false
    else if a == [] then true
    else a[0] < b[0] || (a[0] == b[0] && Less(a[1..], b[1..]))
  }

  lemma {:induction false} LessTotal(a: Name, b: Name)
    ensures a == b ==> !Less(a, b)
    ensures a != b ==> Less(a, b) != Less(b, a)
  {
    if a != [] && b != [] {
      LessTotal(a[1..], b[1..]);
      assert a == [a[0]] + a[1..] && b == [b[0]] + b[1..];
    }
  }

  /** `normalize_pair` */
  function Pair(a: Name, b: Name): (Name, Name) { if a == b || Less(a, b) then (a, b) else (b, a) }

  lemma PairSymmetric(a: Name, b: Name)
    ensures Pair(a, b) == Pair(b, a)
    ensures a != b ==> Less(Pair(a, b).0, Pair(a, b).1)
    ensures Pair(a, b) == (a, b) || Pair(a, b) == (b, a)
  {
    LessTotal(a, b);
  }

  lemma PairInjective(a: Name, b: Name, c: Name, d: Name)
    requires Pair(a, b) == Pair(c, d)
    ensures (a == c && b == d) || (a == d && b == c)
  {
  }

  lemma PairOnly(c: Name, d: Name)
    ensures forall a, b :: Pair(a, b) == Pair(c, d) ==> {a, b} == {c, d}
  {
    forall a, b | Pair(a, b) == Pair(c, d) ensures {a, b} == {c, d} {
      PairInjective(a, b, c, d);
    }
  }

  datatype Relations = Relations(
    users: set<Name>,
    requests: set<(Name, Name)>,             // (requester, target)
    friendships: set<(Name, Name)>,          // (user_low, user_high)
    blocks: set<(Name, Name)>)               // (blocker, blocked)

  datatype Reply = Done | NoSuchUser | AlreadyFriends | AlreadySent | AlreadyAsked | NoRequest | NotFriends
                 | AlreadyBlocked | NotBlocked | Self | DatabaseError(error: string) | DuplicateKey

  datatype Command =
    | Register(user: Name)
    | AddFriend(actor: Name, target: Name)
    | AcceptFriend(actor: Name, requester: Name)
    | RejectFriend(actor: Name, requester: Name)
    | RemoveFriend(actor: Name, target: Name)
    | Block(actor: Name, target: Name)
    | Unblock(actor: Name, target: Name)
    | DeleteAccount(actor: Name)

  datatype Result = Result(r: Relations, reply: Reply)

  predicate AreFriends(r: Relations, a: Name, b: Name) { Pair(a, b) in r.friendships }

  /** Friends, or asked by one of the two. */
  predicate Related(r: Relations, a: Name, b: Name) {
    AreFriends(r, a, b) || (a, b) in r.requests || (b, a) in r.requests
  }

  function Add(r: Relations, sender: Name, target: Name): Result {
    if sender == target then Result(r, Self)
    else if target !in r.users then Result(r, NoSuchUser)
    else if AreFriends(r, sender, target) then Result(r, AlreadyFriends)
    else if (sender, target) in r.requests then Result(r, AlreadySent)
    else if (target, sender) in r.requests then Result(r, AlreadyAsked)
    else Result(r.(requests := r.requests + {(sender, target)}), Done)
  }

  /** What the database layer reports for a missing request, and what the handler compares it with. */
  const REQUEST_MISSING :=
    "\U{E5}\U{A5}\U{BD}\U{E5}\U{8F}\U{8B}" + "\U{E7}\U{94}\U{B3}\U{E8}\U{AF}\U{B7}"
    + "\U{E4}\U{B8}\U{8D}\U{E5}\U{AD}\U{98}\U{E5}\U{9C}\U{A8}"
  const EXPECTED_ERROR := "friend request does not exist"

  function AcceptFailed(error: string): Reply { if error == EXPECTED_ERROR then NoRequest else DatabaseError(error) }

  /** DELETE the request, INSERT the friendship; a duplicate key rolls both back. */
  function Accept(r: Relations, current: Name, requester: Name): Result {
    if (requester, current) !in r.requests then Result(r, AcceptFailed(REQUEST_MISSING))
    else if Pair(requester, current) in r.friendships then Result(r, DuplicateKey)
    else Result(r.(requests := r.requests - {(requester, current)},
                   friendships := r.friendships + {Pair(requester, current)}), Done)
  }

  function Reject(r: Relations, current: Name, requester: Name): Result {
    if (requester, current) !in r.requests then Result(r, NoRequest)
    else Result(r.(requests := r.requests - {(requester, current)}), Done)
  }

  function Remove(r: Relations, current: Name, target: Name): Result {
    if Pair(current, target) !in r.friendships then Result(r, NotFriends)
    else Result(r.(friendships := r.friendships - {Pair(current, target)},
                   blocks := r.blocks - {(current, target), (target, current)}), Done)
  }

  function BlockFriend(r: Relations, current: Name, target: Name): Result {
    if current == target then Result(r, Self)
    else if !AreFriends(r, current, target) then Result(r, NotFriends)
    else if (current, target) in r.blocks then Result(r, AlreadyBlocked)
    else Result(r.(blocks := r.blocks + {(current, target)}), Done)
  }

  function UnblockFriend(r: Relations, current: Name, target: Name): Result {
    if (current, target) !in r.blocks then Result(r, NotBlocked)
    else Result(r.(blocks := r.blocks - {(current, target)}), Done)
  }

  function Without(pairs: set<(Name, Name)>, user: Name): set<(Name, Name)> {
    set p | p in pairs && p.0 != user && p.1 != user
  }

  /** ON DELETE CASCADE */
  function Delete(r: Relations, user: Name): Result {
    var left := Relations(r.users - {user}, Without(r.requests, user), Without(r.friendships, user),
                          Without(r.blocks, user));
    Result(left, Done)
  }

  function Actor(c: Command): Option<Name> { if c.Register? then None else Some(c.actor) }

  function Apply(r: Relations, c: Command): Result {
    match c
    case Register(user) => Result(r.(users := r.users + {user}), Done)
    case AddFriend(actor, target) => Add(r, actor, target)
    case AcceptFriend(actor, requester) => Accept(r, actor, requester)
    case RejectFriend(actor, requester) => Reject(r, actor, requester)
    case RemoveFriend(actor, target) => Remove(r, actor, target)
    case Block(actor, target) => BlockFriend(r, actor, target)
    case Unblock(actor, target) => UnblockFriend(r, actor, target)
    case DeleteAccount(actor) => Delete(r, actor)
  }

  // ---- what every command keeps -------------------------------------------------------------

  /** Friendships are ordered pairs of existing users. */
  predicate FriendshipsOk(r: Relations) {
    forall p :: p in r.friendships ==> Less(p.0, p.1) && p.0 in r.users && p.1 in r.users
  }

  /** Requests are between different existing users, never mutual and never between friends. */
  predicate RequestsOk(r: Relations) {
    forall p :: p in r.requests ==>
      && p.0 != p.1 && p.0 in r.users && p.1 in r.users
      && (p.1, p.0) !in r.requests && Pair(p.0, p.1) !in r.friendships
  }

  /** Every block lies on a live friendship. */
  predicate BlocksOk(r: Relations) {
    forall p :: p in r.blocks ==> Pair(p.0, p.1) in r.friendships
  }

  predicate Inv(r: Relations) { FriendshipsOk(r) && RequestsOk(r) && BlocksOk(r) }

  lemma AddInv(r: Relations, sender: Name, target: Name)
    requires Inv(r) && sender in r.users
    ensures Inv(Add(r, sender, target).r)
  {
    hide Less;
    PairSymmetric(sender, target);
  }

  /** The two texts differ, so a missing request is reported as a database error. */
  lemma NeverNoRequest(r: Relations, current: Name, requester: Name)
    ensures Accept(r, current, requester).reply != NoRequest
    ensures Accept(r, current, requester).reply.DatabaseError? <==> (requester, current) !in r.requests
    ensures (requester, current) !in r.requests ==> Accept(r, current, requester).r == r
  {
    hide Pair;
    assert REQUEST_MISSING[0] != EXPECTED_ERROR[0];
  }

  /** The insert inside accept never meets a duplicate key. */
  lemma AcceptInv(r: Relations, current: Name, requester: Name)
    requires Inv(r)
    ensures Accept(r, current, requester).reply != DuplicateKey
    ensures Inv(Accept(r, current, requester).r)
  {
    hide Less;
    PairSymmetric(requester, current);
    var r' := Accept(r, current, requester).r;
    forall p | p in r'.requests ensures Pair(p.0, p.1) !in r'.friendships {
      if (requester, current) in r.requests && Pair(p.0, p.1) == Pair(requester, current) {
        PairInjective(p.0, p.1, requester, current);
      }
    }
  }

  lemma RemoveInv(r: Relations, current: Name, target: Name)
    requires Inv(r)
    ensures Inv(Remove(r, current, target).r)
    ensures !AreFriends(Remove(r, current, target).r, target, current)
    ensures (current, target) !in Remove(r, current, target).r.blocks
            && (target, current) !in Remove(r, current, target).r.blocks
  {
    hide Less;
    PairSymmetric(current, target);
    var r' := Remove(r, current, target).r;
    forall p | p in r'.blocks ensures Pair(p.0, p.1) in r'.friendships {
      if Pair(p.0, p.1) == Pair(current, target) && Pair(current, target) in r.friendships {
        PairInjective(p.0, p.1, current, target);
      }
    }
  }

  lemma DeleteInv(r: Relations, user: Name)
    requires Inv(r)
    ensures Inv(Delete(r, user).r)
    ensures var r' := Delete(r, user).r;
            && user !in r'.users && (forall u :: u in r.users && u != user ==> u in r'.users)
            && (forall p :: p in r'.friendships <==> p in r.friendships && p.0 != user && p.1 != user)
            && (forall p :: p in r'.requests <==> p in r.requests && p.0 != user && p.1 != user)
            && (forall p :: p in r'.blocks <==> p in r.blocks && p.0 != user && p.1 != user)
  {
    hide Less;
    forall p: (Name, Name) ensures Pair(p.0, p.1) == p || Pair(p.0, p.1) == (p.1, p.0) {
      PairSymmetric(p.0, p.1);
    }
  }

  lemma ApplyInv(r: Relations, c: Command)
    requires Inv(r) && (Actor(c).Some? ==> Actor(c).value in r.users)
    ensures Inv(Apply(r, c).r) && Apply(r, c).reply != DuplicateKey
  {
    hide Less;
    match c {
      case AddFriend(actor, target) => AddInv(r, actor, target);
      case AcceptFriend(actor, requester) => AcceptInv(r, actor, requester);
      case RemoveFriend(actor, target) => RemoveInv(r, actor, target);
      case DeleteAccount(actor) => DeleteInv(r, actor);
      case _ =>
    }
  }

  function ApplyAll(r: Relations, commands: seq<Command>): Relations
    decreases |commands|
  {
    if commands == [] then r else ApplyAll(Apply(r, commands[0]).r, commands[1..])
  }

  /** Each command comes from a user who exists when it is handled. */
  predicate Admissible(r: Relations, commands: seq<Command>)
    decreases |commands|
  {
    commands == [] ||
      ((Actor(commands[0]).Some? ==> Actor(commands[0]).value in r.users)
        && Admissible(Apply(r, commands[0]).r, commands[1..]))
  }

  lemma {:induction false} ApplyAllInv(r: Relations, commands: seq<Command>)
    requires Inv(r) && Admissible(r, commands)
    ensures Inv(ApplyAll(r, commands))
    decreases |commands|
  {
    hide Inv, Apply;
    if commands == [] {
    } else {
      ApplyInv(r, commands[0]);
      ApplyAllInv(Apply(r, commands[0]).r, commands[1..]);
    }
  }

  /** Over every run of commands from an empty database: friendships are ordered pairs, requests
      are never mutual and never between friends, and whoever is blocked is a friend. */
  lemma RelationsStayInOrder(commands: seq<Command>)
    requires Admissible(Relations({}, {}, {}, {}), commands)
    ensures var r := ApplyAll(Relations({}, {}, {}, {}), commands);
            && (forall p :: p in r.friendships ==> Less(p.0, p.1) && p.0 in r.users && p.1 in r.users)
            && (forall a, b :: (a, b) in r.requests ==> (b, a) !in r.requests && !AreFriends(r, a, b) && a != b)
            && (forall a, b :: (a, b) in r.blocks ==> AreFriends(r, a, b) && AreFriends(r, b, a))
  {
    ApplyAllInv(Relations({}, {}, {}, {}), commands);
    hide Less, ApplyAll;
    forall a, b ensures Pair(a, b) == Pair(b, a) {
      PairSymmetric(a, b);
    }
  }

  // ---- what commands do to one another ------------------------------------------------------

  /** Asking and accepting makes friends of both, asking and rejecting changes nothing. */
  lemma AskAndAnswer(r: Relations, a: Name, b: Name)
    requires Inv(r) && a in r.users && Add(r, a, b).reply == Done
    ensures var asked := Add(r, a, b).r;
            && Accept(asked, b, a) == Result(r.(friendships := r.friendships + {Pair(a, b)}), Done)
            && Reject(asked, b, a) == Result(r, Done)
            && Add(asked, b, a).reply == AlreadyAsked
  {
    PairSymmetric(a, b);
    assert r.requests + {(a, b)} - {(a, b)} == r.requests;
  }

  /** Unfriending undoes a friendship together with the blocks on it. */
  lemma RemoveUndoesAccept(r: Relations, a: Name, b: Name)
    requires Inv(r) && (a, b) in r.requests
    ensures var friends := Accept(r, b, a).r;
            && Accept(r, b, a).reply == Done
            && Remove(friends, a, b).r == r.(requests := r.requests - {(a, b)})
            && Remove(BlockFriend(friends, a, b).r, b, a).r == r.(requests := r.requests - {(a, b)})
  {
    hide Less;
    PairSymmetric(a, b);
    AcceptInv(r, b, a);
    assert Pair(a, b) !in r.friendships;
    assert r.friendships + {Pair(a, b)} - {Pair(a, b)} == r.friendships;
    assert (a, b) !in r.blocks && (b, a) !in r.blocks;
    assert r.blocks - {(a, b), (b, a)} == r.blocks && r.blocks + {(a, b)} - {(b, a), (a, b)} == r.blocks;
  }

  /** When each command is done; otherwise nothing changes. */
  predicate CanDo(r: Relations, c: Command) {
    match c
    case Register(_) => true
    case AddFriend(a, b) => a != b && b in r.users && !Related(r, a, b)
    case AcceptFriend(a, b) => (b, a) in r.requests
    case RejectFriend(a, b) => (b, a) in r.requests
    case RemoveFriend(a, b) => AreFriends(r, b, a)
    case Block(a, b) => AreFriends(r, b, a) && (a, b) !in r.blocks
    case Unblock(a, b) => (a, b) in r.blocks
    case DeleteAccount(_) => true
  }

  /** What a refusal says is so. */
  predicate ReasonTrue(r: Relations, c: Command, reply: Reply)
    requires !c.Register? && !c.DeleteAccount?
  {
    var (a, b) := (c.actor, Other(c));
    match reply
    case Done => true
    case NoSuchUser => b !in r.users
    case AlreadyFriends => AreFriends(r, a, b)
    case AlreadySent => (a, b) in r.requests
    case AlreadyAsked => (b, a) in r.requests
    case NoRequest => (b, a) !in r.requests
    case NotFriends => !AreFriends(r, a, b)
    case AlreadyBlocked => (a, b) in r.blocks
    case NotBlocked => (a, b) !in r.blocks
    case Self => a == b
    case DatabaseError(error) => c.AcceptFriend? && (b, a) !in r.requests
    case DuplicateKey => false
  }

  /** A command is done exactly when the tables allow it, and a request, a friendship or a block is
      there afterwards exactly when it was before and was not taken back, or was made now. */
  lemma CommandEffect(r: Relations, c: Command)
    requires Inv(r) && !c.DeleteAccount? && !c.Register?
    ensures var x := Apply(r, c);
            && (x.reply == Done <==> CanDo(r, c)) && (!CanDo(r, c) ==> x.r == r) && x.r.users == r.users
            && ReasonTrue(r, c, x.reply)
            && (CanDo(r, c) ==>
                  && (forall p :: p in x.r.requests <==>
                        (p in r.requests && !(AnswersRequest(c) && p == (Other(c), c.actor)))
                        || (c.AddFriend? && p == (c.actor, c.target)))
                  && (forall u, v :: AreFriends(x.r, u, v) <==>
                        (AreFriends(r, u, v) && !(c.RemoveFriend? && {u, v} == {c.actor, c.target}))
                        || (c.AcceptFriend? && {u, v} == {c.actor, c.requester}))
                  && (forall u, v :: (u, v) in x.r.blocks <==>
                        ((u, v) in r.blocks && !(c.Unblock? && (u, v) == (c.actor, c.target))
                         && !(c.RemoveFriend? && {u, v} == {c.actor, c.target}))
                        || (c.Block? && (u, v) == (c.actor, c.target))))
  {
    hide Less;
    var d := Other(c);
    PairSymmetric(c.actor, d);
    PairOnly(c.actor, d);
    LessTotal(c.actor, c.actor);
    assert forall u, v :: {u, v} == {c.actor, d} ==> (u, v) == (c.actor, d) || (u, v) == (d, c.actor) by {
      SamePair(c.actor, d);
    }
  }

  lemma SamePair(a: Name, b: Name)
    ensures forall u, v :: {u, v} == {a, b} ==> (u, v) == (a, b) || (u, v) == (b, a)
  {
    forall u, v | {u, v} == {a, b} ensures (u, v) == (a, b) || (u, v) == (b, a) {
      assert u in {a, b} && v in {a, b} && a in {u, v} && b in {u, v};
    }
  }

  predicate AnswersRequest(c: Command) { c.AcceptFriend? || c.RejectFriend? }

  /** Whom a command is about, besides its actor. */
  function Other(c: Command): Name
    requires !c.Register? && !c.DeleteAccount?
  {
    if AnswersRequest(c) then c.requester else c.target
  }

  // ---- the handlers ------------------------------------------------------------------------

  class FriendDesk {
    var users: set<Name>
    var requests: set<(Name, Name)>
    var friendships: set<(Name, Name)>
    var blocks: set<(Name, Name)>

    function Abs(): Relations
      reads this
    {
      Relations(users, requests, friendships, blocks)
    }

    constructor ()
      ensures Abs() == Relations({}, {}, {}, {}) && Inv(Abs())
    {
      users, requests, friendships, blocks := {}, {}, {}, {};
    }

    method AddFriend(sender: Name, target: Name) returns (reply: Reply)
      requires Inv(Abs()) && sender in users
      modifies this`requests
      ensures Inv(Abs()) && Result(Abs(), reply) == Add(old(Abs()), sender, target)
      ensures reply == Done <==>
              sender != target && target in users && !Related(old(Abs()), sender, target)
      ensures reply == Done ==>
              && requests == old(requests) + {(sender, target)}
              && Accept(Abs(), target, sender).reply == Done
              && AreFriends(Accept(Abs(), target, sender).r, sender, target)
              && Add(Abs(), sender, target).reply == AlreadySent && Add(Abs(), target, sender).reply == AlreadyAsked
      ensures reply != Done ==> requests == old(requests)
    {
      AddInv(Abs(), sender, target);
      PairSymmetric(sender, target);
      if sender == target {
        return Self;
      }
      if target !in users {
        return NoSuchUser;
      }
      if Pair(sender, target) in friendships {
        return AlreadyFriends;
      }
      var alreadySent, reverseRequest := (sender, target) in requests, (target, sender) in requests;
      if alreadySent {
        return AlreadySent;
      }
      if reverseRequest {
        return AlreadyAsked;
      }
      requests := requests + {(sender, target)};
      return Done;
    }

    /** INSERT INTO friendships: the primary key must be free. */
    method InsertFriendship(pair: (Name, Name))
      requires pair !in friendships
      modifies this`friendships
      ensures friendships == old(friendships) + {pair}
    {
      friendships := friendships + {pair};
    }

    /** `accept_friend_request`: the key of the insert is always free. */
    method AcceptFriend(current: Name, requester: Name) returns (reply: Reply)
      requires Inv(Abs())
      modifies this`requests, this`friendships
      ensures Inv(Abs()) && Result(Abs(), reply) == Accept(old(Abs()), current, requester)
      ensures reply == if (requester, current) in old(requests) then Done else DatabaseError(REQUEST_MISSING)
    {
      AcceptInv(Abs(), current, requester);
      NeverNoRequest(Abs(), current, requester);
      if (requester, current) !in requests {
        return AcceptFailed(REQUEST_MISSING);
      }
      requests := requests - {(requester, current)};
      InsertFriendship(Pair(requester, current));
      return Done;
    }

    /** `remove_friendship` in two deletes. */
    method RemoveFriend(current: Name, target: Name) returns (reply: Reply)
      requires Inv(Abs())
      modifies this`friendships, this`blocks
      ensures Inv(Abs()) && Result(Abs(), reply) == Remove(old(Abs()), current, target)
      ensures reply == if AreFriends(old(Abs()), target, current) then Done else NotFriends
      ensures !AreFriends(Abs(), current, target) && !AreFriends(Abs(), target, current)
      ensures forall a, b :: {a, b} == {current, target} ==> (a, b) !in blocks
      ensures forall a, b :: {a, b} != {current, target} ==>
              && AreFriends(Abs(), a, b) == old(AreFriends(Abs(), a, b))
              && ((a, b) in blocks <==> (a, b) in old(blocks))
    {
      RemoveInv(Abs(), current, target);
      PairSymmetric(current, target);
      PairOnly(current, target);
      var pair := Pair(current, target);
      var removed := pair in friendships;
      friendships := friendships - {pair};
      if !removed {
        return NotFriends;
      }
      blocks := blocks - {(current, target), (target, current)};
      return Done;
    }
  }
}
