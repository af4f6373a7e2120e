/** The permission to send, over the tables that decide it: what each friend command does to the verdict
    on private messages, and each group command to the recipients of group messages. */
module Verdicts {
  import opened Text
  import F = Friends
  import G = Groups
  import opened PolicyCache

  /** The groups as the policy queries see them. */
  function GroupsSeen(t: G.Tables): map<Name, Group> {
    map g | g in t.groups :: Group(t.groups[g].id, set u | u in t.users && G.RoleOf(t, g, u).Some?)
  }

  /** The tables as the policy queries see them: a friendship is found from both sides. */
  function Seen(r: F.Relations, groups: map<Name, Group>): Database {
    Database(r.users, set a, b | a in r.users && b in r.users && F.AreFriends(r, a, b) :: (a, b), r.blocks, groups)
  }

  function Verdict(r: F.Relations, sender: Name, recipient: Name): Decision {
    Evaluate(Seen(r, map[]), sender, recipient)
  }

  /** The groups do not matter. */
  lemma VerdictAnyGroups(r: F.Relations, groups: map<Name, Group>, sender: Name, recipient: Name)
    ensures Evaluate(Seen(r, groups), sender, recipient) == Verdict(r, sender, recipient)
  {
  }

  /** The verdict in the words of the friend tables. */
  lemma VerdictOf(r: F.Relations, a: Name, b: Name)
    requires F.Inv(r)
    ensures Verdict(r, a, b) ==
            if b !in r.users then TargetMissing
            else if !F.AreFriends(r, a, b) then NotFriends
            else if (b, a) in r.blocks then BlockedByRecipient
            else if (a, b) in r.blocks then BlockedBySender
            else Allowed
  {
    hide F.Less;
    F.PairSymmetric(a, b);
  }

  /** Messages are allowed in both directions or in neither, and then between different users. */
  lemma BothWays(r: F.Relations, a: Name, b: Name)
    requires F.Inv(r)
    ensures Verdict(r, a, b) == Allowed <==> Verdict(r, b, a) == Allowed
    ensures Verdict(r, a, b) == Allowed ==> a != b && a in r.users
  {
    hide F.Less, Verdict;
    F.PairSymmetric(a, b);
    VerdictOf(r, a, b);
    VerdictOf(r, b, a);
    F.LessTotal(a, b);
  }

  /** A block closes both directions, and says why. */
  lemma BlockCloses(r: F.Relations, a: Name, b: Name)
    requires F.Inv(r) && F.BlockFriend(r, a, b).reply == F.Done
    ensures var r' := F.BlockFriend(r, a, b).r;
            && Verdict(r', b, a) == BlockedByRecipient
            && Verdict(r', a, b) == if (b, a) in r.blocks then BlockedByRecipient else BlockedBySender
  {
    hide F.Less, Verdict, F.Inv;
    var r' := F.BlockFriend(r, a, b).r;
    FriendsExist(r, a, b);
    F.ApplyInv(r, F.Block(a, b));
    VerdictOf(r', a, b);
    VerdictOf(r', b, a);
  }

  lemma FriendsExist(r: F.Relations, a: Name, b: Name)
    requires F.Inv(r) && F.AreFriends(r, a, b)
    ensures a in r.users && b in r.users && F.AreFriends(r, b, a)
  {
    hide F.Less;
    F.PairSymmetric(a, b);
  }

  /** Unblocking opens both directions again, unless the other side blocks, too. */
  lemma UnblockOpens(r: F.Relations, a: Name, b: Name)
    requires F.Inv(r) && F.UnblockFriend(r, a, b).reply == F.Done
    ensures var r' := F.UnblockFriend(r, a, b).r;
            && (Verdict(r', a, b) == Allowed <==> (b, a) !in r.blocks)
            && (Verdict(r', b, a) == Allowed <==> (b, a) !in r.blocks)
            && ((b, a) in r.blocks ==> Verdict(r', a, b) == BlockedByRecipient && Verdict(r', b, a) == BlockedBySender)
  {
    hide F.Less, Verdict;
    var r' := F.UnblockFriend(r, a, b).r;
    FriendsExist(r, a, b);
    F.ApplyInv(r, F.Unblock(a, b));
    assert a != b by { NotOwnFriend(r, a); }
    hide F.Inv;
    VerdictOf(r', a, b);
    VerdictOf(r', b, a);
  }

  lemma NotOwnFriend(r: F.Relations, a: Name)
    requires F.Inv(r)
    ensures !F.AreFriends(r, a, a)
  {
    hide F.Less;
    F.LessTotal(a, a);
  }

  /** Unfriending closes both directions. */
  lemma RemoveCloses(r: F.Relations, a: Name, b: Name)
    requires F.Inv(r) && F.Remove(r, a, b).reply == F.Done
    ensures var r' := F.Remove(r, a, b).r; Verdict(r', a, b) == NotFriends && Verdict(r', b, a) == NotFriends
  {
    hide F.Less, Verdict, F.Inv;
    var r' := F.Remove(r, a, b).r;
    F.RemoveInv(r, a, b);
    FriendsExist(r, a, b);
    F.PairSymmetric(a, b);
    VerdictOf(r', a, b);
    VerdictOf(r', b, a);
  }

  /** Accepting a request opens both directions. */
  lemma AcceptOpens(r: F.Relations, a: Name, b: Name)
    requires F.Inv(r) && F.Accept(r, b, a).reply == F.Done
    ensures var r' := F.Accept(r, b, a).r; Verdict(r', a, b) == Allowed && Verdict(r', b, a) == Allowed
  {
    hide F.Less, Verdict;
    var r' := F.Accept(r, b, a).r;
    F.AcceptInv(r, b, a);
    F.PairSymmetric(a, b);
    assert a in r.users && b in r.users && (a, b) !in r.blocks && (b, a) !in r.blocks;
    hide F.Inv;
    VerdictOf(r', a, b);
    VerdictOf(r', b, a);
  }

  /** The two names a command is about. */
  function Concerned(c: F.Command): set<Name> {
    match c
    case Register(user) => {user}
    case AddFriend(actor, target) => {actor, target}
    case AcceptFriend(actor, requester) => {actor, requester}
    case RejectFriend(actor, requester) => {actor, requester}
    case RemoveFriend(actor, target) => {actor, target}
    case Block(actor, target) => {actor, target}
    case Unblock(actor, target) => {actor, target}
    case DeleteAccount(actor) => {actor}
  }

  /** Asking and refusing change no verdict at all, and no command changes a verdict between others. */
  lemma OthersKeepVerdict(r: F.Relations, c: F.Command, a: Name, b: Name)
    requires F.Inv(r) && (!c.Register? ==> c.actor in r.users)
    requires c.AddFriend? || c.RejectFriend? || !(Concerned(c) <= {a, b}) || F.Apply(r, c).reply != F.Done
    ensures Verdict(F.Apply(r, c).r, a, b) == Verdict(r, a, b)
  {
    hide F.Less, Verdict, F.Pair;
    var r' := F.Apply(r, c).r;
    F.ApplyInv(r, c);
    SameRows(r, c, a, b);
    hide F.Inv, F.Apply;
    VerdictOf(r, a, b);
    VerdictOf(r', a, b);
  }

  lemma SameRows(r: F.Relations, c: F.Command, a: Name, b: Name)
    requires F.Inv(r)
    requires c.AddFriend? || c.RejectFriend? || !(Concerned(c) <= {a, b}) || F.Apply(r, c).reply != F.Done
    ensures var r' := F.Apply(r, c).r;
            && (b in r'.users <==> b in r.users) && (F.AreFriends(r', a, b) <==> F.AreFriends(r, a, b))
            && ((a, b) in r'.blocks <==> (a, b) in r.blocks) && ((b, a) in r'.blocks <==> (b, a) in r.blocks)
  {
    hide F.Less;
    F.PairSymmetric(a, b);
    if c.AcceptFriend? || c.RemoveFriend? {
      var d := if c.AcceptFriend? then c.requester else c.target;
      F.PairSymmetric(c.actor, d);
      if F.Pair(c.actor, d) == F.Pair(a, b) {
        F.PairInjective(c.actor, d, a, b);
      }
    }
  }

  // ---- groups -------------------------------------------------------------------------------

  /** Whoever has a role is a member for the policy queries, and nobody else. */
  lemma MembersSeenExactly(t: G.Tables, r: F.Relations, group: Name, user: Name)
    requires G.Inv(t)
    ensures user in MembersOf(Seen(r, GroupsSeen(t)), group) <==> G.RoleOf(t, group, user).Some?
  {
    hide G.HasGroup, G.OwnersOk, G.RequestsOk;
    assert G.MembersOk(t);
  }

  /** Who is removed or leaves gets no more messages of the group; everybody else's stay as they were. */
  lemma LeaversGetNothing(t: G.Tables, r: F.Relations, c: G.Command, group: Name, user: Name)
    requires G.Inv(t) && (c.RemoveMember? || c.Leave?) && c.actor in t.users && G.Execute(t, c).reply == G.Done
    ensures var t', gone := G.Execute(t, c).t, if c.Leave? then c.actor else c.target;
            user in MembersOf(Seen(r, GroupsSeen(t')), group) <==>
            user in MembersOf(Seen(r, GroupsSeen(t)), group) && (group, user) != (c.group, gone)
  {
    hide Seen, GroupsSeen, G.Inv;
    var t' := G.Execute(t, c).t;
    G.ExecuteInv(t, c);
    if c.Leave? {
      G.LeaveEffect(t, c.actor, c.group);
    } else {
      G.ExpelEffect(t, c.actor, c.group, c.target);
    }
    MembersSeenExactly(t, r, group, user);
    MembersSeenExactly(t', r, group, user);
  }

  /** Who is approved gets the messages of the group from then on. */
  lemma NewcomersGetMessages(t: G.Tables, r: F.Relations, actor: Name, group: Name, target: Name)
    requires G.Inv(t) && G.ApproveRequest(t, actor, group, target).reply == G.Done
    ensures target in MembersOf(Seen(r, GroupsSeen(G.ApproveRequest(t, actor, group, target).t)), group)
  {
    hide Seen, GroupsSeen, G.Inv;
    var t' := G.ApproveRequest(t, actor, group, target).t;
    G.ApproveInv(t, actor, group, target);
    G.AnswerEffect(t, actor, group, target);
    MembersSeenExactly(t', r, group, target);
  }
}
