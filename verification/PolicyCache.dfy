/** The permission caches of a session (chat_server.cpp, chat_server_sessions.cpp): a private target
    or a group's recipients are remembered with the generation they were checked at, and used
    without a query while that generation is current.

    A command changes the database first and bumps the generation later, so between the two there
    is a bump outstanding; every interleaving with the other sessions is allowed.  A group message
    reads the generation, the group, the role and the members one after the other, without a lock.
    ENTER_PRIVATE and ENTER_GROUP run their queries one after the other, too, but load the
    generation only after the last one. */
module PolicyCache {
  import opened Text

  type Name = Bytes

  datatype Group = Group(id: nat, members: set<Name>)

  datatype Database = Database(
    users: set<Name>,
    friends: set<(Name, Name)>,             // in both orders
    blocks: set<(Name, Name)>,              // (who blocks, who is blocked)
    groups: map<Name, Group>)

  datatype Decision = Allowed | TargetMissing | NotFriends | BlockedByRecipient | BlockedBySender

  /** `DirectMessagePolicy::evaluate` */
  function Evaluate(db: Database, sender: Name, recipient: Name): Decision {
    if recipient !in db.users then TargetMissing
    else if (sender, recipient) !in db.friends then NotFriends
    else if (recipient, sender) in db.blocks then BlockedByRecipient
    else if (sender, recipient) in db.blocks then BlockedBySender
    else Allowed
  }

  /** `realtime_private_*` and `realtime_group_*`; an empty name means that nothing is cached.
      `since` is history: the generation before the first query behind the entry. */
  datatype PrivateCache = PrivateCache(target: Name, tag: nat, since: nat)
  datatype GroupCache = GroupCache(name: Name, id: nat, recipients: set<Name>, tag: nat, since: nat)

  /** Where a session's handler is; `entry` tells ENTER_GROUP from GROUP_MSG, and `since` is the
      generation before the first query, which only GROUP_MSG has loaded. */
  datatype Pc =
    | Idle
    | Checking(target: Name, since: nat, passed: nat)        // ENTER_PRIVATE, after `passed` queries
    | Asking(entry: bool, name: Name, since: nat)
    | GroupRead(entry: bool, name: Name, since: nat, id: nat)
    | RoleRead(entry: bool, name: Name, since: nat, id: nat)
    | MembersRead(entry: bool, name: Name, since: nat, id: nat, members: set<Name>)
    | Deleting(direct: nat, group: nat)     // the account is gone; generations at that time

  datatype Session = Session(user: Option<Name>, direct: PrivateCache, group: GroupCache, pc: Pc)

  datatype World = World(
    db: Database,
    direct: nat, directOutstanding: nat,    // direct_policy_generation_, bumps still to come
    group: nat, groupOutstanding: nat,
    sessions: map<nat, Session>)

  datatype Action =
    | Register(user: Name)                      // bumps nothing
    | ChangeRelations(db: Database)             // friendships or blocks change
    | ChangeGroups(db: Database)                // memberships or groups change
    | BumpDirect | BumpGroup
    | Login(s: nat, user: Name)
    | Logout(s: nat)
    | DeleteAccount(s: nat, db: Database) | FinishDelete(s: nat)
    | EnterPrivate(s: nat, target: Name) | CheckPrivate(s: nat) | StorePrivate(s: nat)
    | SendPrivate(s: nat, target: Name)         // under the friend lock
    | EnterGroup(s: nat, name: Name)
    | SendGroup(s: nat, name: Name)             // not cached; the generation is loaded
    | ReadGroup(s: nat) | ReadRole(s: nat) | ReadMembers(s: nat) | StoreGroup(s: nat)

  const NO_PRIVATE := PrivateCache("", 0, 0)
  const NO_GROUP := GroupCache("", 0, {}, 0, 0)

  predicate LoggedIn(w: World, s: nat) { s in w.sessions && w.sessions[s].user.Some? }

  predicate Resting(w: World, s: nat) { LoggedIn(w, s) && w.sessions[s].pc == Idle }

  /** The cache hit of MSG. */
  predicate CachedTarget(w: World, s: nat, target: Name)
    requires s in w.sessions
  {
    w.sessions[s].direct.target == target && w.sessions[s].direct.tag == w.direct
  }

  /** The cache hit of GROUP_MSG. */
  predicate CachedGroup(w: World, s: nat, name: Name)
    requires s in w.sessions
  {
    w.sessions[s].group.name == name && w.sessions[s].group.id != 0 && w.sessions[s].group.tag == w.group
  }

  predicate Enabled(w: World, a: Action) {
    match a
    case Register(user) => user !in w.db.users
    case ChangeRelations(db) => db == w.db.(friends := db.friends, blocks := db.blocks)
    case ChangeGroups(db) => db == w.db.(groups := db.groups)
    case BumpDirect => w.directOutstanding > 0
    case BumpGroup => w.groupOutstanding > 0
    case Login(s, user) => s in w.sessions ==> w.sessions[s].user.None? && w.sessions[s].pc == Idle
    case Logout(s) => Resting(w, s)
    case DeleteAccount(s, db) => Resting(w, s)
    case FinishDelete(s) =>
      && LoggedIn(w, s) && w.sessions[s].pc.Deleting?
      && w.direct > w.sessions[s].pc.direct && w.group > w.sessions[s].pc.group
    case EnterPrivate(s, target) => Resting(w, s) && target != ""
    case CheckPrivate(s) => LoggedIn(w, s) && w.sessions[s].pc.Checking? && w.sessions[s].pc.passed < 4
    case StorePrivate(s) => LoggedIn(w, s) && w.sessions[s].pc.Checking? && w.sessions[s].pc.passed == 4
    case SendPrivate(s, target) => Resting(w, s) && target != ""
    case EnterGroup(s, name) => Resting(w, s) && name != ""
    case SendGroup(s, name) => Resting(w, s) && name != "" && !CachedGroup(w, s, name)
    case ReadGroup(s) => LoggedIn(w, s) && w.sessions[s].pc.Asking?
    case ReadRole(s) => LoggedIn(w, s) && w.sessions[s].pc.GroupRead?
    case ReadMembers(s) => LoggedIn(w, s) && w.sessions[s].pc.RoleRead?
    case StoreGroup(s) => LoggedIn(w, s) && w.sessions[s].pc.MembersRead?
  }

  function Put(w: World, s: nat, x: Session): World { w.(sessions := w.sessions[s := x]) }

  /** What query number `i` of `evaluate` has to find. */
  predicate Passes(db: Database, sender: Name, recipient: Name, i: nat) {
    if i == 0 then recipient in db.users
    else if i == 1 then (sender, recipient) in db.friends
    else if i == 2 then (recipient, sender) !in db.blocks
    else (sender, recipient) !in db.blocks
  }

  function Checked(w: World, x: Session, user: Name): Session
    requires x.pc.Checking?
  {
    if Passes(w.db, user, x.pc.target, x.pc.passed) then x.(pc := x.pc.(passed := x.pc.passed + 1)) else x.(pc := Idle)
  }

  function EnteredPrivate(w: World, x: Session): Session
    requires x.pc.Checking?
  {
    x.(direct := PrivateCache(x.pc.target, w.direct, x.pc.since), group := NO_GROUP, pc := Idle)
  }

  /** MSG, and its second check when the generation has moved meanwhile. */
  function SentPrivate(w: World, x: Session, user: Name, target: Name): Session {
    if x.direct.target == target && x.direct.tag == w.direct then x
    else if Evaluate(w.db, user, target) == Allowed then x.(direct := PrivateCache(target, w.direct, w.direct))
    else x
  }

  function GroupSeen(w: World, x: Session): Session
    requires x.pc.Asking?
  {
    var (entry, name, since) := (x.pc.entry, x.pc.name, x.pc.since);
    x.(pc := if name in w.db.groups then GroupRead(entry, name, since, w.db.groups[name].id) else Idle)
  }

  function RoleSeen(w: World, x: Session, user: Name): Session
    requires x.pc.GroupRead?
  {
    var (entry, name, since, id) := (x.pc.entry, x.pc.name, x.pc.since, x.pc.id);
    x.(pc := if user in MembersOf(w.db, name) then RoleRead(entry, name, since, id) else Idle)
  }

  function MembersOf(db: Database, name: Name): set<Name> {
    if name in db.groups then db.groups[name].members else {}
  }

  function MembersSeen(w: World, x: Session): Session
    requires x.pc.RoleRead?
  {
    x.(pc := MembersRead(x.pc.entry, x.pc.name, x.pc.since, x.pc.id, MembersOf(w.db, x.pc.name)))
  }

  function Stored(w: World, x: Session, user: Name): Session
    requires x.pc.MembersRead?
  {
    var tag := if x.pc.entry then w.group else x.pc.since;
    x.(group := GroupCache(x.pc.name, x.pc.id, x.pc.members - {user}, tag, x.pc.since),
       direct := if x.pc.entry then NO_PRIVATE else x.direct, pc := Idle)
  }

  function Act(w: World, a: Action): World
    requires Enabled(w, a)
  {
    match a
    case Register(user) => w.(db := w.db.(users := w.db.users + {user}))
    case ChangeRelations(db) => w.(db := db, directOutstanding := w.directOutstanding + 1)
    case ChangeGroups(db) => w.(db := db, groupOutstanding := w.groupOutstanding + 1)
    case BumpDirect => w.(direct := w.direct + 1, directOutstanding := w.directOutstanding - 1)
    case BumpGroup => w.(group := w.group + 1, groupOutstanding := w.groupOutstanding - 1)
    case Login(s, user) =>
      Put(w, s, if s in w.sessions then w.sessions[s].(user := Some(user))
        else Session(Some(user), NO_PRIVATE, NO_GROUP, Idle))
    case Logout(s) => Put(w, s, Session(None, NO_PRIVATE, NO_GROUP, Idle))
    case DeleteAccount(s, db) =>
      Put(w.(db := db, directOutstanding := w.directOutstanding + 1, groupOutstanding := w.groupOutstanding + 1), s,
          w.sessions[s].(pc := Deleting(w.direct, w.group)))
    case FinishDelete(s) => Put(w, s, w.sessions[s].(user := None, pc := Idle))
    case EnterPrivate(s, target) => Put(w, s, w.sessions[s].(pc := Checking(target, w.direct, 0)))
    case CheckPrivate(s) => Put(w, s, Checked(w, w.sessions[s], w.sessions[s].user.value))
    case StorePrivate(s) => Put(w, s, EnteredPrivate(w, w.sessions[s]))
    case SendPrivate(s, target) => Put(w, s, SentPrivate(w, w.sessions[s], w.sessions[s].user.value, target))
    case EnterGroup(s, name) => Put(w, s, w.sessions[s].(pc := Asking(true, name, w.group)))
    case SendGroup(s, name) => Put(w, s, w.sessions[s].(pc := Asking(false, name, w.group)))
    case ReadGroup(s) => Put(w, s, GroupSeen(w, w.sessions[s]))
    case ReadRole(s) => Put(w, s, RoleSeen(w, w.sessions[s], w.sessions[s].user.value))
    case ReadMembers(s) => Put(w, s, MembersSeen(w, w.sessions[s]))
    case StoreGroup(s) => Put(w, s, Stored(w, w.sessions[s], w.sessions[s].user.value))
  }

  // ---- the invariant ------------------------------------------------------------------------

  predicate GroupAgrees(db: Database, name: Name, id: nat) { name in db.groups && db.groups[name].id == id }

  predicate RecipientsAgree(db: Database, user: Name, c: GroupCache) {
    GroupAgrees(db, c.name, c.id) && c.recipients == db.groups[c.name].members - {user}
  }

  /** No bump since the first query, and none outstanding, means that nothing has changed since. */
  predicate DirectOk(w: World, x: Session) {
    && x.direct.since <= x.direct.tag <= w.direct
    && (x.user.None? ==> x.direct.tag < w.direct)
    && (x.user.Some? && x.direct.since == w.direct && w.directOutstanding == 0 ==>
          Evaluate(w.db, x.user.value, x.direct.target) == Allowed)
  }

  predicate GroupOk(w: World, x: Session) {
    && x.group.since <= x.group.tag <= w.group
    && (x.user.None? ==> x.group.tag < w.group)
    && (x.user.Some? && x.group.since == w.group && w.groupOutstanding == 0 ==>
         RecipientsAgree(w.db, x.user.value, x.group))
  }

  /** The same for what a half-done handler has read. */
  predicate PcOk(w: World, x: Session) {
    match x.pc
    case Idle => true
    case Checking(target, since, passed) =>
      && x.user.Some? && since <= w.direct && passed <= 4
      && (since == w.direct && w.directOutstanding == 0 ==>
            forall i :: 0 <= i < passed ==> Passes(w.db, x.user.value, target, i))
    case Asking(_, name, since) => x.user.Some? && since <= w.group
    case GroupRead(_, name, since, id) =>
      x.user.Some? && since <= w.group && (GroupQuiet(w, since) ==> GroupAgrees(w.db, name, id))
    case RoleRead(_, name, since, id) =>
      x.user.Some? && since <= w.group && (GroupQuiet(w, since) ==> GroupAgrees(w.db, name, id))
    case MembersRead(_, name, since, id, members) =>
      && x.user.Some? && since <= w.group
      && (GroupQuiet(w, since) ==> GroupAgrees(w.db, name, id) && members == w.db.groups[name].members)
    case Deleting(direct, group) =>
      && x.user.Some? && x.direct.tag <= direct <= w.direct && x.group.tag <= group <= w.group
      && (direct == w.direct ==> w.directOutstanding > 0) && (group == w.group ==> w.groupOutstanding > 0)
  }

  predicate GroupQuiet(w: World, since: nat) { since == w.group && w.groupOutstanding == 0 }

  predicate SessionOk(w: World, x: Session) { DirectOk(w, x) && GroupOk(w, x) && PcOk(w, x) }

  ghost predicate Inv(w: World) {
    w.direct >= 1 && w.group >= 1 && forall s :: s in w.sessions ==> SessionOk(w, w.sessions[s])
  }

  /** A session that does nothing stays in order whatever the others do. */
  lemma OtherSession(w: World, a: Action, x: Session)
    requires Enabled(w, a) && SessionOk(w, x)
    ensures SessionOk(Act(w, a), x)
  {
    if a.Register? || a.ChangeGroups? {
      OtherKeepsRelations(w, a, x);
    } else {
      hide Passes, Evaluate;
    }
  }

  /** More users, and other groups, take no permission away. */
  lemma OtherKeepsRelations(w: World, a: Action, x: Session)
    requires Enabled(w, a) && (a.Register? || a.ChangeGroups?) && SessionOk(w, x)
    ensures SessionOk(Act(w, a), x)
  {
    var w' := Act(w, a);
    assert forall sender, recipient, i :: Passes(w.db, sender, recipient, i) ==> Passes(w'.db, sender, recipient, i);
    hide Passes;
  }

  /** So does the session that acts. */
  lemma OwnSession(w: World, a: Action, s: nat)
    requires Inv(w) && Enabled(w, a) && s in Act(w, a).sessions
    requires s in w.sessions ==> Act(w, a).sessions[s] != w.sessions[s]
    ensures SessionOk(Act(w, a), Act(w, a).sessions[s])
  {
    if s in w.sessions {
      assert SessionOk(w, w.sessions[s]);
      if a.EnterPrivate? || a.CheckPrivate? || a.StorePrivate? || a.SendPrivate? {
        OwnPrivate(w, a, s);
      } else {
        hide Evaluate, Passes;
      }
    }
  }

  /** The same for ENTER_PRIVATE and MSG. */
  lemma OwnPrivate(w: World, a: Action, s: nat)
    requires w.direct >= 1 && w.group >= 1 && s in w.sessions && SessionOk(w, w.sessions[s]) && Enabled(w, a)
    requires (a.EnterPrivate? || a.CheckPrivate? || a.StorePrivate? || a.SendPrivate?) && a.s == s
    ensures SessionOk(Act(w, a), Act(w, a).sessions[s])
  {
    hide GroupOk, Evaluate;
    var x := w.sessions[s];
    assert GroupOk(w, x) ==> GroupOk(Act(w, a), Act(w, a).sessions[s]) by { SameGroup(w, a, s); }
    if a.StorePrivate? && x.pc.since == w.direct && w.directOutstanding == 0 {
      AllPass(w.db, x.user.value, x.pc.target);
    }
  }

  lemma SameGroup(w: World, a: Action, s: nat)
    requires w.group >= 1 && s in w.sessions && w.sessions[s].user.Some? && Enabled(w, a)
    requires (a.EnterPrivate? || a.CheckPrivate? || a.StorePrivate? || a.SendPrivate?) && a.s == s
    ensures GroupOk(w, w.sessions[s]) ==> GroupOk(Act(w, a), Act(w, a).sessions[s])
  {
    hide Evaluate, Passes;
  }

  lemma ActInv(w: World, a: Action)
    requires Inv(w) && Enabled(w, a)
    ensures Inv(Act(w, a))
  {
    hide SessionOk, Act, Enabled;
    assert Act(w, a).direct >= w.direct && Act(w, a).group >= w.group by { GenerationsGrow(w, a); }
    var w' := Act(w, a);
    forall s | s in w'.sessions ensures SessionOk(w', w'.sessions[s]) {
      if s in w.sessions && w'.sessions[s] == w.sessions[s] {
        OtherSession(w, a, w.sessions[s]);
      } else {
        OwnSession(w, a, s);
      }
    }
  }

  lemma GenerationsGrow(w: World, a: Action)
    requires Enabled(w, a)
    ensures Act(w, a).direct >= w.direct && Act(w, a).group >= w.group
  {
  }

  ghost predicate Run(w: World, actions: seq<Action>, w': World)
    decreases |actions|
  {
    if actions == [] then w' == w else Enabled(w, actions[0]) && Run(Act(w, actions[0]), actions[1..], w')
  }

  lemma {:induction false} RunInv(w: World, actions: seq<Action>, w': World)
    requires Inv(w) && Run(w, actions, w')
    ensures Inv(w')
    decreases |actions|
  {
    hide Act, Enabled, Inv;
    if actions == [] {
    } else {
      ActInv(w, actions[0]);
      RunInv(Act(w, actions[0]), actions[1..], w');
    }
  }

  function Start(db: Database): World { World(db, 1, 0, 1, 0, map[]) }

  /** Nothing moved the generation between the first query and the load. */
  predicate PrivatePrompt(w: World, s: nat)
    requires s in w.sessions
  {
    w.sessions[s].direct.since == w.sessions[s].direct.tag
  }

  predicate GroupPrompt(w: World, s: nat)
    requires s in w.sessions
  {
    w.sessions[s].group.since == w.sessions[s].group.tag
  }

  predicate PrivateAgrees(w: World, s: nat)
    requires LoggedIn(w, s)
  {
    Evaluate(w.db, w.sessions[s].user.value, w.sessions[s].direct.target) == Allowed
  }

  /** In every reachable state: a private message that skips the check would have passed it, and a
      group message that skips the queries goes to the group and the members they would have
      found, unless a bump is still outstanding, or the generation moved while an entry handler
      was still asking.  Registering, logging out, logging in as somebody else on the same
      connection and deleting the account do not change that. */
  lemma CachesAgree(db: Database, actions: seq<Action>, w: World, s: nat)
    requires Run(Start(db), actions, w) && LoggedIn(w, s)
    ensures forall target :: CachedTarget(w, s, target) && w.directOutstanding == 0 && PrivatePrompt(w, s) ==>
              Evaluate(w.db, w.sessions[s].user.value, target) == Allowed
    ensures forall name :: CachedGroup(w, s, name) && w.groupOutstanding == 0 && GroupPrompt(w, s) ==>
              && name in w.db.groups && w.sessions[s].group.id == w.db.groups[name].id
              && w.sessions[s].group.recipients == w.db.groups[name].members - {w.sessions[s].user.value}
  {
    RunInv(Start(db), actions, w);
    hide Run;
    assert SessionOk(w, w.sessions[s]);
  }

  /** What an entry handler stores: the late load is right whenever it equals the generation before the
      first query and no bump is outstanding then. */
  lemma LateLoad(db: Database, actions: seq<Action>, w: World, s: nat)
    requires Run(Start(db), actions, w)
    ensures Enabled(w, StorePrivate(s)) && w.sessions[s].pc.since == w.direct && w.directOutstanding == 0 ==>
              PrivateAgrees(Act(w, StorePrivate(s)), s)
    ensures Enabled(w, StoreGroup(s)) && GroupQuiet(w, w.sessions[s].pc.since) ==>
              RecipientsAgree(w.db, w.sessions[s].user.value, Act(w, StoreGroup(s)).sessions[s].group)
  {
    RunInv(Start(db), actions, w);
    hide Run;
    assert s in w.sessions ==> SessionOk(w, w.sessions[s]);
    if Enabled(w, StorePrivate(s)) && w.sessions[s].pc.since == w.direct && w.directOutstanding == 0 {
      AllPass(w.db, w.sessions[s].user.value, w.sessions[s].pc.target);
    }
  }

  lemma AllPass(db: Database, sender: Name, recipient: Name)
    requires Passes(db, sender, recipient, 0) && Passes(db, sender, recipient, 1)
    requires Passes(db, sender, recipient, 2) && Passes(db, sender, recipient, 3)
    ensures Evaluate(db, sender, recipient) == Allowed
  {
    VerdictExact(db, sender, recipient);
  }

  /** The verdict, from the queries: a message is allowed exactly when all four pass, and a refusal
      names the first one that does not. */
  lemma VerdictExact(db: Database, sender: Name, recipient: Name)
    ensures var verdict := Evaluate(db, sender, recipient);
            && (verdict == Allowed <==> forall i :: 0 <= i < 4 ==> Passes(db, sender, recipient, i))
            && (verdict == TargetMissing <==> FirstFailure(db, sender, recipient, 0))
            && (verdict == NotFriends <==> FirstFailure(db, sender, recipient, 1))
            && (verdict == BlockedByRecipient <==> FirstFailure(db, sender, recipient, 2))
            && (verdict == BlockedBySender <==> FirstFailure(db, sender, recipient, 3))
  {
    var first, second := Passes(db, sender, recipient, 0), Passes(db, sender, recipient, 1);
    var third, fourth := Passes(db, sender, recipient, 2), Passes(db, sender, recipient, 3);
  }

  predicate FirstFailure(db: Database, sender: Name, recipient: Name, n: nat) {
    !Passes(db, sender, recipient, n) && forall i :: 0 <= i < n ==> Passes(db, sender, recipient, i)
  }

  /** A message is sent to somebody it should not go to, with nothing outstanding, only after a
      bump between the first query of an entry and its load. */
  lemma StaleMeansMoved(db: Database, actions: seq<Action>, w: World, s: nat, target: Name, name: Name)
    requires Run(Start(db), actions, w) && LoggedIn(w, s)
    ensures CachedTarget(w, s, target) && w.directOutstanding == 0
            && Evaluate(w.db, w.sessions[s].user.value, target) != Allowed
            ==> w.sessions[s].direct.since < w.sessions[s].direct.tag
    ensures CachedGroup(w, s, name) && w.groupOutstanding == 0
            && !RecipientsAgree(w.db, w.sessions[s].user.value, w.sessions[s].group)
            ==> w.sessions[s].group.since < w.sessions[s].group.tag
  {
    RunInv(Start(db), actions, w);
    hide Run;
    assert SessionOk(w, w.sessions[s]);
  }

  // ---- why the load is late -----------------------------------------------------------------

  const BEFORE := Database({"a", "b"}, {}, {}, map["g" := Group(7, {"a", "b"})])
  const AFTER := BEFORE.(groups := map["g" := Group(7, {"a"})])

  function Entering(pc: Pc): Session { Session(Some("a"), NO_PRIVATE, NO_GROUP, pc) }

  /** "a" enters the group ... */
  const ASKS: seq<Action> := [Login(0, "a"), EnterGroup(0, "g"), ReadGroup(0), ReadRole(0), ReadMembers(0)]

  /** ... "b" leaves and the generation is bumped before "a" loads it. */
  const STORES: seq<Action> := [ChangeGroups(AFTER), BumpGroup, StoreGroup(0)]

  const ASKED := World(BEFORE, 1, 0, 1, 0, map[0 := Entering(MembersRead(true, "g", 1, 7, {"a", "b"}))])

  /** Such a run exists: the stale recipients look current. */
  lemma LateEntryStale() returns (w: World)
    ensures Run(Start(BEFORE), ASKS + STORES, w) && LoggedIn(w, 0) && w.groupOutstanding == 0 && CachedGroup(w, 0, "g")
    ensures "b" in w.sessions[0].group.recipients && "g" in w.db.groups && "b" !in w.db.groups["g"].members
  {
    w := ChangedInBetween(ASKED, 0, STORES, AFTER);
    Asks();
    RunJoin(Start(BEFORE), ASKS, ASKED, STORES, w);
    hide Run;
    assert "b"[0] != "a"[0];
  }

  lemma Asks()
    ensures Run(Start(BEFORE), ASKS, ASKED)
  {
    var w1 := World(BEFORE, 1, 0, 1, 0, map[0 := Entering(Idle)]);
    var w2 := World(BEFORE, 1, 0, 1, 0, map[0 := Entering(Asking(true, "g", 1))]);
    var w3 := World(BEFORE, 1, 0, 1, 0, map[0 := Entering(GroupRead(true, "g", 1, 7))]);
    var w4 := World(BEFORE, 1, 0, 1, 0, map[0 := Entering(RoleRead(true, "g", 1, 7))]);
    RunEmpty(ASKED, ASKS, 5);
    Before(w4, ASKS, 4, ASKED, ASKED);
    Before(w3, ASKS, 3, w4, ASKED);
    Before(w2, ASKS, 2, w3, ASKED);
    Before(w1, ASKS, 1, w2, ASKED);
    Before(Start(BEFORE), ASKS, 0, w1, ASKED);
    assert ASKS[0..] == ASKS;
  }

  /** Any change of the groups that is bumped between the last query and the load leaves an entry
      that looks current; it is right exactly when the change kept this group and its other members. */
  lemma ChangedInBetween(start: World, s: nat, actions: seq<Action>, db: Database) returns (w: World)
    requires Enabled(start, StoreGroup(s)) && start.sessions[s].pc.entry && start.sessions[s].pc.id != 0
    requires start.groupOutstanding == 0 && Enabled(start, ChangeGroups(db))
    requires actions == [ChangeGroups(db), BumpGroup, StoreGroup(s)]
    ensures var read := start.sessions[s].pc;
            && Run(start, actions, w) && LoggedIn(w, s) && w.db == db && w.groupOutstanding == 0
            && CachedGroup(w, s, read.name)
            && w.sessions[s].user == start.sessions[s].user && w.sessions[s].group.name == read.name
            && var others := read.members - {w.sessions[s].user.value};
               && w.sessions[s].group.recipients == others
               && (RecipientsAgree(db, w.sessions[s].user.value, w.sessions[s].group) <==>
                     && GroupAgrees(db, read.name, read.id)
                     && MembersOf(db, read.name) - {w.sessions[s].user.value} == others)
  {
    var w1 := Act(start, actions[0]);
    var w2 := Act(w1, actions[1]);
    w := Act(w2, actions[2]);
    RunEmpty(w, actions, 3);
    Before(w2, actions, 2, w, w);
    Before(w1, actions, 1, w2, w);
    Before(start, actions, 0, w1, w);
    assert actions[0..] == actions;
  }

  /** The same for a private chat: the verdict is read, friendships or blocks change and the change
      is bumped, then the target is stored.  It looks current, and is right exactly when the new
      tables still allow it. */
  lemma VerdictChanges(start: World, s: nat, actions: seq<Action>, db: Database) returns (w: World)
    requires Enabled(start, StorePrivate(s)) && start.directOutstanding == 0 && Enabled(start, ChangeRelations(db))
    requires actions == [ChangeRelations(db), BumpDirect, StorePrivate(s)]
    ensures var target := start.sessions[s].pc.target;
            && Run(start, actions, w) && LoggedIn(w, s) && w.db == db && w.directOutstanding == 0
            && CachedTarget(w, s, target) && w.sessions[s].user == start.sessions[s].user
            && (PrivateAgrees(w, s) <==> Evaluate(db, start.sessions[s].user.value, target) == Allowed)
  {
    var w1 := Act(start, actions[0]);
    var w2 := Act(w1, actions[1]);
    w := Act(w2, actions[2]);
    RunEmpty(w, actions, 3);
    Before(w2, actions, 2, w, w);
    Before(w1, actions, 1, w2, w);
    Before(start, actions, 0, w1, w);
    assert actions[0..] == actions;
  }

  const FRIENDS := Database({"a", "b"}, {("a", "b"), ("b", "a")}, {}, map[])
  const STRANGERS := FRIENDS.(friends := {})

  /** "a" asks for a chat with "b" ... */
  const CHECKS: seq<Action> := [Login(0, "a"), EnterPrivate(0, "b"), CheckPrivate(0), CheckPrivate(0), CheckPrivate(0),
                                CheckPrivate(0)]

  /** ... and is unfriended before the generation is loaded. */
  const UNFRIENDS: seq<Action> := [ChangeRelations(STRANGERS), BumpDirect, StorePrivate(0)]

  function CheckedBy(passed: nat): World {
    World(FRIENDS, 1, 0, 1, 0, map[0 := Entering(Checking("b", 1, passed))])
  }

  /** Such a run exists: a message to "b" would skip the check that now refuses it. */
  lemma LatePrivateStale() returns (w: World)
    ensures Run(Start(FRIENDS), CHECKS + UNFRIENDS, w) && LoggedIn(w, 0) && w.directOutstanding == 0
    ensures CachedTarget(w, 0, "b") && Evaluate(w.db, "a", "b") == NotFriends && w.sessions[0].user == Some("a")
  {
    w := VerdictChanges(CheckedBy(4), 0, UNFRIENDS, STRANGERS);
    Checks();
    RunJoin(Start(FRIENDS), CHECKS, CheckedBy(4), UNFRIENDS, w);
    hide Run;
  }

  lemma Checks()
    ensures Run(Start(FRIENDS), CHECKS, CheckedBy(4))
  {
    var w1 := World(FRIENDS, 1, 0, 1, 0, map[0 := Entering(Idle)]);
    EntryBegins(w1);
    CheckPasses(0);
    CheckPasses(1);
    CheckPasses(2);
    CheckPasses(3);
    hide Act, Enabled, CheckedBy, Start, Run;
    var check := CheckPrivate(0);
    RunTwo(CheckedBy(2), check, CheckedBy(3), check, CheckedBy(4));
    RunTwo(CheckedBy(0), check, CheckedBy(1), check, CheckedBy(2));
    RunTwo(Start(FRIENDS), Login(0, "a"), w1, EnterPrivate(0, "b"), CheckedBy(0));
    RunJoin(CheckedBy(0), [check, check], CheckedBy(2), [check, check], CheckedBy(4));
    RunJoin(Start(FRIENDS), [Login(0, "a"), EnterPrivate(0, "b")], CheckedBy(0), [check, check] + [check, check],
            CheckedBy(4));
    assert CHECKS == [Login(0, "a"), EnterPrivate(0, "b")] + ([check, check] + [check, check]);
  }

  lemma RunTwo(w: World, a: Action, next: World, b: Action, last: World)
    requires Enabled(w, a) && next == Act(w, a) && Enabled(next, b) && last == Act(next, b)
    ensures Run(w, [a, b], last)
  {
    hide Act, Enabled;
    assert [a, b][1..] == [b] && [b][1..] == [];
    assert Run(next, [b], last);
  }

  lemma EntryBegins(w1: World)
    requires w1 == World(FRIENDS, 1, 0, 1, 0, map[0 := Entering(Idle)])
    ensures Enabled(Start(FRIENDS), Login(0, "a")) && Act(Start(FRIENDS), Login(0, "a")) == w1
    ensures Enabled(w1, EnterPrivate(0, "b")) && Act(w1, EnterPrivate(0, "b")) == CheckedBy(0)
  {
  }

  lemma CheckPasses(i: nat)
    requires i < 4
    ensures Enabled(CheckedBy(i), CheckPrivate(0)) && Act(CheckedBy(i), CheckPrivate(0)) == CheckedBy(i + 1)
  {
    assert Passes(FRIENDS, "a", "b", i);
  }

  lemma RunEmpty(w: World, actions: seq<Action>, i: nat)
    requires i == |actions|
    ensures Run(w, actions[i..], w)
  {
  }

  lemma Before(w: World, actions: seq<Action>, i: nat, next: World, w': World)
    requires i < |actions| && Enabled(w, actions[i]) && next == Act(w, actions[i]) && Run(next, actions[i + 1..], w')
    ensures Run(w, actions[i..], w')
  {
    hide Act, Enabled;
    assert actions[i..][1..] == actions[i + 1..];
  }

  lemma {:induction false} RunJoin(w: World, first: seq<Action>, middle: World, second: seq<Action>, last: World)
    requires Run(w, first, middle) && Run(middle, second, last)
    ensures Run(w, first + second, last)
    decreases |first|
  {
    hide Act, Enabled;
    if first == [] {
      assert first + second == second;
    } else {
      RunJoin(Act(w, first[0]), first[1..], middle, second, last);
      assert (first + second)[1..] == first[1..] + second;
    }
  }

  // ---- what the handlers find when nobody disturbs them -------------------------------------

  lemma Then(w: World, a: Action, actions: seq<Action>, w': World)
    requires Enabled(w, a) && Run(Act(w, a), actions, w')
    ensures Run(w, [a] + actions, w')
  {
    assert ([a] + actions)[1..] == actions;
  }

  lemma {:induction false} CheckOn(w: World, s: nat) returns (actions: seq<Action>, w': World)
    requires LoggedIn(w, s) && w.sessions[s].pc.Checking? && w.sessions[s].pc.passed <= 4
    requires forall i :: 0 <= i < w.sessions[s].pc.passed ==>
               Passes(w.db, w.sessions[s].user.value, w.sessions[s].pc.target, i)
    ensures Run(w, actions, w')
    ensures var x := w.sessions[s];
            w' == Put(w, s, if Evaluate(w.db, x.user.value, x.pc.target) == Allowed then EnteredPrivate(w, x)
                            else x.(pc := Idle))
    decreases 4 - w.sessions[s].pc.passed
  {
    hide Run;
    var x := w.sessions[s];
    VerdictExact(w.db, x.user.value, x.pc.target);
    var a := if x.pc.passed == 4 then StorePrivate(s) else CheckPrivate(s);
    if x.pc.passed < 4 && Passes(w.db, x.user.value, x.pc.target, x.pc.passed) {
      actions, w' := CheckOn(Act(w, a), s);
    } else {
      actions, w' := [], Act(w, a);
      RunNothing(w');
    }
    Then(w, a, actions, w');
    actions := [a] + actions;
  }

  lemma RunNothing(w: World)
    ensures Run(w, [], w)
  {
  }

  /** ENTER_PRIVATE by itself: the target is cached, and the group forgotten, exactly when a message to
      it would be allowed; otherwise the session stays as it is. */
  lemma PrivateEntry(w: World, s: nat, target: Name) returns (actions: seq<Action>, w': World)
    requires Resting(w, s) && target != ""
    ensures Run(w, actions, w') && w'.(sessions := w.sessions) == w && w'.sessions.Keys == w.sessions.Keys
    ensures Evaluate(w.db, w.sessions[s].user.value, target) == Allowed ==>
              CachedTarget(w', s, target) && PrivatePrompt(w', s) && w'.sessions[s].group == NO_GROUP
    ensures Evaluate(w.db, w.sessions[s].user.value, target) != Allowed ==> w'.sessions == w.sessions
  {
    hide Run, Evaluate, Passes;
    var a := EnterPrivate(s, target);
    actions, w' := CheckOn(Act(w, a), s);
    Then(w, a, actions, w');
    actions := [a] + actions;
  }

  /** MSG: afterwards the target is cached exactly when it was before or the message is allowed. */
  lemma MessageCaches(w: World, s: nat, target: Name)
    requires Resting(w, s) && target != ""
    ensures var w' := Act(w, SendPrivate(s, target));
            && w'.(sessions := w.sessions) == w
            && (CachedTarget(w', s, target) <==>
                  CachedTarget(w, s, target) || Evaluate(w.db, w.sessions[s].user.value, target) == Allowed)
            && (!CachedTarget(w', s, target) ==> w'.sessions == w.sessions)
  {
    hide Evaluate;
    assert w.sessions[s := w.sessions[s]] == w.sessions;
  }

  lemma ReadOn(w: World, s: nat) returns (actions: seq<Action>, w': World)
    requires LoggedIn(w, s) && w.sessions[s].pc.Asking?
    ensures Run(w, actions, w')
    ensures var x := w.sessions[s];
            var (user, name, entry, since) := (x.user.value, x.pc.name, x.pc.entry, x.pc.since);
            if user in MembersOf(w.db, name)
            then w' == Put(w, s, Stored(w, x.(pc := MembersRead(entry, name, since, w.db.groups[name].id,
                                                                w.db.groups[name].members)), user))
            else w' == Put(w, s, x.(pc := Idle))
  {
    hide Run;
    var x := w.sessions[s];
    var w2 := Put(w, s, GroupSeen(w, x));
    assert w2 == Act(w, ReadGroup(s));
    if x.pc.name !in w.db.groups {
      actions, w' := [ReadGroup(s)], w2;
      RunOne(w, ReadGroup(s));
    } else {
      actions, w' := RoleOn(w2, s);
      Then(w, ReadGroup(s), actions, w');
      actions := [ReadGroup(s)] + actions;
    }
  }

  lemma RoleOn(w: World, s: nat) returns (actions: seq<Action>, w': World)
    requires LoggedIn(w, s) && w.sessions[s].pc.GroupRead?
    requires var pc := w.sessions[s].pc; pc.name in w.db.groups && pc.id == w.db.groups[pc.name].id
    ensures Run(w, actions, w')
    ensures var x := w.sessions[s];
            var (user, name, entry, since) := (x.user.value, x.pc.name, x.pc.entry, x.pc.since);
            if user in MembersOf(w.db, name)
            then w' == Put(w, s, Stored(w, x.(pc := MembersRead(entry, name, since, x.pc.id,
                                                                w.db.groups[name].members)), user))
            else w' == Put(w, s, x.(pc := Idle))
  {
    hide Run;
    var x := w.sessions[s];
    var w3 := Put(w, s, RoleSeen(w, x, x.user.value));
    assert w3 == Act(w, ReadRole(s));
    if x.user.value !in MembersOf(w.db, x.pc.name) {
      actions, w' := [ReadRole(s)], w3;
      RunOne(w, ReadRole(s));
    } else {
      var w4 := Put(w3, s, MembersSeen(w3, w3.sessions[s]));
      assert w4 == Act(w3, ReadMembers(s));
      w' := Act(w4, StoreGroup(s));
      RunTwo(w3, ReadMembers(s), w4, StoreGroup(s), w');
      Then(w, ReadRole(s), [ReadMembers(s), StoreGroup(s)], w');
      actions := [ReadRole(s)] + [ReadMembers(s), StoreGroup(s)];
    }
  }

  /** ENTER_GROUP and GROUP_MSG by themselves: the other members are cached as recipients exactly when
      the group exists and the user is one of its members; otherwise the caches stay as they are. */
  lemma GroupEntry(w: World, s: nat, name: Name, entry: bool) returns (actions: seq<Action>, w': World)
    requires Resting(w, s) && name != "" && !CachedGroup(w, s, name)
    ensures Run(w, actions, w') && w'.(sessions := w.sessions) == w && w'.sessions.Keys == w.sessions.Keys
    ensures var user := w.sessions[s].user.value;
            if user in MembersOf(w.db, name)
            then && RecipientsAgree(w.db, user, w'.sessions[s].group) && w'.sessions[s].group.name == name
                 && GroupPrompt(w', s) && (w.db.groups[name].id != 0 ==> CachedGroup(w', s, name))
                 && w'.sessions[s].direct == if entry then NO_PRIVATE else w.sessions[s].direct
            else w'.sessions == w.sessions
  {
    hide Run;
    var a := if entry then EnterGroup(s, name) else SendGroup(s, name);
    var w1 := Put(w, s, w.sessions[s].(pc := Asking(entry, name, w.group)));
    assert w1 == Act(w, a);
    actions, w' := ReadOn(w1, s);
    Then(w, a, actions, w');
    actions := [a] + actions;
  }

  lemma RunOne(w: World, a: Action)
    requires Enabled(w, a)
    ensures Run(w, [a], Act(w, a))
  {
    Then(w, a, [], Act(w, a));
    assert [a] + [] == [a];
  }
}
