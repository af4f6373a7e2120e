/** Groups, roles and join requests: the group commands of chat_server.cpp over the tables of
    004_create_groups_and_offline_delivery.sql.  Every command runs under the group lock, for a
    user who is logged in and therefore exists. */
module Groups {
  import opened Text

  type Name = Bytes

  datatype Role = Owner | Admin | Member

  /** A row of chat_groups; the name is its unique key. */
  datatype Group = Group(id: nat, owner: Name)

  datatype Tables = Tables(
    users: set<Name>,
    groups: map<Name, Group>,
    members: map<(nat, Name), Role>,
    requests: set<(nat, Name)>,
    nextId: nat)                                // AUTO_INCREMENT

  datatype Reply = Done | NameTaken | NoSuchGroup | NotOwner | NotManager | AlreadyMember | AlreadyPending | NotMember
                 | OwnerStays | TargetNotMember | TargetIsOwner | TargetIsAdmin | TargetNotAdmin | NoRequest
                 | Self | Gone
                 | DatabaseError

  datatype Command =
    | Register(user: Name)
    | Create(actor: Name, group: Name)
    | Dissolve(actor: Name, group: Name)
    | Ask(actor: Name, group: Name)              // APPLY_GROUP
    | Leave(actor: Name, group: Name)
    | AddAdmin(actor: Name, group: Name, target: Name)
    | RemoveAdmin(actor: Name, group: Name, target: Name)
    | Approve(actor: Name, group: Name, target: Name)
    | Reject(actor: Name, group: Name, target: Name)
    | RemoveMember(actor: Name, group: Name, target: Name)
    | DeleteAccount(actor: Name)

  datatype Result = Result(t: Tables, reply: Reply)

  /** `get_group_role` */
  function RoleOf(t: Tables, group: Name, user: Name): Option<Role> {
    if group in t.groups && (t.groups[group].id, user) in t.members then Some(t.members[(t.groups[group].id, user)])
    else None
  }

  /** `is_group_manager` */
  predicate IsManager(role: Option<Role>) { role == Some(Owner) || role == Some(Admin) }

  /** DELETE of the given group rows, with its cascades. */
  function DropGroups(t: Tables, doomed: set<Name>): Tables {
    var ids := set g | g in t.groups && g in doomed :: t.groups[g].id;
    t.(groups := t.groups - doomed,
       members := map k | k in t.members && k.0 !in ids :: t.members[k],
       requests := set k | k in t.requests && k.0 !in ids)
  }

  function CreateGroup(t: Tables, actor: Name, group: Name): Result {
    if group in t.groups then Result(t, NameTaken)
    else Result(t.(groups := t.groups[group := Group(t.nextId, actor)],
                   members := t.members[(t.nextId, actor) := Owner], nextId := t.nextId + 1), Done)
  }

  function DissolveGroup(t: Tables, actor: Name, group: Name): Result {
    if RoleOf(t, group, actor) != Some(Owner) then Result(t, NotOwner)
    else if t.groups[group].owner != actor then Result(t, Gone)
    else Result(DropGroups(t, {group}), Done)
  }

  function AskGroup(t: Tables, actor: Name, group: Name): Result {
    if group !in t.groups then Result(t, NoSuchGroup)
    else if RoleOf(t, group, actor).Some? then Result(t, AlreadyMember)
    else if (t.groups[group].id, actor) in t.requests then Result(t, AlreadyPending)
    else Result(t.(requests := t.requests + {(t.groups[group].id, actor)}), Done)
  }

  function LeaveGroup(t: Tables, actor: Name, group: Name): Result {
    var role := RoleOf(t, group, actor);
    if role.None? then Result(t, NotMember)
    else if role == Some(Owner) then Result(t, OwnerStays)
    else Result(t.(members := t.members - {(t.groups[group].id, actor)}), Done)
  }

  function PromoteMember(t: Tables, actor: Name, group: Name, target: Name): Result {
    var role := RoleOf(t, group, target);
    if RoleOf(t, group, actor) != Some(Owner) then Result(t, NotOwner)
    else if role.None? then Result(t, TargetNotMember)
    else if role == Some(Owner) then Result(t, TargetIsOwner)
    else if role == Some(Admin) then Result(t, TargetIsAdmin)
    else Result(t.(members := t.members[(t.groups[group].id, target) := Admin]), Done)
  }

  function DemoteAdmin(t: Tables, actor: Name, group: Name, target: Name): Result {
    if RoleOf(t, group, actor) != Some(Owner) then Result(t, NotOwner)
    else if RoleOf(t, group, target) != Some(Admin) then Result(t, TargetNotAdmin)
    else Result(t.(members := t.members[(t.groups[group].id, target) := Member]), Done)
  }

  /** DELETE the request, INSERT the member; a duplicate key rolls both back. */
  function ApproveRequest(t: Tables, actor: Name, group: Name, target: Name): Result {
    if !IsManager(RoleOf(t, group, actor)) then Result(t, NotManager)
    else
      var row := (t.groups[group].id, target);
      if row !in t.requests then Result(t, NoRequest)
      else if row in t.members then Result(t, DatabaseError)
      else Result(t.(requests := t.requests - {row}, members := t.members[row := Member]), Done)
  }

  function RejectRequest(t: Tables, actor: Name, group: Name, target: Name): Result {
    if !IsManager(RoleOf(t, group, actor)) then Result(t, NotManager)
    else if (t.groups[group].id, target) !in t.requests then Result(t, NoRequest)
    else Result(t.(requests := t.requests - {(t.groups[group].id, target)}), Done)
  }

  function ExpelMember(t: Tables, actor: Name, group: Name, target: Name): Result {
    var mine, role := RoleOf(t, group, actor), RoleOf(t, group, target);
    if target == actor then Result(t, Self)
    else if !IsManager(mine) then Result(t, NotManager)
    else if role.None? then Result(t, TargetNotMember)
    else if role == Some(Owner) then Result(t, TargetIsOwner)
    else if mine == Some(Admin) && role == Some(Admin) then Result(t, TargetIsAdmin)
    else Result(t.(members := t.members - {(t.groups[group].id, target)}), Done)
  }

  /** DELETE of a user row, with its cascades to memberships and requests. */
  function ForgetUser(t: Tables, user: Name): Tables {
    t.(users := t.users - {user},
       members := map k | k in t.members && k.1 != user :: t.members[k],
       requests := set k | k in t.requests && k.1 != user)
  }

  /** ON DELETE CASCADE: the user's groups go with the user. */
  function DeleteUser(t: Tables, user: Name): Result {
    var owned := set g | g in t.groups && t.groups[g].owner == user;
    Result(ForgetUser(DropGroups(t, owned), user), Done)
  }

  function Execute(t: Tables, c: Command): Result {
    match c
    case Register(user) => Result(t.(users := t.users + {user}), Done)
    case Create(actor, group) => CreateGroup(t, actor, group)
    case Dissolve(actor, group) => DissolveGroup(t, actor, group)
    case Ask(actor, group) => AskGroup(t, actor, group)
    case Leave(actor, group) => LeaveGroup(t, actor, group)
    case AddAdmin(actor, group, target) => PromoteMember(t, actor, group, target)
    case RemoveAdmin(actor, group, target) => DemoteAdmin(t, actor, group, target)
    case Approve(actor, group, target) => ApproveRequest(t, actor, group, target)
    case Reject(actor, group, target) => RejectRequest(t, actor, group, target)
    case RemoveMember(actor, group, target) => ExpelMember(t, actor, group, target)
    case DeleteAccount(actor) => DeleteUser(t, actor)
  }

  // ---- what every command keeps -------------------------------------------------------------

  predicate HasGroup(groups: map<Name, Group>, id: nat) { exists g :: g in groups && groups[g].id == id }

  predicate IdsOk(t: Tables) {
    && (forall g :: g in t.groups ==> t.groups[g].id < t.nextId)
    && (forall g, h :: g in t.groups && h in t.groups && t.groups[g].id == t.groups[h].id ==> g == h)
  }

  predicate MembersOk(t: Tables) { forall k :: k in t.members ==> k.1 in t.users && HasGroup(t.groups, k.0) }

  /** Exactly one member of a group has the owner's role: the recorded owner. */
  ghost predicate OwnersOk(t: Tables) {
    forall g :: g in t.groups ==>
      && (t.groups[g].id, t.groups[g].owner) in t.members
      && forall u :: (t.groups[g].id, u) in t.members ==>
         (t.members[(t.groups[g].id, u)] == Owner <==> u == t.groups[g].owner)
  }

  /** Who asks to join is not a member. */
  predicate RequestsOk(t: Tables) {
    forall k :: k in t.requests ==> k.1 in t.users && HasGroup(t.groups, k.0) && k !in t.members
  }

  ghost predicate Inv(t: Tables) { IdsOk(t) && MembersOk(t) && OwnersOk(t) && RequestsOk(t) }

  lemma CreateInv(t: Tables, actor: Name, group: Name)
    requires Inv(t) && actor in t.users
    ensures Inv(CreateGroup(t, actor, group).t)
  {
    if group !in t.groups {
      CreateIds(t, actor, group);
      CreateOwners(t, actor, group);
      hide IdsOk, MembersOk, OwnersOk, RequestsOk;
    }
  }

  lemma CreateIds(t: Tables, actor: Name, group: Name)
    requires Inv(t) && actor in t.users && group !in t.groups
    ensures var t' := CreateGroup(t, actor, group).t; IdsOk(t') && MembersOk(t') && RequestsOk(t')
  {
    hide OwnersOk;
    var t' := CreateGroup(t, actor, group).t;
    FreshId(t);
    GroupKept(t.groups, t'.groups);
    GroupExists(t', group);
    hide HasGroup;
  }

  lemma CreateOwners(t: Tables, actor: Name, group: Name)
    requires Inv(t) && group !in t.groups
    ensures OwnersOk(CreateGroup(t, actor, group).t)
  {
    FreshId(t);
    hide HasGroup, MembersOk, RequestsOk;
    var t' := CreateGroup(t, actor, group).t;
    forall g | g in t'.groups
      ensures (t'.groups[g].id, t'.groups[g].owner) in t'.members
      ensures forall u :: (t'.groups[g].id, u) in t'.members ==>
                (t'.members[(t'.groups[g].id, u)] == Owner <==> u == t'.groups[g].owner)
    {
      if g != group {
        assert t'.groups[g] == t.groups[g] && t.groups[g].id < t.nextId;
      }
    }
  }

  lemma FreshId(t: Tables)
    requires IdsOk(t) && MembersOk(t) && RequestsOk(t)
    ensures forall k :: k in t.members || k in t.requests ==> k.0 < t.nextId
  {
  }

  lemma GroupKept(groups: map<Name, Group>, groups': map<Name, Group>)
    requires forall g :: g in groups ==> g in groups' && groups'[g].id == groups[g].id
    ensures forall id :: HasGroup(groups, id) ==> HasGroup(groups', id)
  {
    forall id | HasGroup(groups, id) ensures HasGroup(groups', id) {
      var g :| g in groups && groups[g].id == id;
      assert g in groups' && groups'[g].id == id;
    }
  }

  /** The groups that stay have none of the dropped ids. */
  lemma DropIds(t: Tables, doomed: set<Name>)
    requires IdsOk(t)
    ensures var ids := set g | g in t.groups && g in doomed :: t.groups[g].id;
            && (forall g :: g in t.groups && g !in doomed ==> t.groups[g].id !in ids)
            && (forall id :: HasGroup(t.groups, id) && id !in ids ==> HasGroup((t.groups - doomed), id))
  {
    var ids := set g | g in t.groups && g in doomed :: t.groups[g].id;
    forall id | HasGroup(t.groups, id) && id !in ids ensures HasGroup(t.groups - doomed, id) {
      var g :| g in t.groups && t.groups[g].id == id;
      assert g in t.groups - doomed;
    }
  }

  lemma DropInv(t: Tables, doomed: set<Name>)
    requires Inv(t)
    ensures Inv(DropGroups(t, doomed))
  {
    DropIds(t, doomed);
    hide HasGroup;
    var t' := DropGroups(t, doomed);
    assert IdsOk(t') && MembersOk(t') && RequestsOk(t');
    DropOwners(t, doomed);
    hide IdsOk, MembersOk, OwnersOk, RequestsOk;
  }

  lemma DropOwners(t: Tables, doomed: set<Name>)
    requires Inv(t)
    ensures OwnersOk(DropGroups(t, doomed))
  {
    DropIds(t, doomed);
    hide HasGroup, MembersOk, RequestsOk, IdsOk;
  }

  lemma DropKeeps(t: Tables, doomed: set<Name>, group: Name, user: Name)
    requires Inv(t) && group in t.groups && group !in doomed
    ensures RoleOf(DropGroups(t, doomed), group, user) == RoleOf(t, group, user)
  {
    DropIds(t, doomed);
  }

  lemma DeleteInv(t: Tables, user: Name)
    requires Inv(t)
    ensures Inv(DeleteUser(t, user).t)
  {
    var owned := set g | g in t.groups && t.groups[g].owner == user;
    DropInv(t, owned);
    assert forall g :: g in DropGroups(t, owned).groups ==> DropGroups(t, owned).groups[g].owner != user;
    hide Inv, ForgetUser;
    ForgetInv(DropGroups(t, owned), user);
  }

  lemma ForgetInv(t: Tables, user: Name)
    requires Inv(t) && forall g :: g in t.groups ==> t.groups[g].owner != user
    ensures Inv(ForgetUser(t, user))
  {
    hide HasGroup;
  }

  /** A change to the rows of existing groups, none of them an owner's. */
  lemma RowsInv(t: Tables, t': Tables)
    requires Inv(t) && t'.users == t.users && t'.groups == t.groups && t'.nextId == t.nextId
    requires forall k :: k in t'.members ==> k.1 in t.users && HasGroup(t.groups, k.0)
    requires forall k :: k in t.members && t.members[k] == Owner ==> k in t'.members && t'.members[k] == Owner
    requires forall k :: k in t'.members && t'.members[k] == Owner ==> k in t.members && t.members[k] == Owner
    requires forall k :: k in t'.requests ==> k.1 in t.users && HasGroup(t.groups, k.0) && k !in t'.members
    ensures Inv(t')
  {
    hide HasGroup;
  }

  lemma AskInv(t: Tables, actor: Name, group: Name)
    requires Inv(t) && actor in t.users
    ensures Inv(AskGroup(t, actor, group).t)
  {
    GroupExists(t, group);
    hide HasGroup;
    RowsInv(t, AskGroup(t, actor, group).t);
  }

  lemma LeaveInv(t: Tables, actor: Name, group: Name)
    requires Inv(t)
    ensures Inv(LeaveGroup(t, actor, group).t)
  {
    hide HasGroup;
    RowsInv(t, LeaveGroup(t, actor, group).t);
  }

  lemma PromoteInv(t: Tables, actor: Name, group: Name, target: Name)
    requires Inv(t)
    ensures Inv(PromoteMember(t, actor, group, target).t)
  {
    hide HasGroup;
    RowsInv(t, PromoteMember(t, actor, group, target).t);
  }

  lemma DemoteInv(t: Tables, actor: Name, group: Name, target: Name)
    requires Inv(t)
    ensures Inv(DemoteAdmin(t, actor, group, target).t)
  {
    hide HasGroup;
    RowsInv(t, DemoteAdmin(t, actor, group, target).t);
  }

  /** The insert inside approve never meets a duplicate key. */
  lemma ApproveInv(t: Tables, actor: Name, group: Name, target: Name)
    requires Inv(t)
    ensures Inv(ApproveRequest(t, actor, group, target).t)
            && ApproveRequest(t, actor, group, target).reply != DatabaseError
  {
    hide HasGroup;
    RowsInv(t, ApproveRequest(t, actor, group, target).t);
  }

  lemma RejectInv(t: Tables, actor: Name, group: Name, target: Name)
    requires Inv(t)
    ensures Inv(RejectRequest(t, actor, group, target).t)
  {
    hide HasGroup;
    RowsInv(t, RejectRequest(t, actor, group, target).t);
  }

  lemma ExpelInv(t: Tables, actor: Name, group: Name, target: Name)
    requires Inv(t)
    ensures Inv(ExpelMember(t, actor, group, target).t)
  {
    hide HasGroup;
    RowsInv(t, ExpelMember(t, actor, group, target).t);
  }

  lemma RegisterInv(t: Tables, user: Name)
    requires Inv(t)
    ensures Inv(t.(users := t.users + {user}))
  {
    hide HasGroup;
  }

  lemma ExecuteInv(t: Tables, c: Command)
    requires Inv(t) && (!c.Register? ==> c.actor in t.users)
    ensures Inv(Execute(t, c).t) && Execute(t, c).reply != DatabaseError
  {
    hide Inv, DropGroups, ForgetUser;
    match c {
      case Register(user) => RegisterInv(t, user);
      case Create(actor, group) => CreateInv(t, actor, group);
      case Dissolve(actor, group) => DropInv(t, {group});
      case Ask(actor, group) => AskInv(t, actor, group);
      case Leave(actor, group) => LeaveInv(t, actor, group);
      case AddAdmin(actor, group, target) => PromoteInv(t, actor, group, target);
      case RemoveAdmin(actor, group, target) => DemoteInv(t, actor, group, target);
      case Approve(actor, group, target) => ApproveInv(t, actor, group, target);
      case Reject(actor, group, target) => RejectInv(t, actor, group, target);
      case RemoveMember(actor, group, target) => ExpelInv(t, actor, group, target);
      case DeleteAccount(actor) => DeleteInv(t, actor);
    }
  }

  lemma GroupExists(t: Tables, group: Name)
    ensures group in t.groups ==> HasGroup(t.groups, t.groups[group].id)
  {
  }

  function ExecuteAll(t: Tables, commands: seq<Command>): Tables
    decreases |commands|
  {
    if commands == [] then t else ExecuteAll(Execute(t, commands[0]).t, commands[1..])
  }

  /** Each command comes from a user who exists when it is handled. */
  predicate Admissible(t: Tables, commands: seq<Command>)
    decreases |commands|
  {
    commands == [] ||
      ((!commands[0].Register? ==> commands[0].actor in t.users)
        && Admissible(Execute(t, commands[0]).t, commands[1..]))
  }

  lemma {:induction false} ExecuteAllInv(t: Tables, commands: seq<Command>)
    requires Inv(t) && Admissible(t, commands)
    ensures Inv(ExecuteAll(t, commands))
    decreases |commands|
  {
    hide Inv, Execute;
    if commands == [] {
    } else {
      ExecuteInv(t, commands[0]);
      ExecuteAllInv(Execute(t, commands[0]).t, commands[1..]);
    }
  }

  const EMPTY: Tables := Tables({}, map[], map[], {}, 1)

  /** Over every run of commands, account deletions included: each group has exactly one member with
      the owner's role, its recorded owner, and nobody is a member and asks to join at once. */
  lemma GroupsStayInOrder(commands: seq<Command>, group: Name)
    requires Admissible(EMPTY, commands)
    ensures var t := ExecuteAll(EMPTY, commands);
            group in t.groups ==>
              && RoleOf(t, group, t.groups[group].owner) == Some(Owner)
              && (forall u :: RoleOf(t, group, u) == Some(Owner) ==> u == t.groups[group].owner)
              && (forall u :: (t.groups[group].id, u) in t.requests ==> RoleOf(t, group, u).None?)
              && t.groups[group].owner in t.users
  {
    ExecuteAllInv(EMPTY, commands);
  }

  // ---- who may do what ----------------------------------------------------------------------

  /** Only the owner changes the role of someone who stays a member. */
  lemma OnlyOwnerChangesRoles(t: Tables, c: Command, group: Name, user: Name)
    requires Inv(t) && (!c.Register? ==> c.actor in t.users)
    requires var t' := Execute(t, c).t;
             && group in t.groups && group in t'.groups && t'.groups[group].id == t.groups[group].id
             && RoleOf(t, group, user).Some? && RoleOf(t', group, user).Some?
             && RoleOf(t', group, user) != RoleOf(t, group, user)
    ensures (c.AddAdmin? || c.RemoveAdmin?) && c.group == group && c.target == user && c.actor == t.groups[group].owner
  {
    if c.AddAdmin? || c.RemoveAdmin? {
      assert c.group in t.groups ==> t.groups[c.group].id == t.groups[group].id ==> c.group == group;
    } else {
      RolesKept(t, c, group, user);
    }
  }

  /** No other command changes a role. */
  lemma RolesKept(t: Tables, c: Command, group: Name, user: Name)
    requires Inv(t) && (!c.Register? ==> c.actor in t.users) && !c.AddAdmin? && !c.RemoveAdmin?
    requires var t' := Execute(t, c).t;
             && group in t.groups && group in t'.groups && t'.groups[group].id == t.groups[group].id
             && RoleOf(t, group, user).Some? && RoleOf(t', group, user).Some?
    ensures RoleOf(Execute(t, c).t, group, user) == RoleOf(t, group, user)
  {
    assert HasGroup(t.groups, t.groups[group].id);
    if c.Create? {
      assert t.groups[group].id < t.nextId;
    }
  }

  /** Whoever loses the membership of a group that goes on has left, was deleted, or was expelled by
      the owner, or by an administrator while being an ordinary member. */
  lemma OnlyManagersRemove(t: Tables, c: Command, group: Name, user: Name)
    requires Inv(t) && (!c.Register? ==> c.actor in t.users)
    requires var t' := Execute(t, c).t;
             && group in t.groups && group in t'.groups && t'.groups[group].id == t.groups[group].id
             && RoleOf(t, group, user).Some? && RoleOf(t', group, user).None?
    ensures RoleOf(t, group, user) != Some(Owner)
    ensures c.Leave? || c.DeleteAccount? || c.RemoveMember?
    ensures c.Leave? || c.DeleteAccount? ==> c.actor == user
    ensures c.RemoveMember? ==>
              && c.group == group && c.target == user
              && (RoleOf(t, group, c.actor) == Some(Owner)
                  || (RoleOf(t, group, c.actor) == Some(Admin) && RoleOf(t, group, user) == Some(Member)))
  {
    if c.Dissolve? || c.DeleteAccount? {
      var doomed := if c.Dissolve? then {c.group} else set g | g in t.groups && t.groups[g].owner == c.actor;
      DropKeeps(t, doomed, group, user);
    } else if c.Leave? || c.RemoveMember? {
      assert c.group in t.groups && t.groups[c.group].id == t.groups[group].id ==> c.group == group;
    }
  }

  /** Asking and being approved makes an ordinary member; asking and being rejected changes nothing. */
  lemma AskAndAnswer(t: Tables, asker: Name, group: Name, manager: Name)
    requires Inv(t) && asker in t.users && AskGroup(t, asker, group).reply == Done
             && IsManager(RoleOf(t, group, manager))
    ensures var asked := AskGroup(t, asker, group).t;
            && ApproveRequest(asked, manager, group, asker)
               == Result(t.(members := t.members[(t.groups[group].id, asker) := Member]), Done)
            && RejectRequest(asked, manager, group, asker) == Result(t, Done)
  {
    var row := (t.groups[group].id, asker);
    assert t.requests + {row} - {row} == t.requests;
  }

  // ---- what each command does ---------------------------------------------------------------

  /** `user` asks to join `group`. */
  predicate Asks(t: Tables, group: Name, user: Name) {
    group in t.groups && (t.groups[group].id, user) in t.requests
  }

  /** Nothing changes but what concerns `user` in `group`. */
  ghost predicate OnlyFor(t: Tables, t': Tables, group: Name, user: Name) {
    && t'.users == t.users && t'.groups == t.groups
    && forall g, u :: g != group || u != user ==>
         RoleOf(t', g, u) == RoleOf(t, g, u) && (Asks(t', g, u) <==> Asks(t, g, u))
  }

  /** Nothing changes but what concerns `group`. */
  ghost predicate OnlyIn(t: Tables, t': Tables, group: Name) {
    && t'.users == t.users
    && (forall g :: g != group ==> (g in t'.groups <==> g in t.groups))
    && (forall g :: g != group && g in t.groups ==> t'.groups[g] == t.groups[g])
    && forall g, u :: g != group ==> RoleOf(t', g, u) == RoleOf(t, g, u) && (Asks(t', g, u) <==> Asks(t, g, u))
  }

  lemma Roles(t: Tables, group: Name, user: Name)
    ensures var role := RoleOf(t, group, user);
            role.None? || role == Some(Owner) || role == Some(Admin) || role == Some(Member)
  {
    var role := RoleOf(t, group, user);
    if role.Some? {
      match role.value {
        case Owner =>
        case Admin =>
        case Member =>
      }
    }
  }

  lemma RoleSet(t: Tables, group: Name, user: Name, role: Role)
    requires IdsOk(t) && group in t.groups
    ensures var t' := t.(members := t.members[(t.groups[group].id, user) := role]);
            OnlyFor(t, t', group, user) && RoleOf(t', group, user) == Some(role)
  {
    var id, t' := t.groups[group].id, t.(members := t.members[(t.groups[group].id, user) := role]);
    forall g, u | g != group || u != user ensures RoleOf(t', g, u) == RoleOf(t, g, u) {
      if g in t.groups {
        assert (t.groups[g].id, u) != (id, user);
      }
    }
  }

  /** CREATE_GROUP makes the actor the owner, and the only member, of a group whose name was free. */
  lemma CreateEffect(t: Tables, actor: Name, group: Name)
    requires Inv(t)
    ensures var r := CreateGroup(t, actor, group);
            && (r.reply == Done <==> group !in t.groups) && (r.reply != Done ==> r.t == t)
            && (r.reply == Done ==>
                  && OnlyIn(t, r.t, group) && group in r.t.groups && r.t.groups[group].owner == actor
                  && (forall u :: RoleOf(r.t, group, u) == if u == actor then Some(Owner) else None)
                  && (forall u :: !Asks(r.t, group, u)))
  {
    FreshId(t);
    hide HasGroup, OwnersOk, MembersOk, RequestsOk;
  }

  /** DISSOLVE_GROUP is done for the owner, and for nobody else; it removes exactly that group. */
  lemma DissolveEffect(t: Tables, actor: Name, group: Name)
    requires Inv(t)
    ensures var r := DissolveGroup(t, actor, group);
            && (r.reply == Done <==> RoleOf(t, group, actor) == Some(Owner)) && (r.reply != Done ==> r.t == t)
            && (r.reply == Done ==>
                  && OnlyIn(t, r.t, group) && group !in r.t.groups
                  && (forall k :: k in r.t.members || k in r.t.requests ==> k.0 != t.groups[group].id))
  {
    hide HasGroup, MembersOk, RequestsOk;
    DropIds(t, {group});
  }

  /** APPLY_GROUP is done for whoever is no member and has not asked. */
  lemma AskEffect(t: Tables, actor: Name, group: Name)
    requires Inv(t)
    ensures var r := AskGroup(t, actor, group);
            && (r.reply == Done <==> group in t.groups && RoleOf(t, group, actor).None? && !Asks(t, group, actor))
            && (r.reply != Done ==> r.t == t)
            && (r.reply == Done ==>
                  OnlyFor(t, r.t, group, actor) && RoleOf(r.t, group, actor).None? && Asks(r.t, group, actor))
  {
    hide HasGroup, OwnersOk, MembersOk, RequestsOk;
  }

  /** LEAVE_GROUP is done for every member but the owner. */
  lemma LeaveEffect(t: Tables, actor: Name, group: Name)
    requires Inv(t)
    ensures var r, role := LeaveGroup(t, actor, group), RoleOf(t, group, actor);
            && (r.reply == Done <==> role == Some(Admin) || role == Some(Member)) && (r.reply != Done ==> r.t == t)
            && (r.reply == OwnerStays <==> role == Some(Owner)) && (r.reply == NotMember <==> role.None?)
            && (r.reply == Done ==>
                  OnlyFor(t, r.t, group, actor) && RoleOf(r.t, group, actor).None? && !Asks(r.t, group, actor))
  {
    hide HasGroup, OwnersOk, MembersOk;
    Roles(t, group, actor);
  }

  /** ADD_GROUP_ADMIN is done by the owner for an ordinary member. */
  lemma PromoteEffect(t: Tables, actor: Name, group: Name, target: Name)
    requires Inv(t)
    ensures var r := PromoteMember(t, actor, group, target);
            var mine, role := RoleOf(t, group, actor), RoleOf(t, group, target);
            && (r.reply == Done <==> mine == Some(Owner) && role == Some(Member)) && (r.reply != Done ==> r.t == t)
            && (r.reply == NotOwner <==> mine != Some(Owner))
            && (r.reply == Done ==> OnlyFor(t, r.t, group, target) && RoleOf(r.t, group, target) == Some(Admin))
  {
    hide HasGroup, OwnersOk, MembersOk, RequestsOk, OnlyFor;
    Roles(t, group, target);
    if group in t.groups {
      RoleSet(t, group, target, Admin);
    }
  }

  /** REMOVE_GROUP_ADMIN is done by the owner for an administrator. */
  lemma DemoteEffect(t: Tables, actor: Name, group: Name, target: Name)
    requires Inv(t)
    ensures var r := DemoteAdmin(t, actor, group, target);
            var mine, role := RoleOf(t, group, actor), RoleOf(t, group, target);
            && (r.reply == Done <==> mine == Some(Owner) && role == Some(Admin)) && (r.reply != Done ==> r.t == t)
            && (r.reply == NotOwner <==> mine != Some(Owner))
            && (r.reply == Done ==> OnlyFor(t, r.t, group, target) && RoleOf(r.t, group, target) == Some(Member))
  {
    hide HasGroup, OwnersOk, MembersOk, RequestsOk, OnlyFor;
    if group in t.groups {
      RoleSet(t, group, target, Member);
    }
  }

  /** A manager answers a request: the asker is an ordinary member afterwards, or nothing any more. */
  lemma AnswerEffect(t: Tables, actor: Name, group: Name, target: Name)
    requires Inv(t)
    ensures var yes, no := ApproveRequest(t, actor, group, target), RejectRequest(t, actor, group, target);
            var granted := IsManager(RoleOf(t, group, actor)) && Asks(t, group, target);
            && (yes.reply == Done <==> granted) && (no.reply == Done <==> granted)
            && (!granted ==> yes.t == t && no.t == t)
            && (yes.reply == NotManager <==> !IsManager(RoleOf(t, group, actor))) && no.reply == yes.reply
            && (granted ==>
                  && OnlyFor(t, yes.t, group, target) && OnlyFor(t, no.t, group, target)
                  && RoleOf(yes.t, group, target) == Some(Member) && RoleOf(no.t, group, target).None?
                  && !Asks(yes.t, group, target) && !Asks(no.t, group, target))
  {
    hide HasGroup, OwnersOk, MembersOk;
  }

  /** REMOVE_GROUP_MEMBER is done by the owner for everybody else, and by an administrator for
      ordinary members. */
  lemma ExpelEffect(t: Tables, actor: Name, group: Name, target: Name)
    requires Inv(t)
    ensures var r := ExpelMember(t, actor, group, target);
            var mine, role := RoleOf(t, group, actor), RoleOf(t, group, target);
            && (r.reply == Done <==>
                  || (mine == Some(Owner) && target != actor && role.Some?)
                  || (mine == Some(Admin) && role == Some(Member)))
            && (r.reply != Done ==> r.t == t)
            && (r.reply == Self <==> target == actor)
            && (r.reply == NotManager <==> target != actor && !IsManager(mine))
            && (r.reply == TargetNotMember <==> target != actor && IsManager(mine) && role.None?)
            && (r.reply == Done ==>
                  OnlyFor(t, r.t, group, target) && RoleOf(r.t, group, target).None? && !Asks(r.t, group, target))
  {
    hide HasGroup, MembersOk;
  }

  /** DELETE_ACCOUNT takes the user's groups and memberships along, and nothing else. */
  lemma DeleteEffect(t: Tables, user: Name)
    requires Inv(t)
    ensures var t' := DeleteUser(t, user).t;
            && t'.users == t.users - {user}
            && (forall g :: g in t'.groups <==> g in t.groups && t.groups[g].owner != user)
            && (forall g :: g in t'.groups ==> t'.groups[g] == t.groups[g])
            && (forall g :: RoleOf(t', g, user).None? && !Asks(t', g, user))
            && (forall g, u :: g in t'.groups && u != user ==>
                  RoleOf(t', g, u) == RoleOf(t, g, u) && (Asks(t', g, u) <==> Asks(t, g, u)))
  {
    DropIds(t, set g | g in t.groups && t.groups[g].owner == user);
    hide HasGroup, OwnersOk, MembersOk, RequestsOk;
  }

  /** What a refusal says is so. */
  predicate ReasonTrue(t: Tables, c: Command, reply: Reply)
    requires !c.Register? && !c.DeleteAccount?
  {
    var mine := RoleOf(t, c.group, c.actor);
    var user := if c.Create? || c.Dissolve? || c.Ask? || c.Leave? then c.actor else c.target;
    var role := RoleOf(t, c.group, user);
    match reply
    case Done => true
    case NameTaken => c.group in t.groups
    case NoSuchGroup => c.group !in t.groups
    case NotOwner => mine != Some(Owner)
    case NotManager => !IsManager(mine)
    case AlreadyMember => mine.Some?
    case AlreadyPending => Asks(t, c.group, c.actor)
    case NotMember => mine.None?
    case OwnerStays => mine == Some(Owner)
    case TargetNotMember => role.None?
    case TargetIsOwner => role == Some(Owner)
    case TargetIsAdmin => role == Some(Admin)
    case TargetNotAdmin => role != Some(Admin)
    case NoRequest => !Asks(t, c.group, user)
    case Self => user == c.actor
    case Gone => false
    case DatabaseError => false
  }

  /** Every refusal gives a true reason, and changes nothing. */
  lemma RefusalsTrue(t: Tables, c: Command)
    requires Inv(t) && !c.Register? && !c.DeleteAccount?
    ensures ReasonTrue(t, c, Execute(t, c).reply) && (Execute(t, c).reply != Done ==> Execute(t, c).t == t)
  {
    hide HasGroup, DropGroups, IdsOk, MembersOk, RequestsOk;
    match c {
      case Approve(actor, group, target) => ApproveInv(t, actor, group, target);
      case _ =>
    }
  }
}
