/** The two Discord collaborators: the REST client the Rust service talks to (one role list
    per guild member) and a discord.js guild member the TypeScript revision updates. */
module Discord {
  import opened Wrappers

  /** A role snowflake. `RoleId::new` refuses zero. */
  type RoleId = nat

  /** How the Discord side answers: whether the bot may change members' roles, and
      whether the member data of the fetch and of the update deserialise (`model()`). */
  datatype Behaviour = Behaviour(canManageRoles: bool, memberParses: bool, updatedParses: bool)

  /** The guild members the bot can see, keyed by (guild id, user id), with their roles. */
  class DiscordApi {
    var members: map<(nat, nat), seq<RoleId>>
    const behaviour: Behaviour

    constructor(members: map<(nat, nat), seq<RoleId>>, behaviour: Behaviour)
      ensures this.members == members && this.behaviour == behaviour
    {
      this.members := members;
      this.behaviour := behaviour;
    }

    /** `guild_member(guild, user)`: the member's roles, or an error when the user is not in
        the guild. */
    method GuildMember(guild: nat, user: nat) returns (r: Option<seq<RoleId>>)
      ensures r.Some? <==> (guild, user) in members
      ensures r.Some? ==> r.value == members[(guild, user)]
    {
      if (guild, user) in members {
        r := Some(members[(guild, user)]);
      } else {
        r := None;
      }
    }

    /** `.model()` on the fetched member: the same roles when the body deserialises, an
        error otherwise. */
    method MemberModel(roles: seq<RoleId>) returns (r: Option<seq<RoleId>>)
      ensures r.Some? <==> behaviour.memberParses
      ensures r.Some? ==> r.value == roles
    {
      if behaviour.memberParses {
        r := Some(roles);
      } else {
        r := None;
      }
    }

    /** `update_guild_member(guild, user).roles(roles)`: replaces the member's whole role list
        and answers with the updated member; fails, changing nothing, when the bot may not
        manage roles or the member is gone. */
    method UpdateGuildMember(guild: nat, user: nat, roles: seq<RoleId>) returns (r: Option<seq<RoleId>>)
      modifies this
      ensures r.Some? <==> behaviour.canManageRoles && (guild, user) in old(members)
      ensures members == if r.Some? then old(members)[(guild, user) := roles] else old(members)
      ensures r.Some? ==> r.value == roles
    {
      if behaviour.canManageRoles && (guild, user) in members {
        members := members[(guild, user) := roles];
        r := Some(roles);
      } else {
        r := None;
      }
    }

    /** `.model()` on the updated member: an error when the body does not deserialise. The
        roles have already been replaced by then. */
    method UpdatedModel(roles: seq<RoleId>) returns (r: Option<seq<RoleId>>)
      ensures r.Some? <==> behaviour.updatedParses
      ensures r.Some? ==> r.value == roles
    {
      if behaviour.updatedParses {
        r := Some(roles);
      } else {
        r := None;
      }
    }
  }

  /** A discord.js `GuildMember`: its role cache and `roles.set`. */
  class GuildMember {
    var roles: seq<RoleId>
    /** Whether Discord accepts a new role list for this member (the bot's permissions and
        role position allow it). */
    const manageable: bool

    constructor(roles: seq<RoleId>, manageable: bool)
      ensures this.roles == roles && this.manageable == manageable
    {
      this.roles := roles;
      this.manageable := manageable;
    }

    /** `await member.roles.set(roles)`: the member ends up with exactly `roles`, or the
        promise rejects and the roles stay as they were. */
    method SetRoles(roles: seq<RoleId>) returns (ok: bool)
      modifies this
      ensures ok <==> manageable
      ensures this.roles == if ok then roles else old(this.roles)
    {
      ok := manageable;
      if ok {
        this.roles := roles;
      }
    }
  }
}
