/**
 * The chat platform as plain data. A guild resolves role ids to roles and user
 * ids to the roles the member currently holds; the bot's world is the set of
 * guilds it can see.
 */
module Platform {
  import opened Options

  type RoleId = nat
  type UserId = nat
  type GuildId = nat

  datatype Role = Role(id: RoleId, name: string)

  /** A member as a command receives it: a snapshot of its id and its roles. */
  datatype Member = Member(id: UserId, roles: seq<Role>)

  datatype Guild = Guild(id: GuildId, roles: map<RoleId, Role>, members: map<UserId, seq<Role>>)

  type World = map<GuildId, Guild>

  /** The ids of a role list. Roles compare by id on the platform, so this is what membership tests see. */
  function RoleIds(roles: seq<Role>): set<RoleId> {
    set r | r in roles :: r.id
  }

  predicate Holds(roles: seq<Role>, id: RoleId) {
    id in RoleIds(roles)
  }

  /** The ids of a role list, in order. */
  function Ids(roles: seq<Role>): (ids: seq<RoleId>)
    ensures |ids| == |roles|
    ensures forall i :: 0 <= i < |roles| ==> ids[i] == roles[i].id
  {
    seq(|roles|, i requires 0 <= i < |roles| => roles[i].id)
  }

  function GetRole(g: Guild, id: RoleId): Option<Role> {
    if id in g.roles then Some(g.roles[id]) else None
  }

  /** Roles are keyed by their own id, and every role a member holds is one of the guild's roles. */
  ghost predicate WellFormed(g: Guild) {
    && (forall k :: k in g.roles ==> g.roles[k].id == k)
    && (forall u, r :: u in g.members && r in g.members[u] ==> r.id in g.roles && g.roles[r.id] == r)
  }

  lemma RoleIdsAppend(a: seq<Role>, b: seq<Role>)
    ensures RoleIds(a + b) == RoleIds(a) + RoleIds(b)
  {
  }
}
