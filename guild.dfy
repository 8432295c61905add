/** The Discord entities the bot reads: roles, members, a guild and the stored
    role taxonomy (category name -> list of role ids). */
module Guild {
  import opened Wrappers
  import opened Json
  import opened Text

  /** A guild role with the flags that exclude it from categorisation. */
  datatype Role = Role(
    id: int,
    name: string,
    position: int,
    isDefault: bool,
    managed: bool,
    botManaged: bool,
    integration: bool,
    premiumSubscriber: bool)

  /** A guild member; `roles` lists the held role ids in Discord's order.
      `joinedAt` is a time in seconds, absent when Discord does not know it. */
  datatype Member = Member(id: int, name: string, isBot: bool, roles: seq<int>, joinedAt: Option<int>)

  datatype Guild = Guild(name: string, roles: seq<Role>, members: seq<Member>)

  /** The ids a member holds. */
  function Held(m: Member): set<int> {
    set r | r in m.roles
  }

  /** `guild.get_role(id)`: the role with that id, if the guild has one. */
  function GetRole(g: Guild, id: int): (r: Option<Role>)
    ensures r.Some? <==> exists i :: 0 <= i < |g.roles| && g.roles[i].id == id
    ensures r.Some? ==> r.value in g.roles && r.value.id == id
  {
    FindRole(g.roles, id)
  }

  function FindRole(roles: seq<Role>, id: int): (r: Option<Role>)
    ensures r.Some? <==> exists i :: 0 <= i < |roles| && roles[i].id == id
    ensures r.Some? ==> r.value in roles && r.value.id == id
  {
    if roles == [] then None
    else if roles[0].id == id then Some(roles[0])
    else
      var r := FindRole(roles[1..], id);
      assert forall i :: 1 <= i < |roles| ==> roles[i] == roles[1..][i - 1];
      r
  }

  /** The ids of the roles a guild defines. */
  function RoleIds(g: Guild): set<int> {
    set r | r in g.roles :: r.id
  }

  lemma GetRoleResolves(g: Guild, id: int)
    ensures GetRole(g, id).Some? <==> id in RoleIds(g)
  {
    if id in RoleIds(g) {
      var r :| r in g.roles && r.id == id;
      var i :| 0 <= i < |g.roles| && g.roles[i] == r;
    }
  }

  /** `member.mention`. */
  function Mention(id: int): string {
    "<@" + IntToString(id) + ">"
  }

  /** The stored taxonomy: category name -> JSON value (normally a list of role ids). */
  type Taxonomy = seq<(string, Json)>

  /** The integer ids listed in one category value; anything that is not a list holds none. */
  function CategoryIds(v: Json): (ids: seq<int>)
    ensures forall i :: i in ids <==> (v.JArray? && JInt(i) in v.items)
  {
    if v.JArray? then IntItems(v.items) else []
  }

  function IntItems(items: seq<Json>): (ids: seq<int>)
    ensures forall i :: i in ids <==> JInt(i) in items
  {
    if items == [] then []
    else
      var rest := IntItems(items[..|items| - 1]);
      assert items == items[..|items| - 1] + [items[|items| - 1]];
      match items[|items| - 1]
      case JInt(i) => rest + [i]
      case _ => rest
  }

  /** Every role id the taxonomy lists, in any category (the roles the bot manages). */
  function ManagedIds(t: Taxonomy): (ids: set<int>)
    ensures forall i :: i in ids <==> exists k :: 0 <= k < |t| && i in CategoryIds(t[k].1)
  {
    set k, i | 0 <= k < |t| && i in CategoryIds(t[k].1) :: i
  }
}
