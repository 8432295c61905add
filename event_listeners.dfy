/** Taxonomy maintenance and the member-join listener: loading, rebuilding and saving the
    role taxonomy, the id -> name map derived from it, the choice of roles sent for
    categorisation, and what a join triggers. The taxonomy file, the prompt files, the
    guild list and the LLM's HTTP outcomes are parameters. */
module EventListeners {
  import opened Wrappers
  import opened Json
  import opened Guild
  import opened LlmTransport
  import opened LlmCategorize
  import opened LlmClient

  /** The categorised-roles file as `os.path.exists` and `json.load` see it: absent, failing
      to open or read, not valid JSON, or a decoded value. */
  datatype RolesFile = Missing | Unreadable | Corrupt | Stored(value: Json)

  /** The ids the taxonomy lists, gathered category by category. */
  function TaxonomyIds(t: Taxonomy): set<int>
    decreases |t|
  {
    if t == [] then {} else TaxonomyIds(t[..|t| - 1]) + Elems(CategoryIds(t[|t| - 1].1))
  }

  lemma {:induction false} TaxonomyIdsMember(t: Taxonomy, i: int)
    ensures i in TaxonomyIds(t) <==> exists k :: 0 <= k < |t| && i in CategoryIds(t[k].1)
    decreases |t|
  {
    if t != [] {
      var p := t[..|t| - 1];
      var last := t[|t| - 1].1;
      TaxonomyIdsMember(p, i);
      assert TaxonomyIds(t) == TaxonomyIds(p) + Elems(CategoryIds(last));
      if i in TaxonomyIds(p) {
        var k :| 0 <= k < |p| && i in CategoryIds(p[k].1);
        assert t[k] == p[k];
      } else if i in CategoryIds(last) {
        assert i in CategoryIds(t[|t| - 1].1);
      } else {
        forall k | 0 <= k < |t|
          ensures i !in CategoryIds(t[k].1)
        {
          if k < |p| {
            assert t[k] == p[k];
          }
        }
      }
    }
  }

  /** Gathering category by category finds exactly the managed ids. */
  lemma TaxonomyIdsAreManaged(t: Taxonomy)
    ensures TaxonomyIds(t) == ManagedIds(t)
  {
    forall i
      ensures i in TaxonomyIds(t) <==> i in ManagedIds(t)
    {
      TaxonomyIdsMember(t, i);
    }
  }

  /** The stored form of categories lists the same ids. */
  lemma {:induction false} TaxonomyIdsOfCategories(c: Categories)
    ensures TaxonomyIds(AsTaxonomy(c)) == AllIds(c)
    decreases |c|
  {
    if c != [] {
      var t := AsTaxonomy(c);
      TaxonomyIdsOfCategories(c[..|c| - 1]);
      assert t[..|t| - 1] == AsTaxonomy(c[..|c| - 1]);
    }
  }

  /** The entries of a category value; anything that is not a list has none. */
  function CategoryItems(v: Json): seq<Json> {
    if v.JArray? then v.items else []
  }

  /** `temp_map` after one entry: an integer id that is a role of `g` is mapped to its name;
      other entries and unknown ids leave it alone. */
  function NameEntry(g: Guild, item: Json, m: map<int, string>): map<int, string> {
    if item.JInt? && GetRole(g, item.i).Some? then m[item.i := GetRole(g, item.i).value.name] else m
  }

  /** `temp_map` after the entries of one category, in order. */
  function NameEntries(g: Guild, items: seq<Json>, m: map<int, string>): map<int, string>
    decreases |items|
  {
    if items == [] then m else NameEntry(g, items[|items| - 1], NameEntries(g, items[..|items| - 1], m))
  }

  /** `temp_map` after the categories of `t`, in order. */
  function NameCategories(g: Guild, t: Taxonomy, m: map<int, string>): map<int, string>
    decreases |t|
  {
    if t == [] then m else NameEntries(g, CategoryItems(t[|t| - 1].1), NameCategories(g, t[..|t| - 1], m))
  }

  /** The name of a role id of `g` (meaningful when it resolves). */
  function RoleName(g: Guild, id: int): string {
    if GetRole(g, id).Some? then GetRole(g, id).value.name else ""
  }

  lemma {:induction false} NameEntriesAt(g: Guild, items: seq<Json>, m: map<int, string>, id: int)
    ensures id in NameEntries(g, items, m) <==> id in m || (JInt(id) in items && GetRole(g, id).Some?)
    ensures id in NameEntries(g, items, m) ==>
      NameEntries(g, items, m)[id] == if JInt(id) in items && GetRole(g, id).Some? then RoleName(g, id) else m[id]
    decreases |items|
  {
    if items != [] {
      var p := items[..|items| - 1];
      NameEntriesAt(g, p, m, id);
      assert items == p + [items[|items| - 1]];
    }
  }

  lemma {:induction false} NameCategoriesAt(g: Guild, t: Taxonomy, m: map<int, string>, id: int)
    ensures id in NameCategories(g, t, m) <==> id in m || (id in TaxonomyIds(t) && GetRole(g, id).Some?)
    ensures id in NameCategories(g, t, m) ==>
      NameCategories(g, t, m)[id] == if id in TaxonomyIds(t) && GetRole(g, id).Some? then RoleName(g, id) else m[id]
    decreases |t|
  {
    if t != [] {
      var p := t[..|t| - 1];
      var v := t[|t| - 1].1;
      NameCategoriesAt(g, p, m, id);
      NameEntriesAt(g, CategoryItems(v), NameCategories(g, p, m), id);
      assert JInt(id) in CategoryItems(v) <==> id in Elems(CategoryIds(v));
    }
  }

  /** `server_roles_map` after a refresh: rebuilt from the first guild, or kept when the
      bot is in no guild. */
  function RefreshedMap(guilds: seq<Guild>, t: Taxonomy, current: map<int, string>): map<int, string> {
    if guilds == [] then current else NameCategories(guilds[0], t, map[])
  }

  /** A rebuilt map names exactly the taxonomy's ids that are roles of the guild, each by
      the name of that role. */
  lemma RolesMapNamesManagedRoles(g: Guild, t: Taxonomy, id: int)
    ensures id in NameCategories(g, t, map[]) <==> id in ManagedIds(t) && id in RoleIds(g)
    ensures id in NameCategories(g, t, map[]) ==>
      exists r :: r in g.roles && r.id == id && NameCategories(g, t, map[])[id] == r.name
  {
    NameCategoriesAt(g, t, map[], id);
    TaxonomyIdsAreManaged(t);
    GetRoleResolves(g, id);
  }

  /** Categorisation never offers the default role, managed or bot roles, integration roles
      or the booster role. */
  predicate Eligible(r: Role) {
    !(r.isDefault || r.managed || r.botManaged || r.integration || r.premiumSubscriber)
  }

  /** The eligible roles, in guild order. */
  function Eligibles(roles: seq<Role>): (c: seq<Role>)
    ensures forall r :: r in c <==> r in roles && Eligible(r)
    ensures |c| <= |roles|
  {
    if roles == [] then []
    else
      var rest := Eligibles(roles[..|roles| - 1]);
      assert roles == roles[..|roles| - 1] + [roles[|roles| - 1]];
      if Eligible(roles[|roles| - 1]) then rest + [roles[|roles| - 1]] else rest
  }

  /** The candidates strictly below the boundary role in the hierarchy, in order. */
  function RolesBelow(c: seq<Role>, boundary: Role): (b: seq<Role>)
    ensures forall r :: r in b <==> r in c && r.position < boundary.position
  {
    if c == [] then []
    else
      var rest := RolesBelow(c[..|c| - 1], boundary);
      assert c == c[..|c| - 1] + [c[|c| - 1]];
      if c[|c| - 1].position < boundary.position then rest + [c[|c| - 1]] else rest
  }

  /** `{"id": role.id, "name": role.name}` for each role. */
  function RoleDataOf(rs: seq<Role>): (d: seq<RoleData>)
    ensures |d| == |rs| && forall i :: 0 <= i < |rs| ==> d[i] == RoleData(rs[i].id, rs[i].name)
  {
    if rs == [] then [] else RoleDataOf(rs[..|rs| - 1]) + [RoleData(rs[|rs| - 1].id, rs[|rs| - 1].name)]
  }

  /** A boundary role id is configured when it is set and not 0 (Python truthiness). */
  predicate BoundaryConfigured(boundaryId: Option<int>) {
    boundaryId.Some? && boundaryId.value != 0
  }

  /** The roles sent for categorisation, or `None` when a boundary is configured but is not a
      role of the guild (categorisation is then aborted). */
  function CategorizationInput(guild: Guild, boundaryId: Option<int>): Option<seq<RoleData>> {
    var candidates := Eligibles(guild.roles);
    if !BoundaryConfigured(boundaryId) then Some(RoleDataOf(candidates))
    else
      var boundary := GetRole(guild, boundaryId.value);
      if boundary.None? then None else Some(RoleDataOf(RolesBelow(candidates, boundary.value)))
  }

  lemma RoleDataOfMember(rs: seq<Role>, d: RoleData)
    ensures d in RoleDataOf(rs) <==> exists r :: r in rs && d == RoleData(r.id, r.name)
  {
    if d in RoleDataOf(rs) {
      var i :| 0 <= i < |rs| && RoleDataOf(rs)[i] == d;
      assert rs[i] in rs;
    }
    if exists r :: r in rs && d == RoleData(r.id, r.name) {
      var r :| r in rs && d == RoleData(r.id, r.name);
      var i :| 0 <= i < |rs| && rs[i] == r;
      assert RoleDataOf(rs)[i] == d;
    }
  }

  /** A role lies within the configured boundary: strictly below the boundary role, or
      anywhere when no boundary is configured. */
  predicate WithinBoundary(guild: Guild, boundaryId: Option<int>, r: Role) {
    BoundaryConfigured(boundaryId) ==>
      GetRole(guild, boundaryId.value).Some? && r.position < GetRole(guild, boundaryId.value).value.position
  }

  /** What is sent is exactly the eligible roles of the guild within the boundary. */
  lemma CategorizationInputRoles(guild: Guild, boundaryId: Option<int>, d: RoleData)
    requires CategorizationInput(guild, boundaryId).Some?
    ensures d in CategorizationInput(guild, boundaryId).value <==>
      exists r :: r in guild.roles && Eligible(r) && WithinBoundary(guild, boundaryId, r) && d == RoleData(r.id, r.name)
  {
    var candidates := Eligibles(guild.roles);
    if BoundaryConfigured(boundaryId) {
      RoleDataOfMember(RolesBelow(candidates, GetRole(guild, boundaryId.value).value), d);
    } else {
      RoleDataOfMember(candidates, d);
    }
  }

  /** After a rebuild from the guild's own roles, the refreshed map names exactly the roles
      that were sent for categorisation. */
  lemma RebuiltMapCoversSentRoles(guild: Guild, boundaryId: Option<int>, c: Categories)
    requires CategorizationInput(guild, boundaryId).Some?
    requires AllIds(c) == RoleIdSet(CategorizationInput(guild, boundaryId).value)
    ensures NameCategories(guild, AsTaxonomy(c), map[]).Keys == RoleIdSet(CategorizationInput(guild, boundaryId).value)
  {
    var sent := CategorizationInput(guild, boundaryId).value;
    TaxonomyIdsOfCategories(c);
    forall id
      ensures id in NameCategories(guild, AsTaxonomy(c), map[]) <==> id in RoleIdSet(sent)
    {
      NameCategoriesAt(guild, AsTaxonomy(c), map[], id);
      if id in RoleIdSet(sent) {
        var d :| d in sent && d.id == id;
        CategorizationInputRoles(guild, boundaryId, d);
        GetRoleResolves(guild, id);
      }
    }
  }

  /** The candidate list built by the loop over the guild's roles. */
  method CandidateRoles(roles: seq<Role>) returns (c: seq<Role>)
    ensures c == Eligibles(roles)
  {
    c := [];
    var i := 0;
    while i < |roles|
      invariant 0 <= i <= |roles|
      invariant c == Eligibles(roles[..i])
    {
      assert roles[..i + 1][..i] == roles[..i];
      if Eligible(roles[i]) {
        c := c + [roles[i]];
      }
      i := i + 1;
    }
    assert roles[..i] == roles;
  }

  /** The verdict of `_load_categorized_roles_from_file` and the taxonomy it leaves: a decoded
      object is taken, a missing file or another JSON value leaves the taxonomy alone, and a
      file that cannot be read or decoded clears it. */
  function LoadResult(f: RolesFile, t: Taxonomy): (bool, Taxonomy) {
    match f
    case Missing => (false, t)
    case Stored(v) => if v.JObject? then (true, v.fields) else (false, t)
    case _ => (false, [])
  }

  /** The welcome embed as `discord.Embed` receives it. */
  datatype Embed = Embed(title: Json, description: Json, color: Json)

  /** What `guild.get_channel(id)` gives back: nothing, a channel of another kind, or a text channel. */
  datatype ChannelKind = NoChannel | OtherChannel | TextChannel

  function WelcomeTitle(guildName: string): string {
    "¡Bienvenido a " + guildName + "!"
  }

  const WELCOME_COLOR := 0x3498DB

  /** The embed as the listener builds it from the generator's result `data`: each
      `data.get(key, default)` raises when `data` is not a dict, and the surrounding
      `except Exception` then swallows the error, so no embed is built. */
  function WelcomeEmbedAsWritten(data: Json, guildName: string, mention: string): Option<Embed> {
    var title := PyGetOr(data, "title", JStr(WelcomeTitle(guildName)));
    var description := PyGetOr(data, "description", JStr("¡Hola " + mention + "!"));
    var color := PyGetOr(data, "color", JInt(WELCOME_COLOR));
    if title.None? || description.None? || color.None? then None
    else Some(Embed(title.value, description.value, color.value))
  }

  /** The generator returns a `str`, so whatever the text, the code as written never
      produces a welcome embed. */
  lemma WelcomeEmbedNeverBuilt(welcome: string, guildName: string, mention: string)
    ensures WelcomeEmbedAsWritten(JStr(welcome), guildName, mention).None?
  {
  }

  /** The embed evidently intended: the generated text under the default title and colour. */
  function WelcomeEmbed(welcome: string, guildName: string): (e: Embed)
    ensures e.description == JStr(welcome) && e.title == JStr(WelcomeTitle(guildName))
  {
    Embed(JStr(WelcomeTitle(guildName)), JStr(welcome), JInt(WELCOME_COLOR))
  }

  /** The listener cog with the bot-wide taxonomy state it maintains. */
  class EventListenersCog {
    /** `bot.categorized_server_roles`: category -> role ids. */
    var categorizedServerRoles: Taxonomy
    /** `bot.server_roles_map`: role id -> role name. */
    var serverRolesMap: map<int, string>
    /** The categorised-roles file on disk. */
    var rolesFile: RolesFile
    const rebuildOnStartup: bool
    /** `HIERARCHY_BOUNDARY_ROLE_ID`. */
    const boundaryId: Option<int>

    constructor(rolesFile: RolesFile, rebuildOnStartup: bool, boundaryId: Option<int>)
      ensures categorizedServerRoles == [] && serverRolesMap == map[]
      ensures this.rolesFile == rolesFile
      ensures this.rebuildOnStartup == rebuildOnStartup && this.boundaryId == boundaryId
    {
      categorizedServerRoles := [];
      serverRolesMap := map[];
      this.rolesFile := rolesFile;
      this.rebuildOnStartup := rebuildOnStartup;
      this.boundaryId := boundaryId;
    }

    /** Rebuilds the id -> name map from the taxonomy and the first guild, replacing it whole;
        with no guild the map is kept. */
    method UpdateServerRolesMap(guilds: seq<Guild>)
      modifies this
      ensures serverRolesMap == RefreshedMap(guilds, categorizedServerRoles, old(serverRolesMap))
      ensures categorizedServerRoles == old(categorizedServerRoles) && rolesFile == old(rolesFile)
    {
      if guilds == [] {
        return;
      }
      var g := guilds[0];
      var t := categorizedServerRoles;
      var temp: map<int, string> := map[];
      var k := 0;
      while k < |t|
        invariant 0 <= k <= |t|
        invariant temp == NameCategories(g, t[..k], map[])
      {
        assert t[..k + 1][..k] == t[..k];
        var items := CategoryItems(t[k].1);
        if t[k].1.JArray? {
          var j := 0;
          ghost var before := temp;
          while j < |items|
            invariant 0 <= j <= |items|
            invariant temp == NameEntries(g, items[..j], before)
          {
            assert items[..j + 1][..j] == items[..j];
            if items[j].JInt? {
              var role := GetRole(g, items[j].i);
              if role.Some? {
                assert role.value.id == items[j].i;
                temp := temp[role.value.id := role.value.name];
              }
            }
            j := j + 1;
          }
          assert items[..j] == items;
        }
        k := k + 1;
      }
      assert t[..k] == t;
      serverRolesMap := temp;
    }

    /** Loads the taxonomy file; on success the map is refreshed. */
    method LoadCategorizedRolesFromFile(guilds: seq<Guild>) returns (loaded: bool)
      modifies this
      ensures rolesFile == old(rolesFile)
      ensures loaded <==> old(rolesFile).Stored? && old(rolesFile).value.JObject?
      ensures loaded ==> (categorizedServerRoles == old(rolesFile).value.fields
                          && serverRolesMap == RefreshedMap(guilds, categorizedServerRoles, old(serverRolesMap)))
      ensures !loaded ==> serverRolesMap == old(serverRolesMap)
      ensures old(rolesFile).Missing? || (old(rolesFile).Stored? && !old(rolesFile).value.JObject?) ==>
        categorizedServerRoles == old(categorizedServerRoles)
      ensures old(rolesFile).Unreadable? || old(rolesFile).Corrupt? ==> categorizedServerRoles == []
    {
      match rolesFile
      case Missing =>
        return false;
      case Stored(v) =>
        if !v.JObject? {
          return false;
        }
        categorizedServerRoles := v.fields;
        UpdateServerRolesMap(guilds);
        return true;
      case _ =>
        categorizedServerRoles := [];
        return false;
    }

    /** Writes the taxonomy to its file and refreshes the map; when the file cannot be written
        (`writable` false) nothing changes. */
    method SaveCategorizedRolesToFile(guilds: seq<Guild>, writable: bool)
      modifies this
      ensures categorizedServerRoles == old(categorizedServerRoles)
      ensures writable ==> (rolesFile == Stored(JObject(categorizedServerRoles))
                            && serverRolesMap == RefreshedMap(guilds, categorizedServerRoles, old(serverRolesMap)))
      ensures !writable ==> rolesFile == old(rolesFile) && serverRolesMap == old(serverRolesMap)
    {
      if !writable {
        return;
      }
      rolesFile := Stored(JObject(categorizedServerRoles));
      UpdateServerRolesMap(guilds);
    }

    /** Loads the taxonomy or rebuilds it with the LLM. `prompt` is the categorisation prompt
        file's stripped text ("" when it cannot be read); `sent` is the role list given to the
        LLM and `categorized` its answer, when it was asked. */
    method PerformRoleCategorization(guild: Guild, guilds: seq<Guild>, forceRebuild: bool, prompt: string,
                                     writable: bool, client: LlmClient, first: PostOutcome, second: PostOutcome,
                                     parse: string -> Option<Json>)
      returns (loaded: bool, sent: Option<seq<RoleData>>, categorized: Categories)
      modifies this, client
      ensures var rebuild := forceRebuild || rebuildOnStartup;
        var load := if rebuild then (false, old(categorizedServerRoles))
                    else LoadResult(old(rolesFile), old(categorizedServerRoles));
        && loaded == load.0
        && (loaded ==> && categorizedServerRoles == load.1 && rolesFile == old(rolesFile) && sent.None?
                       && serverRolesMap == RefreshedMap(guilds, load.1, old(serverRolesMap))
                       && client.calls == old(client.calls))
        && (!loaded && sent.Some? ==>
              categorizedServerRoles == if categorized != [] then AsTaxonomy(categorized) else load.1)
      ensures !loaded ==>
        var input := CategorizationInput(guild, boundaryId);
        && (sent.Some? <==> input.Some? && input.value != [] && prompt != [])
        && (sent.Some? ==> sent.value == input.value)
        && (sent.None? ==> categorizedServerRoles == [] && categorized == [])
        && (writable ==> rolesFile == Stored(JObject(categorizedServerRoles))
                         && serverRolesMap == RefreshedMap(guilds, categorizedServerRoles, old(serverRolesMap)))
        && (!writable ==> rolesFile == old(rolesFile) && serverRolesMap == old(serverRolesMap))
      ensures sent.Some? && categorized != [] ==> TaxonomyIds(categorizedServerRoles) == RoleIdSet(sent.value)
    {
      var rebuild := forceRebuild || rebuildOnStartup;
      loaded, sent, categorized := false, None, [];
      if !rebuild {
        loaded := LoadCategorizedRolesFromFile(guilds);
      }
      if loaded {
        return;
      }
      var boundary: Option<Role> := None;
      if BoundaryConfigured(boundaryId) {
        boundary := GetRole(guild, boundaryId.value);
        if boundary.None? {
          if !loaded {
            categorizedServerRoles := [];
            SaveCategorizedRolesToFile(guilds, writable);
          }
          return;
        }
      }
      var candidates := CandidateRoles(guild.roles);
      var data := if boundary.Some? then RoleDataOf(RolesBelow(candidates, boundary.value)) else RoleDataOf(candidates);
      if data == [] {
        categorizedServerRoles := [];
        SaveCategorizedRolesToFile(guilds, writable);
        return;
      }
      if prompt == [] {
        if !loaded {
          categorizedServerRoles := [];
          SaveCategorizedRolesToFile(guilds, writable);
        }
        return;
      }
      sent := Some(data);
      categorized := client.CategorizeServerRoles(data, prompt, first, second, parse);
      if categorized != [] {
        categorizedServerRoles := AsTaxonomy(categorized);
        TaxonomyIdsOfCategories(categorized);
      }
      SaveCategorizedRolesToFile(guilds, writable);
    }

    /** A member joined: bots are ignored; otherwise the verification is started (when the
        service exists) and, with a welcome text channel, a client and a non-empty welcome
        prompt, a generated welcome embed is posted. */
    method OnMemberJoin(member: Member, guildName: string, serviceAvailable: bool, welcomeChannelId: int,
                        channel: ChannelKind, prompt: string, client: LlmClient?,
                        first: PostOutcome, second: PostOutcome, retryFirst: PostOutcome, retrySecond: PostOutcome,
                        parse: string -> Option<Json>, dumps: Json -> string)
      returns (startsVerification: bool, embed: Option<Embed>)
      modifies client
      ensures member.isBot ==> !startsVerification && embed.None? && (client != null ==> client.calls == old(client.calls))
      ensures !member.isBot ==> startsVerification == serviceAvailable
      ensures embed.Some? <==>
        !member.isBot && welcomeChannelId != 0 && client != null && channel.TextChannel? && prompt != []
      ensures embed.Some? ==> (embed.value.title == JStr(WelcomeTitle(guildName))
                               && embed.value.description.JStr? && embed.value.description.s != [])
    {
      startsVerification, embed := false, None;
      if member.isBot {
        return;
      }
      startsVerification := serviceAvailable;
      if welcomeChannelId != 0 && client != null && channel.TextChannel? && prompt != [] {
        var _, welcome := client.GenerateWelcomeMessage(member.name, guildName, member.id, prompt,
                                                        first, second, retryFirst, retrySecond, parse, dumps);
        embed := Some(WelcomeEmbed(welcome, guildName));
      }
    }
  }
}
