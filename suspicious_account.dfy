/** The suspicious-account service: marking a member whose messages the LLM flags, and the
    periodic cleanup that takes the suspicious role away once the account is old enough. */
module SuspiciousAccount {
  import opened Wrappers
  import opened Text
  import opened Json
  import opened Guild
  import opened LlmTransport
  import opened LlmResponses
  import opened LlmClient
  import opened EventListeners

  /** A role or channel id setting is configured when it is set and not 0. */
  predicate Configured(id: Option<int>) {
    id.Some? && id.value != 0
  }

  const AUDIT_REASON_MAX := 200
  const NOTICE_REASON_MAX := 500
  const AUDIT_PREFIX := "Marked suspicious by LLM: "
  const NO_REASON := "No reason provided"

  /** `bool(response.get('is_suspicious'))`. */
  predicate IsSuspicious(response: Json)
    requires response.JObject?
  {
    Truthy(Get(response.fields, "is_suspicious").GetOr(JNull))
  }

  /** `response.get('reason', '')`. */
  function Reason(response: Json): Json
    requires response.JObject?
  {
    Get(response.fields, "reason").GetOr(JStr(""))
  }

  /** `reason[:n]`; `None` when the reason is not a string and slicing it raises. */
  function ReasonPrefix(reason: Json, n: nat): (r: Option<string>)
    ensures r.Some? <==> reason.JStr?
    ensures r.Some? ==> |r.value| <= n && |r.value| <= |reason.s| && r.value == reason.s[..|r.value|]
    ensures r.Some? && |reason.s| <= n ==> r.value == reason.s
  {
    if reason.JStr? then Some(SliceTo(reason.s, n)) else None
  }

  /** The audit-log reason of the role addition, when the suspicious role is added: the
      member is flagged, the role id is configured, the role exists and is not yet held, and
      the reason can be sliced. */
  function RoleAddition(response: Json, member: Member, guild: Guild, roleId: Option<int>): (audit: Option<string>)
    requires response.JObject?
    ensures audit.Some? <==>
      IsSuspicious(response) && Configured(roleId) && GetRole(guild, roleId.value).Some?
      && roleId.value !in member.roles && Reason(response).JStr?
    ensures audit.Some? ==>
      var r := ReasonPrefix(Reason(response), AUDIT_REASON_MAX).value;
      audit.value == AUDIT_PREFIX + r && |r| <= AUDIT_REASON_MAX
  {
    if !(IsSuspicious(response) && Configured(roleId)) then None
    else if GetRole(guild, roleId.value).None? || roleId.value in member.roles then None
    else
      match ReasonPrefix(Reason(response), AUDIT_REASON_MAX)
      case None => None
      case Some(r) => Some(AUDIT_PREFIX + r)
  }

  /** The admin notification about a flagged member. */
  datatype Notice = Notice(memberMention: string, memberId: string, reason: string, joinedAt: Option<int>)

  /** `reason[:500] or "No reason provided"`. */
  function NoticeReason(reason: Json): (r: Option<string>)
    ensures r.Some? <==> reason.JStr?
    ensures r.Some? ==> r.value != [] && |r.value| <= NOTICE_REASON_MAX
  {
    match ReasonPrefix(reason, NOTICE_REASON_MAX)
    case None => None
    case Some(p) => if p == [] then Some(NO_REASON) else Some(p)
  }

  /** The notification, sent only for a flagged member with the role id configured (whether
      or not the role exists), a configured notification channel that is a text channel and
      a reason that can be sliced. */
  function Notification(response: Json, member: Member, roleId: Option<int>, channelId: Option<int>,
                        channel: ChannelKind): (n: Option<Notice>)
    requires response.JObject?
    ensures n.Some? <==>
      IsSuspicious(response) && Configured(roleId) && Configured(channelId) && channel.TextChannel?
      && Reason(response).JStr?
    ensures n.Some? ==> (n.value.memberId == IntToString(member.id) && n.value.reason != []
      && |n.value.reason| <= NOTICE_REASON_MAX)
  {
    if !(IsSuspicious(response) && Configured(roleId)) then None
    else if !Configured(channelId) || !channel.TextChannel? then None
    else
      match NoticeReason(Reason(response))
      case None => None
      case Some(r) => Some(Notice(Mention(member.id), IntToString(member.id), r, member.joinedAt))
  }

  /** A member the LLM does not flag is left alone. */
  lemma UnflaggedMemberUntouched(response: Json, member: Member, guild: Guild, roleId: Option<int>,
                                 channelId: Option<int>, channel: ChannelKind)
    requires response.JObject? && !IsSuspicious(response)
    ensures RoleAddition(response, member, guild, roleId).None?
    ensures Notification(response, member, roleId, channelId, channel).None?
  {
  }

  /** The role a flagged member receives is held afterwards, and a second marking adds it no
      more: marking is idempotent on the member's roles. */
  lemma MarkingIdempotent(response: Json, member: Member, guild: Guild, roleId: Option<int>)
    requires response.JObject?
    requires RoleAddition(response, member, guild, roleId).Some?
    ensures var marked := member.(roles := member.roles + [roleId.value]);
      roleId.value in Held(marked) && RoleAddition(response, marked, guild, roleId).None?
  {
    assert (member.roles + [roleId.value])[|member.roles|] == roleId.value;
  }

  /** A periodic-cleanup task, and whether it is running. */
  datatype Task = Task(intervalHours: int, running: bool)

  class SuspiciousAccountService {
    var cleanupTask: Option<Task>

    constructor()
      ensures cleanupTask.None?
    {
      cleanupTask := None;
    }

    /** Creates and starts the cleanup loop unless a task already exists. `intervalHours` is
        `SUSPICIOUS_CHECK_INTERVAL_HOURS` (24 by default). */
    method Start(intervalHours: int)
      modifies this
      ensures old(cleanupTask).None? ==> cleanupTask == Some(Task(intervalHours, true))
      ensures old(cleanupTask).Some? ==> cleanupTask == old(cleanupTask)
      ensures cleanupTask.Some?
    {
      if cleanupTask.None? {
        cleanupTask := Some(Task(intervalHours, true));
      }
    }

    /** Cancels a running task; the task object stays, so a later `Start` does nothing. */
    method Stop()
      modifies this
      ensures old(cleanupTask).Some? ==> cleanupTask == Some(old(cleanupTask).value.(running := false))
      ensures old(cleanupTask).None? ==> cleanupTask.None?
    {
      if cleanupTask.Some? && cleanupTask.value.running {
        cleanupTask := Some(cleanupTask.value.(running := false));
      }
    }

    /** Asks the LLM about a member's messages and marks the member when flagged. `template`
        is the analysis prompt's text; the outcome is the response (`None` when there is
        none or it is empty), the audit reason of the role addition and the notification. */
    method AnalyzeAndMark(guild: Guild, member: Member, userMessages: seq<string>, template: string,
                          roleId: Option<int>, channelId: Option<int>, channel: ChannelKind,
                          maxResponseTokens: Option<int>, schema: Option<Json>, client: LlmClient,
                          first: PostOutcome, second: PostOutcome, parse: string -> Option<Json>)
      returns (response: Option<Json>, audit: Option<string>, notice: Option<Notice>)
      modifies client
      ensures var r := if template == [] then None else SuspicionFromResponse(RequestData(first, second), parse);
        response == if r.Some? && Truthy(r.value) then r else None
      ensures response.None? ==> audit.None? && notice.None?
      ensures response.Some? ==> (response.value.JObject?
        && audit == RoleAddition(response.value, member, guild, roleId)
        && notice == Notification(response.value, member, roleId, channelId, channel))
    {
      var messagesText := Join(userMessages, "\n");
      var _, r := client.ClassifyUserForSuspicion(messagesText, template, maxResponseTokens, schema, first, second, parse);
      if r.None? || !Truthy(r.value) {
        return None, None, None;
      }
      response := r;
      audit, notice := None, None;
      if IsSuspicious(r.value) && Configured(roleId) {
        var role := GetRole(guild, roleId.value);
        if role.Some? && roleId.value !in member.roles {
          var reason := ReasonPrefix(Reason(r.value), AUDIT_REASON_MAX);
          if reason.Some? {
            audit := Some(AUDIT_PREFIX + reason.value);
          }
        }
        if Configured(channelId) && channel.TextChannel? {
          var shown := NoticeReason(Reason(r.value));
          if shown.Some? {
            notice := Some(Notice(Mention(member.id), IntToString(member.id), shown.value, member.joinedAt));
          }
        }
      }
    }
  }

  // ---- periodic cleanup ---------------------------------------------------------------

  const SECONDS_PER_DAY := 86400

  /** `(now - joined).days` for times in seconds: whole days, rounded down. */
  function AgeDays(now: int, joined: int): int {
    (now - joined) / SECONDS_PER_DAY
  }

  /** The member's suspicious role has expired: the join time is known and the account is
      at least `retention` days old. */
  predicate Expired(m: Member, now: int, retention: int) {
    m.joinedAt.Some? && AgeDays(now, m.joinedAt.value) >= retention
  }

  /** `role.members`: the guild's members holding the role, in member order. */
  function RoleMembers(members: seq<Member>, roleId: int): (r: seq<Member>)
    ensures |r| <= |members|
  {
    if members == [] then []
    else
      var rest := RoleMembers(members[..|members| - 1], roleId);
      var m := members[|members| - 1];
      if roleId in m.roles then rest + [m] else rest
  }

  /** The removals in guild `k`: (k, member id) for each expired holder of the role. */
  function ExpiredHolders(k: nat, holders: seq<Member>, now: int, retention: int): (r: seq<(nat, int)>)
    ensures |r| <= |holders|
  {
    if holders == [] then []
    else
      var rest := ExpiredHolders(k, holders[..|holders| - 1], now, retention);
      var m := holders[|holders| - 1];
      if Expired(m, now, retention) then rest + [(k, m.id)] else rest
  }

  /** The removals of one cleanup over the first `n` guilds; a guild without the role is
      skipped. */
  function CleanupRemovals(guilds: seq<Guild>, roleId: int, now: int, retention: int, n: nat): seq<(nat, int)>
    requires n <= |guilds|
  {
    if n == 0 then []
    else
      var rest := CleanupRemovals(guilds, roleId, now, retention, n - 1);
      var g := guilds[n - 1];
      if GetRole(g, roleId).None? then rest
      else rest + ExpiredHolders(n - 1, RoleMembers(g.members, roleId), now, retention)
  }

  lemma {:induction false} RoleMembersAre(members: seq<Member>, roleId: int, m: Member)
    ensures m in RoleMembers(members, roleId) <==> m in members && roleId in m.roles
    decreases |members|
  {
    if members != [] {
      RoleMembersAre(members[..|members| - 1], roleId, m);
      assert members == members[..|members| - 1] + [members[|members| - 1]];
    }
  }

  lemma {:induction false} ExpiredHoldersAre(k: nat, holders: seq<Member>, now: int, retention: int, j: nat, id: int)
    ensures (j, id) in ExpiredHolders(k, holders, now, retention) <==>
      j == k && exists m :: m in holders && m.id == id && Expired(m, now, retention)
    decreases |holders|
  {
    if holders != [] {
      ExpiredHoldersAre(k, holders[..|holders| - 1], now, retention, j, id);
      assert holders == holders[..|holders| - 1] + [holders[|holders| - 1]];
    }
  }

  /** A cleanup removes the role exactly from the members, in guilds where the role exists,
      that hold it and whose accounts are at least `retention` days old. */
  lemma {:induction false} CleanupRemovalsAre(guilds: seq<Guild>, roleId: int, now: int, retention: int,
                                              n: nat, k: nat, id: int)
    requires n <= |guilds|
    ensures (k, id) in CleanupRemovals(guilds, roleId, now, retention, n) <==>
      k < n && GetRole(guilds[k], roleId).Some?
      && exists m :: m in guilds[k].members && roleId in m.roles && m.id == id && Expired(m, now, retention)
    decreases n
  {
    if n > 0 {
      CleanupRemovalsAre(guilds, roleId, now, retention, n - 1, k, id);
      var g := guilds[n - 1];
      if GetRole(g, roleId).Some? {
        var holders := RoleMembers(g.members, roleId);
        ExpiredHoldersAre(n - 1, holders, now, retention, k, id);
        if k == n - 1 {
          if exists m :: m in holders && m.id == id && Expired(m, now, retention) {
            var m :| m in holders && m.id == id && Expired(m, now, retention);
            RoleMembersAre(g.members, roleId, m);
          }
          if exists m :: m in g.members && roleId in m.roles && m.id == id && Expired(m, now, retention) {
            var m :| m in g.members && roleId in m.roles && m.id == id && Expired(m, now, retention);
            RoleMembersAre(g.members, roleId, m);
          }
        }
      }
    }
  }

  /** Expiry only grows with time: a member whose role a cleanup removes would also have it
      removed by any later cleanup that finds the member still holding it. */
  lemma CleanupMonotoneInTime(guilds: seq<Guild>, roleId: int, now: int, later: int, retention: int, k: nat, id: int)
    requires now <= later
    requires (k, id) in CleanupRemovals(guilds, roleId, now, retention, |guilds|)
    ensures (k, id) in CleanupRemovals(guilds, roleId, later, retention, |guilds|)
  {
    CleanupRemovalsAre(guilds, roleId, now, retention, |guilds|, k, id);
    var m :| m in guilds[k].members && roleId in m.roles && m.id == id && Expired(m, now, retention);
    assert AgeDays(later, m.joinedAt.value) >= AgeDays(now, m.joinedAt.value) by {
      DivMonotone(now - m.joinedAt.value, later - m.joinedAt.value);
    }
    CleanupRemovalsAre(guilds, roleId, later, retention, |guilds|, k, id);
  }

  lemma DivMonotone(a: int, b: int)
    requires a <= b
    ensures a / SECONDS_PER_DAY <= b / SECONDS_PER_DAY
  {
    var qa, qb := a / SECONDS_PER_DAY, b / SECONDS_PER_DAY;
    assert a == SECONDS_PER_DAY * qa + a % SECONDS_PER_DAY;
    assert b == SECONDS_PER_DAY * qb + b % SECONDS_PER_DAY;
  }

  /** The removals in one guild (the inner loop over the role's members). */
  method CleanupGuild(k: nat, holders: seq<Member>, now: int, retention: int) returns (removed: seq<(nat, int)>)
    ensures removed == ExpiredHolders(k, holders, now, retention)
  {
    removed := [];
    var i := 0;
    while i < |holders|
      invariant 0 <= i <= |holders|
      invariant removed == ExpiredHolders(k, holders[..i], now, retention)
    {
      assert holders[..i + 1][..i] == holders[..i];
      var m := holders[i];
      if m.joinedAt.None? {
        i := i + 1;
        continue;
      }
      var ageDays := AgeDays(now, m.joinedAt.value);
      if ageDays >= retention {
        removed := removed + [(k, m.id)];
      }
      i := i + 1;
    }
    assert holders[..i] == holders;
  }

  /** One run of the cleanup loop: for each guild where the role exists, the role is removed
      from its expired holders. `retention` is `SUSPICIOUS_ROLE_RETENTION_DAYS` (7 by
      default) and `now` the current time in seconds. */
  method PeriodicCleanup(guilds: seq<Guild>, roleId: Option<int>, now: int, retention: int)
    returns (removed: seq<(nat, int)>)
    ensures !Configured(roleId) ==> removed == []
    ensures Configured(roleId) ==> removed == CleanupRemovals(guilds, roleId.value, now, retention, |guilds|)
  {
    removed := [];
    if !Configured(roleId) {
      return;
    }
    var k := 0;
    while k < |guilds|
      invariant 0 <= k <= |guilds|
      invariant removed == CleanupRemovals(guilds, roleId.value, now, retention, k)
    {
      var g := guilds[k];
      var role := GetRole(g, roleId.value);
      if role.Some? {
        var more := CleanupGuild(k, RoleMembers(g.members, roleId.value), now, retention);
        removed := removed + more;
      }
      k := k + 1;
    }
  }
}
