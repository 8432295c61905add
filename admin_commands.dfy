/** The administrators' slash commands: who may use them, which members a verification
    batch picks, which members a stale-reset picks and what it changes for each, and the
    category summary shown after a rebuild of the taxonomy. */
module AdminCommands {
  import opened Wrappers
  import opened Text
  import opened Json
  import opened Guild
  import opened Reconcile
  import opened LlmTransport
  import opened LlmGuidance
  import opened LlmCategorize
  import opened LlmClient
  import opened EventListeners

  /** Python `any(admin_id in user_role_ids for admin_id in admin_role_ids)`. */
  function AnyHeld(adminIds: seq<nat>, held: seq<int>): (r: bool)
    ensures r <==> exists i :: 0 <= i < |adminIds| && adminIds[i] in held
  {
    if adminIds == [] then false
    else
      var rest := AnyHeld(adminIds[1..], held);
      assert forall i :: 1 <= i < |adminIds| ==> adminIds[i] == adminIds[1..][i - 1];
      adminIds[0] in held || rest
  }

  /** The check on every admin command. `parsed` is `settings.PARSED_ADMIN_ROLE_IDS`, `None`
      when the settings lack it; `userRoles` are the invoking user's role ids. Access needs a
      non-empty admin list sharing an id with the user's roles. */
  function CheckAdminRoles(parsed: Option<seq<nat>>, userRoles: seq<int>): (ok: bool)
    ensures ok <==> parsed.Some? && exists a :: a in parsed.value && a in userRoles
  {
    if parsed.None? then false
    else if parsed.value == [] then false
    else AnyHeld(parsed.value, userRoles)
  }

  // ---- initiate-verification-batch ----------------------------------------------------

  /** A member a batch may start: not a bot, holding the unverified role and neither the
      verified nor the in-progress role. */
  predicate BatchCandidate(m: Member, st: StatusRoles) {
    !m.isBot && st.unverified in m.roles && st.verified !in m.roles && st.inProgress !in m.roles
  }

  /** All batch candidates, in member order. */
  function BatchCandidates(members: seq<Member>, st: StatusRoles): seq<Member> {
    if members == [] then []
    else
      var rest := BatchCandidates(members[..|members| - 1], st);
      if BatchCandidate(members[|members| - 1], st) then rest + [members[|members| - 1]] else rest
  }

  /** The candidates are exactly the members that qualify. */
  lemma {:induction false} BatchCandidatesMembers(members: seq<Member>, st: StatusRoles, m: Member)
    ensures m in BatchCandidates(members, st) <==> m in members && BatchCandidate(m, st)
    decreases |members|
  {
    if members != [] {
      BatchCandidatesMembers(members[..|members| - 1], st, m);
      assert members == members[..|members| - 1] + [members[|members| - 1]];
    }
  }

  lemma {:induction false} BatchCandidatesAppend(a: seq<Member>, b: seq<Member>, st: StatusRoles)
    ensures BatchCandidates(a + b, st) == BatchCandidates(a, st) + BatchCandidates(b, st)
    decreases |b|
  {
    if b == [] {
      assert a + b == a;
    } else {
      var b' := b[..|b| - 1];
      BatchCandidatesAppend(a, b', st);
      assert a + b == (a + b') + [b[|b| - 1]];
      assert (a + b)[..|a + b| - 1] == a + b';
      assert (a + b)[|a + b| - 1] == b[|b| - 1];
    }
  }

  /** The scan: candidates are collected in member order and the scan stops once `2 * count`
      are collected, so the result is the first `2 * count` candidates. */
  method SelectBatchCandidates(members: seq<Member>, st: StatusRoles, count: int) returns (candidates: seq<Member>)
    requires 1 <= count
    ensures candidates == SliceTo(BatchCandidates(members, st), 2 * count)
  {
    candidates := [];
    var i := 0;
    while i < |members|
      invariant 0 <= i <= |members|
      invariant candidates == BatchCandidates(members[..i], st)
      invariant |candidates| < 2 * count
    {
      assert members[..i + 1][..i] == members[..i];
      var m := members[i];
      if m.isBot {
        i := i + 1;
        continue;
      }
      if st.unverified in m.roles && st.verified !in m.roles && st.inProgress !in m.roles {
        candidates := candidates + [m];
      }
      if |candidates| >= 2 * count {
        assert members[..i + 1] + members[i + 1..] == members;
        BatchCandidatesAppend(members[..i + 1], members[i + 1..], st);
        SliceToPrefix(candidates, BatchCandidates(members[i + 1..], st), 2 * count);
        break;
      }
      i := i + 1;
    }
    if i == |members| {
      assert members[..i] == members;
      SliceToPrefix(candidates, [], 2 * count);
    }
  }

  lemma SliceToPrefix<T>(c: seq<T>, x: seq<T>, n: int)
    requires 0 <= |c| <= n
    requires x == [] || |c| == n
    ensures SliceTo(c + x, n) == c
  {
    assert (c + x)[..|c|] == c;
  }

  /** The scan cap does not change the batch: it is the first `count` candidates. */
  lemma BatchIsFirstCandidates(members: seq<Member>, st: StatusRoles, count: int)
    requires 1 <= count
    ensures SliceTo(SliceTo(BatchCandidates(members, st), 2 * count), count) == SliceTo(BatchCandidates(members, st), count)
  {
  }

  /** The ids of the batch members whose start did not raise, in batch order. */
  function StartedIds(batch: seq<Member>, raises: set<int>): (ids: seq<int>)
    ensures |ids| <= |batch|
  {
    if batch == [] then []
    else
      var rest := StartedIds(batch[..|batch| - 1], raises);
      var m := batch[|batch| - 1];
      if m.id !in raises then rest + [m.id] else rest
  }

  /** Exactly the batch members that did not raise are started. */
  lemma {:induction false} StartedIdsMembers(batch: seq<Member>, raises: set<int>, id: int)
    ensures id in StartedIds(batch, raises) <==> id !in raises && exists m :: m in batch && m.id == id
    decreases |batch|
  {
    if batch != [] {
      StartedIdsMembers(batch[..|batch| - 1], raises, id);
      assert batch == batch[..|batch| - 1] + [batch[|batch| - 1]];
    }
  }

  /** Starts the batch one member at a time; `raises` are the members whose start raises.
      An exception is counted and the loop goes on. */
  method RunBatch(batch: seq<Member>, raises: set<int>) returns (processed: nat, errors: nat, started: seq<int>)
    ensures started == StartedIds(batch, raises)
    ensures processed == |started| && processed + errors == |batch|
  {
    processed, errors, started := 0, 0, [];
    var i := 0;
    while i < |batch|
      invariant 0 <= i <= |batch|
      invariant started == StartedIds(batch[..i], raises)
      invariant processed == |started| && processed + errors == i
    {
      assert batch[..i + 1][..i] == batch[..i];
      var m := batch[i];
      if m.id !in raises {
        started := started + [m.id];
        processed := processed + 1;
      } else {
        errors := errors + 1;
      }
      i := i + 1;
    }
    assert batch[..i] == batch;
  }

  datatype BatchOutcome =
    | BatchNotInGuild
    | BatchServiceUnavailable
    | BatchUnverifiedRoleMissing
    | NoBatchCandidates
    | BatchStarted(batch: seq<Member>, processed: nat, errors: nat, started: seq<int>)

  /** `/admin initiate-verification-batch`; `count` is within 1..100 by the command's range. */
  method InitiateVerificationBatch(guild: Option<Guild>, serviceAvailable: bool, st: StatusRoles,
                                   count: int, raises: set<int>)
    returns (o: BatchOutcome)
    requires 1 <= count <= 100
    ensures guild.None? ==> o == BatchNotInGuild
    ensures guild.Some? && !serviceAvailable ==> o == BatchServiceUnavailable
    ensures guild.Some? && serviceAvailable && GetRole(guild.value, st.unverified).None? ==> o == BatchUnverifiedRoleMissing
    ensures guild.Some? && serviceAvailable && GetRole(guild.value, st.unverified).Some? ==>
      var all := BatchCandidates(guild.value.members, st);
      && (all == [] ==> o == NoBatchCandidates)
      && (all != [] ==> && o.BatchStarted?
                        && o.batch == SliceTo(all, count)
                        && o.started == StartedIds(o.batch, raises)
                        && o.processed == |o.started| && o.processed + o.errors == |o.batch|)
  {
    if guild.None? {
      return BatchNotInGuild;
    }
    if !serviceAvailable {
      return BatchServiceUnavailable;
    }
    if GetRole(guild.value, st.unverified).None? {
      return BatchUnverifiedRoleMissing;
    }
    var candidates := SelectBatchCandidates(guild.value.members, st, count);
    if candidates == [] {
      return NoBatchCandidates;
    }
    BatchIsFirstCandidates(guild.value.members, st, count);
    var batch := SliceTo(candidates, count);
    var processed, errors, started := RunBatch(batch, raises);
    o := BatchStarted(batch, processed, errors, started);
  }

  // ---- reset-stale-verifications ------------------------------------------------------

  /** Status roles that call for a reset: in progress without being verified, or none of
      the three status roles at all. */
  predicate StaleStatus(held: set<int>, st: StatusRoles) {
    (st.inProgress in held && st.verified !in held)
    || (st.verified !in held && st.unverified !in held && st.inProgress !in held)
  }

  predicate NeedsReset(m: Member, st: StatusRoles) {
    !m.isBot && StaleStatus(Held(m), st)
  }

  /** Equivalently: a non-bot member that is not verified and is in progress or lacks the
      unverified role. A verified member is never reset. */
  lemma NeedsResetMeaning(m: Member, st: StatusRoles)
    ensures NeedsReset(m, st) <==>
      !m.isBot && st.verified !in m.roles && (st.inProgress in m.roles || st.unverified !in m.roles)
  {
  }

  /** The members to reset, in member order. */
  function StaleMembers(members: seq<Member>, st: StatusRoles): (s: seq<Member>)
    ensures forall m :: m in s <==> m in members && NeedsReset(m, st)
  {
    if members == [] then []
    else
      var rest := StaleMembers(members[..|members| - 1], st);
      assert members == members[..|members| - 1] + [members[|members| - 1]];
      if NeedsReset(members[|members| - 1], st) then rest + [members[|members| - 1]] else rest
  }

  /** The selection loop. */
  method SelectStaleMembers(members: seq<Member>, st: StatusRoles) returns (users: seq<Member>)
    ensures users == StaleMembers(members, st)
  {
    users := [];
    var i := 0;
    while i < |members|
      invariant 0 <= i <= |members|
      invariant users == StaleMembers(members[..i], st)
    {
      assert members[..i + 1][..i] == members[..i];
      var m := members[i];
      if m.isBot {
        i := i + 1;
        continue;
      }
      var isVerified := st.verified in m.roles;
      var isInProgress := st.inProgress in m.roles;
      var isUnverified := st.unverified in m.roles;
      if isInProgress && !isVerified {
        users := users + [m];
      } else if !isVerified && !isUnverified && !isInProgress {
        users := users + [m];
      }
      i := i + 1;
    }
    assert members[..i] == members;
  }

  /** A reset makes the change of a failed verification: the unverified role is added when
      not held and the in-progress role removed when it exists and is held. Once applied
      (with both roles existing), the member no longer needs a reset. */
  lemma ResetSettles(held: set<int>, guildRoles: set<int>, st: StatusRoles)
    requires DistinctStatuses(st) && st.unverified in guildRoles && st.inProgress in guildRoles
    ensures var after := Apply(held, FailureDelta(held, guildRoles, st));
      st.unverified in after && st.inProgress !in after && !StaleStatus(after, st)
  {
  }

  /** Without an in-progress role in the guild, a member the reset selected for holding it
      still holds it, and is selected again by the next reset. */
  lemma ResetKeepsUnresolvedInProgress(held: set<int>, guildRoles: set<int>, st: StatusRoles)
    requires DistinctStatuses(st) && st.unverified in guildRoles && st.inProgress !in guildRoles
    requires st.inProgress in held && st.verified !in held
    ensures StaleStatus(Apply(held, FailureDelta(held, guildRoles, st)), st)
  {
  }

  /** The role changes made for the selected members, with `fails` the members whose role
      update raised; each entry is a member id and the change applied to it. */
  function ResetChanges(users: seq<Member>, guildRoles: set<int>, st: StatusRoles, fails: set<int>): (c: seq<(int, Delta)>)
    ensures |c| <= |users|
    ensures forall k :: 0 <= k < |c| ==> c[k].0 !in fails
  {
    if users == [] then []
    else
      var rest := ResetChanges(users[..|users| - 1], guildRoles, st, fails);
      var m := users[|users| - 1];
      if m.id in fails then rest else rest + [(m.id, FailureDelta(Held(m), guildRoles, st))]
  }

  /** Every selected member that did not fail gets the reset change for its own roles. */
  lemma {:induction false} ResetChangesCover(users: seq<Member>, guildRoles: set<int>, st: StatusRoles,
                                             fails: set<int>, m: Member)
    requires m in users && m.id !in fails
    ensures (m.id, FailureDelta(Held(m), guildRoles, st)) in ResetChanges(users, guildRoles, st, fails)
    decreases |users|
  {
    var p := users[..|users| - 1];
    if m != users[|users| - 1] {
      assert users == p + [users[|users| - 1]];
      ResetChangesCover(p, guildRoles, st, fails, m);
    }
  }

  /** The reset loop over the selected members. */
  method ApplyResets(users: seq<Member>, guild: Guild, st: StatusRoles, fails: set<int>)
    returns (changes: seq<(int, Delta)>, resetCount: nat)
    requires GetRole(guild, st.unverified).Some?
    ensures changes == ResetChanges(users, RoleIds(guild), st, fails)
    ensures resetCount == |changes|
  {
    GetRoleResolves(guild, st.unverified);
    GetRoleResolves(guild, st.inProgress);
    var inProgressRole := GetRole(guild, st.inProgress);
    changes, resetCount := [], 0;
    var i := 0;
    while i < |users|
      invariant 0 <= i <= |users|
      invariant changes == ResetChanges(users[..i], RoleIds(guild), st, fails)
      invariant resetCount == |changes|
    {
      assert users[..i + 1][..i] == users[..i];
      var m := users[i];
      var toAdd: set<int> := {st.unverified};
      var toRemove: set<int> := if inProgressRole.Some? && st.inProgress in m.roles then {st.inProgress} else {};
      if m.id !in fails {
        var added := if st.unverified !in m.roles then toAdd else {};
        changes := changes + [(m.id, Delta(added, toRemove))];
        resetCount := resetCount + 1;
      }
      i := i + 1;
    }
    assert users[..i] == users;
  }

  datatype ResetOutcome =
    | ResetNotInGuild
    | ResetUnverifiedRoleMissing
    | NothingToReset
    | ResetDone(users: seq<Member>, changes: seq<(int, Delta)>, resetCount: nat)

  /** `/admin reset-stale-verifications`. */
  method ResetStaleVerifications(guild: Option<Guild>, st: StatusRoles, fails: set<int>) returns (o: ResetOutcome)
    ensures guild.None? ==> o == ResetNotInGuild
    ensures guild.Some? && GetRole(guild.value, st.unverified).None? ==> o == ResetUnverifiedRoleMissing
    ensures guild.Some? && GetRole(guild.value, st.unverified).Some? ==>
      var users := StaleMembers(guild.value.members, st);
      && (users == [] ==> o == NothingToReset)
      && (users != [] ==> && o.ResetDone? && o.users == users
                          && o.changes == ResetChanges(users, RoleIds(guild.value), st, fails)
                          && o.resetCount == |o.changes|)
  {
    if guild.None? {
      return ResetNotInGuild;
    }
    if GetRole(guild.value, st.unverified).None? {
      return ResetUnverifiedRoleMissing;
    }
    var users := SelectStaleMembers(guild.value.members, st);
    if users == [] {
      return NothingToReset;
    }
    var changes, resetCount := ApplyResets(users, guild.value, st, fails);
    o := ResetDone(users, changes, resetCount);
  }

  // ---- rebuild-role-categories --------------------------------------------------------

  /** What `for rid in ids` walks over: a list's items, a string's characters, a dict's
      keys; `None` when the value is not iterable (Python raises `TypeError`). */
  function Iterated(v: Json): Option<seq<Json>> {
    match v
    case JArray(items) => Some(items)
    case JStr(s) => Some(seq(|s|, i requires 0 <= i < |s| => JStr([s[i]])))
    case JObject(fields) => Some(seq(|fields|, i requires 0 <= i < |fields| => JStr(fields[i].0)))
    case _ => None
  }

  /** The names of the listed roles that exist in the guild, in order; entries `int()`
      rejects and unknown ids are skipped. */
  function LiveNames(g: Guild, rids: seq<Json>): (names: seq<string>)
    ensures |names| <= |rids|
  {
    if rids == [] then []
    else
      var rest := LiveNames(g, rids[..|rids| - 1]);
      var id := ToPyInt(rids[|rids| - 1]);
      if id.Some? && GetRole(g, id.value).Some? then rest + [GetRole(g, id.value).value.name] else rest
  }

  /** One summary line for a category. */
  function SummaryLine(cat: string, names: seq<string>): (line: string)
    ensures line != []
  {
    if names != [] then "**" + cat + "** (" + NatToString(|names|) + "): " + Join(names, ", ")
    else "**" + cat + "**: (no live roles)"
  }

  /** The summary lines, one per category, `None` when a category cannot be iterated. */
  function SummaryLines(g: Guild, t: Taxonomy): (lines: Option<seq<string>>)
    ensures lines.Some? ==> |lines.value| == |t|
  {
    if t == [] then Some([])
    else
      var rest := SummaryLines(g, t[..|t| - 1]);
      var rids := Iterated(t[|t| - 1].1);
      if rest.None? || rids.None? then None
      else Some(rest.value + [SummaryLine(t[|t| - 1].0, LiveNames(g, rids.value))])
  }

  const NO_CATEGORIES := "No categorized roles found after rebuild."

  /** `"\n".join(lines) or "No categorized roles found after rebuild."`. */
  function SummaryText(lines: seq<string>): (s: string)
    ensures lines == [] ==> s == NO_CATEGORIES
    ensures lines != [] && lines[0] != [] ==> StartsWith(s, lines[0])
  {
    var joined := Join(lines, "\n");
    if joined == [] then NO_CATEGORIES else joined
  }

  const SUMMARY_MAX := 1800
  const TRUNCATED_MARKER := "... (truncated)"

  /** A summary longer than 1800 characters keeps its first 1797 and gets the marker, ending
      up 1812 characters long. */
  function TruncateSummary(s: string): (r: string)
    ensures |s| <= SUMMARY_MAX ==> r == s
    ensures |s| > SUMMARY_MAX ==> |r| == 1812 && r[..1797] == s[..1797] && r[1797..] == TRUNCATED_MARKER
  {
    if |s| > SUMMARY_MAX then s[..1797] + TRUNCATED_MARKER else s
  }

  const FIELD_MAX := 1000

  /** An embed field value longer than 1000 characters keeps its first 997 and gets "...". */
  function TruncateField(v: string): (r: string)
    ensures |r| <= FIELD_MAX
    ensures |v| <= FIELD_MAX ==> r == v
    ensures |v| > FIELD_MAX ==> |r| == FIELD_MAX && r[..997] == v[..997] && r[997..] == "..."
  {
    if |v| > FIELD_MAX then v[..997] + "..." else v
  }

  /** The embed fields, one per category (`None` when a category cannot be iterated). */
  function CategoryFields(g: Guild, t: Taxonomy): (fields: Option<seq<(string, string)>>)
    ensures fields.Some? ==> |fields.value| == |t|
    ensures fields.Some? ==> forall k :: 0 <= k < |fields.value| ==>
      fields.value[k].0 == t[k].0 && |fields.value[k].1| <= FIELD_MAX
  {
    if t == [] then Some([])
    else
      var rest := CategoryFields(g, t[..|t| - 1]);
      var rids := Iterated(t[|t| - 1].1);
      if rest.None? || rids.None? then None
      else
        var names := LiveNames(g, rids.value);
        var value := if names != [] then Join(names, ", ") else "(no live roles)";
        Some(rest.value + [(t[|t| - 1].0, TruncateField(value))])
  }

  /** A category value the summary cannot walk makes both the summary and the fields fail. */
  lemma {:induction false} FieldsFailWithSummary(g: Guild, t: Taxonomy)
    ensures SummaryLines(g, t).None? <==> CategoryFields(g, t).None?
    decreases |t|
  {
    if t != [] {
      FieldsFailWithSummary(g, t[..|t| - 1]);
    }
  }

  datatype RebuildReply =
    | RebuildNotInGuild
    | RebuildFailed
    | RebuildComplete(message: string, notification: Option<seq<(string, string)>>)

  const REBUILD_HEADER := "Role categorization complete.\n\n"

  /** `/admin rebuild-role-categories`: a forced rebuild of the taxonomy, then the summary to
      the admin and, when a notification channel is configured and found, the per-category
      fields. A category value that cannot be iterated ends in the error reply. `categorized`
      is the LLM's answer to the rebuild, empty when it was not asked. */
  method RebuildRoleCategories(guild: Option<Guild>, cog: EventListenersCog, guilds: seq<Guild>, prompt: string,
                               writable: bool, client: LlmClient, first: PostOutcome, second: PostOutcome,
                               parse: string -> Option<Json>, notificationChannel: bool)
    returns (reply: RebuildReply, categorized: Categories)
    modifies cog, client
    ensures guild.None? ==> reply == RebuildNotInGuild && cog.categorizedServerRoles == old(cog.categorizedServerRoles)
    ensures guild.Some? ==>
      var input := CategorizationInput(guild.value, cog.boundaryId);
      var asked := input.Some? && input.value != [] && prompt != [];
      && (!asked ==> cog.categorizedServerRoles == [] && categorized == [])
      && (asked ==> cog.categorizedServerRoles
                      == if categorized != [] then AsTaxonomy(categorized) else old(cog.categorizedServerRoles))
      && (asked && categorized != [] ==> TaxonomyIds(cog.categorizedServerRoles) == RoleIdSet(input.value))
      && (writable ==> cog.rolesFile == Stored(JObject(cog.categorizedServerRoles)))
      && (!writable ==> cog.rolesFile == old(cog.rolesFile))
    ensures guild.Some? ==>
      var lines := SummaryLines(guild.value, cog.categorizedServerRoles);
      && (lines.None? ==> reply == RebuildFailed)
      && (lines.Some? ==> && reply.RebuildComplete?
                          && reply.message == REBUILD_HEADER + TruncateSummary(SummaryText(lines.value))
                          && (reply.notification.Some? <==> notificationChannel)
                          && (reply.notification.Some? ==>
                                reply.notification == CategoryFields(guild.value, cog.categorizedServerRoles)))
  {
    categorized := [];
    if guild.None? {
      return RebuildNotInGuild, categorized;
    }
    var _, _, answer := cog.PerformRoleCategorization(guild.value, guilds, true, prompt, writable, client, first, second, parse);
    categorized := answer;
    var taxonomy := cog.categorizedServerRoles;
    var lines := SummaryLines(guild.value, taxonomy);
    if lines.None? {
      return RebuildFailed, categorized;
    }
    var summary := TruncateSummary(SummaryText(lines.value));
    var notification: Option<seq<(string, string)>> := None;
    if notificationChannel {
      FieldsFailWithSummary(guild.value, taxonomy);
      notification := CategoryFields(guild.value, taxonomy);
    }
    reply := RebuildComplete(REBUILD_HEADER + summary, notification);
  }
}
