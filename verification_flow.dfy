/** The verification dialogue: the table of active sessions, the opening of a session,
    the direct-message loop that asks the LLM for guidance turn by turn, and the
    conclusion that applies the role changes. */
module VerificationFlow {
  import opened Wrappers
  import opened Text
  import opened Json
  import opened Chat
  import opened Guild
  import opened Reconcile

  /** What the service keeps for a member while the dialogue runs. */
  datatype Session = Session(
    retriesLeft: int,
    history: seq<Entry>,
    lastProposed: Json,
    isUpdateSession: bool,
    initialManageableRoleIds: seq<int>)

  const NO_ROLE_INFO: string := "Could not retrieve current " + "roles information."
  const NO_SKILL_MARKER: string := "You don't seem to have any skill"
  const NO_SKILL_ROLES: string := NO_SKILL_MARKER + "/experience/OS roles " + "assigned by me yet."
  const HELD_ROLES_PREFIX: string := "I see you currently have the following " + "roles related to skills/experience/OS: "

  /** The member's roles, in their order, that the taxonomy lists and the role map names. */
  function HeldManaged(held: seq<int>, managed: set<int>, names: map<int, string>): (r: seq<int>)
    ensures forall id :: id in r <==> id in held && id in managed && id in names
  {
    if held == [] then []
    else
      var rest := HeldManaged(held[1..], managed, names);
      assert forall id :: id in held <==> id == held[0] || id in held[1..];
      if held[0] in managed && held[0] in names then [held[0]] + rest else rest
  }

  function NamesOf(ids: seq<int>, names: map<int, string>): (r: seq<string>)
    requires forall k :: 0 <= k < |ids| ==> ids[k] in names
    ensures |r| == |ids| && forall k :: 0 <= k < |ids| ==> r[k] == names[ids[k]]
  {
    seq(|ids|, k requires 0 <= k < |ids| => names[ids[k]])
  }

  /** The text describing the member's bot-managed roles and their ids: a role counts when
      the taxonomy lists it and the role map names it; with no taxonomy or no role map
      nothing counts. */
  function ManageableRoles(t: Taxonomy, names: map<int, string>, held: seq<int>): (r: (string, seq<int>))
    ensures forall id :: id in r.1 <==> t != [] && names != map[] && id in held && id in ManagedIds(t) && id in names
    ensures t == [] || names == map[] ==> r == (NO_ROLE_INFO, [])
    ensures t != [] && names != map[] && r.1 == [] ==> r.0 == NO_SKILL_ROLES
    ensures r.1 != [] ==> StartsWith(r.0, HELD_ROLES_PREFIX)
  {
    if t == [] || names == map[] then (NO_ROLE_INFO, [])
    else
      var ids := HeldManaged(held, ManagedIds(t), names);
      if ids == [] then (NO_SKILL_ROLES, [])
      else (HELD_ROLES_PREFIX + Join(NamesOf(ids, names), ", ") + ".", ids)
  }

  /** A session is an update when the member already holds the verified role, or holds a
      role the bot manages. */
  predicate IsUpdateSession(member: Member, guildRoles: set<int>, verified: int, t: Taxonomy, names: map<int, string>) {
    (verified in guildRoles && verified in member.roles) || ManageableRoles(t, names, member.roles).1 != []
  }

  lemma UpdateSessionIff(member: Member, guildRoles: set<int>, verified: int, t: Taxonomy, names: map<int, string>)
    ensures IsUpdateSession(member, guildRoles, verified, t, names) <==>
      || (verified in guildRoles && verified in member.roles)
      || (t != [] && names != map[] && exists id :: id in member.roles && id in ManagedIds(t) && id in names)
  {
    var ids := ManageableRoles(t, names, member.roles).1;
    if ids != [] {
      assert ids[0] in ids;
    }
  }

  /** The session a fresh start records: the configured retries, an empty history and no
      proposal yet. */
  function NewSession(member: Member, guildRoles: set<int>, verified: int, retries: int,
                      t: Taxonomy, names: map<int, string>): Session {
    Session(retries, [], JNull, IsUpdateSession(member, guildRoles, verified, t, names),
            ManageableRoles(t, names, member.roles).1)
  }

  /** The session as the dialogue finds it after a start: fresh, with the opening message
      as the assistant's one stored entry. */
  function FirstSession(member: Member, guildRoles: set<int>, verified: int, retries: int,
                        t: Taxonomy, names: map<int, string>, opening: string): (r: Session)
    ensures AwaitsFirstReply(r) && r.retriesLeft == retries && r.history[0].content == JStr(opening)
    ensures r.isUpdateSession == IsUpdateSession(member, guildRoles, verified, t, names)
  {
    NewSession(member, guildRoles, verified, retries, t, names).(history := [Entry(Assistant, JStr(opening))])
  }

  /** A key added and then removed leaves the table as it was. */
  lemma RestoredTable<V>(m: map<int, V>, k: int, a: V, b: V)
    requires k !in m
    ensures m[k := a][k := b] - {k} == m
  {
    assert (m[k := a][k := b] - {k}).Keys == m.Keys;
  }

  /** The opening direct message: a greeting of the member, then the invitation to describe
      their skills, in English and in Spanish (with the Spanish accents mis-encoded as the
      bot sends them). */
  function OpeningDm(mention: string, guildName: string): (r: string)
    ensures StartsWith(r, "Hello " + mention)
  {
    var greeting := "Hello " + mention;
    var rest := OpeningInvitation(mention, guildName);
    assert (greeting + rest)[..|greeting|] == greeting;
    greeting + rest
  }

  /** The opening direct message after its greeting. */
  function OpeningInvitation(mention: string, guildName: string): string {
    "! To begin your verification with **" + guildName
    + "**, please tell me about your skills (e.g., Programming Languages, "
    + "Experience Level, Operating Systems, etc.).\n\n"
    + "¬°Hola " + mention + "! Para comenzar tu verificaci√≥n con **" + guildName
    + "**, por favor cu√©ntame sobre tus habilidades (ej. Lenguajes de "
    + "Programaci√≥n, Nivel de Experiencia, Sistemas Operativos, etc.)."
  }

  const TRIM_NOTE: string := "[System Note for LLM: Earlier parts " + "of the conversation were omitted for brevity.]"

  /** The first entry and the last `max - 1` entries. */
  function HeadAndTail(h: seq<Entry>, max: int): (r: seq<Entry>)
    ensures |h| > max && max >= 2 ==> |r| == max && r[0] == h[0] && r[1..] == h[|h| - (max - 1)..]
  {
    SliceTo(h, 1) + SliceFrom(h, -(max - 1))
  }

  /** The history sent with one guidance request: left alone up to `max` entries, otherwise
      cut to its first entry and its last `max - 1`, followed by a note that some was omitted. */
  function TrimHistory(h: seq<Entry>, max: int): (r: seq<Entry>)
    ensures |h| <= max ==> r == h
    ensures |h| > max && max >= 2 ==>
      && |r| == max + 1 && r[0] == h[0]
      && r[1..max] == h[|h| - (max - 1)..]
      && r[max] == Entry(Assistant, JStr(TRIM_NOTE))
  {
    if |h| > max then HeadAndTail(h, max) + [Entry(Assistant, JStr(TRIM_NOTE))] else h
  }

  const FINAL_ATTEMPT_INSTRUCTION: string :=
    "[System Instruction for LLM: This is the user's final attempt in this session. "
    + "Based on the entire conversation, make your best effort to classify their roles. "
    + "In your 'message_to_user', clearly state the roles that WILL BE ASSIGNED, "
    + "do NOT ask for further textual confirmation (like 'is this correct? say yes'), "
    + "and inform them they can use the /assign-roles command for future changes. "
    + "You MUST set 'user_has_confirmed' to true and 'is_complete' to true in your JSON "
    + "response if you propose any final set of roles, even if it's based on partial "
    + "information or no specific skill roles. "
    + "If you cannot determine any roles even on this final attempt, state that clearly "
    + "in 'message_to_user', set 'classification' to null or empty, but still set "
    + "'user_has_confirmed' and 'is_complete' to true to conclude the session.]\n"
    + "The user's actual final input (which you should respond to) follows this system "
    + "instruction within their message."

  const FINAL_INPUT_LABEL: string := "\n\nUser's final input: "

  /** The user message of one guidance request: the reply itself, or on the last attempt the
      final-attempt instruction followed by the reply. */
  function TurnContent(retriesLeft: int, input: string): (r: string)
    ensures retriesLeft != 1 ==> r == input
    ensures retriesLeft == 1 ==>
      && StartsWith(r, FINAL_ATTEMPT_INSTRUCTION + FINAL_INPUT_LABEL)
      && r[|FINAL_ATTEMPT_INSTRUCTION + FINAL_INPUT_LABEL|..] == input
  {
    if retriesLeft == 1 then FINAL_ATTEMPT_INSTRUCTION + FINAL_INPUT_LABEL + input else input
  }

  const UPDATE_NOTE_GENERIC: string :=
    "[System Note for LLM: User is initiating/updating verification (may already be "
    + "'verified' generally). Their request follows this note in the user's actual message.]"

  /** The note added, for one request only, to the first reply of an update session. */
  function ContextNote(rolesText: string): (r: string)
    ensures !Contains(rolesText, NO_SKILL_MARKER) ==> StartsWith(r, "[System Note for LLM: User is updating. " + rolesText)
    ensures Contains(rolesText, NO_SKILL_MARKER) ==> r == UPDATE_NOTE_GENERIC
  {
    if !Contains(rolesText, NO_SKILL_MARKER) then
      "[System Note for LLM: User is updating. " + rolesText
      + " Their new request follows this note in the user's actual message.]"
    else UPDATE_NOTE_GENERIC
  }

  /** The history of one request: the stored history, with the context note when asked for,
      then trimmed. */
  function CallHistory(stored: seq<Entry>, withNote: bool, rolesText: string, max: int): seq<Entry> {
    TrimHistory(stored + (if withNote then [Entry(Assistant, JStr(ContextNote(rolesText)))] else []), max)
  }

  /** A guidance the loop goes on with: a truthy dict holding `message_to_user`. */
  predicate Answered(g: Option<Json>) {
    g.Some? && Truthy(g.value) && g.value.JObject? && HasKey(g.value.fields, "message_to_user")
  }

  /** A guidance the loop skips without using an attempt: none, or a falsy value. */
  predicate Falsy(g: Option<Json>) {
    g.None? || !Truthy(g.value)
  }

  /** What the stored history gains after the user's reply: the message to the user, when
      the guidance is answered. */
  function Answer(g: Option<Json>): seq<Entry> {
    if Answered(g) then [Entry(Assistant, Get(g.value.fields, "message_to_user").value)] else []
  }

  /** One guidance request the loop makes: the attempts left, the reply as received and
      stripped, the stored
      history at that moment, the user message and history sent, and what came back. */
  datatype Request = Request(
    retriesLeft: int,
    reply: string,
    userInput: string,
    stored: seq<Entry>,
    userMessage: string,
    history: seq<Entry>,
    guidance: Option<Json>)

  /** The stored history after a request. */
  function StoredAfter(q: Request): seq<Entry> {
    q.stored + [Entry(User, JStr(q.userInput))] + Answer(q.guidance)
  }

  /** One event of the direct-message channel: a reply with the guidance the LLM returns for
      it, a channel that refuses messages, or an unexpected error. The end of the script is
      the inactivity timeout. */
  datatype Event = Reply(content: string, guidance: Option<Json>) | DmForbidden | Crash

  /** `guidance.get('user_has_confirmed') is True`. */
  predicate ConfirmsAssignment(g: Json)
    requires g.JObject?
  {
    Get(g.fields, "user_has_confirmed") == Some(JBool(true))
  }

  /** The items of the list values of the keys among the first `n` pairs. */
  function ListedItems(f: seq<(string, Json)>, n: nat): seq<Json>
    requires n <= |f|
  {
    if n == 0 then []
    else
      var v := Get(f, f[n - 1].0).GetOr(JNull);
      ListedItems(f, n - 1) + (if v.JArray? then v.items else [])
  }

  /** An item is listed when some key among the first `n` pairs holds a list with it. */
  lemma {:induction false} ListedItemsMembers(f: seq<(string, Json)>, n: nat)
    requires n <= |f|
    ensures forall x :: x in ListedItems(f, n) <==>
      exists k :: 0 <= k < n && Get(f, f[k].0).Some? && Get(f, f[k].0).value.JArray? && x in Get(f, f[k].0).value.items
  {
    if n > 0 {
      ListedItemsMembers(f, n - 1);
    }
  }

  /** The items listed under the keys of the pairs are the items listed under any key. */
  lemma ListedItemsKeys(f: seq<(string, Json)>)
    ensures forall x :: x in ListedItems(f, |f|) <==> exists k :: HasKey(f, k) && Get(f, k).value.JArray? && x in Get(f, k).value.items
  {
    ListedItemsMembers(f, |f|);
    forall x | exists k :: HasKey(f, k) && Get(f, k).value.JArray? && x in Get(f, k).value.items
      ensures x in ListedItems(f, |f|)
    {
      var k :| HasKey(f, k) && Get(f, k).value.JArray? && x in Get(f, k).value.items;
      var i :| 0 <= i < |f| && f[i].0 == k;
    }
  }

  /** A value Python can put in a set. */
  predicate Hashable(j: Json) {
    !j.JArray? && !j.JObject?
  }

  /** The confirmed role ids: the integers listed in the list values of the classification
      that name guild roles, as a set; `None` when Python raises (a classification that is
      not a dict, or a listed item that is a list or a dict). */
  function ConfirmedIds(c: Json, guildRoles: set<int>): (r: Option<set<int>>)
    ensures !Truthy(c) ==> r == Some({})
    ensures Truthy(c) && !c.JObject? ==> r.None?
    ensures r.Some? ==> r.value <= guildRoles
  {
    if !Truthy(c) then Some({})
    else if !c.JObject? then None
    else
      var items := ListedItems(c.fields, |c.fields|);
      if exists j | 0 <= j < |items| :: !Hashable(items[j]) then None
      else Some(set j | 0 <= j < |items| && items[j].JInt? && items[j].i in guildRoles :: items[j].i)
  }

  /** A confirmed id is exactly a guild role id that some key of the classification lists. */
  lemma ConfirmedIdsListed(c: Json, guildRoles: set<int>)
    requires c.JObject? && ConfirmedIds(c, guildRoles).Some?
    ensures forall id :: id in ConfirmedIds(c, guildRoles).value <==>
      id in guildRoles && exists k :: HasKey(c.fields, k) && Get(c.fields, k).value.JArray? && JInt(id) in Get(c.fields, k).value.items
  {
    var items := ListedItems(c.fields, |c.fields|);
    ListedItemsKeys(c.fields);
    var ids := ConfirmedIds(c, guildRoles).value;
    if !Truthy(c) {
      assert c.fields == [];
    } else {
      assert ids == set j | 0 <= j < |items| && items[j].JInt? && items[j].i in guildRoles :: items[j].i;
      forall id | id in guildRoles && JInt(id) in items ensures id in ids {
        var j :| 0 <= j < |items| && items[j] == JInt(id);
      }
      forall id | id in ids ensures id in guildRoles && JInt(id) in items {
        var j :| 0 <= j < |items| && items[j].JInt? && items[j].i in guildRoles && items[j].i == id;
        assert items[j] == JInt(id);
      }
    }
  }

  /** After coercion every category is a list of integers, so the confirmation never raises
      and confirms exactly the listed ids that name guild roles. */
  lemma {:induction false} CoercedClassificationConfirms(c: Json, guildRoles: set<int>)
    requires c.JObject?
    requires forall k :: HasKey(c.fields, k) ==> var v := Get(c.fields, k).value; v.JArray? && forall j :: 0 <= j < |v.items| ==> v.items[j].JInt?
    ensures ConfirmedIds(c, guildRoles).Some?
  {
    var items := ListedItems(c.fields, |c.fields|);
    ListedItemsKeys(c.fields);
    forall j | 0 <= j < |items| ensures Hashable(items[j]) {
      assert items[j] in items;
      var k :| HasKey(c.fields, k) && Get(c.fields, k).value.JArray? && items[j] in Get(c.fields, k).value.items;
      var v := Get(c.fields, k).value;
      var i :| 0 <= i < |v.items| && v.items[i] == items[j];
    }
  }

  /** The conversation text given to the summary: the user messages of the history cut to
      its first entry and last `max - 1`, one per line; a placeholder when there are none. */
  function UserLines(h: seq<Entry>): (r: seq<string>)
    ensures |r| <= |h|
  {
    if h == [] then []
    else
      var rest := UserLines(h[1..]);
      if h[0].role == User then ["user: " + ContentText(h[0].content)] + rest else rest
  }

  /** The text of a stored message; a message that is not a string is rendered as nothing. */
  function ContentText(j: Json): string {
    if j.JStr? then j.s else ""
  }

  const NO_USER_MESSAGES: string := "(No user messages captured " + "from the conversation.)"
  const TRUNCATION_MARK: string := "...(truncated)...\n"

  function SummaryText(h: seq<Entry>, maxMessages: int): string {
    var trimmed := if |h| > maxMessages then HeadAndTail(h, maxMessages) else h;
    var lines := UserLines(trimmed);
    if lines == [] then NO_USER_MESSAGES else Join(lines, "\n")
  }

  /** The conversation text sent for the summary, at most `maxChars` characters of the most
      recent text behind a truncation mark. */
  function SummaryInput(h: seq<Entry>, maxMessages: int, maxChars: int): (r: string)
    ensures maxChars > 0 ==> |r| <= maxChars + |TRUNCATION_MARK|
    ensures var text := SummaryText(h, maxMessages);
      && (|text| <= maxChars ==> r == text)
      && (|text| > maxChars > 0 ==> r == TRUNCATION_MARK + text[|text| - maxChars..])
  {
    var text := SummaryText(h, maxMessages);
    if |text| > maxChars then TRUNCATION_MARK + SliceFrom(text, -maxChars) else text
  }

  /** The user messages of the whole history, handed to the suspicious-account analysis. */
  function UserMessages(h: seq<Entry>): (r: seq<Json>)
    ensures |r| <= |h|
    ensures forall x :: x in r <==> Entry(User, x) in h
  {
    if h == [] then []
    else
      var rest := UserMessages(h[1..]);
      assert forall e :: e in h <==> e == h[0] || e in h[1..];
      if h[0].role == User then [h[0].content] + rest else rest
  }

  /** `guidance.get('classification')`. */
  function Classification(g: Json): Json
    requires g.JObject?
  {
    Get(g.fields, "classification").GetOr(JNull)
  }

  /** The admin alerts for `unassignable_skills` go through unless a truthy value cannot be
      iterated, which raises. */
  predicate NotifiesCleanly(g: Json)
    requires g.JObject?
  {
    var us := Get(g.fields, "unassignable_skills").GetOr(JNull);
    !(Truthy(us) && (us.JInt? || us.JBool?))
  }

  /** A request whose guidance concludes the session as a success. */
  predicate Confirming(q: Request, guildRoles: set<int>) {
    && Answered(q.guidance)
    && NotifiesCleanly(q.guidance.value)
    && ConfirmsAssignment(q.guidance.value)
    && ConfirmedIds(Classification(q.guidance.value), guildRoles).Some?
  }

  /** A request after which the loop goes on: a falsy guidance, or one answered without
      confirmation. A truthy guidance without `message_to_user` raises instead. */
  predicate Continues(q: Request) {
    || Falsy(q.guidance)
    || (Answered(q.guidance) && NotifiesCleanly(q.guidance.value) && !ConfirmsAssignment(q.guidance.value))
  }

  /** One request as the loop builds it: the non-empty stripped reply, the user message for
      its attempt and the trimmed history sent, with the context note when `withNote`. */
  ghost predicate WellFormed(q: Request, withNote: bool, rolesText: string, max: int) {
    && q.userInput == Strip(q.reply) && q.userInput != []
    && q.retriesLeft >= 1
    && q.userMessage == TurnContent(q.retriesLeft, q.userInput)
    && q.history == CallHistory(q.stored, withNote, rolesText, max)
  }

  /** The session a request leaves behind, when the loop goes on after it: its stored history
      gained the reply and the answer, and an answered guidance used up an attempt. */
  ghost predicate Resumes(q: Request, s: Session) {
    && Continues(q)
    && s.history == StoredAfter(q)
    && s.retriesLeft == q.retriesLeft - (if Answered(q.guidance) then 1 else 0)
  }

  /** The requests of one dialogue from stored history `history` with `retriesLeft` attempts:
      the first is well formed (with the context note when `withNote`) and starts from there,
      and when more follow, the loop went on after it and the rest start, without the note,
      from the stored history it left and the attempts it did not use up. */
  ghost predicate Script(requests: seq<Request>, history: seq<Entry>, retriesLeft: int, withNote: bool,
                         rolesText: string, max: int)
    decreases |requests|
  {
    requests != [] ==>
      var q := requests[0];
      && WellFormed(q, withNote, rolesText, max)
      && q.stored == history && q.retriesLeft == retriesLeft
      && (|requests| > 1 ==>
            && Continues(q)
            && Script(requests[1..], StoredAfter(q), q.retriesLeft - (if Answered(q.guidance) then 1 else 0),
                      false, rolesText, max))
  }

  /** A well-formed request, followed by a script from the session it leaves behind, is a
      script from where it started. */
  lemma ScriptCons(q: Request, rest: seq<Request>, s1: Session, withNote: bool, rolesText: string, max: int)
    requires WellFormed(q, withNote, rolesText, max)
    requires Resumes(q, s1)
    requires Script(rest, s1.history, s1.retriesLeft, false, rolesText, max)
    ensures Script([q] + rest, q.stored, q.retriesLeft, withNote, rolesText, max)
  {
    assert ([q] + rest)[0] == q && ([q] + rest)[1..] == rest;
  }

  /** How a dialogue ends: the outcome, the reason and the confirmed role ids. */
  datatype Ending = Ending(success: bool, reason: string, confirmed: set<int>)

  /** Whether the guidance of a request ends the dialogue, and how: a confirmation concludes
      with the confirmed ids; reading `message_to_user` out of a truthy guidance that lacks
      it, an alert or a confirmation that raises is an internal error. */
  function TurnEnding(q: Request, guildRoles: set<int>): (r: Option<Ending>)
    ensures r.None? <==> Continues(q)
    ensures r.Some? ==> (r.value.success <==> Confirming(q, guildRoles))
    ensures r.Some? && r.value.success ==>
      r.value.confirmed == ConfirmedIds(Classification(q.guidance.value), guildRoles).value
    ensures r.Some? && !r.value.success ==> r.value == Ending(false, INTERNAL_ERROR, {})
  {
    if Falsy(q.guidance) then None
    else if !Answered(q.guidance) then Some(Ending(false, INTERNAL_ERROR, {}))
    else
      var g := q.guidance.value;
      if !NotifiesCleanly(g) then Some(Ending(false, INTERNAL_ERROR, {}))
      else if !ConfirmsAssignment(g) then None
      else match ConfirmedIds(Classification(g), guildRoles)
        case None => Some(Ending(false, INTERNAL_ERROR, {}))
        case Some(ids) => Some(Ending(true, "", ids))
  }

  /** The session after a request the loop goes on from. */
  function Resumed(s: Session, q: Request): (r: Session)
    requires Continues(q) && q.stored == s.history && q.retriesLeft == s.retriesLeft
    ensures Resumes(q, r) && r.isUpdateSession == s.isUpdateSession
  {
    if Answered(q.guidance) then
      s.(history := StoredAfter(q), retriesLeft := s.retriesLeft - 1,
         lastProposed := Classification(q.guidance.value))
    else s.(history := StoredAfter(q))
  }

  /** `is_first_substantive_user_reply`: the stored history is the opening message alone. */
  predicate AwaitsFirstReply(s: Session) {
    |s.history| == 1 && s.history[0].role == Assistant
  }

  /** Where a dialogue got to: the requests made, the attempts used, the session and, when
      it concluded inside the loop, how. */
  datatype Outcome = Outcome(requests: seq<Request>, used: nat, session: Session, ending: Option<Ending>)

  /** Outcome `o` preceded by the requests made and attempts used before it. */
  function After(requests: seq<Request>, used: nat, o: Outcome): Outcome {
    o.(requests := requests + o.requests, used := used + o.used)
  }

  /** The dialogue loop from session `s` over the remaining channel `events`, `isFirst` while
      no non-blank reply has been taken: it stops when no attempt is left, concludes on the
      inactivity timeout (no events left), a refused channel or a failure, skips a blank
      reply, and otherwise makes one request whose guidance either concludes or resumes. */
  function Dialogue(s: Session, events: seq<Event>, isFirst: bool, rolesText: string,
                    guildRoles: set<int>, max: int): Outcome
    decreases |events|
  {
    if s.retriesLeft <= 0 then Outcome([], 0, s, None)
    else if events == [] then Outcome([], 0, s, Some(Ending(false, INACTIVE, {})))
    else match events[0]
      case DmForbidden => Outcome([], 0, s, Some(Ending(false, DM_DISABLED, {})))
      case Crash => Outcome([], 0, s, Some(Ending(false, INTERNAL_ERROR, {})))
      case Reply(content, guidance) =>
        var input := Strip(content);
        if input == [] then Dialogue(s, events[1..], isFirst, rolesText, guildRoles, max)
        else
          var q := Request(s.retriesLeft, content, input, s.history, TurnContent(s.retriesLeft, input),
                           CallHistory(s.history, isFirst && s.isUpdateSession, rolesText, max), guidance);
          match TurnEnding(q, guildRoles)
          case Some(e) => Outcome([q], 0, s.(history := StoredAfter(q)), Some(e))
          case None =>
            After([q], if Answered(guidance) then 1 else 0,
                  Dialogue(Resumed(s, q), events[1..], false, rolesText, guildRoles, max))
  }

  /** Requests made and attempts used before an outcome accumulate. */
  lemma AfterAfter(requests: seq<Request>, used: nat, more: seq<Request>, moreUsed: nat, o: Outcome)
    ensures After(requests, used, After(more, moreUsed, o)) == After(requests + more, used + moreUsed, o)
  {
    assert requests + (more + o.requests) == (requests + more) + o.requests;
  }

  /** A non-blank reply that does not conclude resumes the dialogue from the session it leaves. */
  lemma DialogueResumes(s: Session, events: seq<Event>, isFirst: bool, rolesText: string,
                        guildRoles: set<int>, max: int, q: Request)
    requires s.retriesLeft > 0 && events != [] && events[0].Reply? && Strip(events[0].content) != []
    requires q == Request(s.retriesLeft, events[0].content, Strip(events[0].content), s.history,
                          TurnContent(s.retriesLeft, Strip(events[0].content)),
                          CallHistory(s.history, isFirst && s.isUpdateSession, rolesText, max), events[0].guidance)
    requires TurnEnding(q, guildRoles).None?
    ensures Dialogue(s, events, isFirst, rolesText, guildRoles, max)
         == After([q], if Answered(q.guidance) then 1 else 0,
                  Dialogue(Resumed(s, q), events[1..], false, rolesText, guildRoles, max))
  {
  }

  /** Every request of a dialogue is well formed, the context note goes with the first reply
      of an update session only, and each request starts where the one before left off. */
  lemma {:induction false} DialogueScript(s: Session, events: seq<Event>, isFirst: bool, rolesText: string,
                                          guildRoles: set<int>, max: int)
    ensures Script(Dialogue(s, events, isFirst, rolesText, guildRoles, max).requests, s.history, s.retriesLeft,
                   isFirst && s.isUpdateSession, rolesText, max)
    decreases |events|
  {
    if s.retriesLeft > 0 && events != [] && events[0].Reply? {
      var input := Strip(events[0].content);
      if input == [] {
        DialogueScript(s, events[1..], isFirst, rolesText, guildRoles, max);
      } else {
        var q := Request(s.retriesLeft, events[0].content, input, s.history, TurnContent(s.retriesLeft, input),
                         CallHistory(s.history, isFirst && s.isUpdateSession, rolesText, max), events[0].guidance);
        if TurnEnding(q, guildRoles).None? {
          var s1 := Resumed(s, q);
          DialogueScript(s1, events[1..], false, rolesText, guildRoles, max);
          ScriptCons(q, Dialogue(s1, events[1..], false, rolesText, guildRoles, max).requests, s1,
                     isFirst && s.isUpdateSession, rolesText, max);
        }
      }
    }
  }

  /** Only answered guidance uses up an attempt, so a dialogue uses at most the attempts
      the session had. */
  lemma {:induction false} DialogueUsed(s: Session, events: seq<Event>, isFirst: bool, rolesText: string,
                                        guildRoles: set<int>, max: int)
    ensures Dialogue(s, events, isFirst, rolesText, guildRoles, max).used
         <= if s.retriesLeft > 0 then s.retriesLeft else 0
    decreases |events|
  {
    if s.retriesLeft > 0 && events != [] && events[0].Reply? {
      var input := Strip(events[0].content);
      if input == [] {
        DialogueUsed(s, events[1..], isFirst, rolesText, guildRoles, max);
      } else {
        var q := Request(s.retriesLeft, events[0].content, input, s.history, TurnContent(s.retriesLeft, input),
                         CallHistory(s.history, isFirst && s.isUpdateSession, rolesText, max), events[0].guidance);
        if TurnEnding(q, guildRoles).None? {
          DialogueUsed(Resumed(s, q), events[1..], false, rolesText, guildRoles, max);
        }
      }
    }
  }

  /** A request after which the loop goes on does not confirm. */
  lemma ContinuesNotConfirming(q: Request, guildRoles: set<int>)
    requires Continues(q)
    ensures !Confirming(q, guildRoles)
  {
  }

  /** How the session ends once the loop is over: as the loop concluded, or with the attempts
      used up. */
  function Ended(o: Outcome): Ending {
    if o.ending.Some? then o.ending.value else Ending(false, MAX_RETRIES, {})
  }

  /** An outcome concludes as a success exactly when its last request confirms, with the
      role ids that guidance lists; every other ending confirms nothing. */
  predicate SettlesOnLast(o: Outcome, guildRoles: set<int>) {
    && (Ended(o).success <==> |o.requests| > 0 && Confirming(o.requests[|o.requests| - 1], guildRoles))
    && (Ended(o).success ==>
          Ended(o).confirmed
            == ConfirmedIds(Classification(o.requests[|o.requests| - 1].guidance.value), guildRoles).value)
    && (!Ended(o).success ==> Ended(o).confirmed == {})
  }

  /** A request whose guidance concludes settles the dialogue on itself. */
  lemma SettlesOnConcluding(q: Request, s: Session, guildRoles: set<int>)
    requires TurnEnding(q, guildRoles).Some?
    ensures SettlesOnLast(Outcome([q], 0, s, TurnEnding(q, guildRoles)), guildRoles)
  {
  }

  /** A request after which the loop goes on leaves the settlement to the rest. */
  lemma SettlesAfterContinuing(q: Request, used: nat, rest: Outcome, guildRoles: set<int>)
    requires Continues(q) && SettlesOnLast(rest, guildRoles)
    ensures SettlesOnLast(After([q], used, rest), guildRoles)
  {
    var o := After([q], used, rest);
    assert Ended(o) == Ended(rest);
    if rest.requests == [] {
      ContinuesNotConfirming(q, guildRoles);
    } else {
      assert o.requests[|o.requests| - 1] == rest.requests[|rest.requests| - 1];
    }
  }

  /** Every dialogue settles on its last request. */
  lemma {:induction false} DialogueEnding(s: Session, events: seq<Event>, isFirst: bool, rolesText: string,
                                          guildRoles: set<int>, max: int)
    ensures SettlesOnLast(Dialogue(s, events, isFirst, rolesText, guildRoles, max), guildRoles)
    decreases |events|
  {
    if s.retriesLeft > 0 && events != [] && events[0].Reply? {
      var input := Strip(events[0].content);
      if input == [] {
        DialogueEnding(s, events[1..], isFirst, rolesText, guildRoles, max);
      } else {
        var q := Request(s.retriesLeft, events[0].content, input, s.history, TurnContent(s.retriesLeft, input),
                         CallHistory(s.history, isFirst && s.isUpdateSession, rolesText, max), events[0].guidance);
        if TurnEnding(q, guildRoles).None? {
          DialogueEnding(Resumed(s, q), events[1..], false, rolesText, guildRoles, max);
          SettlesAfterContinuing(q, if Answered(q.guidance) then 1 else 0,
                                 Dialogue(Resumed(s, q), events[1..], false, rolesText, guildRoles, max), guildRoles);
        } else {
          SettlesOnConcluding(q, s.(history := StoredAfter(q)), guildRoles);
        }
      }
    }
  }

  /** A truthy guidance without `message_to_user` (here a dict with only key `x`) ends the
      dialogue on its reply as an internal error, without using an attempt. */
  lemma MalformedGuidanceEndsDialogue(s: Session, content: string, rest: seq<Event>, isFirst: bool,
                                      rolesText: string, guildRoles: set<int>, max: int)
    requires s.retriesLeft > 0 && Strip(content) != []
    ensures var o := Dialogue(s, [Reply(content, Some(JObject([("x", JInt(1))])))] + rest, isFirst, rolesText,
                              guildRoles, max);
      && |o.requests| == 1 && o.used == 0
      && o.ending == Some(Ending(false, INTERNAL_ERROR, {}))
  {
    var g := JObject([("x", JInt(1))]);
    var events := [Reply(content, Some(g))] + rest;
    assert events[0] == Reply(content, Some(g));
    assert !HasKey(g.fields, "message_to_user");
    var q := Request(s.retriesLeft, content, Strip(content), s.history, TurnContent(s.retriesLeft, Strip(content)),
                     CallHistory(s.history, isFirst && s.isUpdateSession, rolesText, max), Some(g));
    assert !Continues(q);
    assert TurnEnding(q, guildRoles) == Some(Ending(false, INTERNAL_ERROR, {}));
  }

  /** What a conclusion did: nothing when the member has left the guild, otherwise the role
      lists applied and, after a first successful verification with a summary template,
      the text given to the summary and the messages given to the analysis. */
  datatype Conclusion =
    | MemberGone
    | Concluded(success: bool, reason: string, toAdd: seq<int>, toRemove: seq<int>,
                summaryInput: Option<string>, analysisMessages: seq<Json>)

  /** The role lists of a conclusion hold exactly the ids of the delta for its outcome,
      computed from the roles the member holds, with every id the taxonomy lists counted
      as a managed skill role. */
  predicate Reconciled(c: Conclusion, current: seq<int>, guildRoles: set<int>, st: StatusRoles,
                       t: Taxonomy, confirmed: set<int>) {
    && c.Concluded?
    && var held := set r | r in current;
       var d := if c.success then SuccessDeltaAsWritten(held, guildRoles, st, ManagedIds(t), confirmed)
                else FailureDelta(held, guildRoles, st);
       (set r | r in c.toAdd) == d.add && (set r | r in c.toRemove) == d.remove
  }

  const MISSING_PROMPT: string := "System error: Missing verification prompt."
  const ROLE_DATA_NOT_READY: string := "System error: Role data not ready."
  const INACTIVE: string := "User inactive in DM."
  const DM_DISABLED: string := "Failed to send DM (DMs disabled mid-process)."
  const INTERNAL_ERROR: string := "Internal error during DM conversation."
  const MAX_RETRIES: string := "Max retries reached after conversation attempts."
  const DM_NOT_SENT: string := "Failed to send DM (DMs possibly disabled)."

  const INIT_ERROR: string := "Internal error during verification initiation."

  /** What opening the direct-message channel and sending the opening message did. */
  datatype DmResult = DmSent | DmRefused | DmFailed

  /** How a session start ended. */
  datatype Opening = IsBot | AlreadyActive | InProgressRoleMissing | Opened(held: seq<int>)

  class VerificationFlowService {
    const status: StatusRoles
    const retries: int
    const maxHistoryMessages: int
    const summaryMaxChars: int
    var active: map<int, Session>

    constructor(status: StatusRoles, retries: int, maxHistoryMessages: int, summaryMaxChars: int)
      ensures this.status == status && this.retries == retries
      ensures this.maxHistoryMessages == maxHistoryMessages && this.summaryMaxChars == summaryMaxChars
      ensures active == map[]
    {
      this.status := status;
      this.retries := retries;
      this.maxHistoryMessages := maxHistoryMessages;
      this.summaryMaxChars := summaryMaxChars;
      active := map[];
    }

    /** The checks of a start and the recording of the session. Bots and members with a
        session under way are turned away; when the in-progress role does not resolve the
        session is dropped again. Otherwise the in-progress role is added to `held`. */
    method OpenSession(member: Member, guildRoles: set<int>, t: Taxonomy, names: map<int, string>)
      returns (r: Opening)
      modifies this
      ensures member.isBot ==> r == IsBot && active == old(active)
      ensures !member.isBot && member.id in old(active) ==> r == AlreadyActive && active == old(active)
      ensures !member.isBot && member.id !in old(active) && status.inProgress !in guildRoles ==>
        r == InProgressRoleMissing && active == old(active)
      ensures !member.isBot && member.id !in old(active) && status.inProgress in guildRoles ==>
        && active == old(active)[member.id := NewSession(member, guildRoles, status.verified, retries, t, names)]
        && r.Opened?
        && (set x | x in r.held) == (set x | x in member.roles) + {status.inProgress}
    {
      if member.isBot {
        return IsBot;
      }
      if member.id in active {
        return AlreadyActive;
      }
      var isUpdate := false;
      if status.verified in guildRoles && status.verified in member.roles {
        isUpdate := true;
      }
      var current := ManageableRoles(t, names, member.roles).1;
      if current != [] {
        isUpdate := true;
      }
      active := active[member.id := Session(retries, [], JNull, isUpdate, current)];
      if status.inProgress !in guildRoles {
        active := active - {member.id};
        return InProgressRoleMissing;
      }
      var held := member.roles;
      if status.inProgress !in held {
        held := held + [status.inProgress];
      }
      r := Opened(held);
    }

    /** The end of a session: the session is dropped, and when the member is still in the
        guild the role lists of the outcome are computed from the roles they hold. */
    method ConcludeVerification(memberId: int, success: bool, reason: string, confirmed: set<int>,
                                current: Option<seq<int>>, guildRoles: set<int>, t: Taxonomy,
                                summaryTemplate: Option<string>)
      returns (c: Conclusion)
      modifies this
      ensures active == old(active) - {memberId}
      ensures current.None? ==> c == MemberGone
      ensures current.Some? ==>
        && c.Concluded? && c.success == success && c.reason == reason
        && Reconciled(c, current.value, guildRoles, status, t, confirmed)
      ensures current.Some? ==>
        var firstVerification := success && !(memberId in old(active) && old(active)[memberId].isUpdateSession);
        var history := if memberId in old(active) then old(active)[memberId].history else [];
        if firstVerification && summaryTemplate.Some? && summaryTemplate.value != [] then
          && c.summaryInput == Some(SummaryInput(history, maxHistoryMessages, summaryMaxChars))
          && c.analysisMessages == UserMessages(history)
        else c.summaryInput.None? && c.analysisMessages == []
    {
      var wasUpdate := false;
      var history: seq<Entry> := [];
      if memberId in active {
        wasUpdate := active[memberId].isUpdateSession;
        history := active[memberId].history;
      }
      active := active - {memberId};
      if current.None? {
        return MemberGone;
      }
      var toAdd, toRemove := ConcludeDelta(success, current.value, guildRoles, status, ManagedIds(t), confirmed);
      var summary: Option<string> := None;
      var analysis: seq<Json> := [];
      if success && !wasUpdate && summaryTemplate.Some? && summaryTemplate.value != [] {
        summary := Some(SummaryInput(history, maxHistoryMessages, summaryMaxChars));
        analysis := UserMessages(history);
      }
      c := Concluded(success, reason, toAdd, toRemove, summary, analysis);
    }

    /** The direct-message loop over the channel's `events`, from session `s0`, as the
        dialogue function describes it. */
    method Converse(s0: Session, rolesText: string, guildRoles: set<int>, events: seq<Event>)
      returns (requests: seq<Request>, used: nat, session: Session, ending: Option<Ending>)
      ensures Outcome(requests, used, session, ending)
           == Dialogue(s0, events, AwaitsFirstReply(s0), rolesText, guildRoles, maxHistoryMessages)
    {
      requests := [];
      used := 0;
      session := s0;
      ending := None;
      var isFirst := AwaitsFirstReply(session);
      ghost var whole := Dialogue(s0, events, isFirst, rolesText, guildRoles, maxHistoryMessages);
      var i := 0;
      while session.retriesLeft > 0
        invariant 0 <= i <= |events|
        invariant whole == After(requests, used, Dialogue(session, events[i..], isFirst, rolesText, guildRoles, maxHistoryMessages))
        invariant ending.None?
        decreases |events| - i
      {
        if i == |events| {
          ending := Some(Ending(false, INACTIVE, {}));
          break;
        }
        var e := events[i];
        assert events[i..][0] == e && events[i..][1..] == events[i + 1..];
        i := i + 1;
        if e.DmForbidden? {
          ending := Some(Ending(false, DM_DISABLED, {}));
          break;
        }
        if e.Crash? {
          ending := Some(Ending(false, INTERNAL_ERROR, {}));
          break;
        }
        var input := Strip(e.content);
        if input == [] {
          continue;
        }
        var q := Request(session.retriesLeft, e.content, input, session.history, TurnContent(session.retriesLeft, input),
                         CallHistory(session.history, isFirst && session.isUpdateSession, rolesText, maxHistoryMessages),
                         e.guidance);
        ending := TurnEnding(q, guildRoles);
        if ending.Some? {
          requests := requests + [q];
          session := session.(history := StoredAfter(q));
          break;
        }
        DialogueResumes(session, events[i - 1..], isFirst, rolesText, guildRoles, maxHistoryMessages, q);
        AfterAfter(requests, used, [q], if Answered(q.guidance) then 1 else 0,
                   Dialogue(Resumed(session, q), events[i..], false, rolesText, guildRoles, maxHistoryMessages));
        requests := requests + [q];
        isFirst := false;
        session := Resumed(session, q);
        if Answered(q.guidance) {
          used := used + 1;
        }
      }
    }

    /** The dialogue for the member's session: the prompt and the role data must be there,
        then the loop runs, and every way out concludes the session once. `memberRoles` are
        the roles the member object shows (for the context note) and `current` what the
        guild reports at the end. */
    method HandleDmConversation(memberId: int, template: Option<string>, t: Taxonomy,
                                names: map<int, string>, memberRoles: seq<int>,
                                current: Option<seq<int>>, guildRoles: set<int>,
                                events: seq<Event>, summaryTemplate: Option<string>)
      returns (requests: seq<Request>, used: nat, c: Option<Conclusion>)
      modifies this
      ensures memberId !in old(active) ==> active == old(active) && requests == [] && c.None?
      ensures memberId in old(active) ==> active == old(active) - {memberId} && c.Some?
      ensures memberId in old(active) && current.None? ==> c.value == MemberGone
      ensures memberId in old(active) ==>
        var s0 := old(active)[memberId];
        var ready := template.Some? && t != [] && names != map[];
        var o := Dialogue(s0, events, AwaitsFirstReply(s0), ManageableRoles(t, names, memberRoles).0,
                          guildRoles, maxHistoryMessages);
        && (ready ==> requests == o.requests && used == o.used)
        && (!ready ==> requests == [] && used == 0)
        && (current.Some? ==>
              && c.value.Concluded?
              && (template.None? ==> !c.value.success && c.value.reason == MISSING_PROMPT)
              && (template.Some? && !ready ==> !c.value.success && c.value.reason == ROLE_DATA_NOT_READY)
              && (ready ==> c.value.success == Ended(o).success && c.value.reason == Ended(o).reason)
              && Reconciled(c.value, current.value, guildRoles, status, t, if ready then Ended(o).confirmed else {}))
    {
      requests := [];
      used := 0;
      c := None;
      if memberId !in active {
        return;
      }
      var session := active[memberId];
      var end: Ending;
      if template.None? {
        end := Ending(false, MISSING_PROMPT, {});
      } else if t == [] || names == map[] {
        end := Ending(false, ROLE_DATA_NOT_READY, {});
      } else {
        var rolesText := ManageableRoles(t, names, memberRoles).0;
        var ending: Option<Ending>;
        requests, used, session, ending := Converse(session, rolesText, guildRoles, events);
        end := Ended(Outcome(requests, used, session, ending));
      }
      // The session is updated in place; nothing reads the table while the loop runs, so it
      // is written back once, before the conclusion reads it.
      active := active[memberId := session];
      var r := ConcludeVerification(memberId, end.success, end.reason, end.confirmed, current, guildRoles, t, summaryTemplate);
      c := Some(r);
    }

    /** A verification start for `member`: the checks and the session of `OpenSession`, then
        the opening message over the direct-message channel. When it cannot be sent the
        session concludes as a failure; otherwise it is stored as the assistant's first entry
        and the dialogue runs. Either way the session is gone afterwards. `firstMessage` is
        the opening message as `OpeningDm` renders it for the member and the guild, `dm` is what
        sending it did, and the rest is as for `HandleDmConversation`. */
    method StartVerificationProcess(member: Member, guildRoles: set<int>, t: Taxonomy, names: map<int, string>,
                                    firstMessage: string, dm: DmResult, template: Option<string>,
                                    current: Option<seq<int>>, events: seq<Event>,
                                    summaryTemplate: Option<string>)
      returns (opening: Opening, requests: seq<Request>, c: Option<Conclusion>)
      modifies this
      ensures active == old(active)
      ensures member.isBot ==> opening == IsBot
      ensures !member.isBot && member.id in old(active) ==> opening == AlreadyActive
      ensures !member.isBot && member.id !in old(active) && status.inProgress !in guildRoles ==>
        opening == InProgressRoleMissing
      ensures !opening.Opened? ==> requests == [] && c.None?
      ensures opening.Opened? ==> c.Some? && (current.None? ==> c.value == MemberGone)
      ensures opening.Opened? && dm != DmSent ==>
        && requests == []
        && (current.Some? ==>
              && c.value.Concluded? && !c.value.success
              && c.value.reason == (if dm == DmRefused then DM_NOT_SENT else INIT_ERROR)
              && Reconciled(c.value, current.value, guildRoles, status, t, {}))
      ensures opening.Opened? && dm == DmSent ==>
        var ready := template.Some? && t != [] && names != map[];
        var o := Dialogue(FirstSession(member, guildRoles, status.verified, retries, t, names, firstMessage), events,
                          true, ManageableRoles(t, names, member.roles).0, guildRoles, maxHistoryMessages);
        && (ready ==> requests == o.requests)
        && (!ready ==> requests == [])
        && (current.Some? ==>
              && c.value.Concluded?
              && (ready ==> c.value.success == Ended(o).success && c.value.reason == Ended(o).reason)
              && (!ready ==> !c.value.success)
              && Reconciled(c.value, current.value, guildRoles, status, t, if ready then Ended(o).confirmed else {}))
    {
      requests := [];
      c := None;
      opening := OpenSession(member, guildRoles, t, names);
      if !opening.Opened? {
        return;
      }
      if dm != DmSent {
        var reason := if dm == DmRefused then DM_NOT_SENT else INIT_ERROR;
        var r := ConcludeVerification(member.id, false, reason, {}, current, guildRoles, t, summaryTemplate);
        c := Some(r);
        RestoredTable(old(active), member.id, NewSession(member, guildRoles, status.verified, retries, t, names),
                      NewSession(member, guildRoles, status.verified, retries, t, names));
        return;
      }
      var first := FirstSession(member, guildRoles, status.verified, retries, t, names, firstMessage);
      active := active[member.id := first];
      var used: nat;
      requests, used, c := HandleDmConversation(member.id, template, t, names, member.roles, current, guildRoles,
                                                events, summaryTemplate);
      RestoredTable(old(active), member.id, NewSession(member, guildRoles, status.verified, retries, t, names), first);
    }
  }
}
