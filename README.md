# serversage role verification, modelled in Dafny

serversage is a Discord bot that verifies new members of a server. When a member
joins, the bot opens a direct-message conversation. It asks the member about their
skills and sends every answer, together with the server's categorised skill roles,
to an LLM. The LLM proposes a classification (category name to list of role ids).
Once the member confirms it, the bot assigns the confirmed skill roles and the
"verified" status role. It takes away the "verification in progress" role and any
managed skill roles that were not confirmed. A failed or abandoned conversation
gives the member the "unverified" role instead.

Around that flow the bot also does the following:
- it keeps a taxonomy of the server's roles, categorised by the LLM and stored in a
  JSON file;
- it posts an LLM-written welcome message;
- it offers administrators commands to start verification in batches, reset stale
  verifications and rebuild the taxonomy;
- it lets an LLM flag suspicious new accounts with a temporary role, which a
  periodic clean-up removes once the retention period has passed.

The project models this core in eighteen modules.

- `Wrappers`, `Text`, `Json`, `Chat`, `Guild`: the value layer.
  - `Text` gives Python's `str.strip`, `split`, `join`, `lower` and slicing, and
    decimal rendering.
  - `Json` gives decoded JSON values and insertion-ordered dictionaries.
  - `Chat` gives the chat-completion message entries.
  - `Guild` holds roles, members and the taxonomy.
- `Config`: the settings object, its secret-file loading and the admin role-id list.
- `Templates`: Python's `string.Template` (`substitute` with its `KeyError` and
  `ValueError` cases, and `safe_substitute`).
- The LLM client, split into six modules:
  - `LlmTransport`: the request payload and the two-attempt HTTP exchange, with
    its shape check.
  - `LlmPrompts`: prompt trimming, token budgets and the welcome prompt.
  - `LlmResponses`: reading function calls and content out of responses.
  - `LlmGuidance`: coercing verification guidance.
  - `LlmCategorize`: role categorisation with its "Other" bucket.
  - `LlmClient`: the client class whose methods tie these together and keep the
    usage metrics.
- `Reconcile`: the role changes that conclude a verification.
- `VerificationFlow`: the verification service. It covers opening a session, the
  DM conversation (specified by a recursive `Dialogue` function over a script of
  member events and LLM answers), and concluding.
- `EventListeners`: the listener cog, which handles taxonomy loading, saving and
  categorisation, the id-to-name map, and member joins.
- `AdminCommands`: the administrator commands.
- `SuspiciousAccount`: the suspicious-account service, which marks flagged members
  and performs the periodic clean-up.

Services whose fields the source updates are classes with `modifies` clauses:
- `Settings`;
- `LlmClient`, whose metric counters are fields;
- `VerificationFlowService`, whose active-session table is a `map`;
- `EventListenersCog`, which holds the taxonomy, the roles map and the roles file;
- `SuspiciousAccountService`.

The network, the file system, the clock, `json.loads`/`json.dumps` and the member's
replies are all parameters of the model:
- an HTTP attempt is a `PostOutcome`;
- the taxonomy file is a `RolesFile`;
- `json.loads` is a function `string -> Option<Json>`;
- the DM conversation is a sequence of `Event`s.

The code reads several `settings` attributes through `getattr` with a default.
`NOTIFICATION_CHANNEL_ID` is declared in `config.py`. The others are not declared, so
the settings object never has them: `LLM_MAX_HISTORY_MESSAGES`, `LLM_SUMMARY_MAX_CHARS`,
`HIERARCHY_BOUNDARY_ROLE_ID`, `SUSPICIOUS_ROLE_ID`, `SUSPICIOUS_ROLE_RETENTION_DAYS`,
`LLM_MAX_RESPONSE_TOKENS` and `SUSPICIOUS_CHECK_INTERVAL_HOURS`. The model takes each of
them as a parameter, so both the default and a configured value are covered. The one
exception is the clean-up interval, which only schedules the clean-up loop.

## Model

| member | source | states |
|---|---|---|
| Text.StripIdempotent | config.py:64 | stripping an already stripped string changes nothing; `Strip` itself keeps no leading or trailing whitespace (Python's whitespace set) and never grows |
| Text.JoinSplit | config.py:87 | joining the pieces of `s.split(c)` with `c` gives back `s` |
| Text.SplitJoin | config.py:87 | splitting a join of separator-free pieces gives back exactly those pieces; `Split` always yields at least one piece and no piece contains the separator |
| Text.JoinLength | config.py:87 | the length of a join is the pieces' total length plus one separator per gap |
| Text.NatToStringRoundTrip | config.py:87 | the decimal rendering of a natural number reads back (as `int()` reads digits) to the same number, and is a non-empty digit string |
| Text.SliceTo | cogs/admin_commands_cog.py:112 | Python's `s[:n]` is a prefix of `s`, of length `n` clamped to the length of `s` when `n >= 0` |
| Text.SliceFrom | services/verification_flow_service.py:397 | Python's `s[n:]` is a suffix of `s`, of length `-n` clamped to the length of `s` when `n < 0` |
| Json.Get | llm_integration/llm_client.py:540-541 | a dictionary lookup succeeds exactly when the key is present, and returns a value stored under that key |
| Json.GetReplace | llm_integration/llm_client.py:542-557 | after overwriting a present key, that key reads the new value and every other key reads what it read before |
| Json.Put | llm_integration/llm_client.py:542-557 | `d[k] = v` makes `k` read `v`, leaves every other key unchanged, and keeps the key order (appending `k` only when it was absent) |
| Guild.GetRoleResolves | services/verification_flow_service.py:337-339 | `guild.get_role(id)` finds a role exactly when `id` is one of the guild's role ids, and the role it returns has that id |
| Guild.CategoryIds | services/verification_flow_service.py:364-367 | the ids taken from a category are exactly the integers listed in it, and nothing when the category is not a list |
| Guild.ManagedIds | services/verification_flow_service.py:364-367 | the bot-managed role ids are exactly the integers listed in some taxonomy category |
| Config.ParseAdminRoleIds | config.py:83-90 | an empty setting gives no ids, and never more ids than comma-separated pieces |
| Config.CollectSkips | config.py:87 | a piece that is not `isdigit()` after stripping is skipped without affecting the other ids |
| Config.CollectFailsOnNotDecimal | config.py:86-90 | a piece that `isdigit()` accepts but `int()` rejects (a superscript digit) makes the whole list empty, as the `ValueError` handler does |
| Config.AdminRoleIdsRoundTrip | config.py:83-87 | rendering a list of ids comma-separated and parsing it back gives the same list |
| Config.TokenFromFileIsStripped | config.py:61-75 | a token taken from a readable secret file is stripped; with no usable file the environment value is kept |
| Config.Settings.constructor | config.py:11-56 | the settings hold the given environment values and an empty parsed admin list |
| Config.Settings.LoadSecretsFromFiles | config.py:58-80 | both tokens are replaced from their files when readable, and validation passes exactly when a non-empty bot token results |
| Config.Settings.ParseAdminRoles | config.py:92-94 | the parsed admin id list becomes the parse of the admin-ids setting, the tokens are unchanged |
| Templates.NoPlaceholders | llm_integration/llm_client.py:205-217 | a template without `$` substitutes to itself, safely or not |
| Templates.SafeAgreesWithSubstitute | llm_integration/llm_client.py:584-592 | whenever `substitute` succeeds, `safe_substitute` gives the same text |
| Templates.MissingPlaceholder | llm_integration/llm_client.py:500-510 | a placeholder whose name is not in the mapping raises the missing-key error (KeyError) |
| LlmTransport.BuildPayload | llm_integration/llm_client.py:94-109 | the payload carries the model and messages; a gpt-5 model forces temperature 1.0; a falsy `max_tokens` falls back to the default; functions and function_call are included exactly when given and truthy |
| LlmTransport.PromptCharsOfStrings | llm_integration/llm_client.py:113-121 | the characters counted for the metrics are the messages' total length plus one newline between each pair |
| LlmTransport.EstimatedTokens | llm_integration/llm_client.py:113-121 | the token estimate is at least one and is the character count divided by four |
| LlmTransport.RequestDataIsObject | llm_integration/llm_client.py:170-178 | a response that passes the shape check is a JSON object |
| LlmTransport.SecondAttemptOnlyAfterTimeout | llm_integration/llm_client.py:128-150 | unless the first attempt timed out, the second attempt's outcome cannot affect the result or the metrics |
| LlmTransport.FailuresGiveNothing | llm_integration/llm_client.py:154-194 | a timeout on the final attempt, a transport error, an HTTP error status or a non-JSON body yields no data and counts no truncation |
| LlmTransport.DirectContentAccepted | llm_integration/llm_client.py:170-178 | a body with `message.content` is accepted as is |
| LlmTransport.FunctionCallAccepted | llm_integration/llm_client.py:170-178 | a body whose first choice's message has a `function_call` is accepted as is |
| LlmTransport.TruncationCountedBeforeShapeCheck | llm_integration/llm_client.py:159-178 | a `finish_reason` of `length` is counted as truncated even when the body then fails the shape check |
| LlmPrompts.SmartTrim | llm_integration/llm_client.py:622-634 | text within the limit is unchanged; otherwise the result fits the limit, and for tiny limits it is a plain prefix |
| LlmPrompts.SmartTrimKeepsHeadAndTail | llm_integration/llm_client.py:622-634 | a trimmed text is a head of the original (at most 60% of the room), the trim marker, then a tail of the original |
| LlmPrompts.CollapsedSpacing | llm_integration/llm_client.py:616-619 | after collapsing, every whitespace character is a single space, no two whitespace characters are adjacent, and a leading whitespace run stays a leading space |
| LlmPrompts.WelcomePromptAsksForSpanish | llm_integration/llm_client.py:594-599 | after the language check, the welcome prompt always mentions Spanish |
| LlmPrompts.WelcomeSystemPromptFits | llm_integration/llm_client.py:584-644 | the final welcome system prompt never exceeds the configured character budget |
| LlmPrompts.WelcomeUserMessage | llm_integration/llm_client.py:602-613 | the welcome user message is at most 800 characters |
| LlmPrompts.WelcomeFallback | llm_integration/llm_client.py:678-683 | the fallback welcome is never empty and is the configured hard-coded message whenever one is set |
| LlmPrompts.SummaryBudget | llm_integration/llm_client.py:224-226 | the summary's response budget never exceeds the default, is 800 (capped) when none is given, and is the given value when that fits |
| LlmPrompts.SuspicionBudget | llm_integration/llm_client.py:290-291 | the same for the suspicion check, with 200 instead of 800 |
| LlmPrompts.WelcomeRetryAllowed | llm_integration/llm_client.py:656-675 | the welcome retry is attempted exactly when the default budget exceeds the first budget, and then the retry budget is larger |
| LlmResponses.NamedCallFound | llm_integration/llm_client.py:333-343 | a response whose first choice calls the named function yields that call's arguments |
| LlmResponses.OtherCallIgnored | llm_integration/llm_client.py:333-343 | a call to a differently named function yields no arguments |
| LlmResponses.SummaryFromResponse | llm_integration/llm_client.py:239-253 | a summary is produced exactly when the data is truthy and has string content, and it is stripped |
| LlmResponses.SuspicionFromResponse | llm_integration/llm_client.py:333-367 | a suspicion verdict, when there is one, is a JSON object |
| LlmResponses.HeuristicDecides | llm_integration/llm_client.py:357-367 | content that does not decode to an object is judged by the keyword heuristic, with its first 800 characters as the reason |
| LlmResponses.UndecodableArgumentsNotSuspicious | llm_integration/llm_client.py:333-343 | function-call arguments that do not decode give a not-suspicious verdict with the raw arguments (first 800 characters) as the reason |
| LlmResponses.FirstTextField | llm_integration/llm_client.py:695-715 | a text found in a function call's arguments is the string under one of `welcome_message`, `message`, `content`, `text` |
| LlmResponses.WelcomeFromResponse | llm_integration/llm_client.py:685-735 | a generated welcome message is non-empty and stripped |
| LlmResponses.WelcomePrefersContent | llm_integration/llm_client.py:685-694 | non-blank message content is used (stripped) before any function call |
| LlmGuidance.RoleLinesAreItems | llm_integration/llm_client.py:491-498 | every line of the roles text is a `- ` list item |
| LlmGuidance.RoleLinesEmpty | llm_integration/llm_client.py:491-498 | there are no role lines exactly when no category lists a role present in the roles map |
| LlmGuidance.RolesTextFallback | llm_integration/llm_client.py:491-498 | the roles text is the "no roles" sentence exactly when no category has a mapped role |
| LlmGuidance.CoerceCategory | llm_integration/llm_client.py:542-557 | a coerced category is always a list of integers |
| LlmGuidance.CoerceKeepsIntLists | llm_integration/llm_client.py:542-557 | a list of integers is left unchanged |
| LlmGuidance.CoerceCategoryIdempotent | llm_integration/llm_client.py:542-557 | coercing twice is the same as coercing once |
| LlmGuidance.CoerceDropsNoneAndRejectsBadEntries | llm_integration/llm_client.py:542-557 | `None` entries are dropped, and one non-numeric entry turns the whole category into an empty list |
| LlmGuidance.CoerceCategories | llm_integration/llm_client.py:542-557 | every category keeps its key and position and holds its coerced value |
| LlmGuidance.GuidanceDict | llm_integration/llm_client.py:570-578 | the fallback guidance says "not confirmed", has no classification, carries the given message and is itself acceptable |
| LlmGuidance.CoerceClassification | llm_integration/llm_client.py:542-557 | a missing or null classification leaves the guidance as it is, a non-dict becomes null, a dict has each category coerced; other keys are untouched |
| LlmGuidance.GuidanceFromParsed | llm_integration/llm_client.py:540-578 | an unacceptable parsed reply gives the fallback; an acceptable one is kept key for key except its classification, which is rewritten as `CoerceClassification` states (absent or null kept, a non-dict made null, a dict's categories coerced); the result is always acceptable |
| LlmCategorize.RoleListLines | llm_integration/llm_client.py:375-376 | the prompt lists one line per role |
| LlmCategorize.CategorizationPrompt | llm_integration/llm_client.py:375-376 | the categorisation prompt starts with the system prompt |
| LlmCategorize.NameToId | llm_integration/llm_client.py:401 | the name map has exactly the lower-cased role names, maps them to ids of those roles, and the last role of a name wins |
| LlmCategorize.ResolvedIds | llm_integration/llm_client.py:403-418 | only non-zero ids of known names are kept, and every listed name that resolves to a non-zero id is kept |
| LlmCategorize.ResolvedPrefixGet | llm_integration/llm_client.py:403-418 | a category is kept exactly when the LLM listed it and at least one of its names resolved, holding those ids |
| LlmCategorize.ResolvedPrefixIds | llm_integration/llm_client.py:403-418 | every categorised id is a role id from the name map |
| LlmCategorize.ResolveNames | llm_integration/llm_client.py:408-416 | the name-resolution loop computes the resolved id list |
| LlmCategorize.ResolveCategories | llm_integration/llm_client.py:403-418 | the category loop computes the resolved categories |
| LlmCategorize.SortedDistinct | llm_integration/llm_client.py:421-434 | `sorted(set(xs))` is strictly increasing with exactly the elements of `xs` |
| LlmCategorize.Unassigned | llm_integration/llm_client.py:421-434 | the unassigned ids are sorted and are exactly the sent roles not yet in a category |
| LlmCategorize.WithOtherCovers | llm_integration/llm_client.py:421-434 | after the "Other" step every sent role is in some category, the other categories are unchanged, and "Other" is extended by the unassigned ids |
| LlmCategorize.AddOther | llm_integration/llm_client.py:421-434 | the "Other" step computes that taxonomy |
| LlmCategorize.AppendToOther | llm_integration/llm_client.py:429-432 | the append loop extends "Other" by the given ids in order |
| LlmCategorize.CategoriesFromResponse | llm_integration/llm_client.py:372-444 | decodable arguments give categories covering exactly the sent roles, each named category holding its resolved ids, and `Other` holding its own resolved ids followed by every unplaced sent id in ascending order; anything else gives no categories |
| LlmCategorize.AsTaxonomy | llm_integration/llm_client.py:372-444 | the stored taxonomy has the same categories, in order, with the same ids |
| LlmClient.EnvInt | llm_integration/llm_client.py:51-69 | an integer environment setting is its parsed value, or the default when missing or unparsable |
| LlmClient.GuidanceFromResponse | llm_integration/llm_client.py:528-578 | the guidance is always acceptable; no response, no `propose_user_roles` call or undecodable arguments give the fallback; decoded arguments give the guidance of `GuidanceFromParsed`: the fallback when not acceptable, otherwise the reply with its classification coerced |
| LlmClient.UnacceptableArgumentsFallBack | llm_integration/llm_client.py:539-574 | arguments that decode but lack a required key or a boolean confirmation give the fallback |
| LlmClient.AcceptedReplyKept | llm_integration/llm_client.py:539-558 | an accepted reply keeps the LLM's message, confirmation and completion flags, and without a classification it is used exactly as decoded |
| LlmClient.LlmClient.constructor | llm_integration/llm_client.py:32-69 | the client takes the model and schemas, reads its integer settings with defaults 4096, 800 and 1024, and starts with zeroed metrics |
| LlmClient.LlmClient.MakeLlmRequest | llm_integration/llm_client.py:81-194 | one request sends the built payload, posts twice only after a timeout, returns the accepted data and advances each metric by exactly its share |
| LlmClient.LlmClient.GenerateNewUserSummary | llm_integration/llm_client.py:196-260 | a template with a missing or malformed placeholder gives the matching error text; otherwise the summary is read from the response |
| LlmClient.LlmClient.ClassifyUserForSuspicion | llm_integration/llm_client.py:262-370 | an empty template sends nothing; otherwise the request has the system prompt and the messages, the suspicion budget and the schema, and the verdict is read from the response |
| LlmClient.LlmClient.CategorizeServerRoles | llm_integration/llm_client.py:372-444 | without a schema nothing is sent and nothing is categorised; otherwise the result is the categorisation `CategoriesFromResponse` reads from the response, and a non-empty result covers exactly the sent roles |
| LlmClient.LlmClient.GetVerificationGuidance | llm_integration/llm_client.py:484-578 | template errors give the two error guidances without a request; without a schema there is no guidance; otherwise the request carries the rendered prompt, history and message, forces the proposal function, and the guidance is the one `GuidanceFromResponse` reads from the response |
| LlmClient.LlmClient.GenerateWelcomeMessage | llm_integration/llm_client.py:580-735 | the welcome text is never empty; hard-coded mode gives the fallback; a retry is made exactly when the first reply was cut off without content and a larger budget exists; the text is generated from the retry's reply when that is truthy, otherwise from the first reply, and is the fallback when the reply gives no usable text |
| Reconcile.FailureDelta | services/verification_flow_service.py:441-449 | a failure only removes held roles and adds missing guild roles (in-progress off, unverified on) |
| Reconcile.SuccessDeltaAsWritten | services/verification_flow_service.py:349-377 | the success role changes as the code computes them: only held roles are removed and only missing guild roles are added |
| Reconcile.SuccessDelta | services/verification_flow_service.py:349-377 | the corrected success changes never remove the verified role |
| Reconcile.VerifiedRoleStrippedAsWritten | services/verification_flow_service.py:361-377 | a concrete member who holds the verified role, listed in a category but not confirmed, loses it on success |
| Reconcile.VerifiedRoleStrippedWhenManaged | services/verification_flow_service.py:361-377 | as written, whenever the verified role is managed and not confirmed, a successful verification ends without it |
| Reconcile.SuccessDeltaAgreesWithoutStatusRoles | services/verification_flow_service.py:363-377 | when no status role is in the taxonomy, the corrected changes equal the code's |
| Reconcile.SuccessOutcome | services/verification_flow_service.py:349-377 | after success the member is verified, neither in progress nor unverified, holds exactly the confirmed skill roles among the managed ones, and keeps every other role |
| Reconcile.SuccessDeltaIdempotent | services/verification_flow_service.py:349-377 | concluding successfully a second time changes nothing |
| Reconcile.FailureDeltaIdempotent | services/verification_flow_service.py:441-449 | concluding with failure a second time changes nothing |
| Reconcile.SuccessDeltaAsWrittenNotIdempotent | services/verification_flow_service.py:361-377 | as written, a second identical conclusion removes the verified role the first one added |
| Reconcile.ConcludeDelta | services/verification_flow_service.py:345-377 | the conclusion's add and remove lists hold exactly the failure changes, or the success changes as the code computes them, with every taxonomy id (status roles included) counted as a managed skill role |
| Reconcile.ConcludeDeltaCorrected | services/verification_flow_service.py:363-377 | with the status roles kept out of the managed set, the same lists hold exactly the corrected success changes |
| Reconcile.AddConfirmedSkills | services/verification_flow_service.py:369-373 | the add list gains exactly the confirmed managed guild roles not yet held |
| Reconcile.RemoveUnconfirmedSkills | services/verification_flow_service.py:374-377 | the remove list gains exactly the held managed roles that were not confirmed |
| VerificationFlow.ManageableRoles | services/verification_flow_service.py:32-55 | the listed roles are exactly the held roles that are managed and named; the text explains missing role data, no held skill roles, or lists them |
| VerificationFlow.UpdateSessionIff | services/verification_flow_service.py:83-89 | a session updates roles exactly when the member holds the verified role or some named managed role |
| VerificationFlow.FirstSession | services/verification_flow_service.py:91-119 | a new session has the configured retries, the opening DM as its only history entry and the update flag |
| VerificationFlow.OpeningDm | services/verification_flow_service.py:116-119 | the opening DM greets the member by mention |
| VerificationFlow.TrimHistory | services/verification_flow_service.py:225-235 | a long history keeps its first entry and the last `max-1` entries, followed by the trim note; a short one is unchanged |
| VerificationFlow.TurnContent | services/verification_flow_service.py:205-217 | on the last attempt the member's input is prefixed with the final-attempt instruction; otherwise it is sent as is |
| VerificationFlow.ContextNote | services/verification_flow_service.py:194-203 | an update session's note lists the held roles, or is the generic note when the member holds none |
| VerificationFlow.ConfirmedIds | services/verification_flow_service.py:263-269 | an empty classification confirms nothing, a non-dict one fails, and confirmed ids are always guild roles |
| VerificationFlow.ConfirmedIdsListed | services/verification_flow_service.py:263-269 | the confirmed ids are exactly the guild role ids listed as integers under some category |
| VerificationFlow.CoercedClassificationConfirms | services/verification_flow_service.py:263-269 | a classification whose categories are integer lists never fails confirmation |
| VerificationFlow.SummaryInput | services/verification_flow_service.py:390-414 | the summary input keeps the tail of the user-only history text and never exceeds the character budget plus the truncation mark |
| VerificationFlow.UserMessages | services/verification_flow_service.py:429 | the analysed messages are exactly the contents of the user entries |
| VerificationFlow.TurnEnding | services/verification_flow_service.py:246-274 | a turn continues exactly when the guidance is missing or falsy, or holds `message_to_user` and did not confirm; a confirmation succeeds with the classification's ids; anything else, including a truthy guidance without `message_to_user`, is an internal error |
| VerificationFlow.DialogueScript | services/verification_flow_service.py:177-294 | every LLM request of a conversation is well formed and continues from the previous turn's history and retries |
| VerificationFlow.DialogueUsed | services/verification_flow_service.py:274-294 | a conversation uses up at most the session's retries |
| VerificationFlow.MalformedGuidanceEndsDialogue | services/verification_flow_service.py:246-251 | a truthy guidance without `message_to_user` ends the conversation on that reply as an internal error, without using an attempt |
| VerificationFlow.DialogueEnding | services/verification_flow_service.py:260-298 | a conversation succeeds exactly when its last request confirmed, and then with that request's ids; otherwise nothing is confirmed |
| VerificationFlow.VerificationFlowService.constructor | services/verification_flow_service.py:26-30 | the service starts with no active sessions |
| VerificationFlow.VerificationFlowService.OpenSession | services/verification_flow_service.py:58-114 | bots, members already in a session, or a missing in-progress role open nothing; otherwise a new session is stored and the member gains the in-progress role |
| VerificationFlow.VerificationFlowService.ConcludeVerification | services/verification_flow_service.py:324-471 | the session is dropped; a member who left gets no changes; otherwise the role changes are those of `ConcludeDelta`, as the code computes them, and a first verification sends the trimmed summary input and the user's messages for analysis |
| VerificationFlow.VerificationFlowService.Converse | services/verification_flow_service.py:177-294 | the DM loop produces exactly the requests, retries used, session and ending of `Dialogue` |
| VerificationFlow.VerificationFlowService.HandleDmConversation | services/verification_flow_service.py:152-298 | without a session nothing happens; otherwise the session ends, a missing prompt or missing role data fails, and a ready conversation concludes as its dialogue ends, with the role changes of `ConcludeDelta` as the code computes them |
| VerificationFlow.VerificationFlowService.StartVerificationProcess | services/verification_flow_service.py:58-149 | refusals open nothing; a DM that cannot be sent fails at once; otherwise the first session's dialogue decides the conclusion, with the role changes of `ConcludeDelta` as the code computes them, and no session is left behind |
| EventListeners.TaxonomyIdsAreManaged | cogs/event_listeners_cog.py:76-84 | the ids the map walks are exactly the managed ids |
| EventListeners.TaxonomyIdsOfCategories | cogs/event_listeners_cog.py:76-84 | the ids of a stored categorisation are exactly the categorised ids |
| EventListeners.NameCategoriesAt | cogs/event_listeners_cog.py:61-91 | a role id is in the map exactly when it was before or is categorised and resolves in the guild, and then maps to that role's name |
| EventListeners.RolesMapNamesManagedRoles | cogs/event_listeners_cog.py:61-91 | a rebuilt map names exactly the managed roles present in the guild, by their names |
| EventListeners.CategorizationInputRoles | cogs/event_listeners_cog.py:126-181 | the roles sent are exactly the eligible guild roles (not default, managed, bot, integration or booster), below the boundary when one is configured |
| EventListeners.RebuiltMapCoversSentRoles | cogs/event_listeners_cog.py:61-91 | after a categorisation that covers the sent roles, the rebuilt map names exactly those roles |
| EventListeners.CandidateRoles | cogs/event_listeners_cog.py:154-158 | the candidate loop keeps exactly the eligible roles, in order |
| EventListeners.WelcomeEmbedNeverBuilt | cogs/event_listeners_cog.py:284-300 | as written, the welcome text (a string) is never turned into an embed |
| EventListeners.WelcomeEmbed | cogs/event_listeners_cog.py:284-300 | the corrected embed carries the generated welcome text and the default title |
| EventListeners.EventListenersCog.constructor | cogs/event_listeners_cog.py:14-22 | the cog starts with an empty taxonomy and roles map |
| EventListeners.EventListenersCog.UpdateServerRolesMap | cogs/event_listeners_cog.py:61-91 | the roles map is refreshed from the taxonomy, which is unchanged |
| EventListeners.EventListenersCog.LoadCategorizedRolesFromFile | cogs/event_listeners_cog.py:36-59 | a stored object becomes the taxonomy and refreshes the map; a missing or non-object file changes nothing; an unreadable or corrupt file clears the taxonomy |
| EventListeners.EventListenersCog.SaveCategorizedRolesToFile | cogs/event_listeners_cog.py:94-104 | a writable file gets the taxonomy and the map is refreshed; otherwise nothing changes |
| EventListeners.EventListenersCog.PerformRoleCategorization | cogs/event_listeners_cog.py:106-223 | a loaded file is used without any LLM call; otherwise the eligible roles are sent when there are any and a prompt exists, a non-empty result replaces the taxonomy, and it then covers exactly the sent roles |
| EventListeners.EventListenersCog.OnMemberJoin | cogs/event_listeners_cog.py:247-306 | bots are ignored; verification starts when the service exists; a welcome embed is built exactly when a welcome channel, client, text channel and prompt exist, with a non-empty description |
| AdminCommands.CheckAdminRoles | cogs/admin_commands_cog.py:12-29 | a user is admin exactly when the admin list parsed and some admin id is among their roles |
| AdminCommands.BatchCandidatesMembers | cogs/admin_commands_cog.py:94-104 | the batch candidates are exactly the non-bot members who are unverified, not verified and not in progress |
| AdminCommands.SelectBatchCandidates | cogs/admin_commands_cog.py:94-106 | the scan stops after twice the count and yields that prefix of the candidates |
| AdminCommands.StartedIdsMembers | cogs/admin_commands_cog.py:118-125 | a started id is exactly a batch member whose start did not raise |
| AdminCommands.RunBatch | cogs/admin_commands_cog.py:118-127 | the processed and error counts add up to the batch size and the processed ones are those started |
| AdminCommands.InitiateVerificationBatch | cogs/admin_commands_cog.py:71-127 | the guild, service and unverified-role checks answer in order; otherwise the batch is the first `count` candidates and every one is either started or an error |
| AdminCommands.NeedsResetMeaning | cogs/admin_commands_cog.py:154-167 | a member needs a reset exactly when not a bot, not verified, and in progress or not unverified |
| AdminCommands.SelectStaleMembers | cogs/admin_commands_cog.py:154-167 | the scan collects exactly the members needing a reset |
| AdminCommands.ResetSettles | cogs/admin_commands_cog.py:173-182 | after a reset the member is unverified, not in progress, and no longer needs a reset |
| AdminCommands.ResetKeepsUnresolvedInProgress | cogs/admin_commands_cog.py:173-182 | when the in-progress role does not exist in the guild, a member holding it still needs a reset afterwards |
| AdminCommands.ResetChangesCover | cogs/admin_commands_cog.py:173-188 | every selected member whose update does not fail gets the failure role changes |
| AdminCommands.ApplyResets | cogs/admin_commands_cog.py:173-188 | the reset loop applies exactly those changes and counts them |
| AdminCommands.ResetStaleVerifications | cogs/admin_commands_cog.py:132-191 | guild and role checks answer first; otherwise nothing to reset, or the stale members are reset and counted |
| AdminCommands.SummaryText | cogs/admin_commands_cog.py:226 | no categories give the "none found" sentence; otherwise the text starts with the first line |
| AdminCommands.TruncateSummary | cogs/admin_commands_cog.py:228-230 | a long summary keeps its first 1797 characters followed by the truncation marker |
| AdminCommands.TruncateField | cogs/admin_commands_cog.py:256-258 | an embed field is at most 1000 characters, keeping 997 and `...` when cut |
| AdminCommands.CategoryFields | cogs/admin_commands_cog.py:246-259 | there is one field per category, named after it and within the field limit |
| AdminCommands.FieldsFailWithSummary | cogs/admin_commands_cog.py:209-259 | the embed fields fail exactly when the summary lines fail |
| AdminCommands.RebuildRoleCategories | cogs/admin_commands_cog.py:196-274 | outside a guild nothing changes; otherwise the taxonomy is rebuilt: empty when there are no roles to send or no prompt, else the LLM's categories, which cover exactly the sent roles, or the old taxonomy when the LLM gave none; it is saved when the file is writable; the reply is the header and the truncated summary, and a notification with the category fields is sent exactly when a channel is configured |
| SuspiciousAccount.ReasonPrefix | services/suspicious_account_service.py:65 | a string reason is cut to a prefix of at most the limit and kept whole when it fits; a non-string reason fails |
| SuspiciousAccount.RoleAddition | services/suspicious_account_service.py:61-68 | the suspicious role is added exactly when flagged, configured, present in the guild, not yet held and the reason is a string, with the reason cut to 200 characters in the audit text |
| SuspiciousAccount.NoticeReason | services/suspicious_account_service.py:84 | the notice's reason is non-empty and at most 500 characters |
| SuspiciousAccount.Notification | services/suspicious_account_service.py:70-94 | admins are notified exactly when flagged, role and channel configured, the channel a text channel and the reason a string; the notice names the member's id |
| SuspiciousAccount.UnflaggedMemberUntouched | services/suspicious_account_service.py:58-94 | a member not flagged gets neither the role nor a notification |
| SuspiciousAccount.MarkingIdempotent | services/suspicious_account_service.py:61-68 | once the role was added, marking again adds nothing |
| SuspiciousAccount.SuspiciousAccountService.constructor | services/suspicious_account_service.py:11-16 | the service starts without a clean-up task |
| SuspiciousAccount.SuspiciousAccountService.Start | services/suspicious_account_service.py:18-24 | start creates a running task only when none exists |
| SuspiciousAccount.SuspiciousAccountService.Stop | services/suspicious_account_service.py:26-29 | stop cancels an existing task and does nothing otherwise |
| SuspiciousAccount.SuspiciousAccountService.AnalyzeAndMark | services/suspicious_account_service.py:31-98 | the response is the truthy verdict of the suspicion request; without one nothing is marked; with one the role addition and notification are the ones above |
| SuspiciousAccount.CleanupRemovalsAre | services/suspicious_account_service.py:100-126 | the clean-up removes the role exactly from members holding it, in guilds where it exists, who joined at least the retention period ago |
| SuspiciousAccount.CleanupMonotoneInTime | services/suspicious_account_service.py:113-119 | a member due for removal now is still due later |
| SuspiciousAccount.CleanupGuild | services/suspicious_account_service.py:114-124 | the per-guild loop removes exactly the expired holders |
| SuspiciousAccount.PeriodicCleanup | services/suspicious_account_service.py:100-126 | without a configured role nothing is removed; otherwise exactly the clean-up removals |

## Left out

- Discord and network I/O are not modelled. Sending messages, embeds and DMs, adding or removing roles, and the HTTP client are all outside the model. The model computes what would be sent or changed. Role mutations are assumed to succeed, since the source only logs `Forbidden` and HTTP failures. The one exception is the admin reset, where a member's update can fail as a whole (`fails`).
- The wording of DMs, admin notifications and log lines is not modelled, except where a text is part of a stated property.
- Concurrency is not modelled: `asyncio.create_task`, `wait_for`, the `tasks.loop` scheduling and `asyncio.sleep` back-off. Background tasks appear as their inputs (for example the analysed messages in a conclusion).
- The member's first message in the DM is a parameter (`firstMessage`), not the full rendered opening text.
- A DM channel that cannot be opened, and a DM refused mid-conversation, are events of the script. The `dm_channel is None` branch shares the failure path.
- `int()` on a string is modelled by `LlmGuidance.ParseIntText`. It reads surrounding whitespace, an optional sign and ASCII decimal digits. Python also accepts underscores between digits and non-ASCII decimal digits; the model rejects both.
- Config.ParseAdminRoleIds: `isdigit()` is modelled with a partial set of the characters it accepts and `int()` rejects. The set holds the superscript and subscript digits and the circled digits one to nine. Other such characters, for example ⓪, ❶ and ➀, empty the whole list in the source; the model skips the piece that holds them.
- `str.lower` is modelled for ASCII letters only.
- Floating-point values (the temperature, JSON numbers) are not modelled. A temperature is a `real` that is passed through unchanged.
- Prompt files, schema files, the taxonomy file and secret files are parameters. This covers the `os.path.exists` check of the suspicion prompt path, so `AnalyzeAndMark` takes the template content. A partially written taxonomy file is not modelled.
- The second, unreachable categorisation body after the `return` in `categorize_server_roles` (llm_client.py:445-482) is dead code and is not modelled.
- `notify_admin_unmappable_skill` is defined twice (verification_flow_service.py:473 and 492), and the second definition wins. It only sends a notification, so it is not modelled.
- The usage metrics are modelled as counters. Their logging is not modelled.
- The lookup of the listener cog in `rebuild-role-categories` is taken as successful.
- `on_ready`, `verify_user` and the user commands only call the modelled operations. They are not modelled separately.
- `str(member.joined_at)` in the suspicious-account notice is kept as the raw timestamp.
- A reason that is a list (where `reason[:200]` slices a list) is treated like any other non-string reason.
- SuspiciousAccount.PeriodicCleanup: takes one `now` for all guilds, while the source reads the clock again for each guild. The per-guild timestamps are not modelled.
- SuspiciousAccount.CleanupMonotoneInTime: stated in whole days (`//` of the second count). It is not stated in terms of the `timedelta.days` of aware datetimes.
- LlmResponses.SuspicionFromResponse: states only that a verdict is an object. The individual paths are stated by `HeuristicDecides` and `UndecodableArgumentsNotSuspicious`.
- AdminCommands.ApplyResets: a member's update either happens in full or fails in full. In the source, `add_roles` can raise after `remove_roles` has already taken the in-progress role away (cogs/admin_commands_cog.py:177-181). That member has then lost the in-progress role but is not counted. This partial case is not modelled.
- Guild.ManagedIds: a taxonomy category whose value is not a list adds no ids. In the source, `set.update` raises `TypeError` on a number, boolean or null value (services/verification_flow_service.py:41 and 366-367), which aborts that step. A string or dict value adds its characters or keys, which are never integer role ids. Such a value can only come from a hand-edited taxonomy file. The raise is not modelled.
- EventListeners.EventListenersCog.OnMemberJoin: the welcome prompt gets the member's `name`. The source passes `display_name` (cogs/event_listeners_cog.py:279). Members have no separate display name in the model.
- Json: a `JObject` may repeat a key, which `json.loads` never produces (there the last value wins). The `parse` parameter is not constrained to exclude this. Members that walk the fields, such as `NameCategories`, `TaxonomyIds`, `CoerceCategories` and `ResolveCategories`, would then also visit the shadowed entries.
- Guild.CategoryIds: a JSON `true` or `false` in a category list is skipped. Python treats it as role id 1 or 0, because `isinstance(True, int)` holds (cogs/event_listeners_cog.py:81, and `set.update` at services/verification_flow_service.py:41 and 367).

## Findings

| source | as written | input that shows it | evidently intended | confidence | as-written member | corrected member |
|---|---|---|---|---|---|---|
| services/verification_flow_service.py:363-377 | every id listed in the taxonomy counts as a bot-managed skill role. The taxonomy's "Other" bucket receives every eligible role, including the verified, unverified and in-progress status roles. On success a held managed role that was not confirmed is removed. | a member holding the verified role (id 1) and a skill role (5), with taxonomy ids {1, 5}, who confirms only role 5: the success changes remove role 1, and a second identical conclusion adds then removes it again | status roles are never treated as skill roles, so a successful verification always leaves the member verified | not executed | Reconcile.SuccessDeltaAsWritten, Reconcile.VerifiedRoleStrippedAsWritten, Reconcile.SuccessDeltaAsWrittenNotIdempotent, Reconcile.ConcludeDelta | Reconcile.SuccessDelta, Reconcile.SuccessOutcome, Reconcile.SuccessDeltaIdempotent, Reconcile.ConcludeDeltaCorrected |
| cogs/event_listeners_cog.py:284-300 | `generate_welcome_message` returns a string, but the listener calls `.get("title", ...)` on it. The resulting `AttributeError` is caught by the generic handler, so the welcome embed is never sent. | any member join with a welcome channel and prompt configured, for example a welcome text "Hi" | the generated text becomes the embed description, under the default Spanish title | not executed | EventListeners.WelcomeEmbedAsWritten, EventListeners.WelcomeEmbedNeverBuilt | EventListeners.WelcomeEmbed, EventListeners.EventListenersCog.OnMemberJoin |

The verification service (`ConcludeVerification` and the methods that call it) follows the first row as written. `Reconcile.ConcludeDeltaCorrected` is the conclusion with the fix applied.
