# NoseCone relay model

NoseCone is a Discord bot that relays Discord activity to n8n workflows
over HTTP webhooks. This project models the relay core of the bot in
Dafny and proves what it does:

- **Intake** (`messageCreate`, `interactionCreate`). It decides which Discord messages and slash
  commands are forwarded, under which message type (`channel`, `dm`, `slash`) and with which command
  data. It also decides which debug acknowledgement is posted back.
- **Payload building and routing** (`N8nService`). It builds the webhook payload and always posts it
  to the primary webhook. When the message carries command data and a secondary webhook is
  configured, it also posts to the secondary webhook. Every POST goes through the retry-with-backoff
  combinator.
- **Helpers and validators.** These are the retry combinator, command parsing, truncation, the
  response constructors, and the token, snowflake, payload and input checks.
- **Configuration.** It loads the environment variables with their defaults, validates them with
  ordered error accumulation, and serves dot-path lookup and the getters.
- **The `/workflow` command.** This covers subcommand dispatch, the manual trigger with its command
  data and reply selection, and `formatUptime`.

Modules follow the source files:

| module | file | source file |
|---|---|---|
| `Strings` | strings.dfy | JavaScript string operations: trim, whitespace split, `split`, `join`, lower-casing, number to string |
| `JsValues` | js_values.dfy | dynamic JavaScript values: truthiness, `String(v)`, `obj?.[key]` |
| `DiscordTypes` | discord_types.dfy | the Discord records the core reads (user, member, channel, guild, message) |
| `Helpers` | helpers.dfy | src/utils/helpers.js |
| `Validators` | validators.dfy | src/utils/validators.js |
| `N8n` | n8n_service.dfy | src/services/n8nService.js |
| `ConfigService` | config_service.dfy | src/services/configService.js |
| `DiscordService` | discord_service.dfy | src/services/discordService.js |
| `MessageCreate` | message_create.dfy | src/events/messageCreate.js |
| `InteractionCreate` | interaction_create.dfy | src/events/interactionCreate.js |
| `Workflow` | workflow.dfy | src/commands/workflow.js |

The effectful parts are parameters of the model.

- **HTTP.** An HTTP endpoint is a `Server`, a function from a request to the outcome of each attempt
  of that request. A send method returns the requests it issued and the waits it asked for.
- **Waits.** `retryWithBackoff` is a `while` loop that records its waits in a list. It does not
  sleep.
- **Clock.** The current ISO time is a `now` parameter. `Date.now()` is a `millis` parameter.
- **URL validation.** `validateUrl` is a predicate parameter `urlOk`.
- **Exceptions.** A JavaScript exception that the code catches is a `Completion` value, either
  `Normal(value)` or `Threw(message)`, and the catch branch is modelled on it.
- **Payloads.** Payloads and command data are `JsValue` objects, so key presence can be stated.
  Key order is not kept.

## Model

| member | source | states |
|---|---|---|
| Helpers.FormatUser | src/utils/helpers.js:19-21 | the text is the username, '#', the discriminator, a space, then the id in parentheses, with the exact length |
| Helpers.FormatChannel | src/utils/helpers.js:28-30 | the text is '#', the channel name, a space, then the id in parentheses; a missing name renders as "undefined" |
| Helpers.TruncateText | src/utils/helpers.js:38-43 | text within maxLength is unchanged; longer text becomes its first maxLength−3 characters plus "...", of length exactly maxLength when maxLength ≥ 3; for maxLength < 3 the negative count is taken from the end, so the text minus its last 3−maxLength characters (or none of it) is followed by "..." |
| Helpers.ParseCommand | src/utils/helpers.js:51-60 | the result is null exactly when the content does not start with the prefix |
| Helpers.ParseCommandTokens | src/utils/helpers.js:56-59 | the command has no white space or upper-case letter; the args are non-empty and free of white space; the lower-cased command and the args spell the non-white-space characters after the prefix, in order; an empty command has no args |
| Helpers.WordShapes | src/utils/helpers.js:56 | the words of trimmed text hold no white space, none after the first is empty, and an empty first word stands alone |
| Helpers.WordLetters | src/utils/helpers.js:56-57 | the lower-cased first word is the lower-cased start of the text without its white space, and the remaining words concatenate to the rest of it |
| Helpers.ParseCommandWords | src/utils/helpers.js:51-60 | for content made of the prefix, optional white space, non-empty words separated by runs of white space, and optional white space, the command is the first word lower-cased and the args are the other words as typed, in order |
| Helpers.ParseCommandBlank | src/utils/helpers.js:51-60 | the prefix followed by nothing but white space parses to the empty command with no args |
| Helpers.CreateErrorResponse | src/utils/helpers.js:68-77 | the response is not a success and carries the given message and type, defaulting to 'error', plus the timestamp |
| Helpers.CreateSuccessResponse | src/utils/helpers.js:85-92 | the response is a success carrying the data and the message, defaulting to 'Success', plus the timestamp |
| Helpers.BackoffDelays | src/utils/helpers.js:110-115 | there is one wait per failed attempt that is not the last |
| Helpers.BackoffDelayAt | src/utils/helpers.js:114 | the wait after failed attempt i is baseDelay·2^i |
| Helpers.StopIndex | src/utils/helpers.js:104-112 | the loop stops at the first success or at attempt maxRetries, and every attempt before it failed |
| Helpers.RetryWithBackoff | src/utils/helpers.js:101-120 | the operation is called 1 to maxRetries+1 times; every call but the last failed; the result is the last call's outcome; a failure means the budget was used up; the waits are baseDelay·2^i after each failed attempt but the last |
| Helpers.UniqueStop | src/utils/helpers.js:104-112 | the attempt the loop stops at is determined by the outcomes: failures up to k and then a success, or k = maxRetries |
| Helpers.StopFrom | src/utils/helpers.js:104-112 | the same, for a loop started at attempt i |
| Helpers.BackoffTotal | src/utils/helpers.js:114-115 | k waits sum to baseDelay·(2^k − 1) |
| Helpers.RetryAfterFailures | src/utils/helpers.js:101-120 | k ≤ maxRetries failures and then a success give exactly k+1 calls, the success as result, and total wait baseDelay·(2^k − 1) |
| Helpers.RetryExhausted | src/utils/helpers.js:104-119 | when every attempt fails there are maxRetries+1 calls and the last attempt's error is rethrown |
| Validators.BotTokenMatchesPattern | src/utils/validators.js:17-24 | a string is accepted exactly when it is three '.'-separated segments over [A-Za-z0-9_-] of lengths 23–28, 6 and at least 27 |
| Validators.AcceptedTokenMatches | src/utils/validators.js:23-24 | an accepted token has that shape |
| Validators.MatchingTokenAccepted | src/utils/validators.js:23-24 | a token of that shape, with its first dot at 23 to 28, is accepted |
| Validators.NatToStringLength | src/utils/validators.js:55 | a number has at most d decimal digits exactly when it is below 10^d |
| Validators.SnowflakeOfId | src/utils/validators.js:50-56 | the decimal rendering of n is a valid snowflake exactly when n has 17 to 19 digits |
| Validators.RemoveAll | src/utils/validators.js:70-71 | the result keeps only characters of the input that are not removed, and is no longer |
| Validators.RemoveAllAppend | src/utils/validators.js:70-71 | removal from two joined strings is the join of the two removals, so order is kept |
| Validators.RemoveAllChar | src/utils/validators.js:70-71 | a single character is kept exactly when it is not in the removed class |
| Validators.SanitizeInput | src/utils/validators.js:64-74 | non-string input gives ''; the output has no '<', '>' or '`', is at most 2000 characters long, does not start with white space, and is a prefix of the trimmed, filtered input, equal to it when that fits and exactly its first 2000 characters when it does not |
| Validators.TrimSubset | src/utils/validators.js:72 | trimming adds no character |
| Validators.ValidateWebhookPayload | src/utils/validators.js:81-88 | true exactly for an object that has the keys messageType and message; values are not looked at |
| Validators.ValidateBotToken | src/utils/validators.js:17-24 | only a non-empty string can be accepted; falsy and non-string tokens are refused |
| Validators.ValidateSnowflake | src/utils/validators.js:50-56 | an id is accepted exactly when it is a string of 17 to 19 decimal digits; the falsy check refuses nothing more |
| N8n.RequestHeaders | src/services/n8nService.js:21-35 | the headers are JSON content type, the NoseCone user agent, and "Authorization: Bearer <token>" exactly when a webhook token is configured |
| N8n.RoleIds | src/services/n8nService.js:75 | the roles are the member's role ids in order, or [] without a member or role cache |
| N8n.ChannelName | src/services/n8nService.js:79 | the channel name is kept when set and non-empty, otherwise 'DM' |
| N8n.CreateWebhookPayload | src/services/n8nService.js:64-99 | building throws only for an invalid creation date, and a built payload always passes validateWebhookPayload |
| N8n.PayloadFields | src/services/n8nService.js:65-96 | the payload's keys are messageType, message and, exactly when the command is truthy, command; the command is stored unchanged |
| N8n.MessageObjectFields | src/services/n8nService.js:67-91 | the message part holds the message's id, content and timestamp; the author's id, username, discriminator and role ids; the channel's id, name ('DM' when missing or empty) and type; and a guild entry exactly when the message has a guild |
| N8n.MessageObjectTop | src/services/n8nService.js:67-91 | the top-level id, content and timestamp entries, and a guild entry with the guild's id and name exactly when the message has a guild |
| N8n.MessageObjectNested | src/services/n8nService.js:71-81 | one level down: the author's id, username, discriminator and role ids, and the channel's id, name and type |
| N8n.TestPayload | src/services/n8nService.js:198-216 | the test payload passes validateWebhookPayload |
| N8n.TestPayloadIsBuilt | src/services/n8nService.js:198-216 | the test payload is the payload built for a memberless, guildless 'test' message; it has roles [], no guild and no command |
| N8n.Repeat | src/services/n8nService.js:114-116 | definition: the request log of a retried POST is the same request once per attempt |
| N8n.DeliveredOutcome | src/services/n8nService.js:113-127 | a delivery succeeds exactly when one of its 4 attempts succeeds, then carries that success's data; otherwise it is a 'webhook_error' naming the last attempt's error after the prefix |
| N8n.ProcessingFailure | src/services/n8nService.js:187-190 | the catch response is a 'processing_error' whose message is "Message processing failed: " plus the error |
| N8n.N8nService.constructor | src/services/n8nService.js:11-14 | the service keeps the n8n configuration it is given |
| N8n.N8nService.SendToWebhook | src/services/n8nService.js:106-128 | an invalid payload throws before any POST; otherwise the payload is posted to the primary URL with retries, and the outcome, request log and waits are those of the retry loop |
| N8n.N8nService.SendToSecondaryWebhook | src/services/n8nService.js:135-161 | without a secondary URL it returns 'config_error' without posting, before checking the payload; otherwise it behaves as SendToWebhook against the secondary URL |
| N8n.N8nService.ProcessMessage | src/services/n8nService.js:170-191 | the outcome, request log and waits are those given by ProcessResult, ProcessRequests and ProcessDelays, whose properties ProcessRouting and ProcessFailureIsFlat state |
| N8n.N8nService.Deliver | src/services/n8nService.js:175-186 | a valid payload goes to the primary webhook, then to the secondary one when the command is truthy and a secondary URL is set |
| N8n.N8nService.ProcessRouting | src/services/n8nService.js:172-186 | with a valid date the result is routed; it has a secondary result exactly when it fans out, whatever the primary did; the primary is attempted first, 1 to 4 times, then the secondary; every request carries the one payload built |
| N8n.N8nService.ProcessFailureIsFlat | src/services/n8nService.js:187-190 | an invalid date sends nothing and gives the flat 'processing_error' response, which has no primary |
| N8n.N8nService.TestWebhook | src/services/n8nService.js:197-220 | the test payload goes only to the primary URL, once per attempt of the retry against the server's answers, with the doubling waits from 1000 ms between attempts; the result is that of the last attempt |
| ConfigService.EnvVar | src/services/configService.js:21-33 | a variable is present exactly when the environment has it |
| ConfigService.LoadConfig | src/services/configService.js:18-36 | each setting is its variable; the prefix is BOT_PREFIX when set and non-empty and '!' otherwise; debugMode holds exactly when DEBUG_MODE is 'true' |
| ConfigService.MessagesDistinct | src/services/configService.js:47-73 | different problems are reported with different messages |
| ConfigService.MessageKey | src/services/configService.js:47-73 | each message is identified by its length and its ninth character |
| ConfigService.ValidateConfig | src/services/configService.js:43-81 | the pushed errors are the messages of the problems found, in check order; it throws exactly when there is one, with the joined message |
| ConfigService.CheckRequired | src/services/configService.js:47-64 | a required setting pushes "is required" when missing, otherwise the format message when its check fails |
| ConfigService.CheckOptional | src/services/configService.js:66-73 | an optional setting pushes its format message only when it is set and fails its check |
| ConfigService.Messages | src/services/configService.js:48-72 | definition: one message per problem, in order |
| ConfigService.MessagesOfProblems | src/services/configService.js:47-73 | the messages are those of the five checks, concatenated in order |
| ConfigService.ProblemsInCheckOrder | src/services/configService.js:47-73 | the problems appear in the order of the checks, each at most once |
| ConfigService.RequiredBeforeFormat | src/services/configService.js:47-64 | a missing required value is reported as required and never as badly formatted; a present one is reported as badly formatted exactly when its check fails |
| ConfigService.ProblemPieces | src/services/configService.js:47-73 | a problem is reported exactly when the check of its own setting reports it |
| ConfigService.OptionalOnlyWhenSet | src/services/configService.js:66-73 | the secondary webhook and the command channel are reported only when set and invalid |
| ConfigService.ValidConfigIff | src/services/configService.js:43-81 | validation passes exactly when every required setting is present and valid and every optional setting that is set is valid |
| ConfigService.FailureListsMessages | src/services/configService.js:75-78 | the thrown message is the heading and then every error on a line of its own, so splitting on newlines gives the errors back |
| ConfigService.NoNewline | src/services/configService.js:48-72 | no validation message contains a newline |
| ConfigService.GetStopsAtMissing | src/services/configService.js:112-114 | get yields undefined as soon as a path segment is missing |
| ConfigService.GetSegments | src/services/configService.js:112-114 | get on dot-joined keys follows those keys one by one |
| ConfigService.GetSection | src/services/configService.js:112-114 | get on a path without a dot is a single lookup |
| ConfigService.GetUnknownSection | src/services/configService.js:112-114 | get on a path whose first segment is not discord, n8n or bot, the empty path included, gives undefined |
| ConfigService.GetDiscordConfig | src/services/configService.js:87-89 | the discord section returned has the same contents as get('discord') |
| ConfigService.GetN8nConfig | src/services/configService.js:95-97 | the n8n section returned has the same contents as get('n8n') |
| ConfigService.GetBotConfig | src/services/configService.js:103-105 | the bot section returned has the same contents as get('bot') |
| ConfigService.IsDebugMode | src/services/configService.js:120-122 | the debug flag is what get('bot.debugMode') yields |
| ConfigService.DebugModeGet | src/services/configService.js:112-114 | get('bot.debugMode') follows the keys bot, then debugMode |
| ConfigService.DebugModeFound | src/services/configService.js:30-34 | following bot, then debugMode, finds the stored flag |
| DiscordService.IsFromCommandChannel | src/services/discordService.js:26-31 | every channel is accepted when no channel is configured; otherwise only the configured channel id is accepted |
| DiscordService.AllHeld | src/services/discordService.js:62-64 | true exactly when every required permission is held |
| DiscordService.HasPermissions | src/services/discordService.js:57-65 | false without a member or its permissions; otherwise true exactly when every required permission is held, so the empty list passes |
| DiscordService.LoggedContent | src/services/discordService.js:216 | content of up to 100 characters is logged whole; longer content is cut to 100 characters and "..." is appended |
| DiscordService.LoggedContentTruncates | src/services/discordService.js:216 | past 103 characters this equals truncateText(content, 103); between 101 and 103 characters it still cuts while truncateText keeps the content whole |
| DiscordService.LogMessageDetails | src/services/discordService.js:211-222 | the details throw only for an invalid creation date and carry the formatted author and channel and the logged content |
| MessageCreate.Classify | src/events/messageCreate.js:12-34 | bot messages are dropped; direct messages go out as 'dm'; other messages go out as 'channel' exactly when they come from the command channel |
| MessageCreate.ForwardingRules | src/events/messageCreate.js:23-34 | a DM is forwarded as 'dm' whatever command channel is configured; another message is forwarded exactly when no channel is configured or it comes from that channel |
| MessageCreate.CommandData | src/events/messageCreate.js:44-55 | the command data is null exactly when the content lacks the prefix; otherwise it holds exactly name, args and prefix, from the parsed command |
| MessageCreate.CommandDataFromContent | src/events/messageCreate.js:44-55 | the command name is the parsed command, free of white space and capitals and the lower-cased start of the text after the prefix without its white space; the args are non-empty words without white space |
| MessageCreate.CommandDataWords | src/events/messageCreate.js:44-55 | for a message typed as the prefix followed by words, the command data is exactly name = first word lower-cased, args = the other words as typed, prefix = the prefix |
| MessageCreate.Acknowledgement | src/events/messageCreate.js:78-79 | the glyph is ✅ exactly when the primary delivery succeeded, with the matching text |
| MessageCreate.Execute | src/events/messageCreate.js:10-100 | the message type is Classify's; a message is forwarded exactly when it is classified and its date is valid, with the command data and the routing requests; the debug reply is the acknowledgement, or the error reply when building failed, and there is none outside debug mode or in DMs |
| InteractionCreate.OptionTexts | src/events/interactionCreate.js:27 | definition: each option renders as name:value, in order |
| InteractionCreate.Content | src/events/interactionCreate.js:27 | the content starts with '/', the command name and a space, and is only that without options |
| InteractionCreate.ContentListsOptions | src/events/interactionCreate.js:27 | when no option text holds a space, splitting the content after the command name on spaces gives the option texts back |
| InteractionCreate.BuildOptions | src/events/interactionCreate.js:38-41 | the loop builds the options object of the reduce |
| InteractionCreate.OptionsKeys | src/events/interactionCreate.js:38-41 | the options object has a key for every option name and no other |
| InteractionCreate.OptionsLastWins | src/events/interactionCreate.js:38-41 | each name maps to the value of its last occurrence |
| InteractionCreate.MessageData | src/events/interactionCreate.js:25-33 | the message-like record takes the interaction's id, its user as author, its member, channel and guild, carries the content above and is dated now |
| InteractionCreate.CommandData | src/events/interactionCreate.js:36-43 | the command data has exactly the keys name, options and type; the name is the command name, the type is 'slash', and options has one key per option name |
| InteractionCreate.Execute | src/events/interactionCreate.js:10-81 | non-chat-input interactions and unknown commands do nothing; otherwise the interaction is forwarded as 'slash' before the command runs, and a failing command gets the error reply, as a follow-up when already answered |
| InteractionCreate.SlashRouting | src/events/interactionCreate.js:46 | a slash command is always routed, and also goes to the secondary webhook exactly when one is configured |
| Workflow.FloorDiv | src/commands/workflow.js:214-216 | flooring a non-negative number divided by k is integer division of its floor |
| Workflow.FloorRem | src/commands/workflow.js:215-217 | JavaScript's % of a non-negative number floors to the integer remainder of its floor |
| Workflow.NegativeRem | src/commands/workflow.js:215-217 | JavaScript's % of a negative number is not positive |
| Workflow.Decompose | src/commands/workflow.js:214-217 | days·86400 + hours·3600 + minutes·60 + secs equals the whole seconds, with hours < 24 and minutes, secs < 60 |
| Workflow.Regroup | src/commands/workflow.js:215-216 | hours and minutes computed from the remainders regroup into those remainders |
| Workflow.DecomposeUnique | src/commands/workflow.js:214-217 | only one decomposition has those bounds |
| Workflow.ComponentsOfNonNegative | src/commands/workflow.js:214-217 | for non-negative input the four Math.floor components are the decomposition of the floor |
| Workflow.ComponentsOfNegative | src/commands/workflow.js:214-223 | for negative input no component is pushed |
| Workflow.FormatUptime | src/commands/workflow.js:213-226 | non-negative input renders its decomposition; negative input gives '0s' |
| Workflow.RenderZero | src/commands/workflow.js:225 | the output is '0s' exactly when every component is zero |
| Workflow.PartsNoSpace | src/commands/workflow.js:220-223 | each pushed part is non-empty, has no space and is never '0s' |
| Workflow.RenderLists | src/commands/workflow.js:219-225 | splitting a non-zero output on spaces gives the non-zero components in the order d, h, m, s |
| Workflow.Dispatch | src/commands/workflow.js:35-50 | a subcommand is unknown exactly when it is not test, trigger or status, and goes to the trigger handler exactly when it is 'trigger' |
| Workflow.TriggerCommandData | src/commands/workflow.js:114-119 | the command data has exactly the keys name 'workflow', subcommand 'trigger', message and type 'manual' |
| Workflow.MockMessage | src/commands/workflow.js:104-112 | the mock message carries the given text, is dated now, has the interaction's user, member, channel and guild, and its id is 'manual-trigger-' followed by the decimal digits of millis |
| Workflow.TriggerReply | src/commands/workflow.js:123-143 | the reply starts with ✅ exactly when the primary delivery succeeded, with the success heading then and with the failure heading otherwise |
| Workflow.TriggerReplyLines | src/commands/workflow.js:123-143 | after a primary success the reply is the success text, plus "Also sent" or "Secondary webhook failed" only when a secondary result exists; otherwise it is the failure text |
| Workflow.HandleTrigger | src/commands/workflow.js:96-152 | the mock message is forwarded as 'slash' with the trigger command data, and the reply is chosen from the result |
| Workflow.TriggerRouting | src/commands/workflow.js:114-132 | a manual trigger is always routed, and has a secondary result exactly when a secondary webhook is configured |
| Workflow.TestReply | src/commands/workflow.js:71-93 | the reply starts with ✅ exactly for a successful response and is then the success text; an error response gives the failure text with `error.message` ('Unknown error' when empty) between "Error: " and the advice; a throw gives the unexpected-error text |
| Workflow.HandleTest | src/commands/workflow.js:63-94 | the requests are those of `testWebhook` against the primary URL, and the reply is chosen from its result |
| Workflow.TestReplyOutcome | src/commands/workflow.js:69-85 | the test reply is the success text exactly when one of the four attempts succeeds, otherwise the failure text naming the last attempt's error after the delivery prefix; the unexpected-error text never occurs |
| Workflow.Execute | src/commands/workflow.js:31-50 | an unknown subcommand gets the '❌ Unknown subcommand' reply; 'trigger' runs the manual trigger; 'test' runs the webhook test with its requests and reply; 'status' goes to its handler |
| Strings.Trim | src/utils/helpers.js:56 | the trimmed text has no white space at either end and the same non-white-space characters |
| Strings.TrimInfix | src/utils/helpers.js:56 | the input is a run of white space, then the trimmed text, then a run of white space: trimming removes nothing from the inside |
| Strings.TrimBetweenWs | src/utils/helpers.js:56 | text that neither starts nor ends with white space, framed by white space, trims to itself |
| Strings.TrimAllWs | src/utils/helpers.js:56 | white space alone trims to the empty string |
| Strings.SplitWsPieces | src/utils/helpers.js:56 | splitting on white space gives pieces without white space that concatenate to the text without its white space |
| Strings.SplitWsWord | src/utils/helpers.js:56 | a word without white space joins the first piece of the text after it |
| Strings.SplitWsInterleave | src/utils/helpers.js:56 | non-empty words without white space, joined by non-empty runs of white space, split back into exactly those words |
| Strings.SplitWsTrimmed | src/utils/helpers.js:56 | trimmed non-empty text splits into non-empty words, and empty text into one empty word |
| Strings.SplitJoinWith | src/services/configService.js:77 | splitting a join on its separator gives the parts back when no part contains it |
| Strings.SliceTo | src/utils/validators.js:73 | slice(0, end) clamps the end to the string and counts a negative end from the back |

## Left out

- HTTP transport is not modelled: axios, the 10-second timeout and the logging interceptors. A POST is an abstract outcome per attempt.
- Waits are not slept. The `delay` helper is replaced by the recorded list of waits.
- DiscordService.HasPermissions: a member's permission set is read as its effective permissions. discord.js's `has` also answers true for a member holding Administrator; that override is taken as already folded into the set, not modelled as a separate check.
- Clocks are not modelled. `new Date()`, `toISOString()` and `Date.now()` are inputs (`now`, `millis`), and one `now` serves a whole call. An invalid date is `createdAt = None`.
- `validateUrl` depends on the WHATWG URL parser and is a predicate parameter `urlOk`. The same goes for the URL checks of scripts/validate-setup.js.
- The logger, bot start-up, command loading, the ready event and the help command are not modelled. They do I/O or client lifecycle work and make no decision about relaying.
- The Discord network calls of the Discord service are not modelled: `sendResponse`, `sendToChannel`, `sendDirectMessage`, `getGuildInfo`, `getChannelInfo`. The model returns the reply a handler would send.
- `handleStatus` is not modelled beyond `formatUptime`. It composes an embed from process uptime, the sizes of the client's guild and user caches, a `testWebhook` call and configuration flags; dispatch only records that it was reached (`Delegated`).
- Workflow.HandleTest: `deferReply` and the log lines are not modelled; the handler returns the text it edits in.
- Discord failures that make a reply throw are not modelled. This covers the outer catch of the workflow `execute` and the catch around replies in the events.
- Unicode is not modelled. Lower-casing affects ASCII letters only, and white space is a fixed set of characters.
- Numbers in payloads, configuration and ids are integers, rendered as decimal integers (no exponent form).
- Workflow.FormatUptime: `process.uptime()` and the divisions and remainders on it are exact `real` arithmetic. The IEEE-754 rounding of `seconds / 86400`, `seconds % 3600` and the other steps is not modelled.
- A `Server` answers per request and attempt index. When the secondary URL equals the primary URL, the two webhooks therefore get the same outcomes, where two real POSTs to one URL could differ.
- An interaction always has a channel. A null `interaction.channel` would make `message.channel.id` throw into a processing error; that path is not modelled.
- `get` on a primitive value or a prototype property is not modelled, since the configuration holds only objects, strings and booleans.
- Shallow copies are not modelled. The configuration getters return values, so the aliasing that a copy prevents cannot arise in the model.
- JSON key order of payloads is not kept (objects are maps).
- Channel type is passed through as a value. `isDirectMessage` compares it with the string 'DM', as the code does.
- Helpers.RetryWithBackoff: `maxRetries` is a natural number. A negative budget, which would call nothing and throw `undefined`, is not modelled.
- Validators.SnowflakeOfId: stated for decimal renderings of numbers. Strings with leading zeros are covered by the predicate itself, not by this lemma.
- ConfigService.MessageKey: its ensures is a lookup table used to prove MessagesDistinct, not a property the source states.
- ParseCommandTokens: states the shapes and letters of the command and args for any content, not where one word ends. Word boundaries are stated by Helpers.ParseCommandWords for content laid out as words.
- WordLetters: states how the words spell the text without white space, not where one word ends. Word boundaries are stated by Strings.SplitWsInterleave.
- CommandDataFromContent: states shapes and letters for any content. The exact name and args per word are stated by MessageCreate.CommandDataWords.
- SplitWsPieces: states the letters of the pieces, not their boundaries. The boundaries are stated by Strings.SplitWsInterleave.
- Trim: its own contract states the ends and the letters. That the result is the infix between the white-space runs is Strings.TrimInfix.
- Validators.ValidateBotToken: its own contract states only that a non-empty string is needed. The shape is stated by Validators.BotTokenMatchesPattern.

## Behaviour as coded

- A `guild` entry is added whenever the message has a guild, whatever the channel type.
- A secondary webhook receives only messages that carry command data.
- An empty channel name is reported as 'DM', like a missing one.
