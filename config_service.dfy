/**
 * The configuration service: the settings read once from the environment,
 * the ordered list of problems found in them, and the dot-path lookup over
 * the configuration object. The environment is a map from variable name to
 * value; URL validation is passed in as the predicate `urlOk`.
 */
module ConfigService {
  import opened Strings
  import opened JsValues
  import opened Validators

  /** The process environment: the variables that are set, with their values. */
  type Env = map<string, string>

  datatype DiscordConfig = DiscordConfig(botToken: Option<string>, clientId: Option<string>)

  datatype N8nConfig = N8nConfig(
    webhookUrl: Option<string>,
    webhookToken: Option<string>,
    secondaryWebhook: Option<string>)

  datatype BotConfig = BotConfig(prefix: string, commandChannelId: Option<string>, debugMode: bool)

  datatype Config = Config(discord: DiscordConfig, n8n: N8nConfig, bot: BotConfig)

  /** `process.env[name]`: `undefined` when the variable is not set. */
  function EnvVar(env: Env, name: string): (v: Option<string>)
    ensures v.Some? <==> name in env
    ensures v.Some? ==> v.value == env[name]
  {
    if name in env then Some(env[name]) else None
  }

  /**
   * `_loadConfig()`: every setting is the variable of the same role, except
   * that the prefix falls back to "!" when `BOT_PREFIX` is unset or empty,
   * and debug mode is on only when `DEBUG_MODE` is exactly "true".
   */
  function LoadConfig(env: Env): (c: Config)
    ensures c.discord.botToken == EnvVar(env, "DISCORD_BOT_TOKEN")
    ensures c.discord.clientId == EnvVar(env, "DISCORD_CLIENT_ID")
    ensures c.n8n.webhookUrl == EnvVar(env, "N8N_WEBHOOK_URL")
    ensures c.n8n.webhookToken == EnvVar(env, "N8N_WEBHOOK_TOKEN")
    ensures c.n8n.secondaryWebhook == EnvVar(env, "N8N_SECONDARY_WEBHOOK")
    ensures c.bot.commandChannelId == EnvVar(env, "COMMAND_CHANNEL_ID")
    ensures c.bot.prefix != ""
    ensures "BOT_PREFIX" in env && env["BOT_PREFIX"] != "" ==> c.bot.prefix == env["BOT_PREFIX"]
    ensures !("BOT_PREFIX" in env && env["BOT_PREFIX"] != "") ==> c.bot.prefix == "!"
    ensures c.bot.debugMode <==> "DEBUG_MODE" in env && env["DEBUG_MODE"] == "true"
  {
    var prefix := EnvVar(env, "BOT_PREFIX");
    Config(
      DiscordConfig(EnvVar(env, "DISCORD_BOT_TOKEN"), EnvVar(env, "DISCORD_CLIENT_ID")),
      N8nConfig(EnvVar(env, "N8N_WEBHOOK_URL"), EnvVar(env, "N8N_WEBHOOK_TOKEN"),
                EnvVar(env, "N8N_SECONDARY_WEBHOOK")),
      BotConfig(if IsSet(prefix) then prefix.value else "!",
                EnvVar(env, "COMMAND_CHANNEL_ID"),
                EnvVar(env, "DEBUG_MODE") == Some("true")))
  }

  /** The problems `_validateConfig` can find, one per message it can push. */
  datatype ConfigProblem =
    | TokenMissing | TokenMalformed
    | ClientIdMissing | ClientIdMalformed
    | WebhookMissing | WebhookMalformed
    | SecondaryMalformed
    | ChannelMalformed
  {
    /** The environment variable the problem is about. */
    function Variable(): string {
      match this
      case TokenMissing | TokenMalformed => "DISCORD_BOT_TOKEN"
      case ClientIdMissing | ClientIdMalformed => "DISCORD_CLIENT_ID"
      case WebhookMissing | WebhookMalformed => "N8N_WEBHOOK_URL"
      case SecondaryMalformed => "N8N_SECONDARY_WEBHOOK"
      case ChannelMalformed => "COMMAND_CHANNEL_ID"
    }

    function Complaint(): string {
      match this
      case TokenMissing | ClientIdMissing | WebhookMissing => " is required"
      case WebhookMalformed | SecondaryMalformed => " has invalid URL format"
      case TokenMalformed | ClientIdMalformed | ChannelMalformed => " has invalid format"
    }

    /** The message pushed for the problem. */
    function Message(): string {
      Variable() + Complaint()
    }
  }

  /** Every problem, in the order the checks are made. */
  const AllProblems := [TokenMissing, TokenMalformed, ClientIdMissing, ClientIdMalformed,
                        WebhookMissing, WebhookMalformed, SecondaryMalformed, ChannelMalformed]

  /** Different problems are reported with different messages. */
  lemma MessagesDistinct(p: ConfigProblem, q: ConfigProblem)
    ensures p.Message() == q.Message() ==> p == q
  {
    MessageKey(p);
    MessageKey(q);
  }

  /** The length of a problem's message and its ninth character, which together tell the problems apart. */
  function Key(p: ConfigProblem): (int, char) {
    match p
    case TokenMissing => (29, 'B')
    case TokenMalformed => (36, 'B')
    case ClientIdMissing => (29, 'C')
    case ClientIdMalformed => (36, 'C')
    case WebhookMissing => (27, 'O')
    case WebhookMalformed => (38, 'O')
    case SecondaryMalformed => (44, 'N')
    case ChannelMalformed => (37, 'C')
  }

  lemma MessageKey(p: ConfigProblem)
    ensures Key(p) == (|p.Message()|, p.Message()[8])
  {
    assert p.Message()[8] == p.Variable()[8];
  }

  /** A required setting: "required" when unset or empty, otherwise the format check. */
  function RequiredProblems(v: Option<string>, valid: bool, missing: ConfigProblem, malformed: ConfigProblem): seq<ConfigProblem> {
    if !IsSet(v) then [missing] else if !valid then [malformed] else []
  }

  /** An optional setting: checked only when set and non-empty. */
  function OptionalProblems(v: Option<string>, valid: bool, malformed: ConfigProblem): seq<ConfigProblem> {
    if IsSet(v) && !valid then [malformed] else []
  }

  function UrlValid(v: Option<string>, urlOk: string -> bool): bool {
    v.Some? && urlOk(v.value)
  }

  function TokenValid(v: Option<string>): bool {
    ValidateBotToken(OptString(v))
  }

  function SnowflakeValid(v: Option<string>): bool {
    ValidateSnowflake(OptString(v))
  }

  /** The problems `_validateConfig` finds, setting by setting. */
  function ConfigProblems(c: Config, urlOk: string -> bool): seq<ConfigProblem> {
    RequiredProblems(c.discord.botToken, TokenValid(c.discord.botToken), TokenMissing, TokenMalformed)
    + RequiredProblems(c.discord.clientId, SnowflakeValid(c.discord.clientId), ClientIdMissing, ClientIdMalformed)
    + RequiredProblems(c.n8n.webhookUrl, UrlValid(c.n8n.webhookUrl, urlOk), WebhookMissing, WebhookMalformed)
    + OptionalProblems(c.n8n.secondaryWebhook, UrlValid(c.n8n.secondaryWebhook, urlOk), SecondaryMalformed)
    + OptionalProblems(c.bot.commandChannelId, SnowflakeValid(c.bot.commandChannelId), ChannelMalformed)
  }

  function Messages(ps: seq<ConfigProblem>): (ms: seq<string>)
    ensures |ms| == |ps|
    ensures forall i :: 0 <= i < |ps| ==> ms[i] == ps[i].Message()
  {
    seq(|ps|, i requires 0 <= i < |ps| => ps[i].Message())
  }

  /** The message of the error thrown when validation fails. */
  function ValidationFailure(errors: seq<string>): string {
    "Configuration validation failed:\n" + JoinWith(errors, "\n")
  }

  /**
   * `_validateConfig()`: pushes one message per problem, in the order the
   * settings are checked, and throws when there is at least one.
   */
  method ValidateConfig(c: Config, urlOk: string -> bool) returns (errors: seq<string>, thrown: Option<string>)
    ensures errors == Messages(ConfigProblems(c, urlOk))
    ensures thrown.Some? <==> errors != []
    ensures thrown.Some? ==> thrown.value == ValidationFailure(errors)
  {
    errors := [];
    errors := CheckRequired(errors, c.discord.botToken, TokenValid(c.discord.botToken), TokenMissing, TokenMalformed);
    errors := CheckRequired(errors, c.discord.clientId, SnowflakeValid(c.discord.clientId), ClientIdMissing, ClientIdMalformed);
    errors := CheckRequired(errors, c.n8n.webhookUrl, UrlValid(c.n8n.webhookUrl, urlOk), WebhookMissing, WebhookMalformed);
    errors := CheckOptional(errors, c.n8n.secondaryWebhook, UrlValid(c.n8n.secondaryWebhook, urlOk), SecondaryMalformed);
    errors := CheckOptional(errors, c.bot.commandChannelId, SnowflakeValid(c.bot.commandChannelId), ChannelMalformed);
    MessagesOfProblems(c, urlOk);
    if |errors| > 0 {
      thrown := Some(ValidationFailure(errors));
      return;
    }
    thrown := None;
  }

  /**
   * One required setting: pushes the "required" message when it is unset or
   * empty, else the format message when `valid` is false.
   */
  method CheckRequired(errors: seq<string>, v: Option<string>, valid: bool, missing: ConfigProblem, malformed: ConfigProblem)
    returns (errors': seq<string>)
    ensures errors' == errors + Messages(RequiredProblems(v, valid, missing, malformed))
  {
    errors' := errors;
    if !IsSet(v) {
      errors' := errors' + [missing.Message()];
    } else if !valid {
      errors' := errors' + [malformed.Message()];
    }
  }

  /** One optional setting: pushes the format message only when it is set and `valid` is false. */
  method CheckOptional(errors: seq<string>, v: Option<string>, valid: bool, malformed: ConfigProblem)
    returns (errors': seq<string>)
    ensures errors' == errors + Messages(OptionalProblems(v, valid, malformed))
  {
    errors' := errors;
    if IsSet(v) && !valid {
      errors' := errors' + [malformed.Message()];
    }
  }

  /** The messages of the problems found, setting by setting. */
  lemma MessagesOfProblems(c: Config, urlOk: string -> bool)
    ensures Messages(ConfigProblems(c, urlOk)) ==
              [] + Messages(RequiredProblems(c.discord.botToken, TokenValid(c.discord.botToken), TokenMissing, TokenMalformed))
              + Messages(RequiredProblems(c.discord.clientId, SnowflakeValid(c.discord.clientId), ClientIdMissing, ClientIdMalformed))
              + Messages(RequiredProblems(c.n8n.webhookUrl, UrlValid(c.n8n.webhookUrl, urlOk), WebhookMissing, WebhookMalformed))
              + Messages(OptionalProblems(c.n8n.secondaryWebhook, UrlValid(c.n8n.secondaryWebhook, urlOk), SecondaryMalformed))
              + Messages(OptionalProblems(c.bot.commandChannelId, SnowflakeValid(c.bot.commandChannelId), ChannelMalformed))
  {
    MessagesOfFive(
      RequiredProblems(c.discord.botToken, TokenValid(c.discord.botToken), TokenMissing, TokenMalformed),
      RequiredProblems(c.discord.clientId, SnowflakeValid(c.discord.clientId), ClientIdMissing, ClientIdMalformed),
      RequiredProblems(c.n8n.webhookUrl, UrlValid(c.n8n.webhookUrl, urlOk), WebhookMissing, WebhookMalformed),
      OptionalProblems(c.n8n.secondaryWebhook, UrlValid(c.n8n.secondaryWebhook, urlOk), SecondaryMalformed),
      OptionalProblems(c.bot.commandChannelId, SnowflakeValid(c.bot.commandChannelId), ChannelMalformed));
  }

  lemma MessagesOfFive(a: seq<ConfigProblem>, b: seq<ConfigProblem>, c: seq<ConfigProblem>,
                       d: seq<ConfigProblem>, e: seq<ConfigProblem>)
    ensures Messages(a + b + c + d + e) ==
              [] + Messages(a) + Messages(b) + Messages(c) + Messages(d) + Messages(e)
  {
    MessagesAppend(a, b);
    MessagesAppend(a + b, c);
    MessagesAppend(a + b + c, d);
    MessagesAppend(a + b + c + d, e);
    assert [] + Messages(a) == Messages(a);
  }

  lemma MessagesAppend(a: seq<ConfigProblem>, b: seq<ConfigProblem>)
    ensures Messages(a + b) == Messages(a) + Messages(b)
  {
  }

  /** `xs` is `ys` with some elements left out, the rest in their order. */
  predicate IsSubsequence<T(==)>(xs: seq<T>, ys: seq<T>)
    decreases |ys|
  {
    if xs == [] then true
    else if ys == [] then false
    else if xs[0] == ys[0] then IsSubsequence(xs[1..], ys[1..])
    else IsSubsequence(xs, ys[1..])
  }

  /** Dropping the first element of a subsequence keeps it a subsequence. */
  lemma {:induction false} SubsequenceDrop<T>(xs: seq<T>, ys: seq<T>)
    requires xs != [] && IsSubsequence(xs, ys)
    ensures IsSubsequence(xs[1..], ys)
    decreases |ys|, 1
  {
    if xs[0] == ys[0] {
      if xs[1..] != [] && xs[1..][0] == ys[0] {
        SubsequenceDrop(xs[1..], ys[1..]);
      }
    } else {
      SubsequenceDrop(xs, ys[1..]);
      SubsequenceExtend(xs[1..], ys);
    }
  }

  /** A subsequence of the tail of `ys` is a subsequence of `ys`. */
  lemma {:induction false} SubsequenceExtend<T>(xs: seq<T>, ys: seq<T>)
    requires ys != [] && IsSubsequence(xs, ys[1..])
    ensures IsSubsequence(xs, ys)
    decreases |ys|, 0
  {
    if xs != [] && xs[0] == ys[0] {
      SubsequenceDrop(xs, ys[1..]);
    }
  }

  lemma {:induction false} SubsequencePrepend<T>(xs: seq<T>, ys: seq<T>, pre: seq<T>)
    requires IsSubsequence(xs, ys)
    ensures IsSubsequence(xs, pre + ys)
    decreases |pre|
  {
    if pre == [] {
      assert pre + ys == ys;
    } else {
      SubsequencePrepend(xs, ys, pre[1..]);
      assert (pre + ys)[1..] == pre[1..] + ys;
      SubsequenceExtend(xs, pre + ys);
    }
  }

  lemma {:induction false} SubsequenceConcat<T>(a: seq<T>, aa: seq<T>, b: seq<T>, bb: seq<T>)
    requires IsSubsequence(a, aa) && IsSubsequence(b, bb)
    ensures IsSubsequence(a + b, aa + bb)
    decreases |aa|
  {
    if a == [] {
      assert a + b == b;
      SubsequencePrepend(b, bb, aa);
    } else {
      assert (a + b)[0] == a[0] && (a + b)[1..] == a[1..] + b;
      assert (aa + bb)[0] == aa[0] && (aa + bb)[1..] == aa[1..] + bb;
      if a[0] == aa[0] {
        SubsequenceConcat(a[1..], aa[1..], b, bb);
      } else {
        SubsequenceConcat(a, aa[1..], b, bb);
      }
    }
  }

  /** The problems are always listed in the order of the checks, each at most once. */
  lemma ProblemsInCheckOrder(c: Config, urlOk: string -> bool)
    ensures IsSubsequence(ConfigProblems(c, urlOk), AllProblems)
  {
    var t := RequiredProblems(c.discord.botToken, TokenValid(c.discord.botToken), TokenMissing, TokenMalformed);
    var i := RequiredProblems(c.discord.clientId, SnowflakeValid(c.discord.clientId), ClientIdMissing, ClientIdMalformed);
    var w := RequiredProblems(c.n8n.webhookUrl, UrlValid(c.n8n.webhookUrl, urlOk), WebhookMissing, WebhookMalformed);
    var s := OptionalProblems(c.n8n.secondaryWebhook, UrlValid(c.n8n.secondaryWebhook, urlOk), SecondaryMalformed);
    var h := OptionalProblems(c.bot.commandChannelId, SnowflakeValid(c.bot.commandChannelId), ChannelMalformed);
    assert IsSubsequence(t, [TokenMissing, TokenMalformed]);
    assert IsSubsequence(i, [ClientIdMissing, ClientIdMalformed]);
    assert IsSubsequence(w, [WebhookMissing, WebhookMalformed]);
    assert IsSubsequence(s, [SecondaryMalformed]);
    assert IsSubsequence(h, [ChannelMalformed]);
    assert AllProblems[..4] == [TokenMissing, TokenMalformed] + [ClientIdMissing, ClientIdMalformed];
    assert AllProblems[..6] == AllProblems[..4] + [WebhookMissing, WebhookMalformed];
    assert AllProblems[..7] == AllProblems[..6] + [SecondaryMalformed];
    SubsequenceConcat(t, [TokenMissing, TokenMalformed], i, [ClientIdMissing, ClientIdMalformed]);
    SubsequenceConcat(t + i, AllProblems[..4], w, [WebhookMissing, WebhookMalformed]);
    SubsequenceConcat(t + i + w, AllProblems[..6], s, [SecondaryMalformed]);
    SubsequenceConcat(t + i + w + s, AllProblems[..7], h, [ChannelMalformed]);
    assert AllProblems[..7] + [ChannelMalformed] == AllProblems;
  }

  /**
   * A required setting that is missing is reported as required, and never
   * also as badly formatted; a present one is reported as badly formatted
   * exactly when its check fails.
   */
  lemma RequiredBeforeFormat(c: Config, urlOk: string -> bool)
    ensures var ps := ConfigProblems(c, urlOk);
            && (TokenMissing in ps <==> !IsSet(c.discord.botToken))
            && (TokenMalformed in ps <==> IsSet(c.discord.botToken) && !ValidateBotToken(OptString(c.discord.botToken)))
            && (ClientIdMissing in ps <==> !IsSet(c.discord.clientId))
            && (ClientIdMalformed in ps <==> IsSet(c.discord.clientId) && !ValidateSnowflake(OptString(c.discord.clientId)))
            && (WebhookMissing in ps <==> !IsSet(c.n8n.webhookUrl))
            && (WebhookMalformed in ps <==> IsSet(c.n8n.webhookUrl) && !urlOk(c.n8n.webhookUrl.value))
  {
    ProblemPieces(c, urlOk);
  }

  /** A problem is found exactly when the check of its own setting reports it. */
  lemma ProblemPieces(c: Config, urlOk: string -> bool)
    ensures forall p :: p in ConfigProblems(c, urlOk) <==>
              || p in RequiredProblems(c.discord.botToken, TokenValid(c.discord.botToken), TokenMissing, TokenMalformed)
              || p in RequiredProblems(c.discord.clientId, SnowflakeValid(c.discord.clientId), ClientIdMissing, ClientIdMalformed)
              || p in RequiredProblems(c.n8n.webhookUrl, UrlValid(c.n8n.webhookUrl, urlOk), WebhookMissing, WebhookMalformed)
              || p in OptionalProblems(c.n8n.secondaryWebhook, UrlValid(c.n8n.secondaryWebhook, urlOk), SecondaryMalformed)
              || p in OptionalProblems(c.bot.commandChannelId, SnowflakeValid(c.bot.commandChannelId), ChannelMalformed)
  {
  }

  /** The secondary webhook and the command channel are checked only when they are set. */
  lemma OptionalOnlyWhenSet(c: Config, urlOk: string -> bool)
    ensures var ps := ConfigProblems(c, urlOk);
            && (SecondaryMalformed in ps <==> IsSet(c.n8n.secondaryWebhook) && !urlOk(c.n8n.secondaryWebhook.value))
            && (ChannelMalformed in ps <==> IsSet(c.bot.commandChannelId) && !ValidateSnowflake(OptString(c.bot.commandChannelId)))
  {
    ProblemPieces(c, urlOk);
  }

  /** Validation passes exactly when every required setting is present and well formed and every optional one that is set is well formed. */
  lemma ValidConfigIff(c: Config, urlOk: string -> bool)
    ensures ConfigProblems(c, urlOk) == [] <==>
              && IsSet(c.discord.botToken) && ValidateBotToken(OptString(c.discord.botToken))
              && IsSet(c.discord.clientId) && ValidateSnowflake(OptString(c.discord.clientId))
              && IsSet(c.n8n.webhookUrl) && urlOk(c.n8n.webhookUrl.value)
              && (IsSet(c.n8n.secondaryWebhook) ==> urlOk(c.n8n.secondaryWebhook.value))
              && (IsSet(c.bot.commandChannelId) ==> ValidateSnowflake(OptString(c.bot.commandChannelId)))
  {
  }

  /**
   * The thrown message lists every pushed message on a line of its own:
   * splitting what follows the heading line on newlines gives the messages back.
   */
  lemma FailureListsMessages(c: Config, urlOk: string -> bool)
    requires ConfigProblems(c, urlOk) != []
    ensures var errors := Messages(ConfigProblems(c, urlOk));
            var heading := "Configuration validation failed:\n";
            && StartsWith(ValidationFailure(errors), heading)
            && SplitOn(ValidationFailure(errors)[|heading|..], '\n') == errors
  {
    var errors := Messages(ConfigProblems(c, urlOk));
    var heading := "Configuration validation failed:\n";
    forall m | m in errors ensures '\n' !in m {
      var k :| 0 <= k < |errors| && errors[k] == m;
      NoNewline(ConfigProblems(c, urlOk)[k]);
    }
    SplitJoinWith(errors, '\n');
    assert ValidationFailure(errors)[|heading|..] == JoinWith(errors, "\n");
  }

  lemma NoNewline(p: ConfigProblem)
    ensures '\n' !in p.Message()
  {
    VariableNoNewline(p);
    ComplaintNoNewline(p);
  }

  lemma VariableNoNewline(p: ConfigProblem)
    ensures '\n' !in p.Variable()
  {
  }

  lemma ComplaintNoNewline(p: ConfigProblem)
    ensures '\n' !in p.Complaint()
  {
  }

  /** The configuration object as JavaScript sees it: unset variables are present keys holding `undefined`. */
  function DiscordToJs(d: DiscordConfig): JsValue {
    Obj(map["botToken" := OptString(d.botToken), "clientId" := OptString(d.clientId)])
  }

  function N8nToJs(n: N8nConfig): JsValue {
    Obj(map["webhookUrl" := OptString(n.webhookUrl), "webhookToken" := OptString(n.webhookToken),
            "secondaryWebhook" := OptString(n.secondaryWebhook)])
  }

  function BotToJs(b: BotConfig): JsValue {
    Obj(map["prefix" := Str(b.prefix), "commandChannelId" := OptString(b.commandChannelId),
            "debugMode" := Bool(b.debugMode)])
  }

  function ConfigToJs(c: Config): JsValue {
    Obj(map["discord" := DiscordToJs(c.discord), "n8n" := N8nToJs(c.n8n), "bot" := BotToJs(c.bot)])
  }

  /** `get(path)`: the value at the dot-separated path, `undefined` when a key along it is missing. */
  function Get(c: Config, path: string): JsValue {
    GetPath(ConfigToJs(c), SplitOn(path, '.'))
  }

  /**
   * A path whose first segment is not one of the sections `discord`, `n8n`
   * and `bot` gives `undefined`, whatever follows.
   */
  lemma GetUnknownSection(c: Config, path: string)
    requires SplitOn(path, '.')[0] !in {"discord", "n8n", "bot"}
    ensures Get(c, path) == Undefined
  {
    var keys := SplitOn(path, '.');
    assert Lookup(ConfigToJs(c), keys[0]) == Undefined;
    GetPathUndefined(keys[1..]);
  }

  /**
   * A path whose first keys already lead to `undefined` gives `undefined`,
   * whatever follows.
   */
  lemma GetStopsAtMissing(c: Config, keys: seq<string>, i: nat)
    requires i <= |keys|
    requires GetPath(ConfigToJs(c), keys[..i]).Undefined?
    ensures GetPath(ConfigToJs(c), keys).Undefined?
  {
    assert keys == keys[..i] + keys[i..];
    GetPathAppend(ConfigToJs(c), keys[..i], keys[i..]);
    GetPathUndefined(keys[i..]);
  }

  /** A dotted path of dot-free keys is followed key by key. */
  lemma GetSegments(c: Config, keys: seq<string>)
    requires |keys| >= 1
    requires forall k :: k in keys ==> '.' !in k
    ensures Get(c, JoinWith(keys, ".")) == GetPath(ConfigToJs(c), keys)
  {
    SplitJoinWith(keys, '.');
  }

  /** A one-key path looks the key up in the configuration object. */
  lemma GetSection(c: Config, key: string)
    requires '.' !in key
    ensures Get(c, key) == Lookup(ConfigToJs(c), key)
  {
    SplitJoinWith([key], '.');
    assert JoinWith([key], ".") == key;
    var v := ConfigToJs(c);
    assert GetPath(v, [key]) == GetPath(Lookup(v, key), []);
  }

  /** `getDiscordConfig()`: a copy of the Discord section, the value `get('discord')` also finds. */
  function GetDiscordConfig(c: Config): (d: DiscordConfig)
    ensures DiscordToJs(d) == Get(c, "discord")
  {
    GetSection(c, "discord");
    c.discord
  }

  /** `getN8nConfig()`: a copy of the n8n section, the value `get('n8n')` also finds. */
  function GetN8nConfig(c: Config): (n: N8nConfig)
    ensures N8nToJs(n) == Get(c, "n8n")
  {
    GetSection(c, "n8n");
    c.n8n
  }

  /** `getBotConfig()`: a copy of the bot section, the value `get('bot')` also finds. */
  function GetBotConfig(c: Config): (b: BotConfig)
    ensures BotToJs(b) == Get(c, "bot")
  {
    GetSection(c, "bot");
    c.bot
  }

  /** `isDebugMode()`: the flag `get('bot.debugMode')` finds. */
  function IsDebugMode(c: Config): (d: bool)
    ensures Get(c, "bot.debugMode") == Bool(d)
  {
    DebugModeGet(c);
    DebugModeFound(c);
    c.bot.debugMode
  }

  /** 'bot.debugMode' is followed as the keys 'bot' and 'debugMode'. */
  lemma DebugModeGet(c: Config)
    ensures Get(c, "bot.debugMode") == GetPath(ConfigToJs(c), ["bot", "debugMode"])
  {
    DebugModePath();
  }

  lemma DebugModeFound(c: Config)
    ensures GetPath(ConfigToJs(c), ["bot", "debugMode"]) == Bool(c.bot.debugMode)
  {
    assert ConfigToJs(c).fields["bot"] == BotToJs(c.bot);
  }

  /** The path 'bot.debugMode' has the two keys 'bot' and 'debugMode'. */
  lemma DebugModePath()
    ensures SplitOn("bot.debugMode", '.') == ["bot", "debugMode"]
  {
    SplitOnPair("bot", "debugMode", '.');
    assert "bot" + "." + "debugMode" == "bot.debugMode";
  }
}
