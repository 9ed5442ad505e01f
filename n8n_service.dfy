/**
 * The n8n service: how a Discord message becomes a webhook payload, how a
 * payload is delivered to the primary and the secondary webhook with retries,
 * and how a processed message is routed. The HTTP client is replaced by a
 * `Server` that gives the outcome of each attempt of each request; the
 * requests a call issues and the waits between its attempts are returned
 * instead of performed.
 */
module N8n {
  import opened Strings
  import opened JsValues
  import opened DiscordTypes
  import opened Helpers
  import opened Validators
  import opened ConfigService

  /** A POST: the target URL (`undefined` when unconfigured), the headers and the JSON body. */
  datatype Request = Request(url: Option<string>, headers: map<string, string>, body: JsValue)

  /** The webhook side: what the i-th attempt (from 0) of a request yields, its response data or an error message. */
  type Server = Request -> (nat -> Outcome<JsValue>)

  /** The retry budget and base wait of `retryWithBackoff`'s defaults, which every delivery uses. */
  const MaxRetries: nat := 3
  const BaseDelay: nat := 1000

  const InvalidPayload := "Invalid webhook payload structure"
  const PrimaryOk := "Data sent to n8n webhook"
  const PrimaryFailPrefix := "Failed to send data to n8n: "
  const SecondaryOk := "Data sent to secondary n8n webhook"
  const SecondaryFailPrefix := "Failed to send data to secondary n8n: "
  const SecondaryMissing := "Secondary webhook URL not configured"
  const ProcessingFailPrefix := "Message processing failed: "

  /**
   * The headers of every request: the client's fixed JSON content type and
   * user agent, and, added by the request interceptor, a bearer token
   * (section 2.1 of RFC 6750) exactly when a webhook token is configured.
   */
  function RequestHeaders(config: N8nConfig): (h: map<string, string>)
    ensures "Content-Type" in h && h["Content-Type"] == "application/json"
    ensures "User-Agent" in h && h["User-Agent"] == "NoseCone-Discord-Bot/1.0.0"
    ensures "Authorization" in h <==> IsSet(config.webhookToken)
    ensures IsSet(config.webhookToken) ==> h["Authorization"] == "Bearer " + config.webhookToken.value
    ensures h.Keys <= {"Content-Type", "User-Agent", "Authorization"}
  {
    var base := map["Content-Type" := "application/json", "User-Agent" := "NoseCone-Discord-Bot/1.0.0"];
    if IsSet(config.webhookToken) then base["Authorization" := "Bearer " + config.webhookToken.value] else base
  }

  /** `message.member?.roles?.cache?.map(role => role.id) || []` */
  function RoleIds(member: Option<Member>): (ids: seq<string>)
    ensures member.Some? && member.value.roleIds.Some? ==> ids == member.value.roleIds.value
    ensures member.None? || member.value.roleIds.None? ==> ids == []
  {
    if member.Some? && member.value.roleIds.Some? then member.value.roleIds.value else []
  }

  /** `channel.name || 'DM'` */
  function ChannelName(channel: Channel): (name: string)
    ensures name != ""
    ensures IsSet(channel.name) ==> name == channel.name.value
    ensures !IsSet(channel.name) ==> name == "DM"
  {
    if IsSet(channel.name) then channel.name.value else "DM"
  }

  function AuthorObject(author: User, member: Option<Member>): JsValue {
    Obj(map["id" := Str(author.id), "username" := Str(author.username),
            "discriminator" := Str(author.discriminator), "roles" := StrArray(RoleIds(member))])
  }

  function ChannelObject(channel: Channel): JsValue {
    Obj(map["id" := Str(channel.id), "name" := Str(ChannelName(channel)), "type" := channel.kind])
  }

  function GuildObject(guild: Guild): JsValue {
    Obj(map["id" := Str(guild.id), "name" := Str(guild.name)])
  }

  /** The `message` part of the payload, with a `guild` entry only for a message that has a guild. */
  function MessageObject(message: Message, timestamp: string): JsValue {
    var fields := map["id" := Str(message.id), "content" := Str(message.content), "timestamp" := Str(timestamp),
                      "author" := AuthorObject(message.author, message.member),
                      "channel" := ChannelObject(message.channel)];
    if message.guild.Some? then Obj(fields["guild" := GuildObject(message.guild.value)]) else Obj(fields)
  }

  /**
   * `createWebhookPayload(message, messageType, command = null)`. Rendering
   * the creation date throws for an invalid date; otherwise the payload
   * always passes `validateWebhookPayload`.
   */
  function CreateWebhookPayload(message: Message, messageType: string, command: JsValue := Null): (r: Completion<JsValue>)
    ensures r.Threw? <==> message.createdAt.None?
    ensures r.Threw? ==> r.message == InvalidTimeValue
    ensures r.Normal? ==> ValidateWebhookPayload(r.value)
  {
    match message.createdAt
    case None => Threw(InvalidTimeValue)
    case Some(timestamp) =>
      var payload := map["messageType" := Str(messageType), "message" := MessageObject(message, timestamp)];
      Normal(if Truthy(command) then Obj(payload["command" := command]) else Obj(payload))
  }

  /**
   * What a payload holds at the top: its type, the message part built from
   * the message, and a `command` entry exactly when the command is truthy,
   * holding the command unchanged.
   */
  lemma PayloadFields(message: Message, messageType: string, command: JsValue)
    requires message.createdAt.Some?
    ensures var p := CreateWebhookPayload(message, messageType, command).value;
            && p.Obj?
            && p.fields.Keys == {"messageType", "message"} + (if Truthy(command) then {"command"} else {})
            && GetPath(p, ["messageType"]) == Str(messageType)
            && GetPath(p, ["message"]) == MessageObject(message, message.createdAt.value)
            && (Truthy(command) ==> GetPath(p, ["command"]) == command)
  {
  }

  /**
   * What the message part holds: the message's id, content and time, the
   * author's id, username, discriminator and role ids (none when the member
   * or its role cache is missing), the channel's id, name ('DM' when the
   * name is missing or empty) and type, and a guild entry exactly when the
   * message has a guild.
   */
  lemma MessageObjectFields(message: Message, timestamp: string)
    ensures var m := MessageObject(message, timestamp);
            && GetPath(m, ["id"]) == Str(message.id)
            && GetPath(m, ["content"]) == Str(message.content)
            && GetPath(m, ["timestamp"]) == Str(timestamp)
            && GetPath(m, ["author", "id"]) == Str(message.author.id)
            && GetPath(m, ["author", "username"]) == Str(message.author.username)
            && GetPath(m, ["author", "discriminator"]) == Str(message.author.discriminator)
            && GetPath(m, ["author", "roles"]) == StrArray(RoleIds(message.member))
            && GetPath(m, ["channel", "id"]) == Str(message.channel.id)
            && GetPath(m, ["channel", "name"]) == Str(ChannelName(message.channel))
            && GetPath(m, ["channel", "type"]) == message.channel.kind
            && (HasKey(m, "guild") <==> message.guild.Some?)
            && (message.guild.Some? ==> GetPath(m, ["guild"]) == GuildObject(message.guild.value))
  {
    MessageObjectTop(message, timestamp);
    MessageObjectNested(message, timestamp);
  }

  /** The top-level entries of the message part. */
  lemma MessageObjectTop(message: Message, timestamp: string)
    ensures var m := MessageObject(message, timestamp);
            && GetPath(m, ["id"]) == Str(message.id)
            && GetPath(m, ["content"]) == Str(message.content)
            && GetPath(m, ["timestamp"]) == Str(timestamp)
            && (HasKey(m, "guild") <==> message.guild.Some?)
            && (message.guild.Some? ==> GetPath(m, ["guild"]) == GuildObject(message.guild.value))
  {
    var m := MessageObject(message, timestamp);
    GetPathOne(m, "id");
    GetPathOne(m, "content");
    GetPathOne(m, "timestamp");
    GetPathOne(m, "guild");
  }

  /** The author and channel entries of the message part, looked up one level down. */
  lemma MessageObjectNested(message: Message, timestamp: string)
    ensures var m := MessageObject(message, timestamp);
            && GetPath(m, ["author", "id"]) == Str(message.author.id)
            && GetPath(m, ["author", "username"]) == Str(message.author.username)
            && GetPath(m, ["author", "discriminator"]) == Str(message.author.discriminator)
            && GetPath(m, ["author", "roles"]) == StrArray(RoleIds(message.member))
            && GetPath(m, ["channel", "id"]) == Str(message.channel.id)
            && GetPath(m, ["channel", "name"]) == Str(ChannelName(message.channel))
            && GetPath(m, ["channel", "type"]) == message.channel.kind
  {
    var m := MessageObject(message, timestamp);
    assert Lookup(m, "author") == AuthorObject(message.author, message.member);
    assert Lookup(m, "channel") == ChannelObject(message.channel);
    AuthorEntries(m, message.author, message.member);
    ChannelEntries(m, message.channel);
  }

  /** The entries of an author object reached through `author`. */
  lemma AuthorEntries(m: JsValue, author: User, member: Option<Member>)
    requires m.Obj? && Lookup(m, "author") == AuthorObject(author, member)
    ensures GetPath(m, ["author", "id"]) == Str(author.id)
    ensures GetPath(m, ["author", "username"]) == Str(author.username)
    ensures GetPath(m, ["author", "discriminator"]) == Str(author.discriminator)
    ensures GetPath(m, ["author", "roles"]) == StrArray(RoleIds(member))
  {
    GetPathTwo(m, "author", "id");
    GetPathTwo(m, "author", "username");
    GetPathTwo(m, "author", "discriminator");
    GetPathTwo(m, "author", "roles");
  }

  /** The entries of a channel object reached through `channel`. */
  lemma ChannelEntries(m: JsValue, channel: Channel)
    requires m.Obj? && Lookup(m, "channel") == ChannelObject(channel)
    ensures GetPath(m, ["channel", "id"]) == Str(channel.id)
    ensures GetPath(m, ["channel", "name"]) == Str(ChannelName(channel))
    ensures GetPath(m, ["channel", "type"]) == channel.kind
  {
    GetPathTwo(m, "channel", "id");
    GetPathTwo(m, "channel", "name");
    GetPathTwo(m, "channel", "type");
  }

  /** The payload of `testWebhook`, stamped with the current time `now`. */
  function TestPayload(now: string): (p: JsValue)
    ensures ValidateWebhookPayload(p)
  {
    Obj(map[
      "messageType" := Str("test"),
      "message" := Obj(map[
        "id" := Str("test-message-id"),
        "content" := Str("NoseCone webhook connectivity test"),
        "timestamp" := Str(now),
        "author" := Obj(map["id" := Str("test-user-id"), "username" := Str("NoseCone"),
                            "discriminator" := Str("0000"), "roles" := Arr([])]),
        "channel" := Obj(map["id" := Str("test-channel-id"), "name" := Str("test-channel"),
                             "type" := Str("GUILD_TEXT")])])])
  }

  /**
   * The test payload is the payload built for a memberless, guildless
   * message of type 'test' without a command: it has no roles, no guild and
   * no command.
   */
  lemma TestPayloadIsBuilt(now: string)
    ensures var testMessage := Message("test-message-id", "NoseCone webhook connectivity test", Some(now),
                                       User("test-user-id", "NoseCone", "0000", false), None,
                                       Channel("test-channel-id", Some("test-channel"), Str("GUILD_TEXT")), None);
            CreateWebhookPayload(testMessage, "test") == Normal(TestPayload(now))
    ensures GetPath(TestPayload(now), ["message", "author", "roles"]) == Arr([])
    ensures !HasKey(GetPath(TestPayload(now), ["message"]), "guild") && !HasKey(TestPayload(now), "command")
  {
    assert StrArray([]) == Arr([]);
  }

  /** `n` copies of the same request, as issued by `n` attempts. */
  function Repeat(r: Request, n: nat): (rs: seq<Request>)
    ensures |rs| == n && forall i :: 0 <= i < n ==> rs[i] == r
  {
    seq(n, _ => r)
  }

  /**
   * The response a delivery ends with, given the server's replies `replies`
   * to its attempts: a success response carrying the reply's data, or a
   * 'webhook_error' response with the retry's last error after the prefix.
   */
  function Delivered(now: string, replies: nat -> Outcome<JsValue>, okMessage: string, failPrefix: string): Response {
    match RetryResult(replies, MaxRetries)
    case Ok(data) => CreateSuccessResponse(now, data, okMessage)
    case Fail(e) => CreateErrorResponse(now, failPrefix + e, "webhook_error")
  }

  /**
   * A delivery succeeds exactly when one of its four attempts succeeds, and
   * then carries the data of the first success; otherwise it is a
   * 'webhook_error' naming the fourth attempt's error.
   */
  lemma DeliveredOutcome(now: string, replies: nat -> Outcome<JsValue>, okMessage: string, failPrefix: string)
    ensures var r := Delivered(now, replies, okMessage, failPrefix);
            && (r.Success() <==> exists i :: 0 <= i <= MaxRetries && replies(i).Ok?)
            && (r.Success() ==> r.message == okMessage && r.timestamp == now &&
                                 r.data == replies(AttemptCount(replies, MaxRetries) - 1).value)
            && (!r.Success() ==> r.error.errorType == "webhook_error" &&
                                  r.error.message == failPrefix + replies(MaxRetries).error)
  {
    var k := StopIndex(replies, 0, MaxRetries);
    if exists i :: 0 <= i <= MaxRetries && replies(i).Ok? {
      var i :| 0 <= i <= MaxRetries && replies(i).Ok?;
      assert replies(k).Ok? || i <= k;
    } else {
      RetryExhausted(replies, MaxRetries);
    }
  }

  /** The routed result of `processMessage`, or the flat error response its catch returns. */
  datatype ProcessOutcome =
    | Routed(primary: Response, secondary: Option<Response>)
    | Flat(failure: Response)

  /** The response `processMessage` returns for an exception with the given message. */
  function ProcessingFailure(now: string, message: string): (r: Response)
    ensures !r.Success() && r.error.errorType == "processing_error"
    ensures r.error.message == ProcessingFailPrefix + message
  {
    CreateErrorResponse(now, ProcessingFailPrefix + message, "processing_error")
  }

  class N8nService {
    /** The n8n section of the configuration, read once when the service is made. */
    const config: N8nConfig

    constructor(config: N8nConfig)
      ensures this.config == config
    {
      this.config := config;
    }

    function PrimaryRequest(payload: JsValue): Request {
      Request(config.webhookUrl, RequestHeaders(config), payload)
    }

    function SecondaryRequest(payload: JsValue): Request {
      Request(config.secondaryWebhook, RequestHeaders(config), payload)
    }

    /**
     * `sendToWebhook(payload)`: an invalid payload throws before anything is
     * posted; otherwise the payload is posted to the primary URL with retries
     * and the outcome becomes a success or a 'webhook_error' response.
     */
    method SendToWebhook(payload: JsValue, server: Server, now: string)
      returns (c: Completion<Response>, sent: seq<Request>, delays: seq<nat>)
      ensures !ValidateWebhookPayload(payload) ==> c == Threw(InvalidPayload) && sent == [] && delays == []
      ensures ValidateWebhookPayload(payload) ==>
                && c == Normal(Delivered(now, server(PrimaryRequest(payload)), PrimaryOk, PrimaryFailPrefix))
                && sent == Repeat(PrimaryRequest(payload), AttemptCount(server(PrimaryRequest(payload)), MaxRetries))
                && delays == BackoffDelays(BaseDelay, |sent| - 1)
    {
      if !ValidateWebhookPayload(payload) {
        return Threw(InvalidPayload), [], [];
      }
      var request := PrimaryRequest(payload);
      var result, calls, waits := RetryWithBackoff(server(request));
      sent, delays := Repeat(request, calls), waits;
      match result
      case Ok(data) =>
        c := Normal(CreateSuccessResponse(now, data, PrimaryOk));
      case Fail(e) =>
        c := Normal(CreateErrorResponse(now, PrimaryFailPrefix + e, "webhook_error"));
    }

    /**
     * `sendToSecondaryWebhook(payload)`: without a secondary URL a
     * 'config_error' response comes back before the payload is even checked;
     * otherwise as `sendToWebhook`, against the secondary URL.
     */
    method SendToSecondaryWebhook(payload: JsValue, server: Server, now: string)
      returns (c: Completion<Response>, sent: seq<Request>, delays: seq<nat>)
      ensures !IsSet(config.secondaryWebhook) ==>
                c == Normal(CreateErrorResponse(now, SecondaryMissing, "config_error")) && sent == [] && delays == []
      ensures IsSet(config.secondaryWebhook) && !ValidateWebhookPayload(payload) ==>
                c == Threw(InvalidPayload) && sent == [] && delays == []
      ensures IsSet(config.secondaryWebhook) && ValidateWebhookPayload(payload) ==>
                && c == Normal(Delivered(now, server(SecondaryRequest(payload)), SecondaryOk, SecondaryFailPrefix))
                && sent == Repeat(SecondaryRequest(payload), AttemptCount(server(SecondaryRequest(payload)), MaxRetries))
                && delays == BackoffDelays(BaseDelay, |sent| - 1)
    {
      if !IsSet(config.secondaryWebhook) {
        return Normal(CreateErrorResponse(now, SecondaryMissing, "config_error")), [], [];
      }
      if !ValidateWebhookPayload(payload) {
        return Threw(InvalidPayload), [], [];
      }
      var request := SecondaryRequest(payload);
      var result, calls, waits := RetryWithBackoff(server(request));
      sent, delays := Repeat(request, calls), waits;
      match result
      case Ok(data) =>
        c := Normal(CreateSuccessResponse(now, data, SecondaryOk));
      case Fail(e) =>
        c := Normal(CreateErrorResponse(now, SecondaryFailPrefix + e, "webhook_error"));
    }

    /** Whether `processMessage` also delivers to the secondary webhook. */
    predicate FansOut(command: JsValue) {
      Truthy(command) && IsSet(config.secondaryWebhook)
    }

    /** The result `processMessage` returns. */
    function ProcessResult(message: Message, messageType: string, command: JsValue, server: Server, now: string): ProcessOutcome {
      match CreateWebhookPayload(message, messageType, command)
      case Threw(m) => Flat(ProcessingFailure(now, m))
      case Normal(payload) => DeliveryResult(payload, command, server, now)
    }

    /** The requests `processMessage` issues, one per attempt, in order. */
    function ProcessRequests(message: Message, messageType: string, command: JsValue, server: Server): seq<Request> {
      match CreateWebhookPayload(message, messageType, command)
      case Threw(_) => []
      case Normal(payload) => DeliveryRequests(payload, command, server)
    }

    /** The waits `processMessage` makes between attempts, in order. */
    function ProcessDelays(message: Message, messageType: string, command: JsValue, server: Server): seq<nat> {
      match CreateWebhookPayload(message, messageType, command)
      case Threw(_) => []
      case Normal(payload) => DeliveryDelays(payload, command, server)
    }

    /** The result of delivering a built payload: the primary response, and the secondary one when it fans out. */
    function DeliveryResult(payload: JsValue, command: JsValue, server: Server, now: string): ProcessOutcome {
      Routed(Delivered(now, server(PrimaryRequest(payload)), PrimaryOk, PrimaryFailPrefix),
             if FansOut(command)
             then Some(Delivered(now, server(SecondaryRequest(payload)), SecondaryOk, SecondaryFailPrefix))
             else None)
    }

    /** The requests of delivering a built payload: the primary attempts, then the secondary ones when it fans out. */
    function DeliveryRequests(payload: JsValue, command: JsValue, server: Server): seq<Request> {
      Repeat(PrimaryRequest(payload), AttemptCount(server(PrimaryRequest(payload)), MaxRetries))
      + if FansOut(command)
        then Repeat(SecondaryRequest(payload), AttemptCount(server(SecondaryRequest(payload)), MaxRetries))
        else []
    }

    /** The waits of delivering a built payload, primary first. */
    function DeliveryDelays(payload: JsValue, command: JsValue, server: Server): seq<nat> {
      BackoffDelays(BaseDelay, AttemptCount(server(PrimaryRequest(payload)), MaxRetries) - 1)
      + if FansOut(command)
        then BackoffDelays(BaseDelay, AttemptCount(server(SecondaryRequest(payload)), MaxRetries) - 1)
        else []
    }

    /**
     * `processMessage(message, messageType, command = null)`: the payload is
     * built once and delivered to the primary webhook, then, when a command
     * is given and a secondary URL is configured, to the secondary webhook;
     * an exception anywhere becomes a flat 'processing_error' response.
     */
    method ProcessMessage(message: Message, messageType: string, command: JsValue, server: Server, now: string)
      returns (outcome: ProcessOutcome, sent: seq<Request>, delays: seq<nat>)
      ensures outcome == ProcessResult(message, messageType, command, server, now)
      ensures sent == ProcessRequests(message, messageType, command, server)
      ensures delays == ProcessDelays(message, messageType, command, server)
    {
      var built := CreateWebhookPayload(message, messageType, command);
      match built {
        case Threw(m) =>
          outcome, sent, delays := Flat(ProcessingFailure(now, m)), [], [];
        case Normal(payload) =>
          outcome, sent, delays := Deliver(payload, command, server, now);
      }
    }

    /** The part of `processMessage` after the payload is built, which is then known to be valid. */
    method Deliver(payload: JsValue, command: JsValue, server: Server, now: string)
      returns (outcome: ProcessOutcome, sent: seq<Request>, delays: seq<nat>)
      requires ValidateWebhookPayload(payload)
      ensures outcome == DeliveryResult(payload, command, server, now)
      ensures sent == DeliveryRequests(payload, command, server)
      ensures delays == DeliveryDelays(payload, command, server)
    {
      var primary, primarySent, primaryDelays := SendToWebhook(payload, server, now);
      var primaryResult := Delivered(now, server(PrimaryRequest(payload)), PrimaryOk, PrimaryFailPrefix);
      assert primary == Normal(primaryResult);
      if Truthy(command) && IsSet(config.secondaryWebhook) {
        var secondary, secondarySent, secondaryDelays := SendToSecondaryWebhook(payload, server, now);
        var secondaryResult := Delivered(now, server(SecondaryRequest(payload)), SecondaryOk, SecondaryFailPrefix);
        assert secondary == Normal(secondaryResult);
        outcome := Routed(primary.value, Some(secondary.value));
        sent, delays := primarySent + secondarySent, primaryDelays + secondaryDelays;
      } else {
        outcome := Routed(primary.value, None);
        sent, delays := primarySent + [], primaryDelays + [];
      }
    }

    /**
     * How `processMessage` routes a message with a valid date: the result
     * always has a primary response and has a secondary one exactly when it
     * fans out; the primary is attempted first, 1 to 4 times, the secondary
     * after it, and every request carries the one payload built.
     */
    lemma ProcessRouting(message: Message, messageType: string, command: JsValue, server: Server, now: string)
      requires message.createdAt.Some?
      ensures var payload := CreateWebhookPayload(message, messageType, command).value;
              var outcome := ProcessResult(message, messageType, command, server, now);
              var sent := ProcessRequests(message, messageType, command, server);
              var primaryCalls := AttemptCount(server(PrimaryRequest(payload)), MaxRetries);
              && outcome.Routed?
              && (outcome.secondary.Some? <==> FansOut(command))
              && 1 <= primaryCalls <= MaxRetries + 1 && primaryCalls <= |sent|
              && (forall i :: 0 <= i < primaryCalls ==> sent[i].url == config.webhookUrl)
              && (forall i :: primaryCalls <= i < |sent| ==> sent[i].url == config.secondaryWebhook)
              && (!FansOut(command) ==> |sent| == primaryCalls)
              && (FansOut(command) ==> primaryCalls + 1 <= |sent| <= primaryCalls + MaxRetries + 1)
              && (forall r :: r in sent ==> r.body == payload)
    {
      var payload := CreateWebhookPayload(message, messageType, command).value;
      var sent := ProcessRequests(message, messageType, command, server);
      var primaryCalls := AttemptCount(server(PrimaryRequest(payload)), MaxRetries);
      if FansOut(command) {
        var secondaryCalls := AttemptCount(server(SecondaryRequest(payload)), MaxRetries);
        assert sent == Repeat(PrimaryRequest(payload), primaryCalls) + Repeat(SecondaryRequest(payload), secondaryCalls);
      } else {
        assert sent == Repeat(PrimaryRequest(payload), primaryCalls) + [];
      }
    }

    /**
     * An invalid date makes `processMessage` send nothing and answer with the
     * flat 'processing_error' response, which has no primary result.
     */
    lemma ProcessFailureIsFlat(message: Message, messageType: string, command: JsValue, server: Server, now: string)
      requires message.createdAt.None?
      ensures var outcome := ProcessResult(message, messageType, command, server, now);
              && outcome.Flat? && !outcome.Routed?
              && outcome.failure.error.errorType == "processing_error"
              && outcome.failure.error.message == ProcessingFailPrefix + InvalidTimeValue
              && ProcessRequests(message, messageType, command, server) == []
    {
    }

    /**
     * `testWebhook()`: the fixed test payload goes to the primary webhook
     * only, through `sendToWebhook`.
     */
    method TestWebhook(server: Server, now: string)
      returns (c: Completion<Response>, sent: seq<Request>, delays: seq<nat>)
      ensures c == Normal(Delivered(now, server(PrimaryRequest(TestPayload(now))), PrimaryOk, PrimaryFailPrefix))
      ensures 1 <= |sent| <= MaxRetries + 1
      ensures forall r :: r in sent ==> r.url == config.webhookUrl && r.body == TestPayload(now)
      ensures sent == Repeat(PrimaryRequest(TestPayload(now)), AttemptCount(server(PrimaryRequest(TestPayload(now))), MaxRetries))
      ensures delays == BackoffDelays(BaseDelay, |sent| - 1)
    {
      c, sent, delays := SendToWebhook(TestPayload(now), server, now);
    }
  }
}
