/**
 * The `messageCreate` event: which Discord messages are forwarded to n8n,
 * under which message type and with which command data, and which debug
 * reply, if any, is posted back in the channel.
 */
module MessageCreate {
  import opened Strings
  import opened JsValues
  import opened DiscordTypes
  import opened Helpers
  import opened ConfigService
  import opened DiscordService
  import opened N8n

  /**
   * The message type a message is forwarded under, or `None` when it is
   * dropped: bot messages never go out, direct messages always go out as
   * 'dm', and other messages go out as 'channel' exactly when they come
   * from the command channel.
   */
  function Classify(message: Message, bot: BotConfig): (t: Option<string>)
    ensures IsFromBot(message) ==> t.None?
    ensures !IsFromBot(message) && IsDirectMessage(message) ==> t == Some("dm")
    ensures !IsFromBot(message) && !IsDirectMessage(message) ==>
              (t == Some("channel") <==> IsFromCommandChannel(message, bot.commandChannelId))
    ensures t.Some? ==> t.value in {"dm", "channel"}
  {
    if IsFromBot(message) then None
    else if IsDirectMessage(message) then Some("dm")
    else if IsFromCommandChannel(message, bot.commandChannelId) then Some("channel")
    else None
  }

  /**
   * The command data sent with a message: `null` unless the content starts
   * with the prefix, otherwise the parsed command name, its arguments and
   * the prefix.
   */
  function CommandData(content: string, prefix: string): (d: JsValue)
    ensures d == Null <==> !StartsWith(content, prefix)
    ensures d != Null ==> d.Obj? && d.fields.Keys == {"name", "args", "prefix"}
    ensures d != Null ==> var parsed := ParseCommand(content, prefix).value;
              d.fields["name"] == Str(parsed.command) && d.fields["args"] == StrArray(parsed.args) &&
              d.fields["prefix"] == Str(prefix)
  {
    if StartsWith(content, prefix) then
      var parsed := ParseCommand(content, prefix);
      assert parsed.Some?;
      Obj(map["name" := Str(parsed.value.command), "args" := StrArray(parsed.value.args), "prefix" := Str(prefix)])
    else Null
  }

  /** Whether the result of `processMessage` reports a successful primary delivery (`result.primary?.success`). */
  predicate PrimarySucceeded(outcome: ProcessOutcome) {
    outcome.Routed? && outcome.primary.Success()
  }

  const Sent := "✅ Message sent to n8n webhook"
  const NotSent := "❌ Message failed to send to n8n webhook"
  const ErrorReply := "❌ Error processing message for n8n"

  /** The debug acknowledgement: a check mark and "sent to" exactly when the primary delivery succeeded. */
  function Acknowledgement(outcome: ProcessOutcome): (text: string)
    ensures |text| > 0
    ensures text[0] == '✅' <==> PrimarySucceeded(outcome)
    ensures text[0] == '❌' <==> !PrimarySucceeded(outcome)
    ensures PrimarySucceeded(outcome) ==> text == Sent
    ensures !PrimarySucceeded(outcome) ==> text == NotSent
  {
    if PrimarySucceeded(outcome) then Sent else NotSent
  }

  /**
   * `execute(message)`. `messageType` is the type the message was
   * classified under (`None` when it was dropped), `forwarded` whether
   * `processMessage` was reached, `commandData` what it was given, `sent`
   * the requests it issued and `reply` the debug reply attempted, if any.
   * Logging the message details throws for an invalid date before anything
   * is sent; that error is caught and answered by the error reply in debug
   * mode outside direct messages.
   */
  method Execute(message: Message, config: Config, service: N8nService, server: Server, now: string)
    returns (messageType: Option<string>, forwarded: bool, commandData: JsValue, sent: seq<Request>, reply: Option<string>)
    ensures messageType == Classify(message, config.bot)
    ensures forwarded <==> messageType.Some? && message.createdAt.Some?
    ensures forwarded ==> commandData == CommandData(message.content, config.bot.prefix)
    ensures forwarded ==> sent == service.ProcessRequests(message, messageType.value, commandData, server)
    ensures !forwarded ==> commandData == Null && sent == []
    ensures forwarded && config.bot.debugMode && !IsDirectMessage(message) ==>
              reply == Some(Acknowledgement(service.ProcessResult(message, messageType.value, commandData, server, now)))
    ensures messageType.Some? && !forwarded && config.bot.debugMode && !IsDirectMessage(message) ==>
              reply == Some(ErrorReply)
    ensures messageType.None? || !config.bot.debugMode || IsDirectMessage(message) ==> reply.None?
  {
    messageType, forwarded, commandData, sent, reply := None, false, Null, [], None;
    if IsFromBot(message) {
      return;
    }
    var bot := GetBotConfig(config);
    var kind := "channel";
    var shouldProcess := false;
    if IsDirectMessage(message) {
      kind := "dm";
      shouldProcess := true;
    } else if IsFromCommandChannel(message, bot.commandChannelId) {
      kind := "channel";
      shouldProcess := true;
    } else {
      return;
    }
    if !shouldProcess {
      return;
    }
    messageType := Some(kind);
    var details := LogMessageDetails(message, "Processing " + kind + " message");
    if details.Threw? {
      if IsDebugMode(config) && !IsDirectMessage(message) {
        reply := Some(ErrorReply);
      }
      return;
    }
    if StartsWith(message.content, bot.prefix) {
      var parsed := ParseCommand(message.content, bot.prefix);
      if parsed.Some? {
        commandData := Obj(map["name" := Str(parsed.value.command), "args" := StrArray(parsed.value.args),
                               "prefix" := Str(bot.prefix)]);
      }
    }
    var outcome, requests, _ := service.ProcessMessage(message, kind, commandData, server, now);
    forwarded, sent := true, requests;
    if IsDebugMode(config) && !IsDirectMessage(message) {
      reply := Some(Acknowledgement(outcome));
    }
  }

  /**
   * A direct message is forwarded as 'dm' whichever command channel is
   * configured, and a message elsewhere is forwarded as 'channel' exactly
   * when it comes from the command channel or no channel is configured.
   */
  lemma ForwardingRules(message: Message, bot: BotConfig, other: Option<string>)
    requires !IsFromBot(message)
    ensures IsDirectMessage(message) ==>
              Classify(message, bot) == Classify(message, bot.(commandChannelId := other)) == Some("dm")
    ensures !IsDirectMessage(message) ==>
              (Classify(message, bot).Some? <==> !IsSet(bot.commandChannelId) || message.channel.id == bot.commandChannelId.value)
  {
  }

  /**
   * Command data is sent exactly for content that starts with the prefix;
   * its name is the lower-cased first word after the prefix and its
   * arguments the remaining words, none of them empty.
   */
  lemma CommandDataFromContent(content: string, prefix: string)
    requires StartsWith(content, prefix)
    ensures var d := CommandData(content, prefix);
            var parsed := ParseCommand(content, prefix).value;
            && d.fields["name"] == Str(parsed.command)
            && (forall i :: 0 <= i < |parsed.command| ==> !IsUpper(parsed.command[i]) && !IsWs(parsed.command[i]))
            && (forall a :: a in parsed.args ==> a != "" && HasNoWs(a))
            && |parsed.command| <= |RemoveWs(content[|prefix|..])|
            && parsed.command == ToLower(RemoveWs(content[|prefix|..])[..|parsed.command|])
  {
    ParseCommandTokens(content, prefix);
  }

  /**
   * The command data for a message typed as the prefix followed by words:
   * its name is the first word lower-cased, its arguments are the other
   * words exactly as typed and in order, and its prefix is the prefix.
   */
  lemma CommandDataWords(prefix: string, lead: string, words: seq<string>, seps: seq<string>, trail: string)
    requires AllWs(lead) && AllWs(trail)
    requires |words| == |seps| + 1
    requires forall i :: 0 <= i < |words| ==> words[i] != "" && HasNoWs(words[i])
    requires forall i :: 0 <= i < |seps| ==> seps[i] != "" && AllWs(seps[i])
    ensures var content := prefix + lead + Interleave(words, seps) + trail;
            CommandData(content, prefix) ==
              Obj(map["name" := Str(ToLower(words[0])), "args" := StrArray(words[1..]), "prefix" := Str(prefix)])
  {
    var rest := lead + Interleave(words, seps) + trail;
    var content := prefix + lead + Interleave(words, seps) + trail;
    assert content == prefix + rest;
    assert content[..|prefix|] == prefix && content[|prefix|..] == rest;
    ParseCommandWords(content, prefix, lead, words, seps, trail);
  }
}
