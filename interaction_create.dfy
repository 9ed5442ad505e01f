/**
 * The `interactionCreate` event: a slash command is turned into a
 * message-like record and command data, forwarded to n8n with message type
 * 'slash', and only then executed.
 */
module InteractionCreate {
  import opened Strings
  import opened JsValues
  import opened DiscordTypes
  import opened N8n

  /** One entry of `interaction.options.data`. */
  datatype CommandOption = CommandOption(name: string, value: JsValue)

  /**
   * The parts of an interaction the handler reads. `answered` is whether the
   * interaction has been replied to or deferred by the time an error is
   * handled.
   */
  datatype Interaction = Interaction(
    id: string,
    isChatInputCommand: bool,
    commandName: string,
    options: seq<CommandOption>,
    user: User,
    member: Option<Member>,
    channel: Channel,
    guild: Option<Guild>,
    answered: bool)

  /** `${opt.name}:${opt.value}` */
  function OptionText(o: CommandOption): string {
    o.name + ":" + ToJsString(o.value)
  }

  function OptionTexts(options: seq<CommandOption>): (texts: seq<string>)
    ensures |texts| == |options|
    ensures forall i :: 0 <= i < |options| ==> texts[i] == OptionText(options[i])
  {
    seq(|options|, i requires 0 <= i < |options| => OptionText(options[i]))
  }

  /** The content of the message-like record: the command name after a slash, a space, then the options joined by spaces. */
  function Content(commandName: string, options: seq<CommandOption>): (c: string)
    ensures StartsWith(c, "/" + commandName + " ")
    ensures options == [] ==> c == "/" + commandName + " "
  {
    "/" + commandName + " " + JoinWith(OptionTexts(options), " ")
  }

  /**
   * When no option renders with a space in it, the options can be read back
   * from the content: splitting what follows the command name on spaces
   * gives each option's `name:value` text, in order.
   */
  lemma ContentListsOptions(commandName: string, options: seq<CommandOption>)
    requires options != []
    requires forall o :: o in options ==> ' ' !in OptionText(o)
    ensures var c := Content(commandName, options);
            SplitOn(c[|commandName| + 2..], ' ') == OptionTexts(options)
  {
    var texts := OptionTexts(options);
    forall t | t in texts ensures ' ' !in t {
      var i :| 0 <= i < |texts| && texts[i] == t;
      assert options[i] in options;
    }
    SplitJoinWith(texts, ' ');
    assert Content(commandName, options)[|commandName| + 2..] == JoinWith(texts, " ");
  }

  /** The options object the reduce builds: each option in turn sets its name to its value. */
  function OptionsOf(options: seq<CommandOption>): map<string, JsValue>
    decreases |options|
  {
    if options == [] then map[]
    else OptionsOf(options[..|options| - 1])[options[|options| - 1].name := options[|options| - 1].value]
  }

  /**
   * `options.reduce((acc, option) => { acc[option.name] = option.value; return acc; }, {})`,
   * the accumulator updated in place.
   */
  method BuildOptions(options: seq<CommandOption>) returns (acc: map<string, JsValue>)
    ensures acc == OptionsOf(options)
  {
    acc := map[];
    for i := 0 to |options|
      invariant acc == OptionsOf(options[..i])
    {
      assert options[..i + 1][..i] == options[..i];
      acc := acc[options[i].name := options[i].value];
    }
    assert options[..|options|] == options;
  }

  /** The names the options carry. */
  function Names(options: seq<CommandOption>): set<string> {
    set o | o in options :: o.name
  }

  /** The options object has a key for every option name and no other. */
  lemma {:induction false} OptionsKeys(options: seq<CommandOption>)
    ensures OptionsOf(options).Keys == Names(options)
    decreases |options|
  {
    if options != [] {
      var init := options[..|options| - 1];
      var last := options[|options| - 1];
      OptionsKeys(init);
      assert options == init + [last];
      assert Names(options) == Names(init) + {last.name};
    }
  }

  /**
   * Each option name maps to the value of its last occurrence: a later
   * option with the same name overwrites an earlier one.
   */
  lemma {:induction false} OptionsLastWins(options: seq<CommandOption>, i: nat)
    requires i < |options|
    requires forall j :: i < j < |options| ==> options[j].name != options[i].name
    ensures options[i].name in OptionsOf(options)
    ensures OptionsOf(options)[options[i].name] == options[i].value
    decreases |options|
  {
    var init := options[..|options| - 1];
    if i < |init| {
      assert init[i] == options[i];
      forall j | i < j < |init| ensures init[j].name != init[i].name {
        assert init[j] == options[j];
      }
      OptionsLastWins(init, i);
    }
  }

  /** The message-like record built for an interaction, created at `now`. */
  function MessageData(interaction: Interaction, now: string): (m: Message)
    ensures m.id == interaction.id && m.author == interaction.user && m.member == interaction.member
    ensures m.channel == interaction.channel && m.guild == interaction.guild
    ensures m.content == Content(interaction.commandName, interaction.options)
    ensures m.createdAt == Some(now)
  {
    Message(interaction.id, Content(interaction.commandName, interaction.options), Some(now),
            interaction.user, interaction.member, interaction.channel, interaction.guild)
  }

  /**
   * The command data of an interaction: its name, the options object with
   * one key per option name, and the type 'slash'.
   */
  function CommandData(interaction: Interaction): (d: JsValue)
    ensures d.Obj? && d.fields.Keys == {"name", "options", "type"}
    ensures d.fields["name"] == Str(interaction.commandName) && d.fields["type"] == Str("slash")
    ensures d.fields["options"].Obj? && d.fields["options"].fields.Keys == Names(interaction.options)
  {
    OptionsKeys(interaction.options);
    Obj(map["name" := Str(interaction.commandName), "options" := Obj(OptionsOf(interaction.options)),
            "type" := Str("slash")])
  }

  const ErrorMessage := "There was an error while executing this command!"

  /** What the handler does, in order. */
  datatype Effect =
    | Forward(message: Message, messageType: string, commandData: JsValue, requests: seq<Request>)
    | RunCommand(name: string)
    | ErrorReply(content: string, followUp: bool)

  /**
   * `execute(interaction)`. `commands` are the names of the loaded commands,
   * `commandThrows` whether executing the command throws. Interactions that
   * are not chat-input commands, and unknown commands, are ignored.
   */
  method Execute(interaction: Interaction, commands: set<string>, service: N8nService, server: Server, now: string,
                 commandThrows: bool)
    returns (effects: seq<Effect>)
    ensures !interaction.isChatInputCommand || interaction.commandName !in commands ==> effects == []
    ensures interaction.isChatInputCommand && interaction.commandName in commands ==>
              && |effects| == (if commandThrows then 3 else 2)
              && effects[0] == Forward(MessageData(interaction, now), "slash", CommandData(interaction),
                                       service.ProcessRequests(MessageData(interaction, now), "slash",
                                                               CommandData(interaction), server))
              && effects[1] == RunCommand(interaction.commandName)
              && (commandThrows ==> effects[2] == ErrorReply(ErrorMessage, interaction.answered))
  {
    effects := [];
    if !interaction.isChatInputCommand {
      return;
    }
    if interaction.commandName !in commands {
      return;
    }
    var messageData := Message(interaction.id, Content(interaction.commandName, interaction.options), Some(now),
                               interaction.user, interaction.member, interaction.channel, interaction.guild);
    var options := BuildOptions(interaction.options);
    var commandData := Obj(map["name" := Str(interaction.commandName), "options" := Obj(options),
                               "type" := Str("slash")]);
    var _, sent, _ := service.ProcessMessage(messageData, "slash", commandData, server, now);
    effects := effects + [Forward(messageData, "slash", commandData, sent)];
    effects := effects + [RunCommand(interaction.commandName)];
    if commandThrows {
      effects := effects + [ErrorReply(ErrorMessage, interaction.answered)];
    }
  }

  /**
   * A slash command is always forwarded with a valid date and with command
   * data, so its result is routed, and it also goes to the secondary
   * webhook exactly when one is configured.
   */
  lemma SlashRouting(interaction: Interaction, service: N8nService, server: Server, now: string)
    ensures var outcome := service.ProcessResult(MessageData(interaction, now), "slash", CommandData(interaction), server, now);
            && outcome.Routed?
            && (outcome.secondary.Some? <==> IsSet(service.config.secondaryWebhook))
  {
    service.ProcessRouting(MessageData(interaction, now), "slash", CommandData(interaction), server, now);
  }
}
