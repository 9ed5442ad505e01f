/**
 * The decision predicates of the Discord service and the message summary it
 * logs. The methods that talk to Discord (replies, direct messages, guild
 * and channel fetches) are not part of this module.
 */
module DiscordService {
  import opened Strings
  import opened JsValues
  import opened DiscordTypes
  import opened Helpers

  /**
   * `isFromCommandChannel(message, configuredChannelId)`: every channel is
   * accepted when no channel is configured (unset or empty); otherwise only
   * the configured one.
   */
  predicate IsFromCommandChannel(message: Message, configured: Option<string>)
    ensures !IsSet(configured) ==> IsFromCommandChannel(message, configured)
    ensures IsSet(configured) ==> (IsFromCommandChannel(message, configured) <==> message.channel.id == configured.value)
  {
    !IsSet(configured) || message.channel.id == configured.value
  }

  /** `isDirectMessage(message)`: the channel type is the string 'DM'. */
  predicate IsDirectMessage(message: Message) {
    message.channel.kind == Str("DM")
  }

  /** `isFromBot(message)`: the author's bot flag. */
  predicate IsFromBot(message: Message) {
    message.author.bot
  }

  /** `requiredPermissions.every(p => held.has(p))`, one permission at a time. */
  function AllHeld(required: seq<string>, held: set<string>): (r: bool)
    ensures r <==> forall p :: p in required ==> p in held
  {
    if required == [] then true
    else required[0] in held && AllHeld(required[1..], held)
  }

  /**
   * `hasPermissions(member, requiredPermissions = [])`: false without a
   * member or without its permissions; otherwise whether every required
   * permission is held, so that the empty list is always satisfied.
   */
  function HasPermissions(member: Option<Member>, required: seq<string> := []): (r: bool)
    ensures member.None? || member.value.permissions.None? ==> !r
    ensures member.Some? && member.value.permissions.Some? ==>
              (r <==> forall p :: p in required ==> p in member.value.permissions.value)
    ensures member.Some? && member.value.permissions.Some? && required == [] ==> r
  {
    if member.None? || member.value.permissions.None? then false
    else AllHeld(required, member.value.permissions.value)
  }

  /** The length of message content shown in the log. */
  const LoggedLength := 100

  /**
   * The `content` of `logMessageDetails`: the first 100 characters, with
   * "..." appended exactly when the content is longer than that.
   */
  function LoggedContent(content: string): (r: string)
    ensures |content| <= LoggedLength ==> r == content
    ensures |content| > LoggedLength ==> |r| == LoggedLength + 3
    ensures |content| > LoggedLength ==> r[..LoggedLength] == content[..LoggedLength] && r[LoggedLength..] == "..."
  {
    SliceTo(content, LoggedLength) + (if |content| > LoggedLength then "..." else "")
  }

  /**
   * Past 103 characters the logged content is the content truncated to 103
   * characters; between 101 and 103 characters `truncateText` would keep
   * the content whole while the log still cuts it at 100.
   */
  lemma LoggedContentTruncates(content: string)
    ensures |content| > LoggedLength + 3 ==> LoggedContent(content) == TruncateText(content, LoggedLength + 3)
    ensures LoggedLength < |content| <= LoggedLength + 3 ==>
              TruncateText(content, LoggedLength + 3) == content && |LoggedContent(content)| == LoggedLength + 3
  {
  }

  /** The record `logMessageDetails` hands to the logger. */
  datatype MessageDetails = MessageDetails(
    messageId: string,
    author: string,
    channel: string,
    content: string,
    timestamp: string,
    context: string)

  /**
   * `logMessageDetails(message, context = '')` without the logger call; an
   * invalid creation date makes `toISOString` throw.
   */
  function LogMessageDetails(message: Message, context: string := ""): (d: Completion<MessageDetails>)
    ensures d.Threw? <==> message.createdAt.None?
    ensures d.Normal? ==> d.value.author == FormatUser(message.author) && d.value.channel == FormatChannel(message.channel)
    ensures d.Normal? ==> d.value.content == LoggedContent(message.content) && d.value.timestamp == message.createdAt.value
  {
    match message.createdAt
    case None => Threw(InvalidTimeValue)
    case Some(t) =>
      Normal(MessageDetails(message.id, FormatUser(message.author), FormatChannel(message.channel),
                            LoggedContent(message.content), t, context))
  }
}
