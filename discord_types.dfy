/**
 * The parts of Discord's objects that the relay reads. They arrive from the
 * Discord client library and are never changed by the relay.
 */
module DiscordTypes {
  import opened JsValues

  datatype User = User(id: string, username: string, discriminator: string, bot: bool)

  /**
   * A guild member: the ids of the roles in its role cache, in cache order,
   * when that cache is available, and its permission set when known.
   */
  datatype Member = Member(roleIds: Option<seq<string>>, permissions: Option<set<string>>)

  /**
   * A channel. `name` is absent for direct-message channels; `kind` is the
   * value the library reports as `channel.type` (a string or a number).
   */
  datatype Channel = Channel(id: string, name: Option<string>, kind: JsValue)

  datatype Guild = Guild(id: string, name: string)

  /**
   * A message, or the message-like object the relay builds for a slash
   * command. `createdAt` is the creation time as `Date.prototype.toISOString`
   * renders it, or `None` for an invalid date, on which `toISOString` throws.
   */
  datatype Message = Message(
    id: string,
    content: string,
    createdAt: Option<string>,
    author: User,
    member: Option<Member>,
    channel: Channel,
    guild: Option<Guild>)

  /** The message of the `RangeError` that `toISOString` throws on an invalid date. */
  const InvalidTimeValue := "Invalid time value"
}
