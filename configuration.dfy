/**
 * The entities DCleaner works on and its static configuration block.
 *
 * A channel is supplied by the chat platform: an identifier (a snowflake
 * string), a display name and a channel type, which this bot never
 * interprets beyond passing it back when it creates a channel.
 */
module Configuration {

  datatype Option<+T> = None | Some(value: T)

  type ChannelId = string

  /** Platform channel type, kept as an opaque numeric tag. */
  datatype ChannelKind = ChannelKind(tag: nat)

  /** The platform's tag for a guild text channel. */
  const GUILD_TEXT: ChannelKind := ChannelKind(0)

  datatype Channel = Channel(id: ChannelId, name: string, kind: ChannelKind)

  /** One entry of AUTO_CREATE_CHANNELS: a channel the create command provisions. */
  datatype Preset = Preset(name: string, kind: ChannelKind)

  /** The CONFIG object, read-only for the whole life of the process. */
  datatype Config = Config(
    dryRun: bool,
    deleteIfNameContains: seq<string>,
    deleteIfNameStartsWith: seq<string>,
    whitelistChannelIds: seq<ChannelId>,
    autoCreateChannels: seq<Preset>
  )

  /** The configuration as shipped: live deletion, four substring words, two prefixes, empty whitelist. */
  const DEFAULT_CONFIG: Config := Config(
    false,
    ["ticket", "old", "spam", "temp"],
    ["closed-", "log-"],
    [],
    [ Preset("📢┃announcements", GUILD_TEXT),
      Preset("💬┃general", GUILD_TEXT),
      Preset("🎫┃tickets", GUILD_TEXT) ]
  )

  /** A channel is whitelisted when its id is listed in the configured whitelist. */
  predicate Whitelisted(cfg: Config, c: Channel)
  {
    c.id in cfg.whitelistChannelIds
  }
}
