/** The bot's fixed configuration: the guild, the special roles and the durations (seconds). */
module Config {

  const GUILD_ID: nat := 876189935382704210
  const MUTE_ROLE_ID: nat := 965349651119243294
  const APRIL_FOOLS_ROLE_ID: nat := 1356358749811642478

  /** Roles too powerful to be sacrificed: never captured, and they shield their holder. */
  const IGNORE_ROLE_IDS: seq<nat> := [
    876195007428718652, 1024089071674462239, 939348486338543636,
    1268581309794750506, 1270827058930647171, 1263514885636227153,
    876195144733429791, 954046716619948072 ]

  /** The name of the guild's default role, which every member holds and which is never captured. */
  const EVERYONE_NAME: string := "@everyone"

  /** A caller who tries to sacrifice a protected member is muted for ten minutes. */
  const BACKFIRE_DURATION: nat := 10 * 60
  /** A worthy sacrifice mutes the caller and the target for fifteen minutes each. */
  const CALLER_DURATION: nat := 15 * 60
  const TARGET_DURATION: nat := 15 * 60
  /** The `soul` command mutes its target for ten minutes. */
  const SOUL_DURATION: nat := 10 * 60
  /** How long an announced sacrifice waits for a response before the taunt. */
  const RESPONSE_WINDOW: nat := 5 * 60
}
