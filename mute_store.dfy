/**
 * The durable table of active mutes, keyed by user id: one row per muted user
 * holding the guild, the unmute time, the captured role list in its stored
 * text form and the April Fools reward flag.
 */
module MuteStore {
  import opened Platform
  import RoleCodec

  datatype MuteRow = MuteRow(guild: GuildId, unmuteTime: int, originalRoles: string, april: int)

  type Rows = map<UserId, MuteRow>

  /** `INSERT OR REPLACE`: the user has exactly the new row, whatever it had before; every other row is kept. */
  function Upsert(rows: Rows, u: UserId, row: MuteRow): (r: Rows)
    ensures r.Keys == rows.Keys + {u}
    ensures r[u] == row
    ensures forall v :: v in rows && v != u ==> r[v] == rows[v]
  {
    rows[u := row]
  }

  /** `DELETE ... WHERE user_id = ?`: only that user's row goes; no row, no change. */
  function Delete(rows: Rows, u: UserId): (r: Rows)
    ensures r.Keys == rows.Keys - {u}
    ensures forall v :: v in r ==> r[v] == rows[v]
    ensures u !in rows ==> r == rows
  {
    rows - {u}
  }

  /** Muting and then unmuting a user leaves the table as if the user had never had a row. */
  lemma DeleteUpsert(rows: Rows, u: UserId, row: MuteRow)
    ensures Delete(Upsert(rows, u, row), u) == Delete(rows, u)
  {
  }

  /** Writing a user's row twice keeps only the second write. */
  lemma UpsertTwice(rows: Rows, u: UserId, first: MuteRow, second: MuteRow)
    ensures Upsert(Upsert(rows, u, first), u, second) == Upsert(rows, u, second)
  {
  }

  class Store {
    var rows: Rows

    /** `init_db` on a new database file: the table is created empty. */
    constructor ()
      ensures rows == map[]
    {
      rows := map[];
    }

    /** `init_db` after a restart: `CREATE TABLE IF NOT EXISTS` keeps the rows already persisted. */
    constructor Reopen(persisted: Rows)
      ensures rows == persisted
    {
      rows := persisted;
    }

    /** `add_mute`: stores the role ids as their comma-joined text. */
    method AddMute(u: UserId, guild: GuildId, unmuteTime: int, originalRoles: seq<RoleId>, april: int)
      modifies this
      ensures rows == Upsert(old(rows), u, MuteRow(guild, unmuteTime, RoleCodec.Encode(originalRoles), april))
    {
      var rolesText := RoleCodec.Encode(originalRoles);
      rows := rows[u := MuteRow(guild, unmuteTime, rolesText, april)];
    }

    /** `remove_mute`. */
    method RemoveMute(u: UserId)
      modifies this
      ensures rows == Delete(old(rows), u)
    {
      rows := rows - {u};
    }

    /** `get_all_mutes`: every row, keyed by user; the order of the rows carries no meaning. */
    method GetAllMutes() returns (all: Rows)
      ensures all == rows
    {
      all := rows;
    }
  }
}
