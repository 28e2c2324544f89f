/**
 * The per-guild `settings` table (database.py) and the `Database` object
 * that owns it.
 *
 * Every setter runs SQLite's `INSERT OR REPLACE` naming only some columns.
 * On a primary-key conflict REPLACE deletes the old row and inserts a new
 * one, so each column the statement does not name takes its declared
 * default again: NULL, or 'deepseek-chat' for `current_model`. The setters
 * below therefore replace the whole row; they never merge into it.
 */
module Settings {
  import opened Wrappers

  /** Declared default of `current_model`, also what `get_model` answers for a guild without a row. */
  const DefaultModel: string := "deepseek-chat"

  /** One row of `settings`, without its key `guild_id`. */
  datatype Row = Row(
    apiKey: Option<string>,
    currentModel: string,
    modelMessageId: Option<int>,
    modelChannelId: Option<int>)

  /** The row an insert builds from the column defaults alone. */
  const DefaultRow: Row := Row(None, DefaultModel, None, None)

  /** The table. `guild_id` is the primary key, so there is at most one row per guild. */
  type Table = map<int, Row>

  // ---- What the getters answer (database.py:29-36, 46-53, 65-73) ----

  /** `get_api_key`: the stored key, or None when the guild has no row (or the column is NULL). */
  function ApiKey(t: Table, g: int): Option<string>
  {
    if g in t then t[g].apiKey else None
  }

  /** `get_model`: the stored model, or the default when the guild has no row. */
  function Model(t: Table, g: int): string
  {
    if g in t then t[g].currentModel else DefaultModel
  }

  /** `get_model_message`: the stored (message id, channel id), or (None, None) without a row. */
  function ModelMessage(t: Table, g: int): (Option<int>, Option<int>)
  {
    if g in t then (t[g].modelMessageId, t[g].modelChannelId) else (None, None)
  }

  // ---- What the setters leave behind (database.py:21-27, 38-44, 55-63) ----

  /** `set_api_key`: `INSERT OR REPLACE INTO settings (guild_id, api_key)`. */
  function WithApiKey(t: Table, g: int, key: string): (t': Table)
    ensures ApiKey(t', g) == Some(key)
    ensures Model(t', g) == DefaultModel
    ensures ModelMessage(t', g) == (None, None)
    ensures t'.Keys == t.Keys + {g}
    ensures |t'| == if g in t then |t| else |t| + 1
    ensures t' - {g} == t - {g}
  {
    t[g := DefaultRow.(apiKey := Some(key))]
  }

  /** `set_model`: `INSERT OR REPLACE INTO settings (guild_id, current_model)`. */
  function WithModel(t: Table, g: int, model: string): (t': Table)
    ensures Model(t', g) == model
    ensures ApiKey(t', g) == None
    ensures ModelMessage(t', g) == (None, None)
    ensures t'.Keys == t.Keys + {g}
    ensures |t'| == if g in t then |t| else |t| + 1
    ensures t' - {g} == t - {g}
  {
    t[g := DefaultRow.(currentModel := model)]
  }

  /** `update_model_message`: `INSERT OR REPLACE INTO settings (guild_id, model_message_id, model_channel_id)`. */
  function WithModelMessage(t: Table, g: int, messageId: int, channelId: int): (t': Table)
    ensures ModelMessage(t', g) == (Some(messageId), Some(channelId))
    ensures ApiKey(t', g) == None
    ensures Model(t', g) == DefaultModel
    ensures t'.Keys == t.Keys + {g}
    ensures |t'| == if g in t then |t| else |t| + 1
    ensures t' - {g} == t - {g}
  {
    t[g := DefaultRow.(modelMessageId := Some(messageId), modelChannelId := Some(channelId))]
  }

  /**
   * No row holds both an API key and a selector message id. Every setter
   * writes one of the two and resets the other, so a table that starts
   * empty never leaves this state.
   */
  ghost predicate KeyExcludesSelector(t: Table)
  {
    forall g :: g in t ==> t[g].apiKey.None? || t[g].modelMessageId.None?
  }

  lemma AbsentGuildDefaults(t: Table, g: int)
    requires g !in t
    ensures ApiKey(t, g) == None
    ensures Model(t, g) == DefaultModel
    ensures ModelMessage(t, g) == (None, None)
  {
  }

  lemma SettersKeepKeyExcludesSelector(t: Table, g: int, key: string, model: string, messageId: int, channelId: int)
    requires KeyExcludesSelector(t)
    ensures KeyExcludesSelector(WithApiKey(t, g, key))
    ensures KeyExcludesSelector(WithModel(t, g, model))
    ensures KeyExcludesSelector(WithModelMessage(t, g, messageId, channelId))
  {
  }

  /**
   * The `Database` object of database.py. `created` says whether the
   * `settings` table exists in the database file; `rows` is its content.
   * Each method is one atomic statement on the table.
   */
  class Database {
    var created: bool
    var rows: Table

    /** Without the table there are no rows. */
    ghost predicate Valid()
      reads this
    {
      created || rows == map[]
    }

    /**
     * `Database(db_path)` only remembers the path; the file may already hold
     * a `settings` table from an earlier run (`existing`), or not (None).
     */
    constructor (existing: Option<Table>)
      ensures Valid()
      ensures created == existing.Some?
      ensures rows == if existing.Some? then existing.value else map[]
    {
      created := existing.Some?;
      rows := if existing.Some? then existing.value else map[];
    }

    /** `init`: `CREATE TABLE IF NOT EXISTS settings (...)`; rows already there are kept. */
    method Init()
      requires Valid()
      modifies this`created
      ensures Valid() && created
      ensures rows == old(rows)
    {
      created := true;
    }

    method SetApiKey(g: int, key: string)
      requires created
      modifies this`rows
      ensures rows == WithApiKey(old(rows), g, key)
    {
      rows := rows[g := DefaultRow.(apiKey := Some(key))];
    }

    method GetApiKey(g: int) returns (key: Option<string>)
      requires created
      ensures key == ApiKey(rows, g)
    {
      key := None;
      if g in rows {
        key := rows[g].apiKey;
      }
    }

    method SetModel(g: int, model: string)
      requires created
      modifies this`rows
      ensures rows == WithModel(old(rows), g, model)
    {
      rows := rows[g := DefaultRow.(currentModel := model)];
    }

    method GetModel(g: int) returns (model: string)
      requires created
      ensures model == Model(rows, g)
    {
      model := DefaultModel;
      if g in rows {
        model := rows[g].currentModel;
      }
    }

    method UpdateModelMessage(g: int, messageId: int, channelId: int)
      requires created
      modifies this`rows
      ensures rows == WithModelMessage(old(rows), g, messageId, channelId)
    {
      rows := rows[g := DefaultRow.(modelMessageId := Some(messageId), modelChannelId := Some(channelId))];
    }

    method GetModelMessage(g: int) returns (messageId: Option<int>, channelId: Option<int>)
      requires created
      ensures (messageId, channelId) == ModelMessage(rows, g)
    {
      messageId, channelId := None, None;
      if g in rows {
        messageId, channelId := rows[g].modelMessageId, rows[g].modelChannelId;
      }
    }
  }
}
