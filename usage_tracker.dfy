/**
 * subscription/usageTracker.js: one usage row per user with a `<type>_used` column per
 * capability. `AddUsage` reads the column and writes back `current + amount` with an
 * upsert on `user_id`; `ResetUsage` zeroes the tts, stt and s2s columns of an existing row.
 * Store errors are rethrown (`Err`), never read as zero.
 */
module UsageTracker {
  import opened Wrappers
  import opened Tiers
  import opened Db

  /** The `${type}_used` column of a row. */
  function Column(row: UsageRow, t: Mode): int {
    match t
    case Tts => row.ttsUsed
    case Stt => row.sttUsed
    case S2s => row.s2sUsed
    case Chat => row.chatUsed
  }

  function WithColumn(row: UsageRow, t: Mode, v: int): (r: UsageRow)
    ensures Column(r, t) == v
    ensures forall t' :: t' != t ==> Column(r, t') == Column(row, t')
  {
    match t
    case Tts => row.(ttsUsed := v)
    case Stt => row.(sttUsed := v)
    case S2s => row.(s2sUsed := v)
    case Chat => row.(chatUsed := v)
  }

  /** The column defaults of a row created by the upsert. */
  const NEW_ROW: UsageRow := UsageRow(0, 0, 0, 0)

  /** What `getUsage` returns: the column, or 0 when the user has no row. */
  function UsageValue(rows: map<UserId, UsageRow>, user: UserId, t: Mode): (r: int)
    ensures user !in rows ==> r == 0
    ensures user in rows ==> r == Column(rows[user], t)
  {
    if user in rows then Column(rows[user], t) else 0
  }

  /** The table after `addUsage(user, t, amount)` succeeds. */
  function Added(rows: map<UserId, UsageRow>, user: UserId, t: Mode, amount: int): (r: map<UserId, UsageRow>)
    ensures r.Keys == rows.Keys + {user}
    ensures UsageValue(r, user, t) == UsageValue(rows, user, t) + amount
    ensures forall t' :: t' != t ==> UsageValue(r, user, t') == UsageValue(rows, user, t')
    ensures forall u :: u in rows && u != user ==> r[u] == rows[u]
  {
    var row := if user in rows then rows[user] else NEW_ROW;
    rows[user := WithColumn(row, t, UsageValue(rows, user, t) + amount)]
  }

  /** Two sequential additions add up. */
  lemma AddsCompose(rows: map<UserId, UsageRow>, user: UserId, t: Mode, a: int, b: int)
    ensures Added(Added(rows, user, t, a), user, t, b) == Added(rows, user, t, a + b)
  {
    var once := Added(rows, user, t, a);
    assert Added(once, user, t, b)[user] == Added(rows, user, t, a + b)[user] by {
      var x := Added(once, user, t, b)[user];
      var y := Added(rows, user, t, a + b)[user];
      assert forall t' :: Column(x, t') == Column(y, t');
      assert x == UsageRow(Column(x, Tts), Column(x, Stt), Column(x, S2s), Column(x, Chat));
      assert y == UsageRow(Column(y, Tts), Column(y, Stt), Column(y, S2s), Column(y, Chat));
    }
  }

  /** The table after `resetUsage(user)` succeeds: an update, so only an existing row changes. */
  function Reset(rows: map<UserId, UsageRow>, user: UserId): (r: map<UserId, UsageRow>)
    ensures r.Keys == rows.Keys
    ensures forall u :: u in rows && u != user ==> r[u] == rows[u]
    ensures user in rows ==> Column(r[user], Tts) == 0 && Column(r[user], Stt) == 0 && Column(r[user], S2s) == 0
    ensures user in rows ==> Column(r[user], Chat) == Column(rows[user], Chat)
  {
    if user in rows then rows[user := rows[user].(ttsUsed := 0, sttUsed := 0, s2sUsed := 0)] else rows
  }

  lemma ResetIdempotent(rows: map<UserId, UsageRow>, user: UserId)
    ensures Reset(Reset(rows, user), user) == Reset(rows, user)
  {
  }

  /** `getUsage(userId, type)`; `readError` is an error of the select. */
  method GetUsage(db: Store, user: UserId, t: Mode, readError: Option<string>) returns (r: Result<int>)
    ensures readError.Some? ==> r == Err(readError.value)
    ensures readError.None? ==> r == Ok(UsageValue(db.usageRows, user, t))
  {
    if readError.Some? {
      return Err(readError.value);
    }
    if user in db.usageRows {
      r := Ok(Column(db.usageRows[user], t));
    } else {
      r := Ok(0);
    }
  }

  /** `addUsage(userId, type, amount)`: read, add, upsert; returns the written row. */
  method AddUsage(db: Store, user: UserId, t: Mode, amount: int, readError: Option<string>, writeError: Option<string>)
    returns (r: Result<UsageRow>)
    modifies db`usageRows
    ensures readError.Some? ==> r == Err(readError.value) && db.usageRows == old(db.usageRows)
    ensures readError.None? && writeError.Some? ==> r == Err(writeError.value) && db.usageRows == old(db.usageRows)
    ensures readError.None? && writeError.None? ==>
      db.usageRows == Added(old(db.usageRows), user, t, amount) && r == Ok(db.usageRows[user])
  {
    var current := GetUsage(db, user, t, readError);
    if current.Err? {
      return Err(current.message);
    }
    var newUsed := current.value + amount;
    if writeError.Some? {
      return Err(writeError.value);
    }
    var row := if user in db.usageRows then db.usageRows[user] else NEW_ROW;
    db.usageRows := db.usageRows[user := WithColumn(row, t, newUsed)];
    r := Ok(db.usageRows[user]);
  }

  /** `resetUsage(userId)`. */
  method ResetUsage(db: Store, user: UserId, error: Option<string>) returns (r: Outcome)
    modifies db`usageRows
    ensures error.Some? ==> r == Fail(error.value) && db.usageRows == old(db.usageRows)
    ensures error.None? ==> r == Pass && db.usageRows == Reset(old(db.usageRows), user)
  {
    if error.Some? {
      return Fail(error.value);
    }
    if user in db.usageRows {
      var row := db.usageRows[user];
      db.usageRows := db.usageRows[user := row.(ttsUsed := 0, sttUsed := 0, s2sUsed := 0)];
    }
    r := Pass;
  }
}
