/**
 * The SQLite-backed `UserPreferences` of database.py: the `users` table
 * holds one JSON blob per username with every tool's record; the whole blob
 * is loaded (or created as `{}`) on construction and rewritten on each set.
 * The JSON encoding is taken to round-trip exactly.
 */
module DbStore {
  import opened PrefRecords

  /** The `users` table: username -> the decoded `preferences` column. */
  type Table = map<string, Cache>

  /** `_load_or_create_user`: the user's blob, or a new row holding `{}`. */
  function LoadOrCreate(users: Table, username: string): (r: (Table, Cache))
    ensures username in r.0 && r.0[username] == r.1
    ensures username in users ==> r == (users, users[username])
    ensures username !in users ==> r.1 == map[]
    ensures r.0.Keys == users.Keys + {username}
    ensures forall u :: u in users && u != username ==> r.0[u] == users[u]
  {
    if username in users then (users, users[username]) else (users[username := map[]], map[])
  }

  /** Loading or creating twice is the same as once: the second load returns the first one's result and inserts nothing. */
  lemma LoadOrCreateTwice(users: Table, username: string)
    ensures var (t, prefs) := LoadOrCreate(users, username);
      LoadOrCreate(t, username) == (t, prefs)
  {
  }

  /** `UPDATE users SET preferences = ? WHERE username = ?`: only that user's row, and only if it exists. */
  function Updated(users: Table, username: string, prefs: Cache): (t: Table)
    ensures t.Keys == users.Keys
    ensures username in users ==> t[username] == prefs
    ensures forall u :: u in users && u != username ==> t[u] == users[u]
  {
    if username in users then users[username := prefs] else users
  }

  /** The database connection, reduced to its `users` table. */
  class Database {
    var users: Table

    constructor (users: Table)
      ensures this.users == users
    {
      this.users := users;
    }
  }

  class UserPreferences {
    const username: string
    const db: Database
    /** The decoded blob `self.preferences`: tool -> record. */
    var preferences: Cache

    /** This user's row exists: the constructor creates it and no operation deletes it. */
    ghost predicate Valid()
      reads this, db
    {
      username in db.users
    }

    /** __init__: load or create the user's row. */
    constructor (username: string, db: Database)
      modifies db
      ensures this.username == username && this.db == db
      ensures Valid()
      ensures (db.users, preferences) == LoadOrCreate(old(db.users), username)
    {
      var prefs := LoadOrCreateUser(db, username);
      this.username := username;
      this.db := db;
      preferences := prefs;
    }

    /** _load_or_create_user: SELECT the row; INSERT `{}` when there is none. */
    static method LoadOrCreateUser(db: Database, username: string) returns (prefs: Cache)
      modifies db
      ensures (db.users, prefs) == LoadOrCreate(old(db.users), username)
    {
      if username in db.users {
        prefs := db.users[username];
      } else {
        prefs := map[];
        db.users := db.users[username := prefs];
      }
    }

    /** get_preference: a lookup in the loaded blob only. */
    function GetPreference(tool: string, key: string, default: Value): (v: Value)
      reads this
      ensures v == Lookup(preferences, tool, key, default)
    {
      Lookup(preferences, tool, key, default)
    }

    /** set_preference: update the blob in memory, then store all of it in this user's row. */
    method SetPreference(tool: string, key: string, value: Value)
      modifies this, db
      ensures preferences == Assign(old(preferences), tool, key, value)
      ensures db.users == Updated(old(db.users), username, preferences)
      ensures Valid() == old(Valid())
      ensures Valid() ==> db.users[username] == preferences
      ensures forall d :: GetPreference(tool, key, d) == value
    {
      if tool !in preferences {
        preferences := preferences[tool := map[]];
      }
      preferences := preferences[tool := preferences[tool][key := value]];
      assert preferences == Assign(old(preferences), tool, key, value);
      db.users := if username in db.users then db.users[username := preferences] else db.users;
      forall d ensures GetPreference(tool, key, d) == value {
        LookupAfterAssign(old(preferences), tool, key, value, d);
      }
    }
  }
}
