/**
 * The file-backed `UserPreferences` of app.py: an in-memory cache
 * tool -> record, written through to one JSON file per (user, tool) under
 * user_data/<user>/<tool>_prefs.json.
 */
module FileStore {
  import opened Wrappers
  import opened PrefRecords

  const UserDataDir: string := "user_data"
  const PrefSuffix: string := "_prefs.json"

  // ---------------------------------------------------------------------
  // Paths

  /** POSIX `os.path.join(a, b)`: an absolute b replaces a; a separator is added unless a is empty or ends in one. */
  function Join(a: string, b: string): string {
    if |b| > 0 && b[0] == '/' then b
    else if a == "" || a[|a| - 1] == '/' then a + b
    else a + "/" + b
  }

  /** `self.user_dir`. */
  function UserDir(user: string): string {
    Join(UserDataDir, user)
  }

  /** `_get_pref_file_path`: the file that holds `tool`'s record for `user`. */
  function PrefPath(user: string, tool: string): string {
    Join(UserDir(user), tool + PrefSuffix)
  }

  /** A name with no path separator in it. */
  predicate Plain(name: string) {
    forall i :: 0 <= i < |name| ==> name[i] != '/'
  }

  function Segment(user: string): string {
    if user == "" then "" else user + "/"
  }

  /** For plain names the path is user_data/<user>/<tool>_prefs.json (user_data/<tool>_prefs.json for the empty user). */
  lemma PrefPathShape(user: string, tool: string)
    requires Plain(user) && Plain(tool)
    ensures PrefPath(user, tool) == UserDataDir + "/" + (Segment(user) + tool) + PrefSuffix
  {
    assert UserDir(user) == "user_data/" + user;
    var b := tool + PrefSuffix;
    assert b[0] != '/' by {
      if tool == "" { assert b == PrefSuffix; }
    }
    if user != "" {
      assert UserDir(user)[|UserDir(user)| - 1] == user[|user| - 1];
      assert PrefPath(user, tool) == "user_data/" + user + "/" + b;
    } else {
      assert PrefPath(user, tool) == "user_data/" + b;
    }
  }

  /** In Segment(user) + tool, a separator occurs exactly at index |user|, and only when user is not empty. */
  lemma SlashesOf(user: string, tool: string)
    requires Plain(user) && Plain(tool)
    ensures var s := Segment(user) + tool;
      && (user == "" ==> Plain(s))
      && (user != "" ==> s[|user|] == '/' && forall i :: 0 <= i < |user| ==> s[i] != '/')
  {
  }

  lemma SegmentsInjective(u1: string, t1: string, u2: string, t2: string)
    requires Plain(u1) && Plain(t1) && Plain(u2) && Plain(t2)
    requires Segment(u1) + t1 == Segment(u2) + t2
    ensures u1 == u2 && t1 == t2
  {
    var s := Segment(u1) + t1;
    SlashesOf(u1, t1);
    SlashesOf(u2, t2);
    if u1 != "" && u2 != "" {
      assert |u1| == |u2|;
      assert u1 == s[..|u1|] == u2;
      assert t1 == s[|u1| + 1..] == t2;
    } else if u1 == "" && u2 == "" {
      assert t1 == s == t2;
    }
  }

  /** Equal strings with the same prefix and the same suffix have the same middle. */
  lemma StripAffixes(prefix: string, x: string, y: string, suffix: string)
    requires prefix + x + suffix == prefix + y + suffix
    ensures x == y
  {
    var p := prefix + x + suffix;
    assert |x| == |y|;
    assert x == p[|prefix|..|prefix| + |x|];
    assert y == (prefix + y + suffix)[|prefix|..|prefix| + |y|];
  }

  /**
   * Records are keyed by (user, tool): for names without a separator, two
   * pairs get the same path string exactly when they are the same pair.
   */
  lemma PrefPathInjective(u1: string, t1: string, u2: string, t2: string)
    requires Plain(u1) && Plain(t1) && Plain(u2) && Plain(t2)
    ensures PrefPath(u1, t1) == PrefPath(u2, t2) <==> u1 == u2 && t1 == t2
  {
    if PrefPath(u1, t1) == PrefPath(u2, t2) {
      PrefPathShape(u1, t1);
      PrefPathShape(u2, t2);
      StripAffixes(UserDataDir + "/", Segment(u1) + t1, Segment(u2) + t2, PrefSuffix);
      SegmentsInjective(u1, t1, u2, t2);
    }
  }

  /** Names with a separator can share a file: user "a" with tool "b/c" and user "a/b" with tool "c". */
  lemma PrefPathAliases()
    ensures PrefPath("a", "b/c") == PrefPath("a/b", "c") == "user_data/a/b/c_prefs.json"
  {
    assert UserDir("a") == "user_data/a";
    assert UserDir("a/b") == "user_data/a/b";
  }

  // ---------------------------------------------------------------------
  // The files

  /** A preference file: unparsable, or holding a record. A missing file is a missing key. */
  datatype Entry = Corrupt | Stored(record: Record)

  type Files = map<string, Entry>

  /**
   * How a write ends: the record is written; `open` raises IOError and the
   * file is untouched; or the write raises IOError after `open` truncated
   * the file, which leaves it unparsable.
   */
  datatype WriteOutcome = Written | OpenFailed | WriteFailed

  /** `json.load` of the file at path: the record, or None when the file is missing or unparsable. */
  function ReadRecord(files: Files, path: string): Option<Record>
  {
    if path in files && files[path].Stored? then Some(files[path].record) else None
  }

  /** The files after `json.dump(data, open(path, 'w'))` ends with the given outcome. */
  function AfterSave(files: Files, path: string, data: Record, outcome: WriteOutcome): (f: Files)
    ensures forall p :: p != path ==> (p in f <==> p in files)
    ensures forall p :: p != path && p in files ==> f[p] == files[p]
    ensures outcome == Written ==> ReadRecord(f, path) == Some(data)
    ensures outcome == OpenFailed ==> f == files
    ensures outcome == WriteFailed ==> ReadRecord(f, path) == None
  {
    match outcome
    case Written => files[path := Stored(data)]
    case OpenFailed => files
    case WriteFailed => files[path := Corrupt]
  }

  /** `default_prefs`, with None replaced by `{}`. */
  function DefaultsOr(defaults: Option<Record>): Record
  {
    match defaults
    case None => map[]
    case Some(d) => d
  }

  /** The files and the record that `load_preferences` ends with. */
  function Load(files: Files, path: string, defaults: Option<Record>, outcome: WriteOutcome): (Files, Record) {
    match ReadRecord(files, path)
    case Some(rec) => (files, rec)
    case None => (AfterSave(files, path, DefaultsOr(defaults), outcome), DefaultsOr(defaults))
  }

  /** A readable record is returned as it is and no file changes. */
  lemma LoadStored(files: Files, path: string, defaults: Option<Record>, outcome: WriteOutcome)
    requires path in files && files[path].Stored?
    ensures Load(files, path, defaults, outcome) == (files, files[path].record)
  {
  }

  /**
   * A missing or unparsable record yields the defaults (`{}` for None), and
   * the defaults are written to that file and to no other.
   */
  lemma LoadFallsBack(files: Files, path: string, defaults: Option<Record>, outcome: WriteOutcome)
    requires path !in files || files[path].Corrupt?
    ensures var (f, rec) := Load(files, path, defaults, outcome);
      && rec == DefaultsOr(defaults)
      && (defaults.None? ==> rec == map[])
      && (outcome == Written ==> ReadRecord(f, path) == Some(rec))
      && forall p :: p != path && p in files ==> p in f && f[p] == files[p]
  {
  }

  /**
   * Loading is stable: a second load with the same defaults returns what
   * the first returned, whether or not the first one's write succeeded.
   */
  lemma LoadIsStable(files: Files, path: string, defaults: Option<Record>,
                                        first: WriteOutcome, second: WriteOutcome)
    ensures var (f1, r1) := Load(files, path, defaults, first);
      Load(f1, path, defaults, second).1 == r1
  {
    match ReadRecord(files, path)
    case Some(rec) =>
    case None =>
      var f1 := AfterSave(files, path, DefaultsOr(defaults), first);
      assert ReadRecord(f1, path) == None || ReadRecord(f1, path) == Some(DefaultsOr(defaults));
  }

  /**
   * Once a record is readable, because it was stored or because the
   * fallback's write of the defaults succeeded, later loads return it
   * whatever defaults they pass, and write nothing.
   */
  lemma LoadAfterPersist(files: Files, path: string, defaults: Option<Record>, laterDefaults: Option<Record>,
                         first: WriteOutcome, second: WriteOutcome)
    requires ReadRecord(files, path).Some? || first == Written
    ensures var (f1, r1) := Load(files, path, defaults, first);
      Load(f1, path, laterDefaults, second) == (f1, r1)
  {
  }

  // ---------------------------------------------------------------------
  // The store object

  /** The directory tree under user_data, as a map from path to file. */
  class Disk {
    var files: Files

    constructor (files: Files)
      ensures this.files == files
    {
      this.files := files;
    }
  }

  class UserPreferences {
    const username: string
    const disk: Disk
    /** The in-memory cache `self.preferences`. */
    var preferences: Cache

    /** __init__: an empty cache for `username`; `load_all_preferences` is a no-op. */
    constructor (username: string, disk: Disk)
      ensures this.username == username && this.disk == disk
      ensures preferences == map[]
    {
      this.username := username;
      this.disk := disk;
      preferences := map[];
    }

    /** get_preference: a lookup in the cache only. */
    function GetPreference(tool: string, key: string, default: Value): (v: Value)
      reads this
      ensures v == Lookup(preferences, tool, key, default)
    {
      Lookup(preferences, tool, key, default)
    }

    /** save_preferences: the cache is updated first and kept even when the write fails. */
    method SavePreferences(tool: string, data: Record, outcome: WriteOutcome)
      modifies this, disk
      ensures preferences == old(preferences)[tool := data]
      ensures disk.files == AfterSave(old(disk.files), PrefPath(username, tool), data, outcome)
    {
      var path := PrefPath(username, tool);
      preferences := preferences[tool := data];
      match outcome
      case Written => disk.files := disk.files[path := Stored(data)];
      case OpenFailed =>
      case WriteFailed => disk.files := disk.files[path := Corrupt];
    }

    /** load_preferences: the stored record if readable, else the defaults, which are then saved. */
    method LoadPreferences(tool: string, defaults: Option<Record>, outcome: WriteOutcome) returns (prefs: Record)
      modifies this, disk
      ensures (disk.files, prefs) == Load(old(disk.files), PrefPath(username, tool), defaults, outcome)
      ensures preferences == old(preferences)[tool := prefs]
    {
      var d := if defaults.None? then map[] else defaults.value;
      var path := PrefPath(username, tool);
      var read := if path in disk.files && disk.files[path].Stored? then Some(disk.files[path].record) else None;
      if read.Some? {
        prefs := read.value;
        preferences := preferences[tool := prefs];
      } else {
        preferences := preferences[tool := d];
        SavePreferences(tool, d, outcome);
        prefs := d;
      }
    }

    /** set_preference: update the cache, then write the tool's whole record. */
    method SetPreference(tool: string, key: string, value: Value, outcome: WriteOutcome)
      modifies this, disk
      ensures preferences == Assign(old(preferences), tool, key, value)
      ensures disk.files == AfterSave(old(disk.files), PrefPath(username, tool), preferences[tool], outcome)
      ensures forall d :: GetPreference(tool, key, d) == value
    {
      if tool !in preferences {
        preferences := preferences[tool := map[]];
      }
      preferences := preferences[tool := preferences[tool][key := value]];
      assert preferences == Assign(old(preferences), tool, key, value);
      SavePreferences(tool, preferences[tool], outcome);
      forall d ensures GetPreference(tool, key, d) == value {
        LookupAfterAssign(old(preferences), tool, key, value, d);
      }
    }
  }
}
