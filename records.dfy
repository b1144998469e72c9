/**
 * What both preference stores share: a tool's record maps keys to small
 * JSON scalars, and the in-memory cache maps a tool name to its record.
 * `get_preference` and the in-memory part of `set_preference` are the same
 * code in app.py and database.py; they are defined once here.
 */
module PrefRecords {
  /** A JSON scalar as `json.load` returns it; `Null` is Python's `None`. */
  datatype Value = Null | Bool(b: bool) | Int(i: int) | Str(s: string)

  /** One tool's preferences: key -> value. */
  type Record = map<string, Value>

  /** `self.preferences`: tool name -> that tool's record. */
  type Cache = map<string, Record>

  /** `cache.get(tool, {})`. */
  function ToolRecord(cache: Cache, tool: string): Record
  {
    if tool in cache then cache[tool] else map[]
  }

  /** `cache.get(tool, {}).get(key, default)`: the stored value, or the default when the tool or the key is missing. */
  function Lookup(cache: Cache, tool: string, key: string, default: Value): (v: Value)
    ensures tool in cache && key in cache[tool] ==> v == cache[tool][key]
    ensures tool !in cache || key !in cache[tool] ==> v == default
  {
    var rec := ToolRecord(cache, tool);
    if key in rec then rec[key] else default
  }

  /**
   * The in-memory part of `set_preference`: create the tool's record if it
   * is missing, then set the key in it.  Other tools, and other keys of the
   * same tool, keep their values.
   */
  function Assign(cache: Cache, tool: string, key: string, value: Value): (c: Cache)
    ensures c.Keys == cache.Keys + {tool}
    ensures forall t :: t in cache && t != tool ==> c[t] == cache[t]
    ensures c[tool].Keys == ToolRecord(cache, tool).Keys + {key}
    ensures c[tool][key] == value
    ensures forall k :: k in ToolRecord(cache, tool) && k != key ==> c[tool][k] == cache[tool][k]
  {
    var rec := if tool in cache then cache[tool] else map[];
    cache[tool := rec[key := value]]
  }

  /** Reading back a key just set gives the value set, whatever the default. */
  lemma LookupAfterAssign(cache: Cache, tool: string, key: string, value: Value, default: Value)
    ensures Lookup(Assign(cache, tool, key, value), tool, key, default) == value
  {
  }

  /** Setting one key changes the lookup of no other (tool, key) pair. */
  lemma AssignKeepsOthers(cache: Cache, tool: string, key: string, value: Value,
                                             otherTool: string, otherKey: string, default: Value)
    requires otherTool != tool || otherKey != key
    ensures Lookup(Assign(cache, tool, key, value), otherTool, otherKey, default)
         == Lookup(cache, otherTool, otherKey, default)
  {
  }
}
