# Digital Toolbox core, modelled in Dafny

The Digital Toolbox is a desktop shell that hosts several small tools. This
project models the three parts of it that hold real logic:

- **The snake game engine** (`tools/snakegame.py`, module `SnakeGame`). The
  board is 400 × 400 pixels on a 20-pixel grid. The snake is a sequence of
  cells, head first. `SnakeGameTool` is a class whose fields are the ones the
  Python object rewrites: `snake`, `food`, `direction`, `score`, `gameOver`
  and `highScore`.
  - Each call to `Tick` is one scheduled call of `game_loop`.
  - `CreateFood` is the rejection loop of `create_food`. The draws of
    `random.randrange` are passed in as a sequence of `Draw`s.
  - The pure function `Step` says what one tick does to the state. `Inv` is
    the invariant every reachable state keeps. The lemmas about `Step` state
    what the game promises.
- **The file-backed preference store** (`app.py`, module `FileStore`).
  `UserPreferences` keeps a cache from tool name to record. It writes through
  to one JSON file per (user, tool), at `user_data/<user>/<tool>_prefs.json`.
  - The files are a map from path to `Entry`. An entry is either unparsable
    (`Corrupt`) or holds a record; a missing path is a missing file.
  - Each write ends in a `WriteOutcome`, passed in as a parameter:
    `Written`; `OpenFailed`, where `open` raises `IOError` and the file is
    untouched; or `WriteFailed`, where `json.dump` raises `IOError` after
    `open` has truncated the file, so the file is left unparsable.
- **The SQLite-backed preference store** (`database.py`, module `DbStore`).
  The `users` table is a map from username to that user's whole preference
  blob. The blob is a map from tool to record. JSON encoding and decoding are
  taken to round-trip exactly.

Both stores run the same code for `get_preference` and for the in-memory half
of `set_preference`. That code is defined once, in module `PrefRecords`, as
`Lookup` and `Assign`.

Behaviour of the code worth knowing:

- `start_game` ends by calling `game_loop` (tools/snakegame.py:63). So
  `Start` runs the first tick itself. The fixed three-cell snake, score 0 and
  direction Right describe the reset state (`Restarted`), which is the state
  before that first tick.
- There is no pending direction. Each key press overwrites the direction at
  once. A press is checked only against the direction set by the previous
  press, so two presses between ticks can turn the snake back into its own
  neck. `PressesChain` and `QuickTurnsHitNeck` show this.
- Hiding the tool mid-game never saves an improved score. `on_hide` only sets
  the game-over flag (tools/snakegame.py:151-153), and the early return of the
  next `game_loop` saves nothing. Only the tick that crashes writes
  `high_score` (tools/snakegame.py:101-103). `OnHide` and `StepWhenOver` show
  this.
- `get_preference` never writes anything. Defaults are written only by
  `load_preferences`, and only as a whole record.
- A file path is built with `os.path.join`. For names without a `/`, the path
  string determines the (user, tool) pair (`PrefPathInjective`). Names that contain
  a `/` can share a file (`PrefPathAliases`).

## Model

| member | source | states |
|---|---|---|
| `SnakeGame.Moved` | tools/snakegame.py:74-84 | the new head is a grid neighbour of the old head, on the grid whenever the old head is, and lies on the side the direction names |
| `SnakeGame.CellOf` | tools/snakegame.py:113-115 | every drawn food cell is a multiple of 20 on each axis and lies within 0..380 on each axis |
| `SnakeGame.FirstFree` | tools/snakegame.py:111-117 | the rejection loop stops at the first draw whose cell is not on the snake; every earlier draw fell on the snake |
| `SnakeGame.PlacedFood` | tools/snakegame.py:111-117 | the food create_food settles on is off the snake, on the grid, on the board, and is one of the drawn cells |
| `SnakeGame.TurnNeverReverses` | tools/snakegame.py:130-139 | a key press never sets the direction to the reverse of the current one |
| `SnakeGame.TurnIdempotent` | tools/snakegame.py:130-139 | pressing the same key twice has the same effect as pressing it once |
| `SnakeGame.PressesChain` | tools/snakegame.py:130-139 | presses chain: heading Right, "Up" then "Left" leaves the direction Left |
| `SnakeGame.RestartedShape` | tools/snakegame.py:50-56 | the reset gives the snake [(100,100),(80,100),(60,100)], score 0, direction Right, game running, food off the snake, and the invariant |
| `SnakeGame.StepMovesHead` | tools/snakegame.py:74-95 | a running tick prepends the old head moved one grid step in the current direction, and keeps the old body (on food) or drops its last cell |
| `SnakeGame.StepGrowth` | tools/snakegame.py:87-95 | on food the length and score each rise by exactly one; otherwise both stay the same and the food stays put |
| `SnakeGame.StepEndsExactly` | tools/snakegame.py:95-101 | a running tick ends the game if and only if the new head is off [0,400)×[0,400) or is one of the other cells after the tail removal |
| `SnakeGame.StepHighScore` | tools/snakegame.py:101-103 | on the tick that ends the game the high score becomes max(old, score); it never decreases and is untouched otherwise |
| `SnakeGame.StepWhenOver` | tools/snakegame.py:66-72 | once the game-over flag is set, a tick leaves the whole state unchanged |
| `SnakeGame.EatingNeverEnds` | tools/snakegame.py:89-101 | under the invariant, a tick that eats never ends the game |
| `SnakeGame.StepPreservesInv` | tools/snakegame.py:74-101 | every tick keeps the invariant: cells on the grid, consecutive cells one step apart on one axis, length = 3 + score, food on the board and off the snake, and while running all cells on the board and pairwise distinct |
| `SnakeGame.FiveTicksRight` | tools/snakegame.py:74-95 | from the start cells heading Right, with the food off the path, five ticks put the head at (200,100) with length 3 and score 0 |
| `SnakeGame.WallAhead` | tools/snakegame.py:98-101 | heading Right from (380,100), the next tick ends the game |
| `SnakeGame.QuickTurnsHitNeck` | tools/snakegame.py:130-139 | heading Right, "Up" then "Left" before a tick makes that tick run into the neck and end the game |
| `SnakeGame.SnakeGameTool.constructor` | tools/snakegame.py:15-22 | a new engine is idle: empty snake, no food, direction Right, score 0, flag clear, high score as stored |
| `SnakeGame.SnakeGameTool.CreateFood` | tools/snakegame.py:111-117 | the loop leaves food at the first free draw; food is off the snake, on the grid and on the board; nothing else changes |
| `SnakeGame.SnakeGameTool.Start` | tools/snakegame.py:50-63 | the new state is one tick after the reset state, and the invariant holds |
| `SnakeGame.SnakeGameTool.ChangeDirection` | tools/snakegame.py:130-139 | the source's chain of checks adopts a named direction unless it is the reverse of the current one, and otherwise leaves the direction unchanged |
| `SnakeGame.SnakeGameTool.Tick` | tools/snakegame.py:65-103 | the new state is Step of the old state, and the invariant is kept |
| `SnakeGame.SnakeGameTool.OnHide` | tools/snakegame.py:151-153 | the game-over flag is set, so later ticks change nothing; the invariant is kept |
| `PrefRecords.Lookup` | app.py:65-67 | the cached value when both the tool and the key are present, else the supplied default |
| `PrefRecords.Assign` | app.py:69-73 | the tool gets a record if it had none; the key is set to the value; other keys of the tool and all other tools keep their values |
| `PrefRecords.LookupAfterAssign` | app.py:69-74 | reading back a key just set gives the value set, for every default |
| `PrefRecords.AssignKeepsOthers` | app.py:71-73 | setting one (tool, key) changes the lookup of no other (tool, key) |
| `FileStore.PrefPathShape` | app.py:28-37 | for names without '/', the path is user_data/<user>/<tool>_prefs.json |
| `FileStore.PrefPathInjective` | app.py:28-37 | for names without '/', two (user, tool) pairs get the same path string exactly when they are the same pair |
| `FileStore.PrefPathAliases` | app.py:35-37 | user "a" with tool "b/c" and user "a/b" with tool "c" share one file |
| `FileStore.AfterSave` | app.py:58-62 | a write touches only its own path; a written file then reads back as the data; a failed open leaves the files unchanged; a failed write leaves the file unparsable |
| `FileStore.LoadStored` | app.py:44-48 | a readable record is returned as it is and no file changes |
| `FileStore.LoadFallsBack` | app.py:49-52 | a missing or unparsable record yields the defaults, `{}` when none are given; a successful write stores them; no other file changes |
| `FileStore.LoadIsStable` | app.py:39-52 | a second load with the same defaults returns what the first returned, whatever either write's outcome |
| `FileStore.LoadAfterPersist` | app.py:44-51 | once the record is readable, stored before or written by the fallback, a later load with any defaults returns it and writes nothing |
| `FileStore.UserPreferences.constructor` | app.py:28-33 | a new store has the given user and an empty cache |
| `FileStore.UserPreferences.GetPreference` | app.py:65-67 | a lookup in the cache only |
| `FileStore.UserPreferences.SavePreferences` | app.py:54-62 | the cache entry is set to the data even when the write fails; only this (user, tool) file is written, with the given outcome |
| `FileStore.UserPreferences.LoadPreferences` | app.py:39-52 | returns and caches the stored record, or the defaults, which are then saved to this (user, tool) file |
| `FileStore.UserPreferences.SetPreference` | app.py:69-74 | the cache becomes Assign of the old cache; the tool's whole updated record is written to this (user, tool) file only; reading the key back gives the value for every default |
| `DbStore.LoadOrCreate` | database.py:43-64 | afterwards the user's row exists and holds the returned blob; an existing row is returned unchanged; a new user gets `{}`; other rows are untouched |
| `DbStore.LoadOrCreateTwice` | database.py:52-64 | loading or creating a second time returns the first result and changes no row |
| `DbStore.Updated` | database.py:77-81 | the update rewrites this user's row when it exists, adds no row, and leaves every other row alone |
| `DbStore.UserPreferences.constructor` | database.py:37-41 | the blob and the table are as LoadOrCreate gives them, so this user's row exists |
| `DbStore.UserPreferences.LoadOrCreateUser` | database.py:43-64 | the returned blob and the new table are as LoadOrCreate gives them |
| `DbStore.UserPreferences.GetPreference` | database.py:66-68 | a lookup in the loaded blob only |
| `DbStore.UserPreferences.SetPreference` | database.py:70-81 | the blob becomes Assign of the old blob; the row created at construction then holds the entire blob (no row is changed when it is missing); no other row changes; reading the key back gives the value for every default |

## Left out

- Drawing and widgets are not modelled: `draw_elements`, `show_game_over`, `update_score_label`, `build_ui`, `on_show`, the Start button, the labels, focus and the key bindings. They change no game state.
- Scheduling is not modelled: `self.after(...)` rescheduling and the `winfo_exists` checks. One scheduled call of `game_loop` is one `Tick`.
- Randomness is not modelled: each call takes its `random.randrange` results as a sequence of draws. The distribution is not modelled.
- SnakeGame.SnakeGameTool.CreateFood: requires that some draw is free. With no free cell the source loops forever, and non-termination is not modelled.
- SnakeGame.SnakeGameTool.Tick: requires a non-empty snake while the game runs. A `game_loop` on a never-started engine would raise `IndexError`.
- The "should not happen" branch of the direction dispatch (tools/snakegame.py:83-84) cannot be reached: `direction` is a datatype with exactly the four values.
- `high_score` is a plain field of the engine. `get_pref` and `save_pref` are defined in tools/toolbase.py, which is not part of this model; so is whatever `super().on_hide()` does.
- In the file store, `os.makedirs` and directories are not modelled. Only the files are.
- JSON encoding is taken as an exact round trip. Files whose JSON parses to a non-object, float values, nested arrays and objects as values, and the `TypeError` that `json.dump` raises for unserialisable values are not modelled.
- Python aliasing is not modelled. In `load_preferences` the cache holds the caller's own `default_prefs` dict, so a later `set_preference` also changes the caller's dict. The model copies values instead.
- The error message printed on a failed save is not modelled.
- Read errors other than a missing or unparsable file are not modelled. In the source, `load_preferences` lets them propagate: a file that exists but cannot be opened (`PermissionError`), or whose bytes are not valid text (`UnicodeDecodeError`).
- File paths are compared as exact strings, as on a case-sensitive POSIX file system. On a case-insensitive file system, or one where `\` also separates, distinct names such as "Alice" and "alice" share one file. The model does not capture that.
- `load_all_preferences` is not modelled separately: its body is `pass`, so the constructor leaves the cache empty.
- `DigitalToolboxApp` and the rest of the application shell are left out: it is widget plumbing.
- Connections, cursors, `commit`, `close_connection`, `get_db_connection` and `init_db` in database.py are left out. The table is a map.
- A NULL `preferences` column, which would make `json.loads` raise, is not modelled.
- Several store objects for one user each keep their own cache. Their caches going stale against each other is not analysed.
- The other tools (calculator, clock, timezone converter, diff checker, home page, test zone, button command) are left out: each is layout, a foreign call or Python `eval`.
