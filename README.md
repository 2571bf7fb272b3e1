# Wideboy Jr: tile compositor and frame loop

Wideboy Jr is a CircuitPython app for a 64 x 64 RGB LED matrix. At startup it
reads its settings from the `secrets` dictionary. It shows a splash label and
computes a short host id from the Wi-Fi MAC address. It then builds a 2 x 2 grid
layout of four tiles. Each tile is a rounded-rectangle background with one text
label on it. After that it loops forever. Each pass redraws three counter labels
from `state["frame"]`. The counter goes up only when the draw returned without
raising.

This Dafny project models:

- **`Constants`** (`constants.dfy`): the nine `secrets.get(key, default)`
  settings, as a lookup over a map that returns a `Settings` record.
- **`Formatting`** (`formatting.dfy`): Python's `str(n)` for non-negative
  integers and the `{:02x}` byte format, each with its decoder and round-trip
  lemmas.
- **`Composition`** (`composition.dfy`): the display objects the app asks
  for. That is labels (with the app's `CellLabel` defaults), groups (with the
  app's `GridGroup` size), the grid layout's list of `add_content` requests and
  the display's `show` calls. Label texts and child lists are updated in place,
  as in the program, so a label held by a tile is the same object that `draw`
  writes to.
- **`Tiles`** (`tiles.dfy`): the tile size (`MATRIX_WIDTH // TILE_COLS`),
  `build_tile`, and the four cells the app requests.
- **`FrameLoop`** (`frame_loop.dfy`): the loop as a state machine on values.
  One step is `draw` followed by the increment. A draw failure is an oracle
  value `Fault`: `None` means draw returned, and `Some(k)` means it raised
  after its first `k` text assignments (`k >= 3` means the log call raised).
  The n-step function `Iterations` stands in for `while True`.
- **`App`** (`app.dfy`): the class `Application` holds the module's global
  objects and `state["frame"]`. Its constructor `Boot` is the module-level
  startup code. `Draw`, `Iterate` and `Run` are `draw`, one loop pass and
  `run`. Each of them is proved against the `FrameLoop` functions. `HostId` is
  the host id format.

Facts about the program that the model makes explicit:

- After `n` successful iterations from `frame = 0` the counter is `n`. The
  labels show frame `n - 1`, because `draw` runs before the increment. So after
  150 iterations the counter is 150 and the labels read "149", "49" and "29"
  (`FrameLoop.HundredFiftyIterations`).
- The counter is a Python int: unbounded, with no wrap-around (`nat`).
- The grid size is the hard-coded `(2, 2)`, not a configuration value.
- No layout, overlap, bounds or rotation error is raised by the app's own code.
  Those checks belong to the libraries, which are not part of this model.
- `TILE_COLS` and `TILE_ROWS` are imported from `app.constants` but are not
  defined there. `Boot` takes them as positive parameters.

## Model

| member | source | states |
|---|---|---|
| `Constants.Load` | src/app/constants.py:4-12 | each setting is the `secrets` value when its key is present and its default otherwise |
| `Constants.Defaults` | src/app/constants.py:4-12 | with no secrets: debug False, brightness 0.2, timezone "Europe/London", ntp_interval 10800, 64 x 64, bit depth 4, "RGB", "wideboyjr" |
| `Constants.NamesDistinct` | src/app/constants.py:4-12 | no two settings read the same key |
| `Constants.OnlyOwnKey` | src/app/constants.py:4-12 | a setting depends only on the presence and value of its own key |
| `Constants.UnrelatedKey` | src/app/constants.py:4-12 | adding or changing any other key in `secrets` leaves a setting unchanged |
| `Formatting.Decimal` | src/app/__init__.py:164-166 | `str(n)` gives one or more digits with no leading zero, and a single digit exactly when `n < 10` |
| `Formatting.DecimalRoundTrip` | src/app/__init__.py:164-166 | reading the digits of `str(n)` back gives `n` |
| `Formatting.CanonicalRoundTrip` | src/app/__init__.py:164-166 | every digit string without a leading zero is the `str` of the number it denotes |
| `Formatting.DecimalInjective` | src/app/__init__.py:164-166 | distinct numbers have distinct renderings |
| `Formatting.Hex2` | src/app/__init__.py:94 | `{:02x}` of a byte is exactly two lowercase hex digits that denote the byte |
| `Formatting.Hex2Injective` | src/app/__init__.py:94 | distinct bytes have distinct two-digit renderings |
| `App.HostId` | src/app/__init__.py:93-94 | the host id is 8 lowercase hex characters; characters `2i` and `2i+1` denote `mac[i]` for i = 0..3 |
| `App.HostIdIdentifiesPrefix` | src/app/__init__.py:94 | two MACs give the same host id if and only if their first four bytes agree |
| `Tiles.TileSize` | src/app/__init__.py:35-36 | the tile size is the floor quotient: `tiles * size <= matrix < tiles * (size + 1)`, so the tiles fit the matrix |
| `Tiles.TileSizeUnique` | src/app/__init__.py:35-36 | no other size satisfies that floor property |
| `Tiles.DefaultTileSize` | src/app/__init__.py:35-36 | a 64-pixel matrix over 2 tiles gives 32-pixel tiles |
| `Tiles.BuildTile` | src/app/__init__.py:114-127 | a fresh group of the tile size with exactly two children: a RoundRect at (0,0) of the tile size with the given radius, fill and outline (defaults 2, 0, None), then the given label |
| `Tiles.RequestedTilesGrid` | src/app/__init__.py:104-158 | the four requested cells (0,0), (1,0), (0,1), (1,1) with span (1,1) lie inside the 2 x 2 grid, pairwise overlap nowhere and claim every cell |
| `Tiles.DisjointMeansNoSharedCell` | src/app/__init__.py:104-158 | disjoint placements claim no common cell |
| `Composition.Label.CellLabel` | src/app/__init__.py:48-50 | a CellLabel stores its text as given, with inset (2, 6) and colour 0x222222 unless told otherwise |
| `Composition.Label.constructor` | src/app/__init__.py:80 | a plain label stores the position, text and colour it is given |
| `Composition.Group.constructor` | src/app/__init__.py:79 | `Group()` is an empty plain group with no size |
| `Composition.Group.GridGroup` | src/app/__init__.py:41-45 | a GridGroup is an empty group that carries its width and height |
| `Composition.Group.Append` | src/app/__init__.py:125-126 | appending adds the node at the end of the child list |
| `Composition.GridLayout.constructor` | src/app/__init__.py:104-110 | the layout records its origin, size and grid size, with no contents |
| `Composition.GridLayout.AddContent` | src/app/__init__.py:133-137 | each request is appended, with its tile, grid position and cell size |
| `Composition.Display.constructor` | src/app/__init__.py:84 | `matrix.display` has the matrix's width and height, shows nothing yet, and has rotation 0 until line 85 sets it |
| `Composition.Display.Show` | src/app/__init__.py:86 | `show` makes the group the one on screen and keeps the rotation |
| `App.NewSplash` | src/app/__init__.py:79-80 | the splash group holds one label "Wideboy Jr" at (1, 4) in 0x220022 |
| `App.AddTile` | src/app/__init__.py:139-144 | one cell: a fresh CellLabel with the given text, its tile with the given fill, bound at the position with span (1, 1) |
| `App.Application.Boot` | src/app/__init__.py:35-171 | after startup the splash is the only group shown, the rotation is set, the four tiles sit at their cells with their own labels, the host id is formatted and the loop state is `frame = 0` with labels "WB Jr", "0", "0", "0" |
| `App.Application.Draw` | src/app/__init__.py:162-167 | draw assigns the frame, mod-100 and mod-60 texts in order; a failure keeps the assignments made before it; it raises exactly when told to; the frame and the static label are untouched |
| `App.Application.Iterate` | src/app/__init__.py:181-186 | one loop pass moves the state as `FrameLoop.Step` does: +1 on success, unchanged on an exception, which is swallowed |
| `App.Application.Run` | src/app/__init__.py:175-186 | run shows the root group and then runs the loop; after `|faults|` passes the state is `Iterations(old state, faults)` |
| `App.Start` | src/app/__init__.py:84-190 | the splash is shown, then the root group, before any iteration; the state is then that of the loop specification from `frame = 0` |
| `FrameLoop.DrawTexts` | src/app/__init__.py:164-166 | the texts after the first `done` assignments of `draw`: the static label is never written, none is written when `done` is 0, all three show `str(frame)`, `str(frame % 100)`, `str(frame % 60)` when all are done, and a later label is written only after the earlier ones |
| `FrameLoop.Step` | src/app/__init__.py:182-186 | one pass: `frame` grows by exactly one if and only if `draw` returned, stays put if it raised, and the static label is untouched |
| `FrameLoop.StepSucceeds` | src/app/__init__.py:162-184 | a successful pass shows `str(frame)`, `str(frame % 100)` and `str(frame % 60)`, keeps "WB Jr", and adds exactly 1 to `frame` |
| `FrameLoop.StepFails` | src/app/__init__.py:162-186 | a pass whose draw raises after `k` assignments keeps `frame`, keeps those `k` assignments and leaves the other labels as they were |
| `FrameLoop.FrameCountsSuccesses` | src/app/__init__.py:180-186 | after any run of passes, `frame` has grown by exactly the number of passes that succeeded |
| `FrameLoop.Iterations` | src/app/__init__.py:180-186 | the first n passes of `while True`: `frame` never decreases, grows by at most one per pass, and the static label keeps its text |
| `FrameLoop.AllSucceedShowsLastFrame` | src/app/__init__.py:171-184 | after `n` successful passes from the start, `frame == n` and the labels show frame `n - 1` |
| `FrameLoop.HundredFiftyIterations` | src/app/__init__.py:171-184 | after 150 successful passes, `frame == 150` and the labels read "WB Jr", "149", "49", "29" |
| `FrameLoop.FailureAtTen` | src/app/__init__.py:180-186 | a failed pass at `frame == 10` leaves 10, and the next successful pass gives 11 |
| `FrameLoop.StepConsistent` | src/app/__init__.py:162-186 | one pass, whatever its outcome, keeps every counter label showing its value at the current or the previous frame |
| `FrameLoop.ReachableConsistent` | src/app/__init__.py:139-186 | that holds in every state reachable from the start, and the static label always reads "WB Jr" |
| `FrameLoop.LabelsInRange` | src/app/__init__.py:164-166 | in every reachable state the counter labels hold well-formed decimals, the mod-100 value below 100 and the mod-60 value below 60 |
| `FrameLoop.FrameLabelTracksCounter` | src/app/__init__.py:164-184 | the frame label's value is always `frame` or `frame - 1` |

## Left out

- Hardware: `Matrix`, the LIS3DH accelerometer and its first reading, `I2C`,
  `board`. `matrix_rotation` is in `app.utils`, which is not part of this model.
  The rotation it returns is a parameter of `Boot`.
- Networking: `Network.connect`, reading the MAC address from the ESP32, and
  `requests.set_socket`. These are I/O. The MAC bytes are a parameter. Only
  their formatting is modelled.
- `gc.collect`, `logger` and the `print` of a caught exception. These are
  runtime and I/O side effects. The log call inside `draw` is modelled only as a
  point where `draw` may raise.
- Library internals of `GridLayout.add_content`, `RoundRect`, `Label`, `Group`
  and `display.show`. Pixel offsets, cell-size resizing, overlap and
  already-has-parent errors, rotation validation and rendering are not
  modelled. Only the requests the app makes are recorded.
- Fonts, and colours as rendered output. Colours are kept as the integers the
  app passes.
- `BRIGHTNESS` and any float setting are kept as `Float` of the literal's
  decimal value, not its binary64 rounding.
- The `while True` loop never ends. `Run` executes a finite prefix of it, one
  pass per element of `faults`, and the lemmas are stated over n passes.
- App.Application.Run: the loop catches only `except Exception`. An exception
  outside that class raised in `draw` or its log call, such as
  `KeyboardInterrupt`, `SystemExit` or CircuitPython's auto-reload, leaves the
  `while True` and ends `run()`. The `Fault` oracle stands only for `Exception`
  subclasses, so the model has no pass that ends the program.
- `get_new_epochs` is imported but never used.
- The `import` of `TILE_COLS` and `TILE_ROWS`: these names are not defined in
  `src/app/constants.py`, so that import would fail. The model takes them as
  positive parameters.
- An exception after `draw` returns, in `state["frame"] += 1`: a Python int
  increment cannot raise short of running out of memory.
- App.Application.Boot: requires the `matrix_width` and `matrix_height`
  settings to be integers. With a string, Python raises `TypeError` at the
  tile-size division. With a float, it computes float tile sizes. Neither case
  is modelled.
- App.HostId: requires at least four MAC bytes. The ESP32 always reports six.
  With fewer, Python raises `IndexError`, and that case is not modelled.
- Tiles.TileSize: requires a positive tile count. A zero count would raise
  `ZeroDivisionError` at import, and that case is not modelled.
