/**
 * The application: the startup sequence that builds the display tree, the
 * `draw` step and the frame loop that runs it, and the host id.
 */
module App {
  import opened Wrappers
  import opened Formatting
  import opened Constants
  import opened Composition
  import opened Tiles
  import opened FrameLoop

  /**
   * `host_id`: the `{:02x}` renderings of the first four MAC address bytes,
   * concatenated; the eight characters read back, two at a time, as those bytes.
   */
  function HostId(mac: seq<byte>): (id: string)
    requires |mac| >= 4
    ensures |id| == 8 && IsLowerHex(id)
    ensures forall i :: 0 <= i < 4 ==> PairValue(id[2 * i..2 * i + 2]) == mac[i]
  {
    var id := Hex2(mac[0]) + Hex2(mac[1]) + Hex2(mac[2]) + Hex2(mac[3]);
    assert id[0..2] == Hex2(mac[0]) && id[2..4] == Hex2(mac[1]);
    assert id[4..6] == Hex2(mac[2]) && id[6..8] == Hex2(mac[3]);
    id
  }

  /** Two MAC addresses give the same host id exactly when their first four bytes agree. */
  lemma HostIdIdentifiesPrefix(a: seq<byte>, b: seq<byte>)
    requires |a| >= 4 && |b| >= 4
    ensures HostId(a) == HostId(b) <==> a[..4] == b[..4]
  {
  }

  /** A `CellLabel` built with the default inset and the colour 0x222222. */
  ghost predicate IsCellLabel(l: Label) {
    l.x == 2 && l.y == 6 && l.color == 0x222222
  }

  /** The splash group: one label, "Wideboy Jr" at (1, 4) in 0x220022. */
  method NewSplash() returns (g: Group)
    ensures fresh(g) && g.size == None && |g.children| == 1 && g.children[0].Text?
    ensures var l := g.children[0].textLabel;
      fresh(l) && l.x == 1 && l.y == 4 && l.text == "Wideboy Jr" && l.color == 0x220022
  {
    var l := new Label(1, 4, "Wideboy Jr", 0x220022);
    g := new Group();
    g.Append(Text(l));
  }

  /**
   * One cell of the layout: `CellLabel(text, 0x222222)`, the tile built
   * around it with background `fill`, bound at `position` with cell size (1, 1).
   */
  method AddTile(layout: GridLayout, text: string, fill: int, position: (int, int), tileWidth: int, tileHeight: int)
    returns (l: Label, tile: Group)
    modifies layout
    ensures fresh(l) && fresh(tile)
    ensures l.text == text && IsCellLabel(l)
    ensures tile.size == Some((tileWidth, tileHeight))
    ensures tile.children == [Rect(Background(tileWidth, tileHeight, 2, fill, None)), Text(l)]
    ensures layout.contents == old(layout.contents) + [Binding(tile, position, (1, 1))]
  {
    l := new Label.CellLabel(text, 0x222222);
    tile := BuildTile(l, tileWidth, tileHeight, backgroundColor := fill);
    layout.AddContent(tile, position, (1, 1));
  }

  class Application {
    const display: Display
    const splash: Group
    const root: Group
    const layout: GridLayout
    /** `TILE_WIDTH` and `TILE_HEIGHT`. */
    const tileWidth: int
    const tileHeight: int
    const hostId: string
    const labelWideboy: Label
    const labelFrame: Label
    const labelMod100: Label
    const labelMod60: Label
    const tileWideboy: Group
    const tileFrame: Group
    const tileMod100: Group
    const tileMod60: Group
    /** `state["frame"]`. */
    var frame: nat

    /** `g` is a tile of the tile size with background colour `fill` and foreground label `l`. */
    ghost predicate IsTile(g: Group, l: Label, fill: int)
      reads g
    {
      g.size == Some((tileWidth, tileHeight)) &&
      g.children == [Rect(Background(tileWidth, tileHeight, 2, fill, None)), Text(l)]
    }

    /**
     * The root group holds the 2 x 2 layout, the layout binds the four tiles
     * at their cells in order, each tile holds its own label, and the four
     * labels are distinct objects.
     */
    ghost predicate Valid()
      reads this, root, layout, tileWideboy, tileFrame, tileMod100, tileMod60
    {
      && labelWideboy != labelFrame && labelWideboy != labelMod100 && labelWideboy != labelMod60
      && labelFrame != labelMod100 && labelFrame != labelMod60 && labelMod100 != labelMod60
      && root != splash
      && root.children == [Layout(layout)]
      && layout.gridSize == (2, 2)
      && layout.contents == [
           Binding(tileWideboy, (0, 0), (1, 1)),
           Binding(tileFrame, (1, 0), (1, 1)),
           Binding(tileMod100, (0, 1), (1, 1)),
           Binding(tileMod60, (1, 1), (1, 1))]
      && IsTile(tileWideboy, labelWideboy, 0x110000)
      && IsTile(tileFrame, labelFrame, 0x000011)
      && IsTile(tileMod100, labelMod100, 0x001100)
      && IsTile(tileMod60, labelMod60, 0x110011)
    }

    /** The frame loop's state: the counter and the four label texts. */
    ghost function State(): LoopState
      reads this, labelWideboy, labelFrame, labelMod100, labelMod60
    {
      LoopState(frame, Texts(labelWideboy.text, labelFrame.text, labelMod100.text, labelMod60.text))
    }

    /** The production tree, not the splash, is on screen. */
    ghost predicate Running()
      reads this, display
    {
      display.Current() == Some(root)
    }

    /**
     * The module-level startup: the display with the splash shown, the host
     * id, then the root group with the layout and its four tiles, and
     * `state = dict(frame=0)`. `rotation` is what the accelerometer
     * collaborator returned; `tileCols` and `tileRows` are `TILE_COLS` and
     * `TILE_ROWS`.
     */
    constructor Boot(settings: Settings, tileCols: int, tileRows: int, rotation: int, mac: seq<byte>)
      requires settings.matrixWidth.Int? && settings.matrixHeight.Int?
      requires tileCols > 0 && tileRows > 0
      requires |mac| >= 4
      ensures Valid() && State() == Initial
      ensures tileWidth == TileSize(settings.matrixWidth.i, tileCols)
      ensures tileHeight == TileSize(settings.matrixHeight.i, tileRows)
      ensures fresh(display) && display.width == settings.matrixWidth.i && display.height == settings.matrixHeight.i
      ensures display.rotation == rotation && display.shown == [splash]
      ensures |splash.children| == 1 && splash.children[0].Text?
      ensures var l := splash.children[0].textLabel;
        l.x == 1 && l.y == 4 && l.text == "Wideboy Jr" && l.color == 0x220022
      ensures layout.x == 0 && layout.y == 0
      ensures layout.width == settings.matrixWidth.i && layout.height == settings.matrixHeight.i
      ensures Placements(layout.contents) == Requested
      ensures fresh(labelWideboy) && fresh(labelFrame) && fresh(labelMod100) && fresh(labelMod60)
      ensures IsCellLabel(labelWideboy) && IsCellLabel(labelFrame) && IsCellLabel(labelMod100) && IsCellLabel(labelMod60)
      ensures hostId == HostId(mac)
    {
      var w := settings.matrixWidth.i;
      var h := settings.matrixHeight.i;
      var tw := TileSize(w, tileCols);
      var th := TileSize(h, tileRows);

      var d := new Display(w, h);
      var sg := NewSplash();
      d.rotation := rotation;
      d.Show(sg);

      var id := HostId(mac);

      var rg := new Group();
      var gl := new GridLayout(0, 0, w, h, (2, 2));
      rg.Append(Layout(gl));

      var l0, t0 := AddTile(gl, "WB Jr", 0x110000, (0, 0), tw, th);
      var l1, t1 := AddTile(gl, "0", 0x000011, (1, 0), tw, th);
      var l2, t2 := AddTile(gl, "0", 0x001100, (0, 1), tw, th);
      var l3, t3 := AddTile(gl, "0", 0x110011, (1, 1), tw, th);

      display, splash, root, layout := d, sg, rg, gl;
      tileWidth, tileHeight, hostId := tw, th, id;
      labelWideboy, labelFrame, labelMod100, labelMod60 := l0, l1, l2, l3;
      tileWideboy, tileFrame, tileMod100, tileMod60 := t0, t1, t2, t3;
      frame := 0;
    }

    /**
     * `draw`: assigns the frame, mod-100 and mod-60 label texts in that
     * order, then logs. `fault` says whether, and after how many of the
     * assignments, it raises; assignments already made stay made.
     */
    method Draw(fault: Fault) returns (raised: bool)
      requires Valid() && Running()
      modifies labelFrame, labelMod100, labelMod60
      ensures Valid() && Running()
      ensures raised <==> fault.Some?
      ensures State() == LoopState(old(frame), DrawTexts(old(State()).texts, old(frame), Assignments(fault)))
    {
      if fault == Some(0) {
        return true;
      }
      labelFrame.text := Decimal(frame);
      if fault == Some(1) {
        return true;
      }
      labelMod100.text := Decimal(frame % 100);
      if fault == Some(2) {
        return true;
      }
      labelMod60.text := Decimal(frame % 60);
      // the log call: raises in every remaining fault case
      raised := fault.Some?;
    }

    /** One pass of the loop body: `draw(state)`, then `frame += 1` only if it returned; an exception is swallowed. */
    method Iterate(fault: Fault)
      requires Valid() && Running()
      modifies this, labelFrame, labelMod100, labelMod60
      ensures Valid() && Running()
      ensures State() == Step(old(State()), fault)
    {
      var raised := Draw(fault);
      if !raised {
        frame := frame + 1;
      }
    }

    /**
     * `run`: shows the root group, then loops. The loop has no exit; this
     * method runs its first `|faults|` iterations, the i-th ending as
     * `faults[i]` says.
     */
    method Run(faults: seq<Fault>)
      requires Valid()
      modifies this, display, labelFrame, labelMod100, labelMod60
      ensures Valid() && Running()
      ensures display.shown == old(display.shown) + [root] && display.rotation == old(display.rotation)
      ensures State() == Iterations(old(State()), faults)
    {
      display.Show(root);
      var i := 0;
      while i < |faults|
        invariant 0 <= i <= |faults|
        invariant Valid() && Running()
        invariant display.shown == old(display.shown) + [root] && display.rotation == old(display.rotation)
        invariant State() == Iterations(old(State()), faults[..i])
      {
        Iterate(faults[i]);
        IterationsSnoc(old(State()), faults[..i], faults[i]);
        assert faults[..i + 1] == faults[..i] + [faults[i]];
        i := i + 1;
      }
      assert faults[..|faults|] == faults;
    }
  }

  /**
   * The whole program: startup, then the loop. The splash is shown first,
   * the root group second, before any iteration; the state is that of the
   * loop specification from `frame = 0`.
   */
  method Start(settings: Settings, tileCols: int, tileRows: int, rotation: int, mac: seq<byte>, faults: seq<Fault>)
    returns (app: Application)
    requires settings.matrixWidth.Int? && settings.matrixHeight.Int?
    requires tileCols > 0 && tileRows > 0
    requires |mac| >= 4
    ensures app.Valid() && app.Running()
    ensures app.display.shown == [app.splash, app.root] && app.splash != app.root
    ensures app.display.rotation == rotation
    ensures app.State() == Iterations(Initial, faults)
  {
    app := new Application.Boot(settings, tileCols, tileRows, rotation, mac);
    app.Run(faults);
  }
}
