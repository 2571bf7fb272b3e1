/**
 * The display objects the application builds: labels, rounded rectangles,
 * groups, the grid layout and the display itself. Only what the application
 * requests of them is recorded; rendering, pixel offsets and the libraries'
 * own checks are not part of this model.
 */
module Composition {
  import opened Wrappers

  /** A rounded rectangle; the application never changes one after building it. */
  datatype RoundRect = RoundRect(x: int, y: int, width: int, height: int, r: int, fill: int, outline: Option<int>)

  /** A child of a group, in paint order. */
  datatype Node = Rect(rect: RoundRect) | Text(textLabel: Label) | Layout(layout: GridLayout)

  /** A text label; its `text` is the one attribute the application reassigns. */
  class Label {
    const x: int
    const y: int
    const color: int
    var text: string

    constructor (x: int, y: int, text: string, color: int)
      ensures this.x == x && this.y == y && this.text == text && this.color == color
    {
      this.x, this.y, this.text, this.color := x, y, text, color;
    }

    /** The application's `CellLabel`: a label whose inset and colour default to (2, 6) and 0x222222. */
    constructor CellLabel(text: string, color: int := 0x222222, x: int := 2, y: int := 6)
      ensures this.x == x && this.y == y && this.text == text && this.color == color
    {
      this.x, this.y, this.text, this.color := x, y, text, color;
    }
  }

  /** A container with an ordered child list. */
  class Group {
    /** `Some((width, height))` for the application's `GridGroup`, `None` for a plain group. */
    const size: Option<(int, int)>
    var children: seq<Node>

    constructor ()
      ensures size == None && children == []
    {
      size, children := None, [];
    }

    /** The application's `GridGroup`: an empty group that carries a width and a height. */
    constructor GridGroup(width: int, height: int)
      ensures size == Some((width, height)) && children == []
    {
      size, children := Some((width, height)), [];
    }

    method Append(node: Node)
      modifies this
      ensures children == old(children) + [node]
    {
      children := children + [node];
    }
  }

  /** One `add_content` request: a tile, its grid position and its cell span, as (column, row). */
  datatype Binding = Binding(tile: Group, position: (int, int), cellSize: (int, int))

  /** A grid layout; it records the contents bound to it, in the order they were added. */
  class GridLayout {
    const x: int
    const y: int
    const width: int
    const height: int
    const gridSize: (int, int)
    var contents: seq<Binding>

    constructor (x: int, y: int, width: int, height: int, gridSize: (int, int))
      ensures this.x == x && this.y == y && this.width == width && this.height == height
      ensures this.gridSize == gridSize && contents == []
    {
      this.x, this.y, this.width, this.height := x, y, width, height;
      this.gridSize, contents := gridSize, [];
    }

    method AddContent(content: Group, gridPosition: (int, int), cellSize: (int, int))
      modifies this
      ensures contents == old(contents) + [Binding(content, gridPosition, cellSize)]
    {
      contents := contents + [Binding(content, gridPosition, cellSize)];
    }
  }

  /**
   * The matrix display. `shown` lists the groups passed to `show`, in call
   * order; the last one is the group on screen.
   */
  class Display {
    const width: int
    const height: int
    var rotation: int
    var shown: seq<Group>

    constructor (width: int, height: int)
      ensures this.width == width && this.height == height && rotation == 0 && shown == []
    {
      this.width, this.height, rotation, shown := width, height, 0, [];
    }

    method Show(group: Group)
      modifies this
      ensures shown == old(shown) + [group] && rotation == old(rotation)
      ensures Current() == Some(group)
    {
      shown := shown + [group];
    }

    /** The group on screen, if any has been shown. */
    function Current(): Option<Group>
      reads this
    {
      if shown == [] then None else Some(shown[|shown| - 1])
    }
  }
}
