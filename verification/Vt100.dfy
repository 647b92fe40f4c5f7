/** The terminal: a grid of cells, a cursor and a scroll region, driven one byte at a time by control sequences
    in the manner of section 5.4 of ECMA-48. */
module Vt100 {

  type Byte = x: int | 0 <= x < 256

  datatype Cell = Cell(ch: Byte, attr: bv8)

  /** Which function reads the next byte. */
  datatype Mode = Plain | Escape | Control | Charset

  const MAX_ELEMENTS := 16

  const ESC: Byte := 27
  const NEWLINE: Byte := 10

  /** The grid is stored row after row. `old` fields are those saved by the program on the terminal. */
  datatype Screen = Screen(rows: int, columns: int, grid: seq<Cell>, x: int, y: int, top: int, bottom: int,
                           attr: bv8, oldAttr: bv8, oldX: int, oldY: int,
                           number: int, elements: seq<int>, reading: bool, mode: Mode)

  ghost predicate Valid(v: Screen) {
    && v.rows > 0 && v.columns > 0 && |v.grid| == v.rows * v.columns
    && 0 <= v.x < v.columns && 0 <= v.y < v.rows && 0 <= v.top && 0 <= v.bottom <= v.rows
    && 0 <= v.oldX < v.columns && 0 <= v.oldY < v.rows
    && |v.elements| <= MAX_ELEMENTS && v.number >= 0 && forall i :: 0 <= i < |v.elements| ==> v.elements[i] >= 0
  }

  function At(v: Screen, y: int, x: int): int { y * v.columns + x }

  function Blank(v: Screen): Cell { Cell(32, v.attr) }

  // ---------------------------------------------------------------- what the screen operations do

  /** Cells from i up to j are blank. */
  ghost function Wiped(g: seq<Cell>, i: int, j: int, c: Cell): (r: seq<Cell>)
    ensures |r| == |g|
  {
    seq(|g|, k requires 0 <= k < |g| => if i <= k < j then c else g[k])
  }

  /** Cells from i up to j move down by n places, and the n before j are blank. */
  ghost function ShiftedBack(g: seq<Cell>, i: int, j: int, n: int, c: Cell): (r: seq<Cell>)
    requires 0 <= i && j <= |g| && n >= 0
    ensures |r| == |g|
  {
    seq(|g|, k requires 0 <= k < |g| => if i <= k < j then (if k + n < j then g[k + n] else c) else g[k])
  }

  /** Cells from i up to j move up by n places, and the n from i are blank. */
  ghost function ShiftedOn(g: seq<Cell>, i: int, j: int, n: int, c: Cell): (r: seq<Cell>)
    requires 0 <= i && j <= |g| && n >= 0
    ensures |r| == |g|
  {
    seq(|g|, k requires 0 <= k < |g| => if i <= k < j then (if i <= k - n then g[k - n] else c) else g[k])
  }

  function Clamp(n: int, size: int): int { if n >= size then size - 1 else if n < 0 then 0 else n }

  function Moved(v: Screen, y: int, x: int): Screen {
    v.(x := Clamp(x, v.columns), y := Clamp(y, v.rows))
  }

  ghost predicate OnGrid(v: Screen) {
    v.rows > 0 && v.columns > 0 && |v.grid| == v.rows * v.columns
  }

  lemma RowsInside(v: Screen, a: int, b: int)
    requires OnGrid(v) && 0 <= a <= b <= v.rows
    ensures 0 <= a * v.columns <= b * v.columns <= |v.grid|
  {
    Monotone(a, b, v.columns);
    Monotone(b, v.rows, v.columns);
    Monotone(0, a, v.columns);
  }

  lemma Monotone(a: int, b: int, n: int)
    requires a <= b && n >= 0
    ensures a * n <= b * n
  {
    assert (b - a) * n >= 0;
  }

  /** The cells may differ, and the cursor; everything else is the same. */
  ghost predicate Kept(v: Screen, u: Screen) {
    |u.grid| == |v.grid| && u.(grid := v.grid, x := v.x, y := v.y) == v
  }

  /** Rows from the first up to the bottom of the region move up by one, and the last of them is blank. */
  ghost function ScrolledUp(v: Screen, first: int): (u: Screen)
    requires OnGrid(v) && 0 <= first < v.bottom <= v.rows
    ensures Kept(v, u) && u.x == v.x && u.y == v.y
  {
    RowsInside(v, first, v.bottom);
    v.(grid := ShiftedBack(v.grid, first * v.columns, v.bottom * v.columns, v.columns, Blank(v)))
  }

  ghost function ScrolledDown(v: Screen, first: int): (u: Screen)
    requires OnGrid(v) && 0 <= first < v.bottom <= v.rows
    ensures Kept(v, u) && u.x == v.x && u.y == v.y
  {
    RowsInside(v, first, v.bottom);
    v.(grid := ShiftedOn(v.grid, first * v.columns, v.bottom * v.columns, v.columns, Blank(v)))
  }

  /** The lines from the cursor down to the end of the region, if the cursor is in it. */
  ghost function ScrolledAtCursor(v: Screen, up: bool): (u: Screen)
    requires Valid(v)
    ensures Kept(v, u) && u.x == v.x && u.y == v.y
  {
    if v.top <= v.y < v.bottom then (if up then ScrolledUp(v, v.y) else ScrolledDown(v, v.y)) else v
  }

  ghost function Lines(v: Screen, n: int, up: bool): (u: Screen)
    requires Valid(v)
    ensures Valid(u) && Kept(v, u) && u.x == v.x && u.y == v.y
    decreases if n > 0 then n else 0
  {
    if n <= 0 then v else Lines(ScrolledAtCursor(v, up), n - 1, up)
  }

  // ---------------------------------------------------------------- rows

  ghost function Row(v: Screen, r: int): seq<Cell>
    requires OnGrid(v) && 0 <= r < v.rows
  {
    RowsInside(v, r, r + 1);
    v.grid[r * v.columns..(r + 1) * v.columns]
  }

  /** A stretch of cells that a shift takes whole, blanks whole or does not meet. */
  lemma StretchBack(g: seq<Cell>, i: int, j: int, n: int, c: Cell, at: int)
    requires 0 <= i <= j <= |g| && n >= 0 && 0 <= at && at + n <= |g|
    ensures var r := ShiftedBack(g, i, j, n, c);
      && (i <= at && at + n + n <= j ==> r[at..at + n] == g[at + n..at + n + n])
      && (i <= at && at + n == j ==> r[at..at + n] == seq(n, _ => c))
      && (at + n <= i || j <= at ==> r[at..at + n] == g[at..at + n])
  {
    var r := ShiftedBack(g, i, j, n, c);
    var now, here, next := r[at..at + n], g[at..at + n], if at + n + n <= |g| then g[at + n..at + n + n] else [];
    if i <= at && at + n + n <= j {
      forall k | 0 <= k < n ensures now[k] == next[k] { assert r[at + k] == g[at + k + n]; }
    } else if i <= at && at + n == j {
      forall k | 0 <= k < n ensures now[k] == c { assert r[at + k] == c; }
    } else if at + n <= i || j <= at {
      forall k | 0 <= k < n ensures now[k] == here[k] { assert r[at + k] == g[at + k]; }
    }
  }

  /** Scrolling up takes each row of the region to the one above, and leaves every other row alone. */
  lemma ScrolledUpRows(v: Screen, first: int, r: int)
    requires OnGrid(v) && 0 <= first < v.bottom <= v.rows && 0 <= r < v.rows
    ensures var u := ScrolledUp(v, first);
      && (first <= r < v.bottom - 1 ==> Row(u, r) == Row(v, r + 1))
      && (r == v.bottom - 1 ==> Row(u, r) == seq(v.columns, _ => Blank(v)))
      && (r < first || v.bottom <= r ==> Row(u, r) == Row(v, r))
  {
    hide ShiftedBack;
    var u, n := ScrolledUp(v, first), v.columns;
    RowsInside(v, first, v.bottom);
    RowsInside(v, r, r + 1);
    assert (r + 1) * n == r * n + n && (v.bottom - 1) * n + n == v.bottom * n;
    StretchBack(v.grid, first * n, v.bottom * n, n, Blank(v), r * n);
    if first <= r < v.bottom - 1 {
      RowsInside(v, r + 1, r + 2);
      Monotone(first, r, n);
      Monotone(r + 2, v.bottom, n);
      assert (r + 2) * n == r * n + n + n;
    } else if r < first {
      Monotone(r + 1, first, n);
    } else if v.bottom <= r {
      Monotone(v.bottom, r, n);
    } else {
      Monotone(first, r, n);
    }
  }

  lemma ScrolledDownRows(v: Screen, first: int, r: int)
    requires OnGrid(v) && 0 <= first < v.bottom <= v.rows && 0 <= r < v.rows
    ensures var u := ScrolledDown(v, first);
      && (first < r < v.bottom ==> Row(u, r) == Row(v, r - 1))
      && (r == first ==> Row(u, r) == seq(v.columns, _ => Blank(v)))
      && (r < first || v.bottom <= r ==> Row(u, r) == Row(v, r))
  {
    var u, n := ScrolledDown(v, first), v.columns;
    RowsInside(v, first, v.bottom);
    RowsInside(v, r, r + 1);
    assert (r + 1) * n == r * n + n;
    if first < r < v.bottom {
      RowsInside(v, r - 1, r);
      Monotone(first, r - 1, n);
      Monotone(r + 1, v.bottom, n);
      assert (r - 1) * n == r * n - n;
    } else if r < first {
      Monotone(r + 1, first, n);
    } else if v.bottom <= r {
      Monotone(v.bottom, r, n);
    } else {
      Monotone(r + 1, v.bottom, n);
    }
  }

  // ---------------------------------------------------------------- bytes outside control sequences

  /** One line on; at the end of the region its rows scroll. `always` says whether they also do when the cursor
      is further down. */
  /** A line on from here scrolls the whole region, if the cursor is at its end, or always when it is below. */
  predicate Scrolls(v: Screen, always: bool) {
    v.y + 1 >= v.bottom && (always || v.y + 1 == v.bottom)
  }

  /** It does, and the region has no rows. */
  predicate Overruns(v: Screen, always: bool) {
    Scrolls(v, always) && v.top >= v.bottom
  }

  ghost function LineOn(v: Screen, always: bool): (u: Screen)
    requires Valid(v) && !Overruns(v, always)
    ensures Kept(v, u) && u.x == v.x && 0 <= u.y < u.rows
  {
    if v.y + 1 < v.bottom then v.(y := v.y + 1)
    else if always || v.y + 1 == v.bottom then ScrolledUp(v, v.top)
    else v
  }

  ghost function LineBack(v: Screen): (u: Screen)
    requires Valid(v)
    ensures Kept(v, u) && u.x == v.x && 0 <= u.y < u.rows
  {
    if v.y - 1 < v.top then ScrolledAtCursor(v, false) else v.(y := v.y - 1)
  }

  ghost function Typed(v: Screen, ch: Byte): (u: Screen)
    requires Valid(v)
    ensures Kept(v, u) && 0 <= u.x < u.columns && u.y == v.y
  {
    CellInside(v, v.y, v.x);
    v.(grid := v.grid[At(v, v.y, v.x) := Cell(ch, v.attr)],
       x := if v.x + 1 >= v.columns then v.columns - 1 else v.x + 1)
  }

  lemma CellInside(v: Screen, y: int, x: int)
    requires OnGrid(v) && 0 <= y < v.rows && 0 <= x <= v.columns
    ensures 0 <= At(v, y, x) <= At(v, y, v.columns) <= |v.grid| && (x < v.columns ==> At(v, y, x) < |v.grid|)
  {
    RowsInside(v, y, y + 1);
    assert (y + 1) * v.columns == y * v.columns + v.columns;
  }

  ghost function Cleared(v: Screen, mode: int): (u: Screen)
    requires Valid(v)
    ensures Kept(v, u) && 0 <= u.x < u.columns && 0 <= u.y < u.rows
  {
    if mode == 0 then v.(grid := Wiped(v.grid, At(v, v.y, v.x), At(v, v.rows - 1, v.columns), Blank(v)))
    else if mode == 1 then v.(grid := Wiped(v.grid, 0, At(v, v.y, v.x) + 1, Blank(v)))
    else v.(grid := Wiped(v.grid, 0, At(v, v.rows - 1, v.columns), Blank(v)), x := 0, y := 0)
  }

  ghost function LineCleared(v: Screen, mode: int): (u: Screen)
    requires Valid(v)
    ensures Kept(v, u) && u.x == v.x && u.y == v.y
  {
    if mode == 0 then v.(grid := Wiped(v.grid, At(v, v.y, v.x), At(v, v.y, v.columns), Blank(v)))
    else if mode == 1 then v.(grid := Wiped(v.grid, At(v, v.y, 0), At(v, v.y, v.x) + 1, Blank(v)))
    else v.(grid := Wiped(v.grid, At(v, v.y, 0), At(v, v.y, v.columns), Blank(v)))
  }

  /** The characters from the cursor to the end of its line move back by n. */
  ghost function CharsDeleted(v: Screen, n: int): (u: Screen)
    requires Valid(v) && n >= 0
    ensures Kept(v, u) && u.x == v.x && u.y == v.y
  {
    CellInside(v, v.y, v.x);
    v.(grid := ShiftedBack(v.grid, At(v, v.y, v.x), At(v, v.y, v.columns), n, Blank(v)))
  }

  ghost function PlainStep(v: Screen, ch: Byte): Screen
    requires Valid(v) && !(ch == NEWLINE && Overruns(v, false))
  {
    if ch == ESC then v.(mode := Escape)
    else if ch == 12 then Cleared(v, 2)
    else if ch == 13 then v.(x := 0)
    else if ch == NEWLINE then LineOn(v, false).(x := 0)
    else if ch == 9 then Moved(v, v.y, v.x + (8 - v.x % 8))
    else if ch == 8 then v.(x := if v.x == 0 then v.columns - 1 else v.x - 1)
    else if ch == 0 then v
    else Typed(v, ch)
  }

  ghost function EscapeStep(v: Screen, ch: Byte): Screen
    requires Valid(v) && !((ch == 68 || ch == 69) && Overruns(v, true))
  {
    if ch == 40 || ch == 41 then v.(mode := Charset)
    else if ch == 91 then v.(number := 0, elements := [], reading := false, mode := Control)
    else if ch == 27 then v
    else
      var u :=
        if ch == 55 then v.(oldAttr := v.attr, oldX := v.x, oldY := v.y)
        else if ch == 56 then Moved(v.(attr := v.oldAttr), v.y, v.x)
        else if ch == 69 then LineOn(v.(x := 0), true)
        else if ch == 68 then LineOn(v, true)
        else if ch == 77 then LineBack(v)
        else v;
      u.(mode := Plain)
  }

  // ---------------------------------------------------------------- control sequences

  predicate Digit(ch: Byte) { 48 <= ch <= 57 }

  /** The elements once a byte has ended the number before it; those beyond the sixteenth are dropped. */
  function Ended(v: Screen, ch: Byte): seq<int> {
    if (v.reading || ch == 59) && |v.elements| < MAX_ELEMENTS then v.elements + [v.number] else v.elements
  }

  function Param(es: seq<int>, i: nat, otherwise: int): int {
    if i < |es| then es[i] else otherwise
  }

  function Less1(n: int): int { if n != 0 then n - 1 else n }

  /** The region the sequence asks for, or the one there is when it asks for none. */
  function RegionTop(v: Screen, es: seq<int>): int {
    var low, high := Param(es, 0, 1), Param(es, 1, v.rows);
    if low > high then v.top else if low - 1 < 0 then 0 else low - 1
  }

  function RegionBottom(v: Screen, es: seq<int>): int {
    var low, high := Param(es, 0, 1), Param(es, 1, v.rows);
    if low > high then v.bottom else if high >= v.rows then v.rows else high
  }

  function Shade(attr: bv8, n: int): bv8 {
    if n == 0 || n == 27 then 0x07
    else if n == 1 then attr | 0x08
    else if n == 5 then attr | 0x80
    else if n == 7 then 0x70
    else if n == 21 || n == 22 then attr & 0xF7
    else if n == 25 then attr & 0x7F
    else if 30 <= n <= 37 then (attr & 0xF8) | ((n - 30) as bv8)
    else if 40 <= n <= 47 then (attr & 0x8F) | (((n - 40) as bv8) << 4)
    else attr
  }

  ghost function Shades(attr: bv8, es: seq<int>): bv8 {
    if es == [] then attr else Shade(Shades(attr, es[..|es| - 1]), es[|es| - 1])
  }

  predicate Moves(ch: Byte) {
    ch in [65, 66, 67, 68, 69, 70, 71, 72, 96, 97, 100, 101, 102, 117]
  }

  function Motion(v: Screen, ch: Byte, es: seq<int>): Screen {
    var n := Param(es, 0, 1);
    if ch == 68 then Moved(v, v.y, v.x - n)
    else if ch == 97 || ch == 67 then Moved(v, v.y, v.x + n)
    else if ch == 65 then Moved(v, v.y - n, v.x)
    else if ch == 101 || ch == 66 then Moved(v, v.y + n, v.x)
    else if ch == 96 || ch == 71 then Moved(v, v.y, Less1(n))
    else if ch == 69 then Moved(v, v.y + n, 0)
    else if ch == 70 then Moved(v, v.y - n, 0)
    else if ch == 100 then Moved(v, Less1(n), v.x)
    else if ch == 102 || ch == 72 then Moved(v, Less1(n), Less1(Param(es, 1, 1)))
    else Moved(v, v.oldY, v.oldX)
  }

  ghost function Edit(v: Screen, ch: Byte, es: seq<int>): Screen
    requires Valid(v) && forall i :: 0 <= i < |es| ==> es[i] >= 0
  {
    if ch == 74 then Cleared(v, Param(es, 0, 0))
    else if ch == 76 then Lines(v, Param(es, 0, 1), false)
    else if ch == 77 then Lines(v, Param(es, 0, 1), true)
    else if ch == 80 then CharsDeleted(v, Param(es, 0, 1))
    else if ch == 75 then LineCleared(v, Param(es, 0, 0))
    else if ch == 115 then v.(oldX := v.x, oldY := v.y)
    else if ch == 114 then v.(top := RegionTop(v, es), bottom := RegionBottom(v, es))
    else if ch == 109 then v.(attr := if es == [] then 0x07 else Shades(v.attr, es))
    else v
  }

  /** What the byte that ends a sequence makes of the elements. */
  ghost function Command(v: Screen, ch: Byte, es: seq<int>): Screen
    requires Valid(v) && forall i :: 0 <= i < |es| ==> es[i] >= 0
  {
    if Moves(ch) then Motion(v, ch, es) else Edit(v, ch, es)
  }

  ghost function ControlStep(v: Screen, ch: Byte): Screen
    requires Valid(v)
  {
    if Digit(ch) then v.(number := v.number * 10 + (ch - 48), reading := true)
    else
      var u := v.(elements := Ended(v, ch), reading := false, number := 0);
      if ch == 63 || ch == 59 then u else Command(u, ch, u.elements).(mode := Plain)
  }

  /** The byte is a line feed, an index or a next line, and its scroll has no rows to scroll. */
  predicate OverrunBy(v: Screen, ch: Byte) {
    || (v.mode == Plain && ch == NEWLINE && Overruns(v, false))
    || (v.mode == Escape && (ch == 68 || ch == 69) && Overruns(v, true))
  }

  ghost function Step(v: Screen, ch: Byte): Screen
    requires Valid(v) && !OverrunBy(v, ch)
  {
    match v.mode
    case Plain => PlainStep(v, ch)
    case Escape => EscapeStep(v, ch)
    case Control => ControlStep(v, ch)
    case Charset => v.(mode := Plain)
  }

  // ---------------------------------------------------------------- what every byte keeps

  lemma PlainValid(v: Screen, ch: Byte)
    requires Valid(v) && !(ch == NEWLINE && Overruns(v, false))
    ensures Valid(PlainStep(v, ch)) && PlainStep(v, ch).rows == v.rows && PlainStep(v, ch).columns == v.columns
  {
    hide Typed, Cleared, LineOn, ScrolledUp, LineCleared, CharsDeleted, Lines;
  }

  lemma EscapeValid(v: Screen, ch: Byte)
    requires Valid(v) && !((ch == 68 || ch == 69) && Overruns(v, true))
    ensures Valid(EscapeStep(v, ch)) && EscapeStep(v, ch).rows == v.rows && EscapeStep(v, ch).columns == v.columns
  {
    hide LineOn, LineBack, Moved;
    if ch == 68 {
      KeptValid(v, LineOn(v, true));
    } else if ch == 69 {
      KeptValid(v, LineOn(v.(x := 0), true));
    } else if ch == 77 {
      KeptValid(v, LineBack(v));
    } else if ch == 56 {
      MovedOn(v.(attr := v.oldAttr), v.y, v.x);
    }
  }

  lemma KeptValid(v: Screen, u: Screen)
    requires Valid(v) && Kept(v, u) && 0 <= u.x < u.columns && 0 <= u.y < u.rows
    ensures Valid(u.(mode := Plain)) && u.rows == v.rows && u.columns == v.columns
  {
  }

  lemma EditValid(v: Screen, ch: Byte, es: seq<int>)
    requires Valid(v) && (forall i :: 0 <= i < |es| ==> es[i] >= 0)
    ensures Valid(Edit(v, ch, es)) && Edit(v, ch, es).rows == v.rows && Edit(v, ch, es).columns == v.columns
  {
    hide Cleared, LineCleared, CharsDeleted, Lines, Shades, RegionTop, RegionBottom, Param;
    if ch == 74 {
      KeptScreen(v, Cleared(v, Param(es, 0, 0)));
    } else if ch == 80 {
      ParamOk(es, 0, 1);
      KeptScreen(v, CharsDeleted(v, Param(es, 0, 1)));
    } else if ch == 75 {
      KeptScreen(v, LineCleared(v, Param(es, 0, 0)));
    } else if ch == 114 {
      RegionOk(v, es);
    }
  }

  lemma ParamOk(es: seq<int>, i: nat, otherwise: int)
    requires otherwise >= 0 && forall j :: 0 <= j < |es| ==> es[j] >= 0
    ensures Param(es, i, otherwise) >= 0
  {
  }

  lemma RegionOk(v: Screen, es: seq<int>)
    requires v.rows > 0 && 0 <= v.top && 0 <= v.bottom <= v.rows && forall i :: 0 <= i < |es| ==> es[i] >= 0
    ensures 0 <= RegionTop(v, es) && 0 <= RegionBottom(v, es) <= v.rows
  {
  }

  lemma KeptScreen(v: Screen, u: Screen)
    requires Valid(v) && Kept(v, u) && 0 <= u.x < u.columns && 0 <= u.y < u.rows
    ensures Valid(u) && u.rows == v.rows && u.columns == v.columns
  {
  }

  lemma CommandValid(v: Screen, ch: Byte, es: seq<int>)
    requires Valid(v) && (forall i :: 0 <= i < |es| ==> es[i] >= 0)
    ensures Valid(Command(v, ch, es)) && Command(v, ch, es).rows == v.rows && Command(v, ch, es).columns == v.columns
  {
    hide Edit, Motion;
    if Moves(ch) { MotionValid(v, ch, es); } else { EditValid(v, ch, es); }
  }

  /** Only the cursor differs, and it is on the grid. */
  ghost predicate CursorMoved(v: Screen, u: Screen) {
    u == v.(x := u.x, y := u.y) && 0 <= u.x < v.columns && 0 <= u.y < v.rows
  }

  lemma MotionMoves(v: Screen, ch: Byte, es: seq<int>)
    requires v.rows > 0 && v.columns > 0
    ensures CursorMoved(v, Motion(v, ch, es))
  {
    hide Less1, Param, Moved, CursorMoved;
    forall y, x ensures CursorMoved(v, Moved(v, y, x)) { MovedOn(v, y, x); }
  }

  lemma MovedOn(v: Screen, y: int, x: int)
    requires v.rows > 0 && v.columns > 0
    ensures CursorMoved(v, Moved(v, y, x))
  {
  }

  lemma MotionValid(v: Screen, ch: Byte, es: seq<int>)
    requires Valid(v)
    ensures Valid(Motion(v, ch, es)) && Motion(v, ch, es).rows == v.rows && Motion(v, ch, es).columns == v.columns
  {
    hide Motion;
    MotionMoves(v, ch, es);
  }

  /** The cursor stays on the grid, the region ends on it, and there are never more than sixteen elements. */
  lemma StepValid(v: Screen, ch: Byte)
    requires Valid(v) && !OverrunBy(v, ch)
    ensures Valid(Step(v, ch)) && Step(v, ch).rows == v.rows && Step(v, ch).columns == v.columns
  {
    hide PlainStep, EscapeStep, Command;
    match v.mode
    case Plain => PlainValid(v, ch);
    case Escape => EscapeValid(v, ch);
    case Control =>
      if !Digit(ch) { CommandValid(v.(elements := Ended(v, ch), reading := false, number := 0), ch, Ended(v, ch)); }
    case Charset =>
  }

  /** No byte of the input scrolls a region with no rows. */
  ghost predicate Legal(v: Screen, input: seq<Byte>)
    requires Valid(v)
    decreases |input|
  {
    input != [] ==> !OverrunBy(v, input[0]) && (StepValid(v, input[0]); Legal(Step(v, input[0]), input[1..]))
  }

  ghost function Fed(v: Screen, input: seq<Byte>): Screen
    requires Valid(v) && Legal(v, input)
    decreases |input|
  {
    if input == [] then v else StepValid(v, input[0]); Fed(Step(v, input[0]), input[1..])
  }

  /** After any input that scrolls no region without rows the screen is as it should be. */
  lemma {:induction false} EveryInput(v: Screen, input: seq<Byte>)
    requires Valid(v) && Legal(v, input)
    ensures var u := Fed(v, input); Valid(u) && u.rows == v.rows && u.columns == v.columns
    decreases |input|
  {
    if input != [] {
      StepValid(v, input[0]);
      EveryInput(Step(v, input[0]), input[1..]);
    }
  }

  // ---------------------------------------------------------------- regions with no rows

  const TWO_32 := 0x1_0000_0000

  /** The bytes a scroll of the region moves: a difference of addresses, as an unsigned word. */
  function ScrollLength(v: Screen): int {
    2 * v.columns * (v.bottom - 1 - v.top) % TWO_32
  }

  /** What a scroll of the region writes ends inside the grid. */
  predicate WritesInside(v: Screen) {
    2 * v.columns * v.top + ScrollLength(v) <= 2 * v.columns * v.rows
  }

  /** The system's screens are far smaller than an address space. */
  predicate Addressable(v: Screen) {
    2 * v.columns * (v.rows + 1) < TWO_32
  }

  lemma WritesInsideExactlyWhen(v: Screen)
    requires v.rows > 0 && v.columns > 0 && 0 <= v.top && 0 <= v.bottom <= v.rows && Addressable(v)
    ensures WritesInside(v) <==> v.top < v.bottom
  {
    var c, d := 2 * v.columns, v.bottom - 1 - v.top;
    assert c * v.top + c * d == c * (v.bottom - 1) && c * (v.rows + 1) == c * v.rows + c && c * -d == -(c * d);
    Monotone(v.bottom - 1, v.rows, c);
    Monotone(0, v.bottom, c);
    assert c * (v.bottom - 1) == c * v.bottom - c;
    if d >= 0 {
      Monotone(0, d, c);
      Monotone(d, v.rows, c);
      assert c * d % TWO_32 == c * d;
    } else if c * -d <= TWO_32 {
      Monotone(1, -d, c);
      assert (c * d + TWO_32) % TWO_32 == c * d % TWO_32;
    } else {
      assert c * (v.top + 1) == c * v.top + c;
      Monotone(-d, v.top + 1, c);
    }
  }

  /** The byte scrolls the whole region. */
  predicate ScrollsBy(v: Screen, ch: Byte) {
    || (v.mode == Plain && ch == NEWLINE && Scrolls(v, false))
    || (v.mode == Escape && (ch == 68 || ch == 69) && Scrolls(v, true))
  }

  /** The bytes left out are exactly those whose scroll writes beyond the grid. */
  lemma OverrunsExactlyWhen(v: Screen, ch: Byte)
    requires Valid(v) && Addressable(v)
    ensures ScrollsBy(v, ch) && !WritesInside(v) <==> OverrunBy(v, ch)
  {
    WritesInsideExactlyWhen(v);
  }

  /** The byte ends a request for a scroll region with no rows in it. */
  ghost predicate EmptiesRegion(v: Screen, ch: Byte) {
    v.mode == Control && ch == 114 && RegionTop(v, Ended(v, ch)) >= RegionBottom(v, Ended(v, ch))
  }

  /** After a request for a region, an index from some row overruns exactly when the region asked for has no rows. */
  lemma RequestExactlyWhen(v: Screen)
    requires Valid(v) && v.mode == Control
    ensures (exists y :: 0 <= y < v.rows && Overruns(Step(v, 114).(y := y), true)) <==> EmptiesRegion(v, 114)
  {
    var u := Step(v, 114);
    assert u.top == RegionTop(v, Ended(v, 114)) && u.bottom == RegionBottom(v, Ended(v, 114)) && u.rows == v.rows;
    if EmptiesRegion(v, 114) { assert Overruns(u.(y := v.rows - 1), true); }
  }

  // ---------------------------------------------------------------- lines put in and taken out

  ghost function BlankRow(v: Screen): seq<Cell>
    requires v.columns >= 0
  {
    seq(v.columns, _ => Blank(v))
  }

  /** Taking out n lines at the cursor: the region's rows below come up, blank ones follow, the rest stays. */
  lemma {:induction false} LinesOut(v: Screen, n: nat, r: int)
    requires Valid(v) && v.top <= v.y < v.bottom && 0 <= r < v.rows
    ensures Row(Lines(v, n, true), r) ==
      if r < v.y || v.bottom <= r then Row(v, r) else if r + n < v.bottom then Row(v, r + n) else BlankRow(v)
    decreases n
  {
    hide ScrolledUp, Row;
    if n > 0 {
      var w := ScrolledAtCursor(v, true);
      LinesOut(w, n - 1, r);
      ScrolledUpRows(v, v.y, r);
      if v.y <= r && r + n < v.bottom { ScrolledUpRows(v, v.y, r + n - 1); }
      if v.y <= r < v.bottom && r + n == v.bottom { ScrolledUpRows(v, v.y, v.bottom - 1); }
    }
  }

  /** Putting in n lines: the region's rows go down, blank ones come in, the rest stays. */
  lemma {:induction false} LinesIn(v: Screen, n: nat, r: int)
    requires Valid(v) && v.top <= v.y < v.bottom && 0 <= r < v.rows
    ensures Row(Lines(v, n, false), r) ==
      if r < v.y || v.bottom <= r then Row(v, r) else if r - n >= v.y then Row(v, r - n) else BlankRow(v)
    decreases n
  {
    hide ScrolledDown, Row;
    if n > 0 {
      var w := ScrolledAtCursor(v, false);
      LinesIn(w, n - 1, r);
      ScrolledDownRows(v, v.y, r);
      if r < v.bottom && r - n >= v.y { ScrolledDownRows(v, v.y, r - n + 1); }
      if v.y <= r < v.bottom && r - n == v.y - 1 { ScrolledDownRows(v, v.y, v.y); }
    }
  }

  /** A line feed, an index or a reverse index touches no row outside the region. */
  lemma OutsideStays(v: Screen, always: bool, r: int)
    requires Valid(v) && 0 <= r < v.rows && (r < v.top || v.bottom <= r)
    ensures Row(LineBack(v), r) == Row(v, r) && (!Overruns(v, always) ==> Row(LineOn(v, always), r) == Row(v, r))
  {
    hide ScrolledUp, ScrolledDown;
    if v.top < v.bottom { ScrolledUpRows(v, v.top, r); }
    if v.top <= v.y < v.bottom { ScrolledDownRows(v, v.y, r); }
  }

  // ---------------------------------------------------------------- control sequences written and read

  function Digits(n: nat): seq<Byte> {
    if n < 10 then [48 + n] else Digits(n / 10) + [48 + n % 10]
  }

  function Joined(ps: seq<nat>): seq<Byte>
    requires ps != []
  {
    if |ps| == 1 then Digits(ps[0]) else Joined(ps[..|ps| - 1]) + [59] + Digits(ps[|ps| - 1])
  }

  function First16(ps: seq<nat>): seq<int> {
    if |ps| <= MAX_ELEMENTS then ps else ps[..MAX_ELEMENTS]
  }

  lemma {:induction false} FedJoined(v: Screen, a: seq<Byte>, b: seq<Byte>)
    requires Valid(v) && Legal(v, a) && Valid(Fed(v, a)) && Legal(Fed(v, a), b)
    ensures Legal(v, a + b) && Fed(v, a + b) == Fed(Fed(v, a), b)
    decreases |a|
  {
    hide Step, OverrunBy, Valid;
    if a == [] {
      assert a + b == b;
    } else {
      assert (a + b)[1..] == a[1..] + b;
      StepValid(v, a[0]);
      FedJoined(Step(v, a[0]), a[1..], b);
    }
  }

  lemma FedOne(v: Screen, ch: Byte)
    requires Valid(v) && !OverrunBy(v, ch)
    ensures Legal(v, [ch]) && Fed(v, [ch]) == Step(v, ch)
  {
    hide Step;
    StepValid(v, ch);
    assert [ch][1..] == [];
  }

  /** The digits of a number are read as that number. */
  lemma {:induction false} ReadsNumber(v: Screen, n: nat)
    requires Valid(v) && v.mode == Control && v.number == 0
    ensures Legal(v, Digits(n)) && Fed(v, Digits(n)) == v.(number := n, reading := true)
  {
    if n < 10 {
      FedOne(v, 48 + n);
    } else {
      ReadsNumber(v, n / 10);
      var w := v.(number := n / 10, reading := true);
      FedOne(w, 48 + n % 10);
      FedJoined(v, Digits(n / 10), [48 + n % 10]);
    }
  }

  ghost function Opened(v: Screen): Screen {
    v.(mode := Control, number := 0, reading := false, elements := [])
  }

  lemma Opens(v: Screen)
    requires Valid(v) && v.mode == Plain
    ensures Valid(Opened(v)) && Legal(v, [ESC, 91]) && Fed(v, [ESC, 91]) == Opened(v)
  {
    FedOne(v, ESC);
    FedOne(v.(mode := Escape), 91);
    FedJoined(v, [ESC], [91]);
    assert [ESC] + [91] == [ESC, 91];
  }

  ghost function Pending(v: Screen, ps: seq<nat>): Screen
    requires ps != []
  {
    Opened(v).(number := ps[|ps| - 1], reading := true, elements := First16(ps[..|ps| - 1]))
  }

  lemma Separates(v: Screen, ps: seq<nat>)
    requires Valid(v) && ps != []
    ensures Valid(Pending(v, ps)) && !OverrunBy(Pending(v, ps), 59)
    ensures Step(Pending(v, ps), 59) == Opened(v).(elements := First16(ps))
  {
    assert ps == ps[..|ps| - 1] + [ps[|ps| - 1]];
  }

  /** Parameters joined by semicolons are read in order, the first sixteen of them. */
  lemma {:induction false} ReadsParams(v: Screen, ps: seq<nat>)
    requires Valid(v) && v == Opened(v) && ps != []
    ensures Legal(v, Joined(ps)) && Fed(v, Joined(ps)) == Pending(v, ps)
    decreases |ps|
  {
    if |ps| == 1 {
      ReadsNumber(v, ps[0]);
    } else {
      hide Step, Fed, Legal, OverrunBy;
      var front, last := ps[..|ps| - 1], ps[|ps| - 1];
      ReadsParams(v, front);
      Separates(v, front);
      FedOne(Pending(v, front), 59);
      FedJoined(v, Joined(front), [59]);
      ReadsNumber(Opened(v).(elements := First16(front)), last);
      FedJoined(v, Joined(front) + [59], Digits(last));
    }
  }

  lemma Closes(v: Screen, ps: seq<nat>, ch: Byte)
    requires Valid(v) && ps != [] && !Digit(ch) && ch != 59 && ch != 63
    ensures Valid(Pending(v, ps)) && !OverrunBy(Pending(v, ps), ch)
    ensures Step(Pending(v, ps), ch) == Command(Opened(v).(elements := First16(ps)), ch, First16(ps)).(mode := Plain)
  {
    hide Command;
    assert ps == ps[..|ps| - 1] + [ps[|ps| - 1]];
    assert Ended(Pending(v, ps), ch) == First16(ps);
  }

  /** A whole sequence: the command that ends it gets the parameters that were written. */
  lemma ReadsSequence(v: Screen, ps: seq<nat>, ch: Byte)
    requires Valid(v) && v.mode == Plain && ps != [] && !Digit(ch) && ch != 59 && ch != 63
    ensures var input := [ESC, 91] + Joined(ps) + [ch];
      Legal(v, input) && Fed(v, input) == Command(Opened(v).(elements := First16(ps)), ch, First16(ps)).(mode := Plain)
  {
    hide Step, Command, OverrunBy, Joined, Fed, Legal;
    Opens(v);
    ReadsParams(Opened(v), ps);
    FedJoined(v, [ESC, 91], Joined(ps));
    Closes(v, ps, ch);
    FedOne(Pending(v, ps), ch);
    FedJoined(v, [ESC, 91] + Joined(ps), [ch]);
  }

  /** The sequence for a cursor position takes the cursor there, or as near as the grid has it. */
  lemma CursorTo(v: Screen, row: nat, column: nat)
    requires Valid(v) && v.mode == Plain && row > 0 && column > 0
    ensures var input := [ESC, 91] + Digits(row) + [59] + Digits(column) + [72];
      Legal(v, input) && Fed(v, input) == v.(y := Clamp(row - 1, v.rows), x := Clamp(column - 1, v.columns),
                                             number := 0, reading := false, elements := [row, column])
  {
    hide Fed, Legal, Joined, Command, Valid, Digits, First16, RegionTop, RegionBottom;
    var ps := [row, column];
    ReadsSequence(v, ps, 72);
    JoinsTwo(row, column);
    CursorCommand(v, row, column);
    assert [ESC, 91] + Joined(ps) + [72] == [ESC, 91] + Digits(row) + [59] + Digits(column) + [72];
  }

  lemma JoinsTwo(a: nat, b: nat)
    ensures Joined([a, b]) == Digits(a) + [59] + Digits(b)
  {
    assert [a, b][..1] == [a] && Joined([a]) == Digits(a);
  }

  lemma CursorCommand(v: Screen, row: nat, column: nat)
    requires Valid(v) && v.mode == Plain && row > 0 && column > 0
    ensures First16([row, column]) == [row, column]
    ensures Command(Opened(v).(elements := [row, column]), 72, [row, column]).(mode := Plain)
         == v.(y := Clamp(row - 1, v.rows), x := Clamp(column - 1, v.columns),
               number := 0, reading := false, elements := [row, column])
  {
  }

  /** On every screen, wherever the cursor is, the bytes ESC [ 0 ; 0 r ESC are fine and the next one, D, overruns. */
  lemma OverrunAnywhere(v: Screen)
    requires Valid(v) && v.mode == Plain
    ensures var input := [ESC, 91] + Joined([0, 0]) + [114] + [ESC];
      Legal(v, input) && OverrunBy(Fed(v, input), 68)
  {
    hide Fed, Legal, Joined, Command, Step;
    var input := [ESC, 91] + Joined([0, 0]) + [114];
    ReadsSequence(v, [0, 0], 114);
    EmptyRequest(v);
    EveryInput(v, input);
    FedOne(Fed(v, input), ESC);
    EscapeOpens(Fed(v, input));
    FedJoined(v, input, [ESC]);
  }

  lemma EscapeOpens(v: Screen)
    requires Valid(v) && v.mode == Plain
    ensures Step(v, ESC) == v.(mode := Escape)
  {
  }

  lemma EmptyRequest(v: Screen)
    requires Valid(v)
    ensures First16([0, 0]) == [0, 0]
    ensures var w := Command(Opened(v).(elements := [0, 0]), 114, [0, 0]).(mode := Plain);
      w == Opened(v).(elements := [0, 0], top := 0, bottom := 0, mode := Plain)
  {
  }

  // ---------------------------------------------------------------- the code

  /** Cells from i up to k hold what was n places on. */
  ghost function Copied(g: seq<Cell>, i: int, k: int, n: int): (r: seq<Cell>)
    requires 0 <= i && n >= 0 && (i < k ==> k - 1 + n < |g|)
    ensures |r| == |g|
  {
    seq(|g|, m requires 0 <= m < |g| => if i <= m < k then g[m + n] else g[m])
  }

  ghost function CopiedOn(g: seq<Cell>, k: int, j: int, n: int): (r: seq<Cell>)
    requires 0 <= n <= k && j <= |g|
    ensures |r| == |g|
  {
    seq(|g|, m requires 0 <= m < |g| => if k <= m < j then g[m - n] else g[m])
  }

  /** The terminal's record. Every write to the grid is bounds checked by its type. */
  class Terminal {
    const rows: int
    const columns: int
    const data: array<Cell>
    var x: int
    var y: int
    var top: int
    var bottom: int
    var attr: bv8
    var oldAttr: bv8
    var oldX: int
    var oldY: int
    var number: int
    var elements: seq<int>
    var reading: bool
    var mode: Mode

    ghost function View(): Screen
      reads this, data
    {
      Screen(rows, columns, data[..], x, y, top, bottom, attr, oldAttr, oldX, oldY, number, elements, reading, mode)
    }

    constructor (rows: int, columns: int)
      requires rows > 0 && columns > 0
      ensures Valid(View()) && fresh(data) && this.rows == rows && this.columns == columns && x == y == 0
        && mode == Plain
      ensures View().top == 0 && View().bottom == rows && forall i :: 0 <= i < data.Length ==> data[i] == Cell(32, 0x07)
    {
      assert rows * columns >= 0 by { Monotone(0, rows, columns); }
      this.rows, this.columns := rows, columns;
      data := new Cell[rows * columns](_ => Cell(32, 0x07));
      x, y, top, bottom, attr, oldAttr, oldX, oldY := 0, 0, 0, rows, 0x07, 0x07, 0, 0;
      number, elements, reading, mode := 0, [], false, Plain;
    }

    /** Blanks the cells from i up to j. */
    method ClearCells(i: int, j: int)
      requires 0 <= i && j <= data.Length
      modifies data
      ensures data[..] == Wiped(old(data[..]), i, j, Cell(32, attr))
    {
      ghost var was := data[..];
      var k, c := i, Cell(32, attr);
      while k < j
        invariant i <= k && (k <= j || k == i)
        invariant data[..] == Wiped(was, i, k, c)
      {
        data[k] := c;
        k := k + 1;
      }
      assert data[..] == Wiped(was, i, j, c);
    }

    /** Copies cells from i + n up to j down to i, first to last, and blanks what is left. */
    method ShiftBack(i: int, j: int, n: int)
      requires 0 <= i <= j <= data.Length && n >= 0
      modifies data
      ensures data[..] == ShiftedBack(old(data[..]), i, j, n, Cell(32, attr))
    {
      ghost var was := data[..];
      var k, c := i, Cell(32, attr);
      while k + n < j
        invariant i <= k <= j && (k > i ==> k - 1 + n < j)
        invariant data[..] == Copied(was, i, k, n)
      {
        data[k] := data[k + n];
        k := k + 1;
      }
      ClearCells(k, j);
      assert data[..] == ShiftedBack(was, i, j, n, c);
    }

    /** Copies cells from i up to j - n to i + n and on, last to first, and blanks what is left. */
    method ShiftOn(i: int, j: int, n: int)
      requires 0 <= i <= j <= data.Length && 0 <= n <= j - i
      modifies data
      ensures data[..] == ShiftedOn(old(data[..]), i, j, n, Cell(32, attr))
    {
      ghost var was := data[..];
      var k, c := j, Cell(32, attr);
      while k > i + n
        invariant i + n <= k <= j
        invariant data[..] == CopiedOn(was, k, j, n)
      {
        k := k - 1;
        data[k] := data[k - n];
      }
      ClearCells(i, k);
      assert data[..] == ShiftedOn(was, i, j, n, c);
    }

    /** Scrolls the rows from one up to the end of the region. */
    method Scroll(first: int, up: bool)
      requires Valid(View()) && 0 <= first < bottom
      modifies data
      ensures View() == if up then ScrolledUp(old(View()), first) else ScrolledDown(old(View()), first)
    {
      RowsInside(View(), first, bottom);
      RowsInside(View(), first + 1, bottom);
      assert (first + 1) * columns == first * columns + columns;
      if up {
        ShiftBack(first * columns, bottom * columns, columns);
      } else {
        ShiftOn(first * columns, bottom * columns, columns);
      }
    }

    method ScrollAtCursor(up: bool)
      requires Valid(View())
      modifies data
      ensures View() == ScrolledAtCursor(old(View()), up)
    {
      hide ScrolledUp, ScrolledDown;
      if y >= top && y < bottom { Scroll(y, up); }
    }

    /** Puts in or takes out lines, one at a time. */
    method ScrollLines(n: int, up: bool)
      requires Valid(View())
      modifies data
      ensures View() == Lines(old(View()), n, up)
    {
      hide ScrolledAtCursor;
      ghost var s := View();
      var lines := n;
      while lines > 0
        invariant Valid(View()) && Lines(View(), lines, up) == Lines(s, n, up)
      {
        ScrollAtCursor(up);
        lines := lines - 1;
      }
    }

    method ClearScreen(m: int)
      requires Valid(View())
      modifies this, data
      ensures View() == Cleared(old(View()), m)
    {
      ghost var s := View();
      CellInside(s, y, x);
      CellInside(s, rows - 1, columns);
      if m == 0 {
        ClearCells(y * columns + x, (rows - 1) * columns + columns);
      } else if m == 1 {
        ClearCells(0, y * columns + x + 1);
      } else {
        ClearCells(0, (rows - 1) * columns + columns);
        x, y := 0, 0;
      }
    }

    method ClearLine(m: int)
      requires Valid(View())
      modifies data
      ensures View() == LineCleared(old(View()), m)
    {
      CellInside(View(), y, x);
      CellInside(View(), y, 0);
      if m == 0 {
        ClearCells(y * columns + x, y * columns + columns);
      } else if m == 1 {
        ClearCells(y * columns, y * columns + x + 1);
      } else {
        ClearCells(y * columns, y * columns + columns);
      }
    }

    method DeleteChars(n: int)
      requires Valid(View()) && n >= 0
      modifies data
      ensures View() == CharsDeleted(old(View()), n)
    {
      CellInside(View(), y, x);
      ShiftBack(y * columns + x, y * columns + columns, n);
    }

    method Position(ypos: int, xpos: int)
      requires Valid(View())
      modifies this`x, this`y
      ensures View() == Moved(old(View()), ypos, xpos)
    {
      x, y := xpos, ypos;
      if x < 0 { x := 0; }
      if x >= columns { x := columns - 1; }
      if y < 0 { y := 0; }
      if y >= rows { y := rows - 1; }
    }

    method PutChar(ch: Byte)
      requires Valid(View())
      modifies this`x, data
      ensures View() == Typed(old(View()), ch)
      ensures forall k :: 0 <= k < data.Length ==>
        data[k] == if k == y * columns + old(x) then Cell(ch, attr) else old(data[k])
      ensures x == if old(x) + 1 < columns then old(x) + 1 else columns - 1
    {
      ghost var was := data[..];
      CellInside(View(), y, x);
      data[y * columns + x] := Cell(ch, attr);
      x := x + 1;
      if x >= columns { x := columns - 1; }
      assert data[..] == was[At(old(View()), y, old(x)) := Cell(ch, attr)];
    }

    /** A line on, with or without a scroll when the cursor is below the region. */
    method LineFeed(always: bool)
      requires Valid(View()) && !Overruns(View(), always)
      modifies this`y, data
      ensures View() == LineOn(old(View()), always)
    {
      hide ScrolledUp;
      if y + 1 >= bottom {
        if always || y + 1 == bottom { Scroll(top, true); }
      } else {
        y := y + 1;
      }
    }

    method ReverseLine()
      requires Valid(View())
      modifies this`y, data
      ensures View() == LineBack(old(View()))
    {
      hide ScrolledAtCursor;
      if y - 1 < top { ScrollAtCursor(false); } else { y := y - 1; }
    }

    /** Applies the attributes of a sequence one after the other. */
    method SetAttributes(es: seq<int>)
      modifies this`attr
      ensures attr == if es == [] then 0x07 else Shades(old(attr), es)
    {
      if es == [] { attr := 0x07; }
      var count := 0;
      ghost var first := attr;
      while count < |es|
        invariant 0 <= count <= |es| && attr == Shades(first, es[..count])
      {
        assert es[..count + 1][..count] == es[..count];
        attr := Shade(attr, es[count]);
        count := count + 1;
      }
      assert es[..|es|] == es;
    }

    method PlainByte(ch: Byte)
      requires Valid(View()) && !(ch == NEWLINE && Overruns(View(), false))
      modifies this, data
      ensures View() == PlainStep(old(View()), ch)
    {
      hide Typed, Cleared, LineOn;
      if ch == ESC { mode := Escape; }
      else if ch == 12 { ClearScreen(2); }
      else if ch == 13 { x := 0; }
      else if ch == NEWLINE { LineFeed(false); x := 0; }
      else if ch == 9 { Position(y, x + (8 - x % 8)); }
      else if ch == 8 { if x == 0 { x := columns - 1; } else { x := x - 1; } }
      else if ch != 0 { PutChar(ch); }
    }

    method EscapeByte(ch: Byte)
      requires Valid(View()) && !((ch == 68 || ch == 69) && Overruns(View(), true))
      modifies this, data
      ensures View() == EscapeStep(old(View()), ch)
    {
      hide LineOn, LineBack;
      if ch == 40 || ch == 41 { mode := Charset; return; }
      if ch == 91 { number, elements, reading, mode := 0, [], false, Control; return; }
      if ch == 55 { oldAttr, oldX, oldY := attr, x, y; }
      else if ch == 56 { attr := oldAttr; Position(y, x); }
      else if ch == 69 { x := 0; LineFeed(true); }
      else if ch == 68 { LineFeed(true); }
      else if ch == 77 { ReverseLine(); }
      if ch != 27 { mode := Plain; }
    }

    method MotionByte(ch: Byte, es: seq<int>)
      requires Valid(View())
      modifies this`x, this`y
      ensures View() == Motion(old(View()), ch, es)
    {
      var n := Param(es, 0, 1);
      if ch == 68 { Position(y, x - n); }
      else if ch == 97 || ch == 67 { Position(y, x + n); }
      else if ch == 65 { Position(y - n, x); }
      else if ch == 101 || ch == 66 { Position(y + n, x); }
      else if ch == 96 || ch == 71 { Position(y, Less1(n)); }
      else if ch == 69 { Position(y + n, 0); }
      else if ch == 70 { Position(y - n, 0); }
      else if ch == 100 { Position(Less1(n), x); }
      else if ch == 102 || ch == 72 { Position(Less1(n), Less1(Param(es, 1, 1))); }
      else { Position(oldY, oldX); }
    }

    method EditByte(ch: Byte, es: seq<int>)
      requires Valid(View()) && forall i :: 0 <= i < |es| ==> es[i] >= 0
      modifies this, data
      ensures View() == Edit(old(View()), ch, es)
    {
      hide Cleared, Lines, CharsDeleted, LineCleared, Shades;
      if ch == 74 { ClearScreen(Param(es, 0, 0)); }
      else if ch == 76 { ScrollLines(Param(es, 0, 1), false); }
      else if ch == 77 { ScrollLines(Param(es, 0, 1), true); }
      else if ch == 80 { DeleteChars(Param(es, 0, 1)); }
      else if ch == 75 { ClearLine(Param(es, 0, 0)); }
      else if ch == 115 { oldX, oldY := x, y; }
      else if ch == 114 { SetRegion(Param(es, 0, 1), Param(es, 1, rows), es); }
      else if ch == 109 { SetAttributes(es); }
    }

    method SetRegion(low: int, high: int, ghost es: seq<int>)
      requires low == Param(es, 0, 1) && high == Param(es, 1, rows)
      modifies this`top, this`bottom
      ensures top == RegionTop(old(View()), es) && bottom == RegionBottom(old(View()), es)
    {
      if low <= high {
        var first := low - 1;
        bottom := if high >= rows then rows else high;
        top := if first < 0 then 0 else first;
      }
    }

    method ControlByte(ch: Byte)
      requires Valid(View())
      modifies this, data
      ensures View() == ControlStep(old(View()), ch)
    {
      hide Motion, Edit;
      if Digit(ch) {
        number := number * 10 + (ch - 48);
        reading := true;
        return;
      }
      if reading || ch == 59 {
        if |elements| < MAX_ELEMENTS { elements := elements + [number]; }
        reading := false;
      }
      number := 0;
      if ch == 63 || ch == 59 { return; }
      if Moves(ch) { MotionByte(ch, elements); } else { EditByte(ch, elements); }
      mode := Plain;
    }

    /** One byte of input. */
    method Feed(ch: Byte)
      requires Valid(View()) && !OverrunBy(View(), ch)
      modifies this, data
      ensures Valid(View()) && View() == Step(old(View()), ch)
    {
      hide PlainStep, EscapeStep, ControlStep;
      StepValid(View(), ch);
      match mode
      case Plain => PlainByte(ch);
      case Escape => EscapeByte(ch);
      case Control => ControlByte(ch);
      case Charset => mode := Plain;
    }
  }
}
