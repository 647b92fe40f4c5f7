/** What a program sees of the terminal: the cells and the cursor after whole inputs, one law for each byte and
    control sequence that changes them. */
module TerminalLaws {
  import opened Vt100

  // ---------------------------------------------------------------- cells

  ghost predicate Within(v: Screen, y: int, x: int) {
    0 <= y < v.rows && 0 <= x < v.columns
  }

  ghost function Shown(v: Screen, y: int, x: int): Cell
    requires OnGrid(v) && Within(v, y, x)
  {
    CellInside(v, y, x);
    v.grid[At(v, y, x)]
  }

  /** Reading order: left to right, then down. */
  ghost predicate Before(y: int, x: int, y': int, x': int) {
    y < y' || (y == y' && x < x')
  }

  lemma StoredInOrder(v: Screen, y: int, x: int, y': int, x': int)
    requires 0 <= x < v.columns && 0 <= x' < v.columns
    ensures At(v, y, x) < At(v, y', x') <==> Before(y, x, y', x')
  {
    if y < y' {
      Monotone(y + 1, y', v.columns);
      assert (y + 1) * v.columns == y * v.columns + v.columns;
    } else if y' < y {
      Monotone(y' + 1, y, v.columns);
      assert (y' + 1) * v.columns == y' * v.columns + v.columns;
    }
  }

  // ---------------------------------------------------------------- printed text

  /** The bytes that are neither controls of the terminal nor ignored by it. */
  predicate Printable(ch: Byte) {
    ch != 0 && !(8 <= ch <= 10) && ch != 12 && ch != 13 && ch != ESC
  }

  /** A printed byte is shown where the cursor was, in the current colours; no other cell changes, and the cursor
      goes on one column or stays in the last. */
  lemma PrintsOne(v: Screen, ch: Byte, y: int, x: int)
    requires Valid(v) && v.mode == Plain && Printable(ch) && Within(v, y, x)
    ensures Legal(v, [ch])
    ensures var u := Fed(v, [ch]);
      && u == v.(grid := u.grid, x := if v.x + 1 < v.columns then v.x + 1 else v.columns - 1) && |u.grid| == |v.grid|
      && Shown(u, y, x) == if y == v.y && x == v.x then Cell(ch, v.attr) else Shown(v, y, x)
  {
    hide Step, Fed, Legal, Typed, Shown;
    PrintStep(v, ch);
    FedOne(v, ch);
    TypedCells(v, ch, y, x);
  }

  lemma TypedCells(v: Screen, ch: Byte, y: int, x: int)
    requires Valid(v) && Within(v, y, x)
    ensures var u := Typed(v, ch);
      && u == v.(grid := u.grid, x := if v.x + 1 < v.columns then v.x + 1 else v.columns - 1)
      && Shown(u, y, x) == if y == v.y && x == v.x then Cell(ch, v.attr) else Shown(v, y, x)
  {
    CellInside(v, y, x);
    CellInside(v, v.y, v.x);
    StoredInOrder(v, y, x, v.y, v.x);
    StoredInOrder(v, v.y, v.x, y, x);
  }

  lemma PrintStep(v: Screen, ch: Byte)
    requires Valid(v) && v.mode == Plain && Printable(ch)
    ensures !OverrunBy(v, ch) && Step(v, ch) == Typed(v, ch)
  {
    hide Typed, LineOn, Cleared, Moved;
  }

  /** Text that fits in the rest of the line is shown there as it was written, and nothing else changes. */
  lemma {:induction false} PrintsText(v: Screen, text: seq<Byte>, y: int, x: int)
    requires Valid(v) && v.mode == Plain && v.x + |text| <= v.columns && Within(v, y, x)
    requires forall i :: 0 <= i < |text| ==> Printable(text[i])
    ensures Legal(v, text)
    ensures var u := Fed(v, text);
      && u == v.(grid := u.grid, x := if v.x + |text| < v.columns then v.x + |text| else v.columns - 1)
      && |u.grid| == |v.grid|
      && Shown(u, y, x) ==
           if y == v.y && v.x <= x < v.x + |text| then Cell(text[x - v.x], v.attr) else Shown(v, y, x)
    decreases |text|
  {
    if text != [] {
      hide Step;
      PrintsOne(v, text[0], y, x);
      FedOne(v, text[0]);
      StepValid(v, text[0]);
      var w := Fed(v, [text[0]]);
      if |text| > 1 {
        PrintsText(w, text[1..], y, x);
      } else {
        assert text == [text[0]];
      }
    }
  }

  // ---------------------------------------------------------------- control sequences

  /** The bytes of a control sequence. */
  function Sequence(ps: seq<nat>, ch: Byte): seq<Byte> {
    if ps == [] then [ESC, 91, ch] else [ESC, 91] + Joined(ps) + [ch]
  }

  /** Nothing has changed but what the terminal remembers of the sequence. */
  ghost function Remembers(v: Screen, ps: seq<nat>): Screen {
    v.(number := 0, reading := false, elements := First16(ps))
  }

  lemma Reads(v: Screen, ps: seq<nat>, ch: Byte)
    requires Valid(v) && v.mode == Plain && !Digit(ch) && ch != 59 && ch != 63
    ensures Valid(Remembers(v, ps).(mode := Control)) && Legal(v, Sequence(ps, ch))
    ensures Fed(v, Sequence(ps, ch)) ==
      Command(Remembers(v, ps).(mode := Control), ch, First16(ps)).(mode := Plain)
  {
    hide Command, Fed, Legal, Joined;
    if ps == [] {
      ReadsBare(v, ch);
    } else {
      ReadsSequence(v, ps, ch);
    }
  }

  lemma ReadsBare(v: Screen, ch: Byte)
    requires Valid(v) && v.mode == Plain && !Digit(ch) && ch != 59 && ch != 63
    ensures Valid(Opened(v)) && Legal(v, [ESC, 91, ch])
    ensures Fed(v, [ESC, 91, ch]) == Command(Opened(v), ch, []).(mode := Plain)
  {
    hide Command, Fed, Legal;
    Opens(v);
    FedOne(Opened(v), ch);
    FedJoined(v, [ESC, 91], [ch]);
    assert [ESC, 91] + [ch] == [ESC, 91, ch];
  }

  /** The one parameter, or what stands for it when it is left out. */
  function Only(ps: seq<nat>, otherwise: nat): nat
    requires |ps| <= 1
  {
    if ps == [] then otherwise else ps[0]
  }

  /** A sequence that moves the cursor. */
  lemma ReadsMotion(v: Screen, ps: seq<nat>, ch: Byte)
    requires Valid(v) && v.mode == Plain && Moves(ch)
    ensures Legal(v, Sequence(ps, ch)) && Fed(v, Sequence(ps, ch)) == Motion(Remembers(v, ps), ch, First16(ps))
  {
    hide Fed, Legal, Edit, Sequence, Motion, First16;
    Reads(v, ps, ch);
    MotionAnyMode(Remembers(v, ps), ch, First16(ps));
  }

  lemma MotionAnyMode(v: Screen, ch: Byte, es: seq<int>)
    ensures Motion(v.(mode := Control), ch, es).(mode := v.mode) == Motion(v, ch, es)
  {
    hide Less1, Param, Moved;
    var w := v.(mode := Control);
    forall y, x ensures Moved(w, y, x).(mode := v.mode) == Moved(v, y, x) { MovedAnyMode(v, w, y, x); }
  }

  lemma MovedAnyMode(v: Screen, w: Screen, y: int, x: int)
    requires w == v.(mode := w.mode)
    ensures Moved(w, y, x).(mode := v.mode) == Moved(v, y, x)
  {
  }

  /** A takes the cursor up, B down, C right and D left, by one or by so many, and never off the grid. */
  lemma CursorBy(v: Screen, ps: seq<nat>, ch: Byte)
    requires Valid(v) && v.mode == Plain && |ps| <= 1 && 65 <= ch <= 68
    ensures Legal(v, Sequence(ps, ch))
    ensures var u, n := Fed(v, Sequence(ps, ch)), Only(ps, 1);
      && u == Remembers(v, ps).(x := u.x, y := u.y)
      && u.y == (if ch == 65 then (if v.y >= n then v.y - n else 0)
                 else if ch == 66 then (if v.y + n < v.rows then v.y + n else v.rows - 1) else v.y)
      && u.x == (if ch == 67 then (if v.x + n < v.columns then v.x + n else v.columns - 1)
                 else if ch == 68 then (if v.x >= n then v.x - n else 0) else v.x)
  {
    hide Fed, Legal, Sequence;
    ReadsMotion(v, ps, ch);
  }

  /** E and F go to the start of a line below or above, G to a column and d to a row, counted from one. */
  lemma CursorLine(v: Screen, ps: seq<nat>, ch: Byte)
    requires Valid(v) && v.mode == Plain && |ps| <= 1 && ch in [69, 70, 71, 100] && (ps != [] ==> ps[0] > 0)
    ensures Legal(v, Sequence(ps, ch))
    ensures var u, n := Fed(v, Sequence(ps, ch)), Only(ps, 1);
      && u == Remembers(v, ps).(x := u.x, y := u.y)
      && u.y == (if ch == 69 then (if v.y + n < v.rows then v.y + n else v.rows - 1)
                 else if ch == 70 then (if v.y >= n then v.y - n else 0)
                 else if ch == 100 then (if n <= v.rows then n - 1 else v.rows - 1) else v.y)
      && u.x == (if ch == 69 || ch == 70 then 0
                 else if ch == 71 then (if n <= v.columns then n - 1 else v.columns - 1) else v.x)
  {
    hide Fed, Legal, Sequence;
    ReadsMotion(v, ps, ch);
  }

  /** s and ESC 7 remember where the cursor is, and u takes it back there after any input that does not remember another
      place. */
  lemma CursorBack(v: Screen, save: seq<Byte>, input: seq<Byte>)
    requires Valid(v) && v.mode == Plain && (save == Sequence([], 115) || save == [ESC, 55]) && Legal(v, save)
    requires Valid(Fed(v, save)) && Legal(Fed(v, save), input)
    requires var s := Fed(v, save);
      var w := Fed(s, input);
      w.mode == Plain && w.oldX == s.oldX && w.oldY == s.oldY
    ensures var all := save + input + Sequence([], 117);
      Legal(v, all) && Fed(v, all).x == v.x && Fed(v, all).y == v.y
  {
    hide Fed, Legal, Sequence, Motion;
    var s, back := Fed(v, save), Sequence([], 117);
    Saves(v, save);
    FedJoined(v, save, input);
    EveryInput(v, save);
    EveryInput(s, input);
    GoesBack(Fed(s, input));
    FedJoined(v, save + input, back);
  }

  lemma Saves(v: Screen, save: seq<Byte>)
    requires Valid(v) && v.mode == Plain && (save == Sequence([], 115) || save == [ESC, 55]) && Legal(v, save)
    ensures Fed(v, save).oldX == v.x && Fed(v, save).oldY == v.y
  {
    hide Fed, Legal, Sequence, Motion;
    if save == [ESC, 55] { Escapes(v, 55); } else { Reads(v, [], 115); }
  }

  lemma GoesBack(v: Screen)
    requires Valid(v) && v.mode == Plain
    ensures Legal(v, Sequence([], 117)) && Fed(v, Sequence([], 117)) == Remembers(v, []).(x := v.oldX, y := v.oldY)
  {
    hide Fed, Legal, Sequence;
    ReadsMotion(v, [], 117);
  }

  /** e, a, ` and f are other names for B, C, G and H. */
  lemma OtherNames(v: Screen, ps: seq<nat>, ch: Byte, same: Byte)
    requires Valid(v) && v.mode == Plain
    requires (ch == 101 && same == 66) || (ch == 97 && same == 67)
      || (ch == 96 && same == 71) || (ch == 102 && same == 72)
    ensures Legal(v, Sequence(ps, ch)) && Legal(v, Sequence(ps, same))
    ensures Fed(v, Sequence(ps, ch)) == Fed(v, Sequence(ps, same))
  {
    hide Fed, Legal, Sequence, Moved, Param, Less1, Valid, Remembers, First16;
    ReadsMotion(v, ps, ch);
    ReadsMotion(v, ps, same);
  }

  /** ESC 7 remembers the colours, and ESC 8 sets them again after any input that does not remember others; it leaves
      the cursor where it is. */
  lemma ColoursBack(v: Screen, input: seq<Byte>)
    requires Valid(v) && v.mode == Plain && Legal(v, [ESC, 55])
    requires Valid(Fed(v, [ESC, 55])) && Legal(Fed(v, [ESC, 55]), input)
    requires var w := Fed(Fed(v, [ESC, 55]), input); w.mode == Plain && w.oldAttr == Fed(v, [ESC, 55]).oldAttr
    ensures var all := [ESC, 55] + input + [ESC, 56];
      Legal(v, all) && Fed(v, all) == Fed(Fed(v, [ESC, 55]), input).(attr := v.attr)
  {
    hide Fed, Legal;
    Escapes(v, 55);
    var s := Fed(v, [ESC, 55]);
    FedJoined(v, [ESC, 55], input);
    EveryInput(s, input);
    Escapes(Fed(s, input), 56);
    FedJoined(v, [ESC, 55] + input, [ESC, 56]);
  }

  /** A request for a character set is read and changes nothing. */
  lemma CharsetIgnored(v: Screen, which: Byte, name: Byte)
    requires Valid(v) && v.mode == Plain && (which == 40 || which == 41)
    ensures Legal(v, [ESC, which, name]) && Fed(v, [ESC, which, name]) == v
  {
    hide Fed, Legal;
    Escapes(v, which);
    var w := v.(mode := Charset);
    FedOne(w, name);
    FedJoined(v, [ESC, which], [name]);
    assert [ESC, which] + [name] == [ESC, which, name];
  }

  // ---------------------------------------------------------------- erasing

  /** J blanks, in the current colours, from the cursor on; with 1 up to the cursor; with 2 or more everything, and
      the cursor goes home. */
  lemma ErasesScreen(v: Screen, ps: seq<nat>, y: int, x: int)
    requires Valid(v) && v.mode == Plain && |ps| <= 1 && Within(v, y, x)
    ensures Legal(v, Sequence(ps, 74))
    ensures var u, how := Fed(v, Sequence(ps, 74)), Only(ps, 0);
      && u == Remembers(v, ps).(grid := u.grid, x := if how < 2 then v.x else 0, y := if how < 2 then v.y else 0)
      && |u.grid| == |v.grid|
      && Shown(u, y, x) ==
           if how >= 2 || (if how == 0 then !Before(y, x, v.y, v.x) else !Before(v.y, v.x, y, x)) then Cell(32, v.attr)
           else Shown(v, y, x)
  {
    hide Fed, Legal, Command, Sequence, Cleared, Before, Shown;
    Reads(v, ps, 74);
    var w := Remembers(v, ps).(mode := Control);
    ClearCommand(w, ps);
    ClearedCells(w, Only(ps, 0), y, x);
    SameCell(v, w, y, x);
    SameCell(Cleared(w, Only(ps, 0)), Fed(v, Sequence(ps, 74)), y, x);
  }

  lemma ClearCommand(v: Screen, ps: seq<nat>)
    requires Valid(v) && |ps| <= 1
    ensures Command(v, 74, First16(ps)) == Cleared(v, Only(ps, 0))
  {
    hide Cleared, Motion;
  }

  lemma SameCell(v: Screen, u: Screen, y: int, x: int)
    requires OnGrid(v) && Within(v, y, x) && u.grid == v.grid && u.rows == v.rows && u.columns == v.columns
    ensures Shown(u, y, x) == Shown(v, y, x)
  {
  }

  lemma ClearedCells(v: Screen, how: int, y: int, x: int)
    requires Valid(v) && how >= 0 && Within(v, y, x)
    ensures var u := Cleared(v, how);
      && u == v.(grid := u.grid, x := if how < 2 then v.x else 0, y := if how < 2 then v.y else 0)
      && Shown(u, y, x) ==
           if how >= 2 || (if how == 0 then !Before(y, x, v.y, v.x) else !Before(v.y, v.x, y, x)) then Cell(32, v.attr)
           else Shown(v, y, x)
  {
    CellInside(v, y, x);
    CellInside(v, v.y, v.x);
    StoredInOrder(v, y, x, v.y, v.x);
    StoredInOrder(v, v.y, v.x, y, x);
    assert At(v, v.rows - 1, v.columns) == |v.grid|;
  }

  /** K does the same within the cursor's line, and leaves the cursor. */
  lemma ErasesLine(v: Screen, ps: seq<nat>, y: int, x: int)
    requires Valid(v) && v.mode == Plain && |ps| <= 1 && Within(v, y, x)
    ensures Legal(v, Sequence(ps, 75))
    ensures var u, how := Fed(v, Sequence(ps, 75)), Only(ps, 0);
      && u == Remembers(v, ps).(grid := u.grid) && |u.grid| == |v.grid|
      && Shown(u, y, x) ==
           if y == v.y && (how >= 2 || (if how == 0 then v.x <= x else x <= v.x)) then Cell(32, v.attr)
           else Shown(v, y, x)
  {
    hide Fed, Legal, Motion, Sequence, LineCleared, Shown;
    Reads(v, ps, 75);
    var w := Remembers(v, ps).(mode := Control);
    LineClearedCells(w, Only(ps, 0), y, x);
    SameCell(v, w, y, x);
    SameCell(LineCleared(w, Only(ps, 0)), Fed(v, Sequence(ps, 75)), y, x);
  }

  lemma LineClearedCells(v: Screen, how: int, y: int, x: int)
    requires Valid(v) && how >= 0 && Within(v, y, x)
    ensures var u := LineCleared(v, how);
      && u == v.(grid := u.grid)
      && Shown(u, y, x) ==
           if y == v.y && (how >= 2 || (if how == 0 then v.x <= x else x <= v.x)) then Cell(32, v.attr)
           else Shown(v, y, x)
  {
    CellInside(v, y, x);
    CellInside(v, v.y, v.x);
    StoredInOrder(v, y, x, v.y, v.x);
    StoredInOrder(v, v.y, v.x, y, x);
    StoredInOrder(v, y, x, v.y, 0);
    StoredInOrder(v, v.y, v.columns - 1, y, x);
  }

  /** P closes a gap of one or so many characters at the cursor: the rest of the line comes back, blanks follow. */
  lemma DeletesChars(v: Screen, ps: seq<nat>, y: int, x: int)
    requires Valid(v) && v.mode == Plain && |ps| <= 1 && Within(v, y, x)
    ensures Legal(v, Sequence(ps, 80))
    ensures var u, n := Fed(v, Sequence(ps, 80)), Only(ps, 1);
      && u == Remembers(v, ps).(grid := u.grid) && |u.grid| == |v.grid|
      && Shown(u, y, x) ==
           if y != v.y || x < v.x then Shown(v, y, x)
           else if x + n < v.columns then Shown(v, y, x + n) else Cell(32, v.attr)
  {
    hide Fed, Legal, Command, Sequence, CharsDeleted, Shown;
    Reads(v, ps, 80);
    var w, n := Remembers(v, ps).(mode := Control), Only(ps, 1);
    DeleteCommand(w, ps);
    DeletedCells(w, n, y, x);
    SameCell(v, w, y, x);
    if x + n < v.columns { SameCell(v, w, y, x + n); }
    SameCell(CharsDeleted(w, n), Fed(v, Sequence(ps, 80)), y, x);
  }

  lemma DeleteCommand(v: Screen, ps: seq<nat>)
    requires Valid(v) && |ps| <= 1
    ensures Command(v, 80, First16(ps)) == CharsDeleted(v, Only(ps, 1))
  {
    hide CharsDeleted, Motion;
  }

  lemma DeletedCells(v: Screen, n: nat, y: int, x: int)
    requires Valid(v) && Within(v, y, x)
    ensures var u := CharsDeleted(v, n);
      && u == v.(grid := u.grid)
      && Shown(u, y, x) ==
           if y != v.y || x < v.x then Shown(v, y, x)
           else if x + n < v.columns then Shown(v, y, x + n) else Cell(32, v.attr)
  {
    CellInside(v, y, x);
    CellInside(v, v.y, v.x);
    StoredInOrder(v, y, x, v.y, v.x);
    StoredInOrder(v, v.y, v.columns - 1, y, x);
    assert At(v, v.y, v.columns) == At(v, v.y, v.columns - 1) + 1 && At(v, y, x) + n == At(v, y, x + n);
  }

  // ---------------------------------------------------------------- lines

  /** L puts blank lines in at the cursor and M takes lines out, one or so many, within the rest of the region; when
      the cursor is outside the region nothing changes. */
  lemma MovesLines(v: Screen, ps: seq<nat>, ch: Byte, r: int)
    requires Valid(v) && v.mode == Plain && |ps| <= 1 && (ch == 76 || ch == 77) && 0 <= r < v.rows
    ensures Legal(v, Sequence(ps, ch))
    ensures var u, n := Fed(v, Sequence(ps, ch)), Only(ps, 1);
      && u == Remembers(v, ps).(grid := u.grid) && |u.grid| == |v.grid|
      && Row(u, r) ==
           if !(v.top <= v.y <= r < v.bottom) then Row(v, r)
           else if ch == 76 then (if v.y <= r - n then Row(v, r - n) else BlankRow(v))
           else if r + n < v.bottom then Row(v, r + n) else BlankRow(v)
  {
    hide Fed, Legal, Command, Sequence, Lines, Row;
    Reads(v, ps, ch);
    var w, n := Remembers(v, ps).(mode := Control), Only(ps, 1);
    LinesCommand(w, ps, ch);
    SameRows(Lines(w, n, ch == 77), Fed(v, Sequence(ps, ch)), r);
    SameRows(v, w, r);
    if 0 <= r - n { SameRows(v, w, r - n); }
    if r + n < v.rows { SameRows(v, w, r + n); }
    if v.top <= v.y < v.bottom {
      if ch == 76 { LinesIn(w, n, r); } else { LinesOut(w, n, r); }
    } else {
      LinesStay(w, n, ch == 77);
    }
  }

  lemma LinesCommand(v: Screen, ps: seq<nat>, ch: Byte)
    requires Valid(v) && |ps| <= 1 && (ch == 76 || ch == 77)
    ensures Command(v, ch, First16(ps)) == Lines(v, Only(ps, 1), ch == 77)
  {
    hide Lines, Motion;
  }

  lemma {:induction false} LinesStay(v: Screen, n: nat, up: bool)
    requires Valid(v) && !(v.top <= v.y < v.bottom)
    ensures Lines(v, n, up) == v
    decreases n
  {
    if n > 0 { LinesStay(v, n - 1, up); }
  }

  /** A line feed goes to the start of the next line.  On the last line of the region the region's rows come up by
      one and the cursor stays in its row; on or below the line after the region it stays too, and nothing moves. */
  lemma FeedsLine(v: Screen, r: int)
    requires Valid(v) && v.mode == Plain && !OverrunBy(v, NEWLINE) && 0 <= r < v.rows
    ensures Legal(v, [NEWLINE])
    ensures var u := Fed(v, [NEWLINE]);
      && u == v.(grid := u.grid, x := 0, y := if v.y + 1 < v.bottom then v.y + 1 else v.y) && |u.grid| == |v.grid|
      && Row(u, r) ==
           if v.y + 1 == v.bottom && v.top <= r < v.bottom then
             (if r + 1 < v.bottom then Row(v, r + 1) else BlankRow(v))
           else Row(v, r)
  {
    hide LineOn, Row;
    FedOne(v, NEWLINE);
    LineOnRows(v, false, r);
    SameRows(LineOn(v, false), Fed(v, [NEWLINE]), r);
  }

  lemma LineOnRows(v: Screen, always: bool, r: int)
    requires Valid(v) && !Overruns(v, always) && 0 <= r < v.rows
    ensures var u := LineOn(v, always);
      && u == v.(grid := u.grid, y := if v.y + 1 < v.bottom then v.y + 1 else v.y)
      && Row(u, r) ==
           if Scrolls(v, always) && v.top <= r < v.bottom then
             (if r + 1 < v.bottom then Row(v, r + 1) else BlankRow(v))
           else Row(v, r)
  {
    hide ScrolledUp;
    if Scrolls(v, always) { ScrolledUpRows(v, v.top, r); }
  }

  lemma LineBackRows(v: Screen, r: int)
    requires Valid(v) && 0 <= r < v.rows
    ensures var u := LineBack(v);
      && u == v.(grid := u.grid, y := if v.top < v.y then v.y - 1 else v.y)
      && Row(u, r) ==
           if v.y == v.top && v.top <= r < v.bottom then (if v.top < r then Row(v, r - 1) else BlankRow(v))
           else Row(v, r)
  {
    hide ScrolledDown;
    if v.top <= v.y < v.bottom { ScrolledDownRows(v, v.y, r); }
  }

  lemma SameRows(v: Screen, u: Screen, r: int)
    requires OnGrid(v) && u.grid == v.grid && u.rows == v.rows && u.columns == v.columns && 0 <= r < v.rows
    ensures Row(u, r) == Row(v, r)
  {
  }

  /** ESC D goes a line down in the same column, and ESC E to its start; they also scroll from below the region. */
  lemma Indexes(v: Screen, ch: Byte, r: int)
    requires Valid(v) && v.mode == Plain && (ch == 68 || ch == 69) && !Overruns(v, true) && 0 <= r < v.rows
    ensures Legal(v, [ESC, ch])
    ensures var u := Fed(v, [ESC, ch]);
      && u == v.(grid := u.grid, x := if ch == 68 then v.x else 0, y := if v.y + 1 < v.bottom then v.y + 1 else v.y)
      && |u.grid| == |v.grid|
      && Row(u, r) ==
           if v.bottom <= v.y + 1 && v.top <= r < v.bottom then
             (if r + 1 < v.bottom then Row(v, r + 1) else BlankRow(v))
           else Row(v, r)
  {
    hide LineOn, Row, Fed, Legal, EscapeStep;
    Escapes(v, ch);
    EscapedLine(v.(mode := Escape), ch);
    Indexed(v, v.(mode := Escape, x := if ch == 68 then v.x else 0), Fed(v, [ESC, ch]), r);
  }

  lemma Indexed(v: Screen, w: Screen, u: Screen, r: int)
    requires Valid(v) && 0 <= r < v.rows && !Overruns(v, true) && Valid(w) && w == v.(mode := w.mode, x := w.x)
    requires !Overruns(w, true) && u == LineOn(w, true).(mode := Plain)
    ensures u == v.(grid := u.grid, mode := Plain, x := w.x, y := if v.y + 1 < v.bottom then v.y + 1 else v.y)
    ensures OnGrid(u) && Row(u, r) ==
      if v.bottom <= v.y + 1 && v.top <= r < v.bottom then
        (if r + 1 < v.bottom then Row(v, r + 1) else BlankRow(v))
      else Row(v, r)
  {
    hide LineOn, Row;
    LineOnRows(w, true, r);
    SameRows(LineOn(w, true), u, r);
    SameRows(v, w, r);
    if r + 1 < v.rows { SameRows(v, w, r + 1); }
  }

  /** ESC M goes a line up; from the first line of the region the region's rows go down by one. */
  lemma IndexesBack(v: Screen, r: int)
    requires Valid(v) && v.mode == Plain && 0 <= r < v.rows
    ensures Legal(v, [ESC, 77])
    ensures var u := Fed(v, [ESC, 77]);
      && u == v.(grid := u.grid, y := if v.top < v.y then v.y - 1 else v.y) && |u.grid| == |v.grid|
      && Row(u, r) ==
           if v.y == v.top && v.top <= r < v.bottom then (if v.top < r then Row(v, r - 1) else BlankRow(v))
           else Row(v, r)
  {
    hide LineBack, Row, Fed, Legal, EscapeStep;
    Escapes(v, 77);
    EscapedLine(v.(mode := Escape), 77);
    IndexedBack(v, v.(mode := Escape), Fed(v, [ESC, 77]), r);
  }

  lemma IndexedBack(v: Screen, w: Screen, u: Screen, r: int)
    requires Valid(v) && 0 <= r < v.rows && Valid(w) && w == v.(mode := w.mode) && u == LineBack(w).(mode := Plain)
    ensures u == v.(grid := u.grid, mode := Plain, y := if v.top < v.y then v.y - 1 else v.y) && OnGrid(u)
    ensures Row(u, r) ==
      if v.y == v.top && v.top <= r < v.bottom then (if v.top < r then Row(v, r - 1) else BlankRow(v)) else Row(v, r)
  {
    hide LineBack, Row;
    LineBackRows(w, r);
    SameRows(LineBack(w), u, r);
    SameRows(v, w, r);
    if 0 < r { SameRows(v, w, r - 1); }
  }

  lemma EscapedLine(v: Screen, ch: Byte)
    requires Valid(v) && (ch == 77 || ((ch == 68 || ch == 69) && !Overruns(v, true)))
    ensures EscapeStep(v, ch) ==
      (if ch == 77 then LineBack(v) else LineOn(if ch == 68 then v else v.(x := 0), true)).(mode := Plain)
  {
    hide LineOn, LineBack;
  }

  lemma Escapes(v: Screen, ch: Byte)
    requires Valid(v) && v.mode == Plain && !OverrunBy(v.(mode := Escape), ch)
    ensures Valid(v.(mode := Escape)) && Legal(v, [ESC, ch])
    ensures Fed(v, [ESC, ch]) == EscapeStep(v.(mode := Escape), ch)
  {
    hide EscapeStep;
    FedOne(v, ESC);
    FedOne(v.(mode := Escape), ch);
    FedJoined(v, [ESC], [ch]);
    assert [ESC] + [ch] == [ESC, ch];
  }

  /** Carriage return, backspace, which goes round to the last column, tab and the byte that is ignored. */
  lemma MovesInLine(v: Screen, ch: Byte)
    requires Valid(v) && v.mode == Plain && ch in [0, 8, 9, 13]
    ensures Legal(v, [ch])
    ensures var stop := (v.x / 8 + 1) * 8;
      Fed(v, [ch]) == v.(x := if ch == 13 then 0
                              else if ch == 8 then (if v.x == 0 then v.columns - 1 else v.x - 1)
                              else if ch == 9 then (if stop < v.columns then stop else v.columns - 1)
                              else v.x)
  {
    FedOne(v, ch);
  }

  /** A form feed blanks everything and takes the cursor home. */
  lemma FeedsForm(v: Screen, y: int, x: int)
    requires Valid(v) && v.mode == Plain && Within(v, y, x)
    ensures Legal(v, [12])
    ensures var u := Fed(v, [12]);
      u == v.(grid := u.grid, x := 0, y := 0) && |u.grid| == |v.grid| && Shown(u, y, x) == Cell(32, v.attr)
  {
    hide Cleared;
    FedOne(v, 12);
    ClearedCells(v, 2, y, x);
  }

  /** r sets the region to the rows asked for, counted from one, as far as the screen has them; to all rows when it
      is given none; and not at all when the first is below the last. */
  lemma SetsRegion(v: Screen, ps: seq<nat>, r: int)
    requires Valid(v) && v.mode == Plain && |ps| in [0, 2] && 0 <= r < v.rows
    ensures Legal(v, Sequence(ps, 114))
    ensures var u := Fed(v, Sequence(ps, 114));
      && u == Remembers(v, ps).(top := u.top, bottom := u.bottom)
      && (ps == [] ==> u.top == 0 && u.bottom == v.rows)
      && (ps != [] && ps[0] > ps[1] ==> u.top == v.top && u.bottom == v.bottom)
      && (ps != [] && ps[0] <= ps[1] ==> (u.top <= r < u.bottom <==> ps[0] <= r + 1 <= ps[1]))
  {
    hide Fed, Legal, Motion, Sequence;
    Reads(v, ps, 114);
  }

  // ---------------------------------------------------------------- colours

  /** 3x sets the three bits of the character's colour and 4x those of the background, each leaving the other bits. */
  lemma ColourBits(attr: bv8, k: int)
    requires 0 <= k < 8
    ensures var a := Shade(attr, 30 + k); a & 0x07 == k as bv8 && a & 0xF8 == attr & 0xF8
    ensures var a := Shade(attr, 40 + k); (a >> 4) & 0x07 == k as bv8 && a & 0x8F == attr & 0x8F
  {
    ThreeBits(attr, k);
  }

  /** 1 and 22 set and clear the bright bit, and 5 and 25 the blink bit, leaving the others; 0 and 7 set all bits, and
      every number without a meaning is ignored. */
  lemma OtherBits(attr: bv8, n: nat)
    requires !(30 <= n <= 37) && !(40 <= n <= 47)
    ensures var a := Shade(attr, n);
      if n == 1 then a & 0x08 == 0x08 && a & 0xF7 == attr & 0xF7
      else if n == 21 || n == 22 then a & 0x08 == 0 && a & 0xF7 == attr & 0xF7
      else if n == 5 then a & 0x80 == 0x80 && a & 0x7F == attr & 0x7F
      else if n == 25 then a & 0x80 == 0 && a & 0x7F == attr & 0x7F
      else a == if n == 0 || n == 27 then 0x07 else if n == 7 then 0x70 else attr
  {
    if n == 1 || n == 5 || n == 21 || n == 22 || n == 25 { OneBit(attr); }
  }

  lemma ThreeBits(attr: bv8, k: int)
    requires 0 <= k < 8
    ensures var b := k as bv8;
      && ((attr & 0xF8) | b) & 0x07 == b && ((attr & 0xF8) | b) & 0xF8 == attr & 0xF8
      && (((attr & 0x8F) | (b << 4)) >> 4) & 0x07 == b && ((attr & 0x8F) | (b << 4)) & 0x8F == attr & 0x8F
  {
    var b := k as bv8;
    assert b <= 7 by { assert k in [0, 1, 2, 3, 4, 5, 6, 7]; }
    LowBits(attr, b);
  }

  lemma LowBits(attr: bv8, b: bv8)
    requires b <= 7
    ensures ((attr & 0xF8) | b) & 0x07 == b && ((attr & 0xF8) | b) & 0xF8 == attr & 0xF8
    ensures (((attr & 0x8F) | (b << 4)) >> 4) & 0x07 == b && ((attr & 0x8F) | (b << 4)) & 0x8F == attr & 0x8F
  {
  }

  lemma OneBit(attr: bv8)
    ensures (attr | 0x08) & 0x08 == 0x08 && (attr | 0x08) & 0xF7 == attr & 0xF7
    ensures (attr & 0xF7) & 0x08 == 0 && (attr & 0xF7) & 0xF7 == attr & 0xF7
    ensures (attr | 0x80) & 0x80 == 0x80 && (attr | 0x80) & 0x7F == attr & 0x7F
    ensures (attr & 0x7F) & 0x80 == 0 && (attr & 0x7F) & 0x7F == attr & 0x7F
  {
  }

  /** Attributes given together do what they do given one after the other. */
  lemma {:induction false} ShadesInTurn(attr: bv8, es: seq<int>, fs: seq<int>)
    ensures Shades(attr, es + fs) == Shades(Shades(attr, es), fs)
    decreases |fs|
  {
    if fs == [] {
      assert es + fs == es;
    } else {
      assert (es + fs)[..|es + fs| - 1] == es + fs[..|fs| - 1];
      ShadesInTurn(attr, es, fs[..|fs| - 1]);
    }
  }

  /** m applies the attributes it is given from left to right, the first sixteen; with none it resets them. */
  lemma Paints(v: Screen, ps: seq<nat>)
    requires Valid(v) && v.mode == Plain
    ensures Legal(v, Sequence(ps, 109))
    ensures Fed(v, Sequence(ps, 109)) ==
      Remembers(v, ps).(attr := if ps == [] then 0x07 else Shades(v.attr, First16(ps)))
  {
    hide Fed, Legal, Motion, Sequence, Shades;
    Reads(v, ps, 109);
  }

  /** Text after a sequence that sets both colours is shown in them. */
  lemma PaintedText(v: Screen, k: int, b: int, ch: Byte)
    requires Valid(v) && v.mode == Plain && 0 <= k < 8 && 0 <= b < 8 && Printable(ch)
    ensures var input := Sequence([30 + k, 40 + b], 109) + [ch];
      && Legal(v, input) && OnGrid(Fed(v, input)) && Fed(v, input).columns == v.columns && Fed(v, input).rows == v.rows
      && var c := Shown(Fed(v, input), v.y, v.x);
         && c.ch == ch && c.attr & 0x07 == k as bv8 && (c.attr >> 4) & 0x07 == b as bv8
         && c.attr & 0x88 == v.attr & 0x88
  {
    hide Fed, Legal, Sequence, Shades, Shade;
    var paint := Sequence([30 + k, 40 + b], 109);
    Paints(v, [30 + k, 40 + b]);
    EveryInput(v, paint);
    var w := Fed(v, paint);
    PrintsOne(w, ch, v.y, v.x);
    FedJoined(v, paint, [ch]);
    BothColours(v.attr, k, b);
  }

  lemma BothColours(attr: bv8, k: int, b: int)
    requires 0 <= k < 8 && 0 <= b < 8
    ensures First16([30 + k, 40 + b]) == [30 + k, 40 + b]
    ensures var a := Shades(attr, [30 + k, 40 + b]);
      a & 0x07 == k as bv8 && (a >> 4) & 0x07 == b as bv8 && a & 0x88 == attr & 0x88
  {
    hide Shade;
    var es := [30 + k, 40 + b];
    assert es[..1] == [30 + k] && [30 + k][..0] == [] && Shades(attr, []) == attr;
    assert Shades(attr, [30 + k]) == Shade(attr, 30 + k);
    ColourBits(attr, k);
    ColourBits(Shade(attr, 30 + k), b);
    Masks(attr, Shade(attr, 30 + k), Shades(attr, es));
  }

  lemma Masks(a: bv8, b: bv8, c: bv8)
    requires a & 0xF8 == b & 0xF8 && b & 0x8F == c & 0x8F
    ensures c & 0x07 == b & 0x07 && c & 0x88 == a & 0x88
  {
  }
}
