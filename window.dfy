/** The scrolling rule of the on-screen menus, shared by both Menu classes
    (lib/menu.py, menu.py) and by the menu loop of main.py: a cursor line
    inside a window of `total` lines that starts `shift` items into the list.
    Moving down moves the cursor first and scrolls only at the last line;
    moving up is the mirror rule. */
module Window {

  datatype Cursor = Cursor(line: int, shift: int)

  function Max(a: int, b: int): int { if a < b then b else a }
  function Min(a: int, b: int): int { if a < b then a else b }

  /** Python's normalisation of one slice bound against a length n. */
  function SliceBound(i: int, n: nat): (r: nat)
    ensures r <= n
    ensures 0 <= i <= n ==> r == i
  {
    if i < 0 then Max(i + n, 0) else Min(i, n)
  }

  /** Python's `s[lo:hi]` (step 1), bounds clamped and negative bounds counted from the end. */
  function PySlice<T>(s: seq<T>, lo: int, hi: int): (r: seq<T>)
    ensures |r| <= |s|
    ensures 0 <= lo <= hi <= |s| ==> r == s[lo..hi]
    ensures 0 <= hi <= lo ==> r == []
    ensures 0 <= lo ==> forall k :: 0 <= k < |r| ==> lo + k < |s| && r[k] == s[lo + k]
  {
    var a := SliceBound(lo, |s|);
    var b := SliceBound(hi, |s|);
    if a < b then s[a..b] else []
  }

  /** The step taken by `next` (and by main.py on Up). */
  function Advance(c: Cursor, total: int, len: int): Cursor {
    if c.line < total then c.(line := c.line + 1)
    else if c.shift + total < len then c.(shift := c.shift + 1)
    else c
  }

  /** The step taken by `previous` (and by main.py on Down). */
  function Retreat(c: Cursor): Cursor {
    if c.line == 0 then c.(line := 1)
    else if c.line > 1 then c.(line := c.line - 1)
    else if c.shift > 0 then c.(shift := c.shift - 1)
    else c
  }

  /** The bounds the rule keeps: the cursor on a visible line and the window inside the list. */
  predicate InBounds(c: Cursor, total: int, len: int) {
    1 <= c.line <= Max(1, total) && 0 <= c.shift <= Max(0, len - total)
  }

  /** The position in the whole list of the item under the cursor. */
  function Selected(c: Cursor): int {
    c.shift + c.line - 1
  }

  /** The items on screen: `items[shift : shift + total]`. */
  function View<T>(items: seq<T>, c: Cursor, total: int): seq<T> {
    PySlice(items, c.shift, c.shift + total)
  }

  /** Advance never moves the cursor and the window together, and it
      scrolls only when the cursor already sits on the last line. */
  lemma {:induction false} AdvanceMovesOne(c: Cursor, total: int, len: int)
    ensures var d := Advance(c, total, len);
      (d.line == c.line + 1 && d.shift == c.shift && c.line < total) ||
      (d.line == c.line && d.shift == c.shift + 1 && c.line >= total && c.shift + total < len) ||
      (d == c && c.line >= total && c.shift + total >= len)
  {
  }

  /** Retreat never moves the cursor and the window together, and it scrolls
      back only when the cursor already sits on line 1. */
  lemma {:induction false} RetreatMovesOne(c: Cursor)
    ensures var d := Retreat(c);
      (c.line == 0 && d == Cursor(1, c.shift)) ||
      (d.line == c.line - 1 && d.shift == c.shift && c.line > 1) ||
      (d.line == c.line && d.shift == c.shift - 1 && c.line <= 1 && c.line != 0 && c.shift > 0) ||
      (d == c && c.line <= 1 && c.line != 0 && c.shift <= 0)
  {
  }

  /** With a window of at least one line, a cursor on line 0..total and a
      window inside the list, Advance lands in bounds. */
  lemma {:induction false} AdvanceInBounds(c: Cursor, total: int, len: int)
    requires total >= 1
    requires 0 <= c.line <= total
    requires 0 <= c.shift <= Max(0, len - total)
    ensures InBounds(Advance(c, total, len), total, len)
  {
  }

  /** The same for Retreat; in particular line 0 becomes line 1. */
  lemma {:induction false} RetreatInBounds(c: Cursor, total: int, len: int)
    requires total >= 1
    requires 0 <= c.line <= total
    requires 0 <= c.shift <= Max(0, len - total)
    ensures InBounds(Retreat(c), total, len)
    ensures c.line == 0 ==> Retreat(c).line == 1
  {
  }

  /** When the window fits the list, the item under the cursor is a valid index. */
  lemma {:induction false} SelectedIsIndex(c: Cursor, total: int, len: int)
    requires 1 <= total <= len
    requires InBounds(c, total, len)
    ensures 0 <= Selected(c) < len
  {
  }

  /** Seen through the selected index, Advance is a counter that stops at
      the last item and Retreat one that stops at the first. */
  lemma {:induction false} SelectedMoves(c: Cursor, total: int, len: int)
    requires 1 <= total <= len
    requires InBounds(c, total, len)
    ensures Selected(Advance(c, total, len)) == Min(Selected(c) + 1, len - 1)
    ensures Selected(Retreat(c)) == Max(Selected(c) - 1, 0)
  {
    SelectedIsIndex(c, total, len);
  }

  /** On screen there are exactly min(total, len) items, and entry k of the
      screen (counted from 0) is item shift + k of the list. */
  lemma {:induction false} ViewShape<T>(items: seq<T>, c: Cursor, total: int)
    requires total >= 0
    requires 0 <= c.shift <= Max(0, |items| - total)
    ensures |View(items, c, total)| == Min(total, |items|)
    ensures forall k :: 0 <= k < |View(items, c, total)| ==> View(items, c, total)[k] == items[c.shift + k]
  {
    if total <= |items| {
      assert View(items, c, total) == items[c.shift..c.shift + total];
    } else {
      assert c.shift == 0;
      assert View(items, c, total) == items[0..|items|];
    }
  }

  /** The line under the cursor shows the selected item. */
  lemma {:induction false} ViewShowsSelected<T>(items: seq<T>, c: Cursor, total: int)
    requires 1 <= total <= |items|
    requires InBounds(c, total, |items|)
    ensures c.line - 1 < |View(items, c, total)|
    ensures View(items, c, total)[c.line - 1] == items[Selected(c)]
  {
    ViewShape(items, c, total);
  }
}
