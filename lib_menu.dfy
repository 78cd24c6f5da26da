/** The Menu class of lib/menu.py: a list of items seen through a window of
    `totalLines` lines, with a cursor line and a scroll offset. */
module LibMenu {
  import opened Window

  class Menu {
    var currentLine: int
    var totalLines: int
    var items: seq<string>
    var shift: int

    /** What every method keeps: the window never starts before the list.
        (The fields are public in Python, so the cursor line itself is not
        constrained here; `previous` even handles line 0.) */
    ghost predicate Valid()
      reads this
    {
      0 <= shift
    }

    /** The bounds that `next`/`previous` keep (`update` may break the
        second one by shortening the list). */
    ghost predicate Bounded()
      reads this
    {
      InBounds(Cursor(currentLine, shift), totalLines, |items|)
    }

    constructor (menuList: seq<string>, totalLines: int)
      ensures Valid() && Bounded()
      ensures currentLine == 1 && shift == 0
      ensures items == menuList && this.totalLines == totalLines
    {
      currentLine := 1;
      this.totalLines := totalLines;
      items := menuList;
      shift := 0;
    }

    /** `show`: the visible part of the list. */
    function Show(): (view: seq<string>)
      reads this
      requires Valid()
      ensures totalLines >= 0 && shift <= Max(0, |items| - totalLines) ==> |view| == Min(totalLines, |items|)
      ensures forall k :: 0 <= k < |view| ==> shift + k < |items| && view[k] == items[shift + k]
    {
      var view := PySlice(items, shift, shift + totalLines);
      if totalLines >= 0 && shift <= Max(0, |items| - totalLines) then
        ViewShape(items, Cursor(currentLine, shift), totalLines);
        view
      else
        view
    }

    /** `update` replaces the list and keeps the cursor and the offset. */
    method Update(menuList: seq<string>)
      requires Valid()
      modifies this`items
      ensures Valid()
      ensures items == menuList
    {
      items := menuList;
    }

    /** `next`: one step down by the window rule; returns the new view. */
    method Next() returns (view: seq<string>)
      requires Valid()
      modifies this`currentLine, this`shift
      ensures Valid()
      ensures Cursor(currentLine, shift) == Advance(old(Cursor(currentLine, shift)), totalLines, |items|)
      ensures old(Bounded()) ==> Bounded()
      ensures view == Show()
    {
      if currentLine < totalLines {
        currentLine := currentLine + 1;
      } else if shift + totalLines < |items| {
        shift := shift + 1;
      }
      view := PySlice(items, shift, shift + totalLines);
    }

    /** `previous`: one step up by the window rule; returns the new view. */
    method Previous() returns (view: seq<string>)
      requires Valid()
      modifies this`currentLine, this`shift
      ensures Valid()
      ensures Cursor(currentLine, shift) == Retreat(old(Cursor(currentLine, shift)))
      ensures old(Bounded()) ==> Bounded()
      ensures view == Show()
    {
      if currentLine == 0 {
        currentLine := 1;
      } else if currentLine > 1 {
        currentLine := currentLine - 1;
      } else if shift > 0 {
        shift := shift - 1;
      }
      view := PySlice(items, shift, shift + totalLines);
    }
  }
}
