/** The Menu class of menu.py: the same window rule over a fixed list, with
    a menu level that is set to 1 and never changed by the class. */
module RootMenu {
  import opened Window

  class Menu {
    var currentLine: int
    var currentLevel: int
    var totalLines: int
    var menuList: seq<string>
    var shift: int

    /** What every method keeps: the window never starts before the list. */
    ghost predicate Valid()
      reads this
    {
      0 <= shift
    }

    /** The cursor on a visible line and the window inside the list. */
    ghost predicate Bounded()
      reads this
    {
      InBounds(Cursor(currentLine, shift), totalLines, |menuList|)
    }

    constructor (menuList: seq<string>, totalLines: int)
      ensures Valid() && Bounded()
      ensures currentLine == 1 && currentLevel == 1 && shift == 0
      ensures this.menuList == menuList && this.totalLines == totalLines
    {
      currentLine := 1;
      currentLevel := 1;
      this.totalLines := totalLines;
      this.menuList := menuList;
      shift := 0;
    }

    /** `show`: the visible part of the list. */
    function Show(): (view: seq<string>)
      reads this
      requires Valid()
      ensures totalLines >= 0 && shift <= Max(0, |menuList| - totalLines) ==> |view| == Min(totalLines, |menuList|)
      ensures forall k :: 0 <= k < |view| ==> shift + k < |menuList| && view[k] == menuList[shift + k]
    {
      var view := PySlice(menuList, shift, shift + totalLines);
      if totalLines >= 0 && shift <= Max(0, |menuList| - totalLines) then
        ViewShape(menuList, Cursor(currentLine, shift), totalLines);
        view
      else
        view
    }

    /** `next`: cursor first, then the window; the list and the level are untouched. */
    method Next() returns (view: seq<string>)
      requires Valid()
      modifies this`currentLine, this`shift
      ensures Valid()
      ensures Cursor(currentLine, shift) == Advance(old(Cursor(currentLine, shift)), totalLines, |menuList|)
      ensures old(Bounded()) ==> Bounded()
      ensures view == Show()
    {
      if currentLine < totalLines {
        currentLine := currentLine + 1;
      } else if shift + totalLines < |menuList| {
        shift := shift + 1;
      }
      view := PySlice(menuList, shift, shift + totalLines);
    }

    /** `previous`: cursor first, then the window; the list and the level are untouched. */
    method Previous() returns (view: seq<string>)
      requires Valid()
      modifies this`currentLine, this`shift
      ensures Valid()
      ensures Cursor(currentLine, shift) == Retreat(old(Cursor(currentLine, shift)))
      ensures old(Bounded()) ==> Bounded()
      ensures view == Show()
    {
      if currentLine == 0 {
        currentLine := 1;
      } else if currentLine > 1 {
        currentLine := currentLine - 1;
      } else if shift > 0 {
        shift := shift - 1;
      }
      view := PySlice(menuList, shift, shift + totalLines);
    }
  }
}
