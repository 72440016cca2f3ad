/** The bottom-sheet navigation of components/mobile-nav.tsx: the same five
    links and highlighting rule as the desktop bar, and a sheet that every
    close button and link click shuts. */
module MobileNav {
  import MainNav

  /** The sheet's list is the desktop bar's, item for item. */
  const NavItems: seq<MainNav.NavItem> := MainNav.NavItems

  class Sheet {
    var open: bool

    constructor ()
      ensures !open
    {
      open := false;
    }

    /** `onOpenChange={setOpen}`: the trigger and the overlay set the state. */
    method OnOpenChange(value: bool)
      modifies this
      ensures open == value
    {
      open := value;
    }

    /** The close button. */
    method CloseClicked()
      modifies this
      ensures !open
    {
      open := false;
    }

    /** Following a link closes the sheet and reports which links the new
        path highlights (at most one). */
    method LinkClicked(i: nat) returns (newPath: string, highlighted: seq<bool>)
      requires i < |NavItems|
      modifies this
      ensures !open
      ensures newPath == NavItems[i].href
      ensures |highlighted| == |NavItems|
      ensures forall k :: 0 <= k < |NavItems| ==> highlighted[k] == MainNav.IsActive(newPath, NavItems[k].href)
      ensures forall k :: 0 <= k < |NavItems| ==> (highlighted[k] <==> k == i)
    {
      open := false;
      newPath := NavItems[i].href;
      highlighted := [];
      var k := 0;
      while k < |NavItems|
        invariant 0 <= k <= |NavItems| && |highlighted| == k
        invariant forall m :: 0 <= m < k ==> highlighted[m] == MainNav.IsActive(newPath, NavItems[m].href)
      {
        highlighted := highlighted + [MainNav.IsActive(newPath, NavItems[k].href)];
        k := k + 1;
      }
      MainNav.ActiveBelow(newPath, "");
      forall k | 0 <= k < |NavItems| && k != i
        ensures !highlighted[k]
      {
        MainNav.AtMostOneActive(newPath, k, i);
      }
    }
  }
}
