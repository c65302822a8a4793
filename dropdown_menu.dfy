/**
 * The desktop dropdown menu: which top-level link's dropdown is open, and at
 * most one pending hover timeout that will open another dropdown or close the
 * open one. The timeout firing is the explicit step `Fire`.
 */
module DropdownMenu {
  import opened Wrappers

  /** What the pending timeout will do when it fires. */
  datatype PendingAction = OpenTo(linkId: string) | Close

  /** The dropdown open once `action` has run. */
  function Apply(action: PendingAction): (r: Option<string>)
    ensures r.Some? <==> action.OpenTo?
    ensures r.Some? ==> r.value == action.linkId
  {
    match action
    case OpenTo(id) => Some(id)
    case Close => None
  }

  class Menu {
    var openDropdown: Option<string>
    /** The callback behind `hoverTimeout`, while it has neither fired nor been cleared. */
    var pending: Option<PendingAction>

    constructor ()
      ensures openDropdown == None && pending == None
    {
      openDropdown := None;
      pending := None;
    }

    /** `openMenu(linkId)`: cancels the pending timeout and schedules opening `linkId`. */
    method OpenMenu(linkId: string)
      modifies this
      ensures openDropdown == old(openDropdown) && pending == Some(OpenTo(linkId))
    {
      pending := None;  // clearTimeout(hoverTimeout)
      pending := Some(OpenTo(linkId));
    }

    /** `closeMenu`: cancels the pending timeout and schedules closing. */
    method CloseMenu()
      modifies this
      ensures openDropdown == old(openDropdown) && pending == Some(Close)
    {
      pending := None;  // clearTimeout(hoverTimeout)
      pending := Some(Close);
    }

    /** `keepOpen`: cancels the pending timeout. */
    method KeepOpen()
      modifies this
      ensures openDropdown == old(openDropdown) && pending == None
    {
      pending := None;
    }

    /** `isOpen(linkId)`: reads the state and changes nothing. */
    method IsOpen(linkId: string) returns (b: bool)
      ensures b <==> openDropdown == Some(linkId)
    {
      b := openDropdown == Some(linkId);
    }

    /** `handleEscape`: closes at once and cancels the pending timeout. */
    method HandleEscape()
      modifies this
      ensures openDropdown == None && pending == None
    {
      openDropdown := None;
      pending := None;
    }

    /** The pending timeout fires and runs its callback; with none pending nothing happens. */
    method Fire()
      modifies this
      ensures pending == None
      ensures old(pending).Some? ==> openDropdown == Apply(old(pending).value)
      ensures old(pending).None? ==> openDropdown == old(openDropdown)
    {
      match pending
      case None =>
      case Some(action) =>
        openDropdown := Apply(action);
        pending := None;
    }
  }

  /** Escape wins over a hover: after it, a timeout firing cannot reopen the dropdown. */
  method EscapeThenFire(m: Menu, linkId: string)
    modifies m
    ensures m.openDropdown == None && m.pending == None
  {
    m.OpenMenu(linkId);
    m.HandleEscape();
    m.Fire();
  }

  /** Only the last hover counts: opening one link and then another opens the second. */
  method HoverTwice(m: Menu, first: string, second: string)
    modifies m
    ensures m.openDropdown == Some(second) && m.pending == None
  {
    m.OpenMenu(first);
    m.OpenMenu(second);
    m.Fire();
  }
}
