/** The collapsible section: one open/closed flag per instance, started
    from `defaultOpen` and flipped by every click on its header. */
module Accordion {

  /** Whether a section that started at `defaultOpen` is open after `clicks`
      clicks. */
  function OpenAfter(defaultOpen: bool, clicks: nat): bool {
    if clicks == 0 then defaultOpen else !OpenAfter(defaultOpen, clicks - 1)
  }

  /** A section is open exactly when it started open and was clicked an even
      number of times, or started closed and was clicked an odd number of times. */
  lemma {:induction false} OpenAfterParity(defaultOpen: bool, clicks: nat)
    ensures OpenAfter(defaultOpen, clicks) <==> (defaultOpen <==> clicks % 2 == 0)
  {
    if clicks > 0 {
      OpenAfterParity(defaultOpen, clicks - 1);
    }
  }

  /** Two clicks restore the section. */
  lemma TwoClicksRestore(defaultOpen: bool, clicks: nat)
    ensures OpenAfter(defaultOpen, clicks + 2) == OpenAfter(defaultOpen, clicks)
  {
  }

  class Section {
    var isOpen: bool
    ghost const defaultOpen: bool
    ghost var clicks: nat

    ghost predicate Valid()
      reads this
    {
      isOpen == OpenAfter(defaultOpen, clicks)
    }

    /** `useState(defaultOpen)`, the prop defaulting to closed. */
    constructor (defaultOpen: bool := false)
      ensures Valid() && this.defaultOpen == defaultOpen && clicks == 0
      ensures isOpen == defaultOpen
    {
      this.defaultOpen := defaultOpen;
      isOpen := defaultOpen;
      clicks := 0;
    }

    /** The header's click handler: `setIsOpen(!isOpen)`. */
    method Toggle()
      requires Valid()
      modifies this
      ensures Valid() && clicks == old(clicks) + 1
      ensures isOpen == !old(isOpen)
    {
      isOpen := !isOpen;
      clicks := clicks + 1;
    }
  }

  /** Clicking one section leaves every other section as it was. */
  method ToggleOne(clicked: Section, other: Section)
    requires clicked != other && clicked.Valid() && other.Valid()
    modifies clicked
    ensures clicked.Valid() && clicked.isOpen == !old(clicked.isOpen)
    ensures other.Valid() && other.isOpen == old(other.isOpen)
  {
    clicked.Toggle();
  }
}
