/** The modal provider: at most one modal at a time, shown over the page while open. */
module Modals {
  import opened Shared

  /** What the overlay renders: nothing, or the wrapper and backdrop with the content element
      (`None` when the content is not a valid element). */
  datatype Overlay<C> = Hidden | Shown(element: Option<C>)

  /** The three state cells of the provider, for modal content of type `C`. */
  class ModalStore<C(==)> {
    var isOpen: bool
    var content: Option<C>
    var modalKey: Option<string>

    /** Initially closed, with no content and no key. */
    constructor ()
      ensures !isOpen && content == None && modalKey == None
    {
      isOpen, content, modalKey := false, None, None;
    }

    /** `handlePresent(c, key)`: opens with `c`, replacing whatever was shown, under `key`
        (`None` when the caller gives no key). */
    method Present(c: C, key: Option<string>)
      modifies this
      ensures isOpen && content == Some(c) && modalKey == key
    {
      modalKey := key;
      content := Some(c);
      isOpen := true;
    }

    /** `handleDismiss`, also what a click on the backdrop runs: closes and drops the content; the
        key is kept. */
    method Dismiss()
      modifies this
      ensures !isOpen && content == None && modalKey == old(modalKey)
    {
      content := None;
      isOpen := false;
    }

    /** The rendered overlay: shown exactly while open, with the content when `isElement` (React's
        `isValidElement`) accepts it. */
    function View(isElement: C -> bool): (r: Overlay<C>)
      reads this
      ensures r.Shown? <==> isOpen
      ensures r.Shown? && r.element.Some? ==> content == r.element && isElement(r.element.value)
      ensures r.Shown? && content.Some? && isElement(content.value) ==> r.element == content
    {
      if !isOpen then Hidden
      else Shown(if content.Some? && isElement(content.value) then content else None)
    }
  }

  /** Presenting, dismissing, then presenting again under no key: the second modal is shown and
      the first one's key does not survive. */
  method PresentDismissPresent<C(==)>(first: C, second: C, key: string, isElement: C -> bool)
    returns (view: Overlay<C>, keyAfter: Option<string>)
    requires isElement(second)
    ensures view == Shown(Some(second)) && keyAfter == None
  {
    var m := new ModalStore<C>();
    m.Present(first, Some(key));
    m.Dismiss();
    assert m.modalKey == Some(key) && m.View(isElement) == Hidden;
    m.Present(second, None);
    view, keyAfter := m.View(isElement), m.modalKey;
  }
}
