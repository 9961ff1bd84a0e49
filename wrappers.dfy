/** Small value types shared by every page model. */
module Wrappers {

  /** A value that may be absent: JavaScript's `null`/`undefined` next to a value. */
  datatype Option<T> = None | Some(value: T)

  /** A toast notification: `toast.success(text)` or `toast.error(text)`. */
  datatype Toast = ToastSuccess(text: string) | ToastError(text: string)

  /** The open-item toggle the pages use for comment boxes, share menus and post
      menus: `prev === id ? null : id`. Opening one item closes whichever was open. */
  function Toggle<T(==)>(prev: Option<T>, id: T): (r: Option<T>)
    ensures r == None <==> prev == Some(id)
    ensures r != None ==> r == Some(id)
  {
    if prev == Some(id) then None else Some(id)
  }

  /** From the closed state, or from the state where `id` is open, two toggles of the
      same id restore the state. */
  lemma ToggleTwice<T>(prev: Option<T>, id: T)
    requires prev == None || prev == Some(id)
    ensures Toggle(Toggle(prev, id), id) == prev
  {
  }
}
