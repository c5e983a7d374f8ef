/** Types shared by every view: an optional value, and the calls a view makes
    on the notification and navigation services, which the model records in
    order instead of performing. */
module Shared {

  datatype Option<T> = None | Some(value: T) {
    predicate IsFailure() { None? }

    function PropagateFailure<U>(): Option<U>
      requires None?
    {
      None
    }

    function Extract(): T
      requires Some?
    {
      value
    }
  }

  /** One call on an outside service: a toast with its title, description and
      whether it used the "destructive" variant, or a navigation to a path. */
  datatype Effect =
    | Toast(title: string, description: string, destructive: bool)
    | NavigateTo(path: string)
}
