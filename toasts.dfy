/** The notifications the pages raise with `toast(...)`: a title, a description and
    whether the destructive (error) variant is used. */
module Toasts {

  datatype Toast = Toast(title: string, description: string, destructive: bool)

  /** The destructive toast raised for a caught error: the error's message, or the
      handler's own text when that message is empty (`error.message || text`). */
  function MessageOr(title: string, message: string, fallback: string): (t: Toast)
    ensures t.title == title && t.destructive
    ensures message != "" ==> t.description == message
    ensures message == "" ==> t.description == fallback
    ensures t.description == message || t.description == fallback
    ensures fallback != "" ==> t.description != ""
  {
    Toast(title, if message != "" then message else fallback, true)
  }
}
