/** The notifications the client shows through `toast(...)`: a title, a description and whether the
    destructive (error) variant is used. */
module Toasts {
  datatype Toast = Toast(title: string, description: string, destructive: bool)

  /** A plain (non-destructive) notification. */
  function Info(title: string, description: string): Toast {
    Toast(title, description, false)
  }

  /** A destructive notification, the variant used for every error. */
  function Failure(title: string, description: string): Toast {
    Toast(title, description, true)
  }
}
