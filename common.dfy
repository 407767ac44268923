/** Values shared by the pages: an optional value and the notification
    ("toast") that a page hands to the notification surface. */
module Common {

  datatype Option<+T> = None | Some(value: T)

  /** The toast variant: the default style or the destructive (error) style. */
  datatype Variant = Default | Destructive

  /** One notification emitted to the toast surface. */
  datatype Toast = Toast(title: string, description: string, variant: Variant)
}
