/** Small value types shared by every page of the model. */
module Common {

  /** An optional value: JavaScript's `null` / `undefined` versus a present value. */
  datatype Option<+T> = None | Some(value: T)

  /** The `variant` property of the UI library's `Badge` and `Button` components. */
  datatype BadgeVariant = Default | Secondary | Outline | Destructive

  /** Orders the badge variants a score classifier can produce, strongest first. */
  function VariantRank(v: BadgeVariant): nat
  {
    match v
    case Default => 2
    case Secondary => 1
    case Outline => 0
    case Destructive => 0
  }
}
