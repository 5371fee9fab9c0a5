/** The colour variants the console's `Badge` component is given (`badge-<variant>`). */
module Ui {

  datatype Variant = Default | Primary | Secondary | Success | Warning | Error | Danger
}
