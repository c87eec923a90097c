/** What the pages render for an action: nothing, a disabled button, or a clickable one. */
module Ui {
  datatype Button = Hidden | Disabled | Enabled
}
