/** The pop-up notifications components raise; only their kind and text are modelled. */
module Notifications {
  datatype Toast = SuccessToast(text: string) | ErrorToast(text: string)
}
