/** The optional-value wrapper used for absent keys, null store results and an unset editor state. */
module Wrappers {
  datatype Option<+T> = None | Some(value: T)

  /** A call into code outside the model (pdf-parse, the AI gateway, the document store):
      it either returns a value or throws. */
  datatype Outcome<+T> = Returned(value: T) | Threw
}
