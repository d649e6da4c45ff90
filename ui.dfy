/** Vocabulary shared by the list pages: what a `catch` clause receives and how the
    pages turn it into the text they display, and the variants of the `Badge` component. */
module Ui {

  /** The value a rejected promise carries: an `Error` object, or anything else. */
  datatype Thrown = ErrorThrown(message: string) | ValueThrown

  /** `err instanceof Error ? err.message : fallback`. */
  function CaughtMessage(t: Thrown, fallback: string): (r: string)
    ensures t.ErrorThrown? ==> r == t.message
    ensures t.ValueThrown? ==> r == fallback
  {
    if t.ErrorThrown? then t.message else fallback
  }

  /** The `variant` prop of `Badge`. */
  datatype Variant = Default | Secondary | Destructive | Outline
}
