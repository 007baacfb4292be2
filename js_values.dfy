/** Values that cross the boundary between the front-end and the code it
    calls (the wallet extension, the chain SDK): optional values, the outcome
    of an awaited call that may throw, the thrown value itself, and how an
    async handler's promise settles. */
module JsValues {

  /** `T | null` / `T | undefined`. */
  datatype Option<+T> = None | Some(value: T)

  /** A thrown JavaScript value, as far as the handlers that catch it look at
      it: its `message` property (absent when the thrown value is not an
      `Error`), and what the value itself shows when it is rendered. */
  datatype Thrown = Thrown(message: Option<string>, rendered: string)

  /** The result of awaiting a call into code outside the model. */
  datatype Outcome<+T> = Returned(value: T) | Threw(error: Thrown)

  /** How the promise of an async event handler settles: `Rejected` is an
      exception that escaped every `try` of the handler. Nothing awaits
      these promises, so which exception it was is not kept. */
  datatype Completion = Resolved | Rejected

  /** JavaScript truthiness of a `string | undefined`: `undefined` and the
      empty string are falsy. */
  predicate Truthy(s: Option<string>)
  {
    s.Some? && s.value != ""
  }
}
