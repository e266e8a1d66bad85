/** Value types shared by the components: optional values, what a JavaScript
    `throw` can carry, and the outcome of the key-derivation helper. */
module Common {

  datatype Option<T> = None | Some(value: T)

  /** What a rejected promise or a `throw` carries. Only an `Error` instance has a
      message that the components show; any other thrown value is ignored by
      their `instanceof Error` tests. */
  datatype Thrown = ErrorObject(message: string) | NonErrorValue

  /** The outcome of `getNsecWithPassphrase(passphrase)`: a returned string, a
      returned `undefined`/`null`, or an exception. */
  datatype Derivation = Nsec(text: string) | NoNsec | DerivationThrew(error: Thrown)

  /** JavaScript truthiness of the derivation's result: a non-empty string.
      An exception is never truthy, since no value is returned. */
  predicate Truthy(d: Derivation) {
    d.Nsec? && d.text != ""
  }
}
