/**
 * What the login and register screens have in common: the effects a
 * handler emits (alerts, the context's `login()`, navigation) and the
 * alert shown when the request throws.
 */
module Forms {

  /** An effect a handler emits, in the order it emits them. */
  datatype Effect =
    | ShowAlert(title: string, message: string)
    | CallLogin
    | ReplaceRoute(route: string)

  /** The alert for a request that threw (network failure or unreadable body). */
  const ConnectionAlert := ShowAlert("Error de conexión",
    "No se pudo conectar con el servidor. Verifica tu conexión a internet.")

  /** Every alert of a handler names a title and a message. */
  predicate AlertsHaveText(effects: seq<Effect>) {
    forall i :: 0 <= i < |effects| && effects[i].ShowAlert? ==>
      effects[i].title != "" && effects[i].message != ""
  }
}
