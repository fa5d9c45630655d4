/**
 * The login screen: two text fields, a `loading` flag and the handler
 * `handlogin`, split at its `await` into Submit (validation and the
 * request) and Complete (the answer and the `finally`).
 */
module Login {
  import opened Wrappers
  import opened JsText
  import opened Forms

  /** The body of POST /api/usuario/login. */
  datatype Credentials = Credentials(email: string, password: string)

  /** The answer to the login request: a parsed response with its `ok` flag
      and optional `message`, or an exception (network failure, or a body
      that is not JSON, whatever the status). */
  datatype LoginReply = Answered(ok: bool, message: Option<string>) | Thrown

  const EmptyFieldsAlert := ShowAlert("Campos Vacíos",
    "Por favor, ingresa tu correo electrónico y contraseña.")
  const SuccessAlert := ShowAlert("Éxito", "¡Inicio de sesión exitoso!")
  const DefaultFailure := "Credenciales incorrectas. Intenta de nuevo."

  /** `!email.trim() || !password.trim()` */
  predicate MissingField(email: string, password: string) {
    Trim(email) == "" || Trim(password) == ""
  }

  /** The handler refuses exactly when a field holds nothing but white space. */
  lemma MissingFieldIffWhitespaceOnly(email: string, password: string)
    ensures MissingField(email, password) <==> IsBlank(email) || IsBlank(password)
  {
    TrimEmptyIffBlank(email);
    TrimEmptyIffBlank(password);
  }

  /** The effects of the answer: on an ok response `login()` and then the
      success alert; on any other response one error alert with the
      server's message, or the fixed text when it has none; on an exception
      the connection alert. */
  function LoginEffects(reply: LoginReply): (effects: seq<Effect>)
    ensures CallLogin in effects <==> reply.Answered? && reply.ok
    ensures AlertsHaveText(effects)
    ensures |effects| >= 1 && effects[|effects| - 1].ShowAlert?
    ensures reply.Answered? && reply.ok ==> effects == [CallLogin, SuccessAlert]
    ensures reply.Answered? && !reply.ok && Truthy(reply.message) ==>
              effects == [ShowAlert("Error al iniciar sesión", reply.message.value)]
    ensures reply.Answered? && !reply.ok && !Truthy(reply.message) ==>
              effects == [ShowAlert("Error al iniciar sesión", DefaultFailure)]
    ensures reply.Thrown? ==> effects == [ConnectionAlert]
  {
    match reply
    case Thrown => [ConnectionAlert]
    case Answered(ok, message) =>
      if ok then [CallLogin, SuccessAlert]
      else [ShowAlert("Error al iniciar sesión", OrElse(message, DefaultFailure))]
  }

  /** The caption of the login button. */
  function LoginLabel(loading: bool): (caption: string)
    ensures caption == "Iniciando Sesión..." <==> loading
  {
    if loading then "Iniciando Sesión..." else "login"
  }

  class LoginScreen {
    var email: string
    var password: string
    var loading: bool

    constructor ()
      ensures email == "" && password == "" && !loading
    {
      email := "";
      password := "";
      loading := false;
    }

    /** `onChangeText` of the email field. */
    method ChangeEmail(text: string)
      modifies this
      ensures email == text && password == old(password) && loading == old(loading)
    {
      email := text;
    }

    /** `onChangeText` of the password field. */
    method ChangePassword(text: string)
      modifies this
      ensures password == text && email == old(email) && loading == old(loading)
    {
      password := text;
    }

    /** Both buttons are disabled exactly while `loading`. */
    predicate ButtonsDisabled()
      reads this
    {
      loading
    }

    function Label(): string
      reads this
    {
      LoginLabel(loading)
    }

    /** `handlogin` up to its request: with a blank field, the empty-fields
        alert and nothing else; otherwise `loading` on and the request built
        from the fields. */
    method Submit() returns (req: Option<Credentials>, effects: seq<Effect>)
      modifies this
      ensures email == old(email) && password == old(password)
      ensures MissingField(email, password) ==>
                req == None && effects == [EmptyFieldsAlert] && loading == old(loading)
      ensures !MissingField(email, password) ==>
                req == Some(Credentials(email, password)) && effects == []
                && ButtonsDisabled() && Label() == "Iniciando Sesión..."
    {
      if Trim(email) == "" || Trim(password) == "" {
        req := None;
        effects := [EmptyFieldsAlert];
        return;
      }
      loading := true;
      req := Some(Credentials(email, password));
      effects := [];
    }

    /** `handlogin` after its request, through the `finally`: the fields are
        cleared only on an ok response, and `loading` is off on every path. */
    method Complete(reply: LoginReply) returns (effects: seq<Effect>)
      modifies this
      ensures !ButtonsDisabled() && Label() == "login"
      ensures effects == LoginEffects(reply)
      ensures reply.Answered? && reply.ok ==> email == "" && password == ""
      ensures !(reply.Answered? && reply.ok) ==> email == old(email) && password == old(password)
    {
      match reply {
        case Thrown =>
          effects := [ConnectionAlert];
        case Answered(ok, message) =>
          if ok {
            effects := [CallLogin, SuccessAlert];
            email := "";
            password := "";
          } else {
            effects := [ShowAlert("Error al iniciar sesión", OrElse(message, DefaultFailure))];
          }
      }
      loading := false;
    }

    /** `handlogin` from press to `finally`, no field edited meanwhile. */
    method HandLogin(reply: LoginReply) returns (req: Option<Credentials>, effects: seq<Effect>)
      modifies this
      ensures MissingField(old(email), old(password)) ==>
                req == None && effects == [EmptyFieldsAlert]
                && email == old(email) && password == old(password) && loading == old(loading)
      ensures !MissingField(old(email), old(password)) ==>
                req == Some(Credentials(old(email), old(password)))
                && effects == LoginEffects(reply) && !loading
                && (if reply.Answered? && reply.ok then email == "" && password == ""
                    else email == old(email) && password == old(password))
    {
      req, effects := Submit();
      if req.Some? {
        effects := Complete(reply);
      }
    }
  }
}
