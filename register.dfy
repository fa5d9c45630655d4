/**
 * The register screen: three text fields, a `loading` flag and the handler
 * `handRegister`, split at its `await` into Submit (validation and the
 * request) and Complete (the answer and the `finally`).
 */
module Register {
  import opened Wrappers
  import opened JsText
  import opened Forms

  /** The body of POST /api/usuario/agregar. */
  datatype NewUser = NewUser(id: int, nombre: string, pw: string, email: string, status: int)

  /** `data.body.resultado` of the answer: the rows the insert affected and
      an optional `info` text. */
  datatype Resultado = Resultado(affectedRows: int, info: Option<string>)

  /** The answer to the register request: a parsed response with its `ok`
      flag, optional `message` and optional `body.resultado`, or an
      exception (network failure, or a body that is not JSON). */
  datatype RegisterReply =
    | Answered(ok: bool, message: Option<string>, resultado: Option<Resultado>)
    | Thrown

  const EmptyFieldsAlert := ShowAlert("Campos Vacíos",
    "Por favor, completa todos los campos (Nombre, Correo y Contraseña).")
  const SuccessAlert := ShowAlert("Registro Exitoso",
    "¡Tu cuenta ha sido creada con éxito! Ahora puedes iniciar sesión.")
  const DefaultFailure := "No se pudo crear la cuenta."

  /** `!nombre.trim() || !email.trim() || !password.trim()` */
  predicate MissingField(nombre: string, email: string, password: string) {
    Trim(nombre) == "" || Trim(email) == "" || Trim(password) == ""
  }

  /** The handler refuses exactly when a field holds nothing but white space. */
  lemma MissingFieldIffWhitespaceOnly(nombre: string, email: string, password: string)
    ensures MissingField(nombre, email, password) <==> IsBlank(nombre) || IsBlank(email) || IsBlank(password)
  {
    TrimEmptyIffBlank(nombre);
    TrimEmptyIffBlank(email);
    TrimEmptyIffBlank(password);
  }

  /** The request body built from the fields. */
  function Payload(nombre: string, email: string, password: string): (u: NewUser)
    ensures u.id == 0 && u.status == 1
    ensures u.nombre == nombre && u.email == email && u.pw == password
  {
    NewUser(0, nombre, password, email, 1)
  }

  /** `response.ok && data.body && data.body.resultado && data.body.resultado.affectedRows > 0` */
  predicate Succeeded(ok: bool, resultado: Option<Resultado>): (b: bool)
    ensures b ==> ok && resultado.Some?
    ensures b <==> ok && resultado.Some? && resultado.value.affectedRows >= 1
  {
    ok && resultado.Some? && resultado.value.affectedRows > 0
  }

  /** An ok status alone is not success: the insert must report an affected row. */
  lemma OkWithoutRowsFails(message: Option<string>, resultado: Option<Resultado>)
    requires resultado.None? || resultado.value.affectedRows <= 0
    ensures !Succeeded(true, resultado)
    ensures RegisterEffects(Answered(true, message, resultado))
         == [ShowAlert("Error al Registrar", FailureMessage(message, resultado))]
  {
  }

  /** `data.message || data.body.resultado.info || 'No se pudo crear la cuenta.'`,
      each step taken only when the one before is missing or "". */
  function FailureMessage(message: Option<string>, resultado: Option<Resultado>): (m: string)
    ensures m != ""
    ensures Truthy(message) ==> m == message.value
    ensures !Truthy(message) && resultado.Some? && Truthy(resultado.value.info) ==>
              m == resultado.value.info.value
    ensures !Truthy(message) && !(resultado.Some? && Truthy(resultado.value.info)) ==>
              m == DefaultFailure
  {
    var info := if resultado.Some? then resultado.value.info else None;
    OrElse(message, OrElse(info, DefaultFailure))
  }

  /** The effects of the answer: on success the success alert and then the
      move to the login screen; on any other answer one error alert with the
      fallback message; on an exception the connection alert. Navigation
      happens only on success. */
  function RegisterEffects(reply: RegisterReply): (effects: seq<Effect>)
    ensures ReplaceRoute("Login") in effects <==> reply.Answered? && Succeeded(reply.ok, reply.resultado)
    ensures CallLogin !in effects
    ensures AlertsHaveText(effects)
    ensures |effects| >= 1 && effects[0].ShowAlert?
    ensures reply.Answered? && Succeeded(reply.ok, reply.resultado) ==>
              effects == [SuccessAlert, ReplaceRoute("Login")]
    ensures reply.Answered? && !Succeeded(reply.ok, reply.resultado) ==>
              effects == [ShowAlert("Error al Registrar", FailureMessage(reply.message, reply.resultado))]
    ensures reply.Thrown? ==> effects == [ConnectionAlert]
  {
    match reply
    case Thrown => [ConnectionAlert]
    case Answered(ok, message, resultado) =>
      if Succeeded(ok, resultado) then [SuccessAlert, ReplaceRoute("Login")]
      else [ShowAlert("Error al Registrar", FailureMessage(message, resultado))]
  }

  /** The caption of the register button. */
  function RegisterLabel(loading: bool): (caption: string)
    ensures caption == "Registrando..." <==> loading
  {
    if loading then "Registrando..." else "Registrarse"
  }

  class RegisterScreen {
    var nombre: string
    var email: string
    var password: string
    var loading: bool

    constructor ()
      ensures nombre == "" && email == "" && password == "" && !loading
    {
      nombre := "";
      email := "";
      password := "";
      loading := false;
    }

    /** `onChangeText` of the three fields. */
    method ChangeFields(n: string, e: string, p: string)
      modifies this
      ensures nombre == n && email == e && password == p && loading == old(loading)
    {
      nombre, email, password := n, e, p;
    }

    /** Both buttons are disabled exactly while `loading`. */
    predicate ButtonsDisabled()
      reads this
    {
      loading
    }

    function Label(): string
      reads this
    {
      RegisterLabel(loading)
    }

    /** `handRegister` up to its request: with a blank field, the
        empty-fields alert and nothing else; otherwise `loading` on and the
        request body built from the fields. */
    method Submit() returns (req: Option<NewUser>, effects: seq<Effect>)
      modifies this
      ensures nombre == old(nombre) && email == old(email) && password == old(password)
      ensures MissingField(nombre, email, password) ==>
                req == None && effects == [EmptyFieldsAlert] && loading == old(loading)
      ensures !MissingField(nombre, email, password) ==>
                req == Some(Payload(nombre, email, password)) && effects == []
                && ButtonsDisabled() && Label() == "Registrando..."
    {
      if Trim(nombre) == "" || Trim(email) == "" || Trim(password) == "" {
        req := None;
        effects := [EmptyFieldsAlert];
        return;
      }
      loading := true;
      req := Some(Payload(nombre, email, password));
      effects := [];
    }

    /** `handRegister` after its request, through the `finally`: all three
        fields are cleared only on success, and `loading` is off on every path. */
    method Complete(reply: RegisterReply) returns (effects: seq<Effect>)
      modifies this
      ensures !ButtonsDisabled() && Label() == "Registrarse"
      ensures effects == RegisterEffects(reply)
      ensures reply.Answered? && Succeeded(reply.ok, reply.resultado) ==>
                nombre == "" && email == "" && password == ""
      ensures !(reply.Answered? && Succeeded(reply.ok, reply.resultado)) ==>
                nombre == old(nombre) && email == old(email) && password == old(password)
    {
      match reply {
        case Thrown =>
          effects := [ConnectionAlert];
        case Answered(ok, message, resultado) =>
          if Succeeded(ok, resultado) {
            effects := [SuccessAlert];
            nombre := "";
            email := "";
            password := "";
            effects := effects + [ReplaceRoute("Login")];
          } else {
            var serverMessage := FailureMessage(message, resultado);
            effects := [ShowAlert("Error al Registrar", serverMessage)];
          }
      }
      loading := false;
    }

    /** `handRegister` from press to `finally`, no field edited meanwhile. */
    method HandRegister(reply: RegisterReply) returns (req: Option<NewUser>, effects: seq<Effect>)
      modifies this
      ensures MissingField(old(nombre), old(email), old(password)) ==>
                req == None && effects == [EmptyFieldsAlert] && loading == old(loading)
                && nombre == old(nombre) && email == old(email) && password == old(password)
      ensures !MissingField(old(nombre), old(email), old(password)) ==>
                req == Some(Payload(old(nombre), old(email), old(password)))
                && effects == RegisterEffects(reply) && !loading
                && (if reply.Answered? && Succeeded(reply.ok, reply.resultado)
                    then nombre == "" && email == "" && password == ""
                    else nombre == old(nombre) && email == old(email) && password == old(password))
    {
      req, effects := Submit();
      if req.Some? {
        effects := Complete(reply);
      }
    }
  }
}
