/** The password-reset form (ResetPasswordForm.jsx): the ordered checks and the request outcome. */
module ResetPasswordForm {
  import opened Wrappers
  import Text

  const TokenError: string := "Token inválido o faltante."
  const LengthError: string := "La contraseña debe tener al menos 6 caracteres."
  const MismatchError: string := "Las contraseñas no coinciden."
  const SuccessMessage: string := "¡Contraseña restablecida correctamente! Ahora puedes iniciar sesión."
  const ServerError: string := "Ocurrió un error."
  const RequestError: string := "Ocurrió un error en la petición."

  /** The result of the checks, in the order the form makes them. */
  datatype Check = MissingToken | TooShort | Mismatch | Passed

  /** The token from the URL is usable: present and non-empty. */
  predicate HasToken(token: Option<string>) {
    token.Some? && token.value != ""
  }

  /**
    The checks: the token first, then the length (at least 6), then the confirmation; the
    first that fails decides.
  */
  function Validate(token: Option<string>, password: string, confirm: string): (c: Check)
    ensures !HasToken(token) ==> c == MissingToken
    ensures HasToken(token) && |password| < 6 ==> c == TooShort
    ensures HasToken(token) && |password| >= 6 && password != confirm ==> c == Mismatch
    ensures c == Passed <==> HasToken(token) && |password| >= 6 && password == confirm
  {
    if !HasToken(token) then MissingToken
    else if |password| < 6 then TooShort
    else if password != confirm then Mismatch
    else Passed
  }

  /** The error text of a failed check. */
  function FailureText(c: Check): (e: string)
    requires c != Passed
    ensures e != ""
  {
    match c
    case MissingToken => TokenError
    case TooShort => LengthError
    case Mismatch => MismatchError
  }

  /** The three check errors are different texts, so the error shown names the failed check. */
  lemma FailureTextsDistinct(c: Check, d: Check)
    requires c != Passed && d != Passed && c != d
    ensures FailureText(c) != FailureText(d)
  {
    assert |TokenError| == 26 && |LengthError| == 47 && |MismatchError| == 29;
  }

  /** The answer to `POST /api/auth/reset-password`; `message` is empty when the body has none. */
  datatype ResetResponse = ResetOk | ResetRejected(message: string) | ResetUnreachable

  /** The request body. */
  datatype ResetRequest = ResetRequest(token: string, password: string)

  class ResetForm {
    var password: string
    var confirm: string
    var message: string
    var error: string
    var loading: bool
    /** `params.get("token")` from the page's URL. */
    const token: Option<string>

    constructor (token: Option<string>)
      ensures this.token == token
      ensures password == "" && confirm == "" && message == "" && error == "" && !loading
    {
      this.token := token;
      password, confirm, message, error, loading := "", "", "", "", false;
    }

    /**
      `handleSubmit`, which runs only once both fields are non-empty (the inputs are
      `required`): message and error are cleared; a failed check sets its error and sends
      nothing; otherwise the request is sent and its outcome sets either the message or the
      error, never both, and loading ends.
    */
    method HandleSubmit(response: ResetResponse) returns (req: Option<ResetRequest>)
      requires password != "" && confirm != ""
      modifies this
      ensures password == old(password) && confirm == old(confirm)
      ensures var c := Validate(token, password, confirm);
        && (c != Passed ==> req.None? && message == "" && error == FailureText(c) && loading == old(loading))
        && (c == Passed ==> req == Some(ResetRequest(token.value, password)) && !loading)
      ensures req.Some? && response.ResetOk? ==> message == SuccessMessage && error == ""
      ensures req.Some? && response.ResetRejected? ==> message == "" && error == Text.OrElse(response.message, ServerError)
      ensures req.Some? && response.ResetUnreachable? ==> message == "" && error == RequestError
    {
      message, error := "", "";
      var c := Validate(token, password, confirm);
      if c != Passed {
        error := FailureText(c);
        req := None;
        return;
      }
      loading := true;
      req := Some(ResetRequest(token.value, password));
      match response {
        case ResetOk => message := SuccessMessage;
        case ResetRejected(m) => error := Text.OrElse(m, ServerError);
        case ResetUnreachable => error := RequestError;
      }
      loading := false;
    }
  }
}
