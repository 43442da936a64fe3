/** The password-reset dialog (EcoRutas-main/src/components/ForgotPassword.tsx):
    a four-step form (email, code, new password, success), the rules a new
    password must meet, the filter on the code field, and the countdown
    before a code may be sent again. The remote calls it would make are
    not part of it: every request succeeds. */
module ForgotPassword {
  import opened Common

  datatype Paso = PasoEmail | PasoCode | PasoNewPassword | PasoSuccess

  /** The answer of the email validator: its verdict and, possibly, a message. */
  datatype Validacion = Validacion(isValid: bool, error: string)

  const SegundosReenvio: int := 60
  const LongitudCodigo: int := 6
  const LongitudMinima: int := 8

  const ErrorEmail: string := "Email inválido"
  const ErrorCodigo: string := "El código debe tener 6 dígitos"
  const ErrorLongitud: string := "La contraseña debe tener al menos 8 caracteres"
  const ErrorMayuscula: string := "La contraseña debe tener al menos una mayúscula"
  const ErrorNumero: string := "La contraseña debe tener al menos un número"
  const ErrorCoincidencia: string := "Las contraseñas no coinciden"

  // ---------------------------------------------------------------------
  // Password rules
  // ---------------------------------------------------------------------

  /** `/[A-Z]/.test(s)`. */
  predicate TieneMayuscula(s: string) {
    exists i :: 0 <= i < |s| && 'A' <= s[i] <= 'Z'
  }

  /** `/\d/.test(s)`. */
  predicate TieneDigito(s: string) {
    exists i :: 0 <= i < |s| && IsDigit(s[i])
  }

  /** The message of the first rule the new password breaks, in the order
      length, upper-case letter, digit, confirmation; `None` if it meets
      them all. */
  function ErrorDeContrasena(password: string, confirmacion: string): (r: Option<string>)
    ensures r.None? <==> |password| >= LongitudMinima && TieneMayuscula(password) && TieneDigito(password)
                         && password == confirmacion
    ensures |password| < LongitudMinima ==> r == Some(ErrorLongitud)
    ensures |password| >= LongitudMinima && !TieneMayuscula(password) ==> r == Some(ErrorMayuscula)
    ensures |password| >= LongitudMinima && TieneMayuscula(password) && !TieneDigito(password) ==> r == Some(ErrorNumero)
    ensures (|password| >= LongitudMinima && TieneMayuscula(password) && TieneDigito(password)
             && password != confirmacion) ==> r == Some(ErrorCoincidencia)
  {
    if |password| < LongitudMinima then Some(ErrorLongitud)
    else if !TieneMayuscula(password) then Some(ErrorMayuscula)
    else if !TieneDigito(password) then Some(ErrorNumero)
    else if password != confirmacion then Some(ErrorCoincidencia)
    else None
  }

  /** The four messages differ, so the message shown names the first
      broken rule; a password that breaks several rules reports only the
      earliest. */
  lemma MensajeIdentificaRegla(password: string, confirmacion: string)
    ensures ErrorLongitud != ErrorMayuscula && ErrorLongitud != ErrorNumero && ErrorLongitud != ErrorCoincidencia
    ensures ErrorMayuscula != ErrorNumero && ErrorMayuscula != ErrorCoincidencia && ErrorNumero != ErrorCoincidencia
    ensures ErrorDeContrasena(password, confirmacion) == Some(ErrorMayuscula) ==>
      |password| >= LongitudMinima && !TieneMayuscula(password)
    ensures ErrorDeContrasena(password, confirmacion) == Some(ErrorNumero) ==>
      |password| >= LongitudMinima && TieneMayuscula(password) && !TieneDigito(password)
    ensures ErrorDeContrasena(password, confirmacion) == Some(ErrorCoincidencia) ==>
      |password| >= LongitudMinima && TieneMayuscula(password) && TieneDigito(password) && password != confirmacion
  {
    assert ErrorLongitud[2] == ErrorMayuscula[2] == ErrorNumero[2] == ' ' && ErrorCoincidencia[2] == 's';
    assert ErrorLongitud[34] == '8' && ErrorMayuscula[34] == 'u' && ErrorNumero[34] == 'u';
    assert ErrorMayuscula[36] == 'a' && ErrorNumero[36] == ' ';
  }

  // ---------------------------------------------------------------------
  // The code field
  // ---------------------------------------------------------------------

  /** `value.replace(/\D/g, '').slice(0, 6)`. */
  function FiltrarCodigo(valor: string): (codigo: string)
    ensures |codigo| <= LongitudCodigo
    ensures forall i :: 0 <= i < |codigo| ==> IsDigit(codigo[i])
    ensures |codigo| <= |Filter(valor, IsDigit)| && codigo == Filter(valor, IsDigit)[..|codigo|]
    ensures |codigo| == LongitudCodigo || codigo == Filter(valor, IsDigit)
  {
    var digitos := Filter(valor, IsDigit);
    if |digitos| <= LongitudCodigo then digitos else digitos[..LongitudCodigo]
  }

  /** Filtering an already filtered code changes nothing, and a code of six
      digits is kept as typed. */
  lemma FiltrarCodigoIdempotente(valor: string)
    ensures FiltrarCodigo(FiltrarCodigo(valor)) == FiltrarCodigo(valor)
    ensures |valor| == LongitudCodigo && (forall i :: 0 <= i < |valor| ==> IsDigit(valor[i])) ==> FiltrarCodigo(valor) == valor
  {
    var c := FiltrarCodigo(valor);
    FilterKeepsAll(c, IsDigit);
    if |valor| == LongitudCodigo && (forall i :: 0 <= i < |valor| ==> IsDigit(valor[i])) {
      FilterKeepsAll(valor, IsDigit);
    }
  }

  // ---------------------------------------------------------------------
  // The resend countdown
  // ---------------------------------------------------------------------

  datatype Temporizador = Temporizador(timer: int, canResend: bool)

  /** One second of the interval: count down, and at 1 or below stop at 0
      and allow a resend. */
  function Tick(t: Temporizador): (r: Temporizador)
    ensures t.timer >= 0 ==> r.timer >= 0
    ensures r.timer < t.timer || (t.timer <= 0 && r.timer == 0)
    ensures r.canResend <==> t.canResend || t.timer <= 1
  {
    if t.timer <= 1 then Temporizador(0, true) else Temporizador(t.timer - 1, t.canResend)
  }

  function Ticks(t: Temporizador, k: nat): Temporizador {
    if k == 0 then t else Tick(Ticks(t, k - 1))
  }

  /** From a fresh start the countdown shows 60 - k after k ticks, so it
      reaches 1 without offering the resend; the 60th tick stops it at 0
      and offers the resend. Ticks are seconds only while one interval
      runs: `startTimer` never clears an earlier one. */
  lemma {:induction false} CuentaAtras(k: nat)
    ensures Ticks(Temporizador(SegundosReenvio, false), k)
         == if k < SegundosReenvio then Temporizador(SegundosReenvio - k, false) else Temporizador(0, true)
  {
    if k > 0 {
      CuentaAtras(k - 1);
    }
  }

  // ---------------------------------------------------------------------
  // The dialog
  // ---------------------------------------------------------------------

  class ForgotPasswordModal {
    var step: Paso
    var email: string
    var code: string
    var newPassword: string
    var confirmPassword: string
    var error: string
    var timer: int
    var canResend: bool

    /** The state the dialog opens in, and returns to when closed. */
    predicate Inicial()
      reads this
    {
      step == PasoEmail && email == "" && code == "" && newPassword == "" && confirmPassword == ""
      && error == "" && timer == SegundosReenvio && !canResend
    }

    constructor ()
      ensures Inicial()
    {
      step := PasoEmail;
      email, code, newPassword, confirmPassword, error := "", "", "", "", "";
      timer := SegundosReenvio;
      canResend := false;
    }

    /** `handleClose`. */
    method HandleClose()
      modifies this
      ensures Inicial()
    {
      step := PasoEmail;
      email, code, newPassword, confirmPassword, error := "", "", "", "", "";
      timer := SegundosReenvio;
      canResend := false;
    }

    /** Typing in the email field; `sanitize` stands for the input sanitiser. */
    method OnEmailInput(valor: string, sanitize: string -> string)
      modifies this
      ensures email == sanitize(valor) && error == ""
      ensures step == old(step) && code == old(code) && newPassword == old(newPassword)
      ensures confirmPassword == old(confirmPassword) && timer == old(timer) && canResend == old(canResend)
    {
      email := sanitize(valor);
      error := "";
    }

    /** Typing in the code field keeps at most six digits. */
    method OnCodeInput(valor: string)
      modifies this
      ensures code == FiltrarCodigo(valor) && error == ""
      ensures step == old(step) && email == old(email) && newPassword == old(newPassword)
      ensures confirmPassword == old(confirmPassword) && timer == old(timer) && canResend == old(canResend)
    {
      code := FiltrarCodigo(valor);
      error := "";
    }

    /** Typing in either password field. */
    method OnPasswordInput(nueva: string, confirmacion: string)
      modifies this
      ensures newPassword == nueva && confirmPassword == confirmacion && error == ""
      ensures step == old(step) && email == old(email) && code == old(code)
      ensures timer == old(timer) && canResend == old(canResend)
    {
      newPassword := nueva;
      confirmPassword := confirmacion;
      error := "";
    }

    /** `startTimer`. */
    method StartTimer()
      modifies this
      ensures timer == SegundosReenvio && !canResend
      ensures step == old(step) && email == old(email) && code == old(code) && error == old(error)
      ensures newPassword == old(newPassword) && confirmPassword == old(confirmPassword)
    {
      canResend := false;
      timer := SegundosReenvio;
    }

    /** One firing of the countdown interval. */
    method OnTick()
      modifies this
      ensures Temporizador(timer, canResend) == Tick(Temporizador(old(timer), old(canResend)))
      ensures step == old(step) && email == old(email) && code == old(code) && error == old(error)
      ensures newPassword == old(newPassword) && confirmPassword == old(confirmPassword)
    {
      if timer <= 1 {
        canResend := true;
        timer := 0;
      } else {
        timer := timer - 1;
      }
    }

    /** `handleSendCode` (also the "send again" link): a valid email moves
        on to the code step and restarts the countdown; otherwise the
        validator's message, or "Email inválido", is shown. */
    method HandleSendCode(validar: string -> Validacion)
      modifies this
      ensures email == old(email) && code == old(code)
      ensures newPassword == old(newPassword) && confirmPassword == old(confirmPassword)
      ensures !validar(old(email)).isValid ==>
        && error == (if validar(old(email)).error != "" then validar(old(email)).error else ErrorEmail)
        && step == old(step) && timer == old(timer) && canResend == old(canResend)
      ensures validar(old(email)).isValid ==>
        step == PasoCode && error == "" && timer == SegundosReenvio && !canResend
    {
      error := "";
      var validation := validar(email);
      if !validation.isValid {
        error := if validation.error != "" then validation.error else ErrorEmail;
        return;
      }
      step := PasoCode;
      StartTimer();
    }

    /** `handleVerifyCode`: a six-character code moves on to the new
        password. */
    method HandleVerifyCode()
      modifies this
      ensures email == old(email) && code == old(code) && timer == old(timer) && canResend == old(canResend)
      ensures newPassword == old(newPassword) && confirmPassword == old(confirmPassword)
      ensures |code| != LongitudCodigo ==> error == ErrorCodigo && step == old(step)
      ensures |code| == LongitudCodigo ==> error == "" && step == PasoNewPassword
    {
      error := "";
      if |code| != LongitudCodigo {
        error := ErrorCodigo;
        return;
      }
      step := PasoNewPassword;
    }

    /** `handleResetPassword`: the first broken rule is reported; a
        password meeting all of them completes the reset. */
    method HandleResetPassword()
      modifies this
      ensures email == old(email) && code == old(code) && timer == old(timer) && canResend == old(canResend)
      ensures newPassword == old(newPassword) && confirmPassword == old(confirmPassword)
      ensures ErrorDeContrasena(newPassword, confirmPassword).Some? ==>
        error == ErrorDeContrasena(newPassword, confirmPassword).value && step == old(step)
      ensures ErrorDeContrasena(newPassword, confirmPassword).None? ==> error == "" && step == PasoSuccess
    {
      error := "";
      if |newPassword| < LongitudMinima {
        error := ErrorLongitud;
        return;
      }
      if !TieneMayuscula(newPassword) {
        error := ErrorMayuscula;
        return;
      }
      if !TieneDigito(newPassword) {
        error := ErrorNumero;
        return;
      }
      if newPassword != confirmPassword {
        error := ErrorCoincidencia;
        return;
      }
      step := PasoSuccess;
    }

    /** The "Atrás" button of the code step. */
    method Back()
      modifies this
      ensures step == PasoEmail
      ensures email == old(email) && code == old(code) && error == old(error) && timer == old(timer)
      ensures canResend == old(canResend) && newPassword == old(newPassword) && confirmPassword == old(confirmPassword)
    {
      step := PasoEmail;
    }
  }
}
