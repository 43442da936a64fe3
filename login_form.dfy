/** Failed-login throttling of the sign-in form
    (EcoRutas-main/src/components/forms/LoginForm.tsx): a list of recent
    failed attempts, a temporary lockout after too many of them, and a
    warning shortly before the lockout. Times are integer milliseconds. */
module LoginForm {
  import opened Common
  import opened AuthContext

  const MaxLoginAttempts: int := 5
  /** 15 minutes. */
  const LockoutDuration: int := 15 * 60 * 1000
  /** 5 minutes. */
  const AttemptWindow: int := 5 * 60 * 1000

  datatype LoginAttempt = LoginAttempt(timestamp: int, email: string)

  /** Attempts younger than `ventana` milliseconds at time `now`. */
  function DentroDe(now: int, ventana: int): LoginAttempt -> bool {
    (a: LoginAttempt) => now - a.timestamp < ventana
  }

  /** `recentAttempts`: the failed attempts that still count toward a lockout. */
  function Recientes(attempts: seq<LoginAttempt>, now: int): seq<LoginAttempt> {
    Filter(attempts, DentroDe(now, LockoutDuration))
  }

  /** `Math.min(...timestamps)` of a non-empty list. */
  function MinTimestamp(attempts: seq<LoginAttempt>): (m: int)
    requires attempts != []
    ensures forall i :: 0 <= i < |attempts| ==> m <= attempts[i].timestamp
    ensures exists i :: 0 <= i < |attempts| && m == attempts[i].timestamp
  {
    if |attempts| == 1 then attempts[0].timestamp
    else
      var rest := MinTimestamp(attempts[1..]);
      assert forall i :: 1 <= i < |attempts| ==> attempts[i] == attempts[1..][i - 1];
      if attempts[0].timestamp <= rest then attempts[0].timestamp else rest
  }

  /** `Math.ceil(ms / 1000)` for a positive number of milliseconds. */
  function CeilSegundos(ms: int): (s: int)
    requires ms > 0
    ensures s >= 1
    ensures 1000 * (s - 1) < ms <= 1000 * s
  {
    (ms + 999) / 1000
  }

  /** `LOCKOUT_DURATION - (now - oldestAttempt)` for the recent attempts. */
  function TiempoRestante(attempts: seq<LoginAttempt>, now: int): int
    requires Recientes(attempts, now) != []
  {
    LockoutDuration - (now - MinTimestamp(Recientes(attempts, now)))
  }

  /** The remaining lockout is always positive, so `checkLockout` locks
      exactly when there are enough recent attempts; when no attempt lies
      in the future it is at most the full lockout duration. */
  lemma TiempoRestanteRange(attempts: seq<LoginAttempt>, now: int)
    requires Recientes(attempts, now) != []
    ensures TiempoRestante(attempts, now) > 0
    ensures (forall i :: 0 <= i < |attempts| ==> attempts[i].timestamp <= now) ==>
      TiempoRestante(attempts, now) <= LockoutDuration
  {
    var recent := Recientes(attempts, now);
    var m := MinTimestamp(recent);
    var i :| 0 <= i < |recent| && m == recent[i].timestamp;
    assert DentroDe(now, LockoutDuration)(recent[i]);
    if forall j :: 0 <= j < |attempts| ==> attempts[j].timestamp <= now {
      assert recent[i] in attempts;
    }
  }

  /** `remainingAttempts` after a failure, counted before the new attempt
      is stored. */
  function IntentosRestantes(previos: int): int {
    MaxLoginAttempts - previos - 1
  }

  function Advertencia(restantes: int): string {
    "\U{26A0}\U{FE0F} Advertencia: Te quedan " + IntToString(restantes) + " intentos antes de bloqueo temporal"
  }

  /** The warning appears only after the second or third stored failure. */
  lemma AdvertenciaSoloCercaDelBloqueo(previos: nat)
    ensures (0 < IntentosRestantes(previos) <= 2) <==> previos == 2 || previos == 3
  {
  }

  class LoginFormState {
    var loginAttempts: seq<LoginAttempt>
    var isLockedOut: bool
    /** Seconds left of the lockout, as last computed. */
    var lockoutTimeRemaining: int
    var securityWarning: string
    /** The `rememberEmail` storage slot. */
    var rememberEmail: Option<string>

    constructor ()
      ensures loginAttempts == [] && !isLockedOut && lockoutTimeRemaining == 0 && securityWarning == ""
      ensures rememberEmail == None
    {
      loginAttempts := [];
      isLockedOut := false;
      lockoutTimeRemaining := 0;
      securityWarning := "";
      rememberEmail := None;
    }

    /** `checkLockout`: locked exactly when at least five failed attempts
        are younger than the lockout duration. */
    method CheckLockout(now: int) returns (locked: bool)
      modifies this
      ensures locked <==> |Recientes(old(loginAttempts), now)| >= MaxLoginAttempts
      ensures isLockedOut == locked
      ensures locked ==> lockoutTimeRemaining == CeilSegundos(TiempoRestante(old(loginAttempts), now))
      ensures !locked ==> lockoutTimeRemaining == old(lockoutTimeRemaining)
      ensures loginAttempts == old(loginAttempts) && securityWarning == old(securityWarning)
      ensures rememberEmail == old(rememberEmail)
    {
      var recentAttempts := Filter(loginAttempts, DentroDe(now, LockoutDuration));
      if |recentAttempts| >= MaxLoginAttempts {
        var oldestAttempt := MinTimestamp(recentAttempts);
        var timeRemaining := LockoutDuration - (now - oldestAttempt);
        TiempoRestanteRange(loginAttempts, now);
        if timeRemaining > 0 {
          isLockedOut := true;
          lockoutTimeRemaining := CeilSegundos(timeRemaining);
          return true;
        }
      }
      isLockedOut := false;
      return false;
    }

    /** `registerFailedAttempt`: forget attempts older than the attempt
        window and append the new one. */
    method RegisterFailedAttempt(email: string, now: int, sanitize: string -> string)
      modifies this
      ensures loginAttempts == Registrar(old(loginAttempts), now, sanitize(email))
      ensures isLockedOut == old(isLockedOut) && lockoutTimeRemaining == old(lockoutTimeRemaining)
      ensures securityWarning == old(securityWarning) && rememberEmail == old(rememberEmail)
    {
      var newAttempt := LoginAttempt(now, sanitize(email));
      var filtered := Filter(loginAttempts, DentroDe(now, AttemptWindow));
      loginAttempts := filtered + [newAttempt];
    }

    /** `onSubmit`. `ahora` is the time of the submission, `ahoraFallo` the
        time a failure is recorded; `minusculas`, `sanitize`, `emailValido`
        and `passwordValido` stand for `toLowerCase` and the validation
        helpers. `almacenLanza` says whether writing the `rememberEmail`
        slot throws after a successful sign-in; the `catch` then records a
        failed attempt under the raw email, after the attempts were
        cleared. */
    method OnSubmit(auth: AuthState, email: string, password: string, remember: bool,
                    ahora: int, ahoraFallo: int,
                    minusculas: string -> string, sanitize: string -> string,
                    emailValido: string -> bool, passwordValido: string -> bool,
                    almacenLanza: bool)
      returns (user: Option<User>)
      modifies this, auth
      ensures auth.users == old(auth.users)
      // A locked form never reaches `login`.
      ensures |Recientes(old(loginAttempts), ahora)| >= MaxLoginAttempts ==>
        && user.None? && isLockedOut && auth.user == old(auth.user)
        && loginAttempts == old(loginAttempts) && securityWarning == old(securityWarning)
        && rememberEmail == old(rememberEmail)
        && lockoutTimeRemaining == CeilSegundos(TiempoRestante(old(loginAttempts), ahora))
      ensures |Recientes(old(loginAttempts), ahora)| < MaxLoginAttempts ==>
        !isLockedOut && lockoutTimeRemaining == old(lockoutTimeRemaining)
      // Rejected input is not a failed attempt.
      ensures |Recientes(old(loginAttempts), ahora)| < MaxLoginAttempts
              && !(emailValido(sanitize(minusculas(email))) && passwordValido(password)) ==>
        && user.None? && auth.user == old(auth.user)
        && loginAttempts == old(loginAttempts) && securityWarning == ""
        && rememberEmail == old(rememberEmail)
      // A login attempt.
      ensures |Recientes(old(loginAttempts), ahora)| < MaxLoginAttempts
              && emailValido(sanitize(minusculas(email))) && passwordValido(password) ==>
        && user == Find(old(auth.users), Credenciales(sanitize(minusculas(email)), password))
        && (user.Some? ==> securityWarning == "" && auth.user == user)
        && (user.Some? && !almacenLanza ==>
              && loginAttempts == []
              && rememberEmail == (if remember then Some(sanitize(minusculas(email))) else None))
        && (user.Some? && almacenLanza ==>
              && loginAttempts == Registrar([], ahoraFallo, sanitize(email))
              && rememberEmail == old(rememberEmail))
        && (user.None? ==>
              && loginAttempts == Registrar(old(loginAttempts), ahoraFallo, sanitize(sanitize(minusculas(email))))
              && securityWarning == (if 0 < IntentosRestantes(|old(loginAttempts)|) <= 2
                                     then Advertencia(IntentosRestantes(|old(loginAttempts)|)) else "")
              && rememberEmail == old(rememberEmail)
              && auth.user == old(auth.user))
    {
      var locked := CheckLockout(ahora);
      if locked {
        return None;
      }
      securityWarning := "";
      var sanitizedEmail := sanitize(minusculas(email));
      if !emailValido(sanitizedEmail) {
        return None;
      }
      if !passwordValido(password) {
        return None;
      }
      user := auth.Login(sanitizedEmail, password);
      if user.None? {
        var previos := |loginAttempts|;
        RegisterFailedAttempt(sanitizedEmail, ahoraFallo, sanitize);
        var remainingAttempts := IntentosRestantes(previos);
        if remainingAttempts <= 2 && remainingAttempts > 0 {
          securityWarning := Advertencia(remainingAttempts);
        }
      } else {
        loginAttempts := [];
        securityWarning := "";
        if almacenLanza {
          // catch: the throw is reported as a failed attempt
          RegisterFailedAttempt(email, ahoraFallo, sanitize);
        } else if remember {
          rememberEmail := Some(sanitizedEmail);
        } else {
          rememberEmail := None;
        }
      }
    }
  }

  /** Once an attempt has been registered at time `now`, every stored
      attempt is younger than the attempt window, and the new one is last. */
  lemma RegistradosDentroDeVentana(prev: seq<LoginAttempt>, now: int, email: string)
    ensures var r := Registrar(prev, now, email);
      && r[|r| - 1] == LoginAttempt(now, email)
      && forall i :: 0 <= i < |r| ==> now - r[i].timestamp < AttemptWindow
  {
  }

  /** The attempt list after a failure at time `now` is recorded. */
  function Registrar(attempts: seq<LoginAttempt>, now: int, email: string): seq<LoginAttempt> {
    Filter(attempts, DentroDe(now, AttemptWindow)) + [LoginAttempt(now, email)]
  }

  /** Recording a failure keeps a tail of attempts that are all still
      inside the attempt window. */
  lemma RegistrarConservaCola(a: seq<LoginAttempt>, b: seq<LoginAttempt>, now: int, email: string)
    requires forall i :: 0 <= i < |b| ==> DentroDe(now, AttemptWindow)(b[i])
    ensures Registrar(a + b, now, email) == Filter(a, DentroDe(now, AttemptWindow)) + (b + [LoginAttempt(now, email)])
  {
    FilterAppend(a, b, DentroDe(now, AttemptWindow));
    FilterKeepsAll(b, DentroDe(now, AttemptWindow));
  }

  /** If the list ends with attempts that are all inside the window at
      time `now`, recording a failure keeps them and appends the new one. */
  lemma RegistrarTerminaEn(s: seq<LoginAttempt>, b: seq<LoginAttempt>, now: int, email: string)
    requires |b| <= |s| && s[|s| - |b|..] == b
    requires forall i :: 0 <= i < |b| ==> now - b[i].timestamp < AttemptWindow
    ensures var r := Registrar(s, now, email);
      |b| + 1 <= |r| && r[|r| - |b| - 1..] == b + [LoginAttempt(now, email)]
  {
    assert s == s[..|s| - |b|] + b;
    RegistrarConservaCola(s[..|s| - |b|], b, now, email);
  }

  /** The attempts recorded by failures at times `ts` with emails `emails`. */
  function Intentos(ts: seq<int>, emails: seq<string>): (r: seq<LoginAttempt>)
    requires |ts| == |emails|
    ensures |r| == |ts|
    ensures forall i :: 0 <= i < |ts| ==> r[i] == LoginAttempt(ts[i], emails[i])
  {
    seq(|ts|, i requires 0 <= i < |ts| => LoginAttempt(ts[i], emails[i]))
  }

  /** The attempt list after failures at times `ts`, in order. */
  function RegistrarTodos(prev: seq<LoginAttempt>, ts: seq<int>, emails: seq<string>): seq<LoginAttempt>
    requires |ts| == |emails|
    decreases |ts|
  {
    if ts == [] then prev
    else Registrar(RegistrarTodos(prev, ts[..|ts| - 1], emails[..|ts| - 1]), ts[|ts| - 1], emails[|ts| - 1])
  }

  /** Failures at non-decreasing times spanning less than the attempt window. */
  predicate Seguidos(ts: seq<int>) {
    && (forall i, j :: 0 <= i <= j < |ts| ==> ts[i] <= ts[j])
    && (|ts| > 0 ==> ts[|ts| - 1] - ts[0] < AttemptWindow)
  }

  /** Dropping the last failure of a run leaves a run. */
  lemma SeguidosSinUltimo(ts: seq<int>)
    requires |ts| > 0 && Seguidos(ts)
    ensures Seguidos(ts[..|ts| - 1])
  {
    var ts' := ts[..|ts| - 1];
    if |ts'| > 0 {
      assert ts'[|ts'| - 1] == ts[|ts| - 2] <= ts[|ts| - 1];
    }
  }

  /** The attempts of a run are the attempts of all but its last failure,
      followed by the last one. */
  lemma IntentosUltimo(ts: seq<int>, emails: seq<string>)
    requires |ts| == |emails| > 0
    ensures Intentos(ts[..|ts| - 1], emails[..|ts| - 1]) + [LoginAttempt(ts[|ts| - 1], emails[|ts| - 1])]
            == Intentos(ts, emails)
  {
  }

  /** A list ending with `b + [x]` ends with any list equal to it. */
  lemma ColaCompleta(r: seq<LoginAttempt>, b: seq<LoginAttempt>, x: LoginAttempt, completa: seq<LoginAttempt>)
    requires |b| + 1 <= |r| && r[|r| - |b| - 1..] == b + [x]
    requires b + [x] == completa
    ensures |completa| <= |r| && r[|r| - |completa|..] == completa
  {
  }

  /** Recording the last failure of a run after all the earlier ones
      leaves the list ending with the whole run. */
  lemma RegistrarUltimoDeRun(s: seq<LoginAttempt>, ts: seq<int>, emails: seq<string>)
    requires |ts| == |emails| > 0 && Seguidos(ts)
    requires |ts| - 1 <= |s| && s[|s| - (|ts| - 1)..] == Intentos(ts[..|ts| - 1], emails[..|ts| - 1])
    ensures var r := Registrar(s, ts[|ts| - 1], emails[|ts| - 1]);
      |ts| <= |r| && r[|r| - |ts|..] == Intentos(ts, emails)
  {
    var n := |ts|;
    var b := Intentos(ts[..n - 1], emails[..n - 1]);
    forall i | 0 <= i < |b| ensures ts[n - 1] - b[i].timestamp < AttemptWindow {
      assert b[i].timestamp == ts[i] >= ts[0];
    }
    RegistrarTerminaEn(s, b, ts[n - 1], emails[n - 1]);
    IntentosUltimo(ts, emails);
    ColaCompleta(Registrar(s, ts[n - 1], emails[n - 1]), b, LoginAttempt(ts[n - 1], emails[n - 1]), Intentos(ts, emails));
  }

  /** One step of a run, stated on the recorded list. */
  lemma PasoDeRun(prev: seq<LoginAttempt>, ts: seq<int>, emails: seq<string>)
    requires |ts| == |emails| > 0 && Seguidos(ts)
    requires var s := RegistrarTodos(prev, ts[..|ts| - 1], emails[..|ts| - 1]);
      |ts| - 1 <= |s| && s[|s| - (|ts| - 1)..] == Intentos(ts[..|ts| - 1], emails[..|ts| - 1])
    ensures var r := RegistrarTodos(prev, ts, emails);
      |ts| <= |r| && r[|r| - |ts|..] == Intentos(ts, emails)
  {
    var s := RegistrarTodos(prev, ts[..|ts| - 1], emails[..|ts| - 1]);
    assert RegistrarTodos(prev, ts, emails) == Registrar(s, ts[|ts| - 1], emails[|ts| - 1]);
    RegistrarUltimoDeRun(s, ts, emails);
  }

  /** None of a run of close failures is forgotten: the list ends with all
      of them, in order. */
  lemma {:induction false} RegistrarTodosTerminaEn(prev: seq<LoginAttempt>, ts: seq<int>, emails: seq<string>)
    requires |ts| == |emails| && Seguidos(ts)
    ensures var r := RegistrarTodos(prev, ts, emails);
      |ts| <= |r| && r[|r| - |ts|..] == Intentos(ts, emails)
    decreases |ts|
  {
    if |ts| > 0 {
      SeguidosSinUltimo(ts);
      RegistrarTodosTerminaEn(prev, ts[..|ts| - 1], emails[..|ts| - 1]);
      PasoDeRun(prev, ts, emails);
    }
  }

  /** Five failures recorded at non-decreasing times less than five minutes
      apart lock the form until fifteen minutes after the first of them,
      whatever was stored before. */
  lemma CincoFallosSeguidosBloquean(prev: seq<LoginAttempt>, ts: seq<int>, emails: seq<string>, now: int)
    requires |ts| == |emails| == MaxLoginAttempts && Seguidos(ts)
    requires ts[|ts| - 1] <= now < ts[0] + LockoutDuration
    ensures |Recientes(RegistrarTodos(prev, ts, emails), now)| >= MaxLoginAttempts
  {
    var r := RegistrarTodos(prev, ts, emails);
    RegistrarTodosTerminaEn(prev, ts, emails);
    var ultimos := Intentos(ts, emails);
    var antes := r[..|r| - |ts|];
    assert r == antes + ultimos;
    var reciente := DentroDe(now, LockoutDuration);
    forall i | 0 <= i < |ultimos| ensures reciente(ultimos[i]) {
      assert ultimos[i].timestamp == ts[i] >= ts[0];
    }
    FilterAppend(antes, ultimos, reciente);
    FilterKeepsAll(ultimos, reciente);
    assert Recientes(r, now) == Filter(antes, reciente) + ultimos;
  }
}
