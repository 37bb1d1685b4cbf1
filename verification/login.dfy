/** The login page: the form check, the password-strength label, the
    role-based redirect, the error text chosen from the server's message,
    and the failure counter that blocks further attempts for 30 seconds
    from the third failure on. Times are milliseconds, given by the caller. */
module Login {
  import opened Seqs
  import opened Text

  /** `validarForm`: the username must not be blank after trimming and the
      password must have at least 8 characters; the form is valid exactly
      when no error was recorded. */
  method ValidarForm(username: string, password: string) returns (errs: map<string, string>, ok: bool)
    ensures "username" in errs <==> Trim(username) == ""
    ensures "password" in errs <==> |password| < 8
    ensures "username" in errs ==> errs["username"] == "Ingresa tu usuario"
    ensures "password" in errs ==> errs["password"] == "La contraseña debe tener al menos 8 caracteres"
    ensures errs.Keys <= {"username", "password"}
    ensures ok <==> Trim(username) != "" && |password| >= 8
    ensures ok <==> |errs| == 0
  {
    errs := map[];
    if username == "" || Trim(username) == "" {
      errs := errs["username" := "Ingresa tu usuario"];
    }
    if password == "" || |password| < 8 {
      errs := errs["password" := "La contraseña debe tener al menos 8 caracteres"];
    }
    ok := |errs| == 0;
    if !ok {
      assert "username" in errs || "password" in errs;
    }
  }

  /** `passwordStrength` (the registration page's `strengthLabel` is the
      same classification): empty, strong from 12 characters with an
      uppercase letter and a digit, medium from 8, weak otherwise. */
  function Fortaleza(pwd: string): (r: string)
    ensures r in {"vacía", "fuerte", "media", "débil"}
  {
    if pwd == "" then "vacía"
    else if |pwd| >= 12 && HasUpper(pwd) && HasDigit(pwd) then "fuerte"
    else if |pwd| >= 8 then "media"
    else "débil"
  }

  /** The label follows the length: only the empty password is "vacía",
      every password under 8 characters is "débil", a password of 8 to 11
      characters is "media", and from 12 on the label is "fuerte" exactly
      when the password has an uppercase letter and a digit. A password
      the form accepts is never "vacía" nor "débil". */
  lemma FortalezaPorLongitud(pwd: string)
    ensures Fortaleza(pwd) == "vacía" <==> pwd == ""
    ensures 0 < |pwd| < 8 ==> Fortaleza(pwd) == "débil"
    ensures 8 <= |pwd| < 12 ==> Fortaleza(pwd) == "media"
    ensures |pwd| >= 12 ==> (Fortaleza(pwd) == "fuerte" <==> HasUpper(pwd) && HasDigit(pwd))
    ensures |pwd| >= 8 ==> Fortaleza(pwd) in {"media", "fuerte"}
  {
  }

  /** Where a logged-in user goes: `admin` to the admin panel, `empleado`
      to the employee panel, anyone else to the client profile. */
  function RutaSegunRol(rol: string): (r: string)
    ensures r == "/panelAdmin" <==> rol == "admin"
    ensures r == "/panelEmpleado" <==> rol == "empleado"
    ensures r in {"/panelAdmin", "/panelEmpleado", "/perfilCliente"}
  {
    if rol == "admin" then "/panelAdmin"
    else if rol == "empleado" then "/panelEmpleado"
    else "/perfilCliente"
  }

  /** The error shown for a failed login, chosen by substring of the
      server's message, the first test winning. */
  function MensajeError(message: string): (r: string)
    ensures r == "Usuario o contraseña incorrectos" <==> Contains(message, "Credenciales inválidas")
    ensures r == "Este usuario no existe" <==>
      !Contains(message, "Credenciales inválidas") && Contains(message, "Usuario no encontrado")
    ensures r == "Error al conectar con el servidor. Intenta más tarde." <==>
      !Contains(message, "Credenciales inválidas") && !Contains(message, "Usuario no encontrado")
  {
    if Contains(message, "Credenciales inválidas") then "Usuario o contraseña incorrectos"
    else if Contains(message, "Usuario no encontrado") then "Este usuario no existe"
    else "Error al conectar con el servidor. Intenta más tarde."
  }

  /** What the server answered: the user's role, or a failure message. */
  datatype Respuesta = Aceptado(rol: string) | Fallido(message: string)

  /** What a submit leads to. */
  datatype Resultado =
    | Bloqueado
    | FormularioInvalido(errs: map<string, string>)
    | Redirigido(ruta: string)
    | Error(texto: string)

  const BLOQUEO_MS: int := 30 * 1000
  const MAX_INTENTOS: nat := 3

  /** The page's `attempts` and `blockedUntil` state. */
  class Intentos {
    var attempts: nat
    var blockedUntil: Option<int>

    constructor ()
      ensures attempts == 0 && blockedUntil == None
    {
      attempts := 0;
      blockedUntil := None;
    }

    /** `blockedUntil && Date.now() < blockedUntil`. */
    predicate BloqueadoEn(now: int)
      reads this
    {
      blockedUntil.Some? && now < blockedUntil.value
    }

    /** Once the counter has reached 3 a block time is set. */
    predicate Valid()
      reads this
    {
      attempts >= MAX_INTENTOS ==> blockedUntil.Some?
    }

    /** `handleSubmit` at time `now`; `respuesta` is what the login call
        would answer, used only when the call is made. */
    method Submit(now: int, username: string, password: string, respuesta: Respuesta) returns (r: Resultado)
      modifies this
      ensures old(BloqueadoEn(now)) ==> r == Bloqueado && attempts == old(attempts) && blockedUntil == old(blockedUntil)
      ensures r.FormularioInvalido? <==> !old(BloqueadoEn(now)) && (Trim(username) == "" || |password| < 8)
      ensures r.FormularioInvalido? ==> attempts == old(attempts) && blockedUntil == old(blockedUntil)
      ensures r.Redirigido? <==> !old(BloqueadoEn(now)) && Trim(username) != "" && |password| >= 8 && respuesta.Aceptado?
      ensures r.Redirigido? ==> r.ruta == RutaSegunRol(respuesta.rol) && attempts == 0 && blockedUntil == old(blockedUntil)
      ensures r.Error? <==> !old(BloqueadoEn(now)) && Trim(username) != "" && |password| >= 8 && respuesta.Fallido?
      ensures r.Error? ==> r.texto == MensajeError(respuesta.message) && attempts == old(attempts) + 1
      ensures r.Error? && attempts >= MAX_INTENTOS ==> blockedUntil == Some(now + BLOQUEO_MS)
      ensures r.Error? && attempts < MAX_INTENTOS ==> blockedUntil == old(blockedUntil)
      ensures old(Valid()) ==> Valid()
    {
      if blockedUntil.Some? && now < blockedUntil.value {
        return Bloqueado;
      }
      var errs, ok := ValidarForm(username, password);
      if !ok {
        return FormularioInvalido(errs);
      }
      match respuesta
      case Aceptado(rol) =>
        attempts := 0;
        r := Redirigido(RutaSegunRol(rol));
      case Fallido(message) =>
        var newCount := attempts + 1;
        if newCount >= MAX_INTENTOS {
          blockedUntil := Some(now + BLOQUEO_MS);
        }
        attempts := newCount;
        r := Error(MensajeError(message));
    }
  }

  /** Three failed logins in a row block the page: the third failure, at
      time `t3`, is followed by 30 seconds in which every submit is
      refused without calling the server. */
  method TresFallos(t1: int, t2: int, t3: int, username: string, password: string, message: string, later: int)
    returns (r: Resultado)
    requires Trim(username) != "" && |password| >= 8
    requires t3 <= later < t3 + BLOQUEO_MS
    ensures r == Bloqueado
  {
    var s := new Intentos();
    var r1 := s.Submit(t1, username, password, Fallido(message));
    assert r1.Error? && s.attempts == 1 && s.blockedUntil == None;
    var r2 := s.Submit(t2, username, password, Fallido(message));
    assert r2.Error? && s.attempts == 2 && s.blockedUntil == None;
    var r3 := s.Submit(t3, username, password, Fallido(message));
    assert r3.Error? && s.attempts == 3;
    r := s.Submit(later, username, password, Aceptado("admin"));
  }
}
