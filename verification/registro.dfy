/** The registration page: the field checks that fill the error map, the
    strength label shared with the login page, and the redirect after the
    automatic login that follows a successful registration. */
module Registro {
  import opened Seqs
  import opened Text
  import opened Login

  /** The form fields that are checked (phone and address are not). */
  datatype Formulario = Formulario(username: string, email: string, password: string, nombreCompleto: string)

  /** `/^[^\s@]+@[^\s@]+\.[^\s@]+$/.test(s)`: no white space, exactly one
      `@` with something before it, and after it a `.` with something on
      both sides. */
  predicate EmailValido(s: string)
  {
    exists i, j :: 0 < i && i + 1 < j && j + 1 < |s| && s[i] == '@' && s[j] == '.'
      && forall k :: 0 <= k < |s| ==> !IsJsSpace(s[k]) && (s[k] == '@' ==> k == i)
  }

  /** Some addresses the pattern accepts and refuses. */
  lemma EmailEjemplos()
    ensures EmailValido("ana@mims.co")
    ensures !EmailValido("ana@mims")
    ensures !EmailValido("@mims.co")
    ensures !EmailValido("ana@@mims.co")
    ensures !EmailValido("ana lopez@mims.co")
  {
    var s := "ana@mims.co";
    assert s[3] == '@' && s[8] == '.';
    forall k | 0 <= k < |s| ensures !IsJsSpace(s[k]) && (s[k] == '@' ==> k == 3) {
    }
    var t := "ana@@mims.co";
    assert t[3] == '@' && t[4] == '@';
    var u := "ana lopez@mims.co";
    assert IsJsSpace(u[3]);
  }

  /** The password rule: at least 8 characters, an uppercase letter and a
      digit. */
  predicate ContrasenaAceptada(pwd: string)
  {
    |pwd| >= 8 && HasUpper(pwd) && HasDigit(pwd)
  }

  /** Every field check passes. */
  predicate FormularioValido(f: Formulario, confirmPassword: string)
  {
    !Corto(f.username) && EmailValido(f.email) && ContrasenaAceptada(f.password)
    && confirmPassword == f.password && !Corto(f.nombreCompleto)
  }

  /** `!s || s.trim().length < 3`. */
  predicate Corto(s: string)
  {
    |Trim(s)| < 3
  }

  /** The message the password gets: the length message, then the suffix
      when an uppercase letter or a digit is missing. */
  function ErrorPassword(pwd: string): string
  {
    (if |pwd| < 8 then "Contraseña mínimo 8 caracteres" else "")
    + (if !HasUpper(pwd) || !HasDigit(pwd) then SUFIJO_PASSWORD else "")
  }

  const SUFIJO_PASSWORD: string := " — incluye mayúscula y número"

  /** The error object `e`: one optional message per checked field. */
  datatype Errores = Errores(
    username: Option<string>,
    email: Option<string>,
    password: Option<string>,
    confirmar: Option<string>,
    nombreCompleto: Option<string>)

  /** `Object.keys(e).length === 0`. */
  predicate SinErrores(e: Errores)
  {
    e.username.None? && e.email.None? && e.password.None? && e.confirmar.None? && e.nombreCompleto.None?
  }

  /** `validar`: the error object filled field by field, the password's
      second check appending to what the first one wrote. The form is valid
      exactly when no field got a message. */
  method Validar(f: Formulario, confirmPassword: string) returns (e: Errores, ok: bool)
    ensures e.username.Some? <==> Corto(f.username)
    ensures e.email.Some? <==> !EmailValido(f.email)
    ensures e.password.Some? <==> !ContrasenaAceptada(f.password)
    ensures e.confirmar.Some? <==> confirmPassword != f.password
    ensures e.nombreCompleto.Some? <==> Corto(f.nombreCompleto)
    ensures e.password.Some? ==> e.password.value == ErrorPassword(f.password)
    ensures e.username.Some? ==> e.username.value == "Usuario mínimo 3 caracteres"
    ensures e.email.Some? ==> e.email.value == "Correo inválido"
    ensures e.confirmar.Some? ==> e.confirmar.value == "Las contraseñas no coinciden"
    ensures e.nombreCompleto.Some? ==> e.nombreCompleto.value == "Nombre mínimo 3 caracteres"
    ensures ok <==> SinErrores(e)
    ensures ok <==> FormularioValido(f, confirmPassword)
  {
    e := ValidarUsuarioYCorreo(f);
    e := ValidarPassword(e, f.password);
    e := ValidarConfirmacionYNombre(e, f, confirmPassword);
    ok := SinErrores(e);
  }

  /** The first two steps of `validar`, on an empty error object. */
  method ValidarUsuarioYCorreo(f: Formulario) returns (e: Errores)
    ensures e.password.None? && e.confirmar.None? && e.nombreCompleto.None?
    ensures e.username == (if Corto(f.username) then Some("Usuario mínimo 3 caracteres") else None)
    ensures e.email == (if EmailValido(f.email) then None else Some("Correo inválido"))
  {
    e := Errores(None, None, None, None, None);
    if f.username == "" || Corto(f.username) {
      e := e.(username := Some("Usuario mínimo 3 caracteres"));
    }
    if f.email == "" || !EmailValido(f.email) {
      e := e.(email := Some("Correo inválido"));
    }
  }

  /** The two password steps; the second appends to the first's message. */
  method ValidarPassword(e0: Errores, password: string) returns (e: Errores)
    requires e0.password.None?
    ensures e == e0.(password := if ContrasenaAceptada(password) then None else Some(ErrorPassword(password)))
  {
    e := e0;
    if password == "" || |password| < 8 {
      e := e.(password := Some("Contraseña mínimo 8 caracteres"));
    }
    if !HasUpper(password) || !HasDigit(password) {
      e := e.(password := Some((if e.password.Some? then e.password.value else "") + SUFIJO_PASSWORD));
      assert "" + SUFIJO_PASSWORD == SUFIJO_PASSWORD;
    } else {
      assert "Contraseña mínimo 8 caracteres" + "" == "Contraseña mínimo 8 caracteres";
    }
  }

  /** The confirmation and full-name steps. */
  method ValidarConfirmacionYNombre(e0: Errores, f: Formulario, confirmPassword: string) returns (e: Errores)
    ensures e == e0.(
      confirmar := if confirmPassword != f.password then Some("Las contraseñas no coinciden") else e0.confirmar,
      nombreCompleto := if Corto(f.nombreCompleto) then Some("Nombre mínimo 3 caracteres") else e0.nombreCompleto)
  {
    e := e0;
    if confirmPassword != f.password {
      e := e.(confirmar := Some("Las contraseñas no coinciden"));
    }
    if f.nombreCompleto == "" || Corto(f.nombreCompleto) {
      e := e.(nombreCompleto := Some("Nombre mínimo 3 caracteres"));
    }
  }

  /** A password the form accepts is labelled "fuerte" from 12 characters
      on and "media" below; a password labelled "fuerte" is always
      accepted, while "media" ones may still lack an uppercase letter or a
      digit. */
  lemma FortalezaDeContrasenaAceptada(pwd: string)
    ensures ContrasenaAceptada(pwd) ==> Fortaleza(pwd) == (if |pwd| >= 12 then "fuerte" else "media")
    ensures Fortaleza(pwd) == "fuerte" ==> ContrasenaAceptada(pwd)
    ensures !ContrasenaAceptada("abcdefgh") && Fortaleza("abcdefgh") == "media"
  {
    assert !HasUpper("abcdefgh") by {
      forall i | 0 <= i < 8 ensures !IsUpper("abcdefgh"[i]) {
      }
    }
  }

  /** The roles the application assigns (the user page's role list). */
  const ROLES: set<string> := {"cliente", "empleado", "admin"}

  /** The redirect as the registration page writes it: it tests for
      "administrador", a role the application never assigns. */
  function RedirigirComoEscrito(rol: string): (r: string)
    ensures r == "/panelAdmin" <==> rol == "administrador"
    ensures r == "/panelEmpleado" <==> rol == "empleado"
    ensures r in {"/panelAdmin", "/panelEmpleado", "/perfilCliente"}
  {
    if rol == "administrador" then "/panelAdmin"
    else if rol == "empleado" then "/panelEmpleado"
    else "/perfilCliente"
  }

  /** No role the application assigns reaches the admin panel after
      registering; an admin lands on the client profile, where the login
      page sends them to the admin panel. */
  lemma AdminNoLlegaAlPanel()
    ensures forall rol :: rol in ROLES ==> RedirigirComoEscrito(rol) != "/panelAdmin"
    ensures RedirigirComoEscrito("admin") == "/perfilCliente" && RutaSegunRol("admin") == "/panelAdmin"
  {
  }

  /** What a registration attempt leads to. */
  datatype Registrado = Invalido(errores: Errores) | Ingreso(ruta: string) | ErrorServidor

  /** `handleSubmit` with the redirect the login page uses: nothing is sent
      for an invalid form; otherwise registration and the automatic login
      either fail (`rol` is `None`) or give the user's role, which chooses
      the page. */
  method EnviarRegistro(f: Formulario, confirmPassword: string, rol: Option<string>) returns (r: Registrado)
    ensures r.Invalido? <==> !FormularioValido(f, confirmPassword)
    ensures r.Invalido? ==> !SinErrores(r.errores)
    ensures r.Ingreso? <==> !r.Invalido? && rol.Some?
    ensures r.Ingreso? ==> r.ruta == RutaSegunRol(rol.value)
    ensures r.Ingreso? ==> (r.ruta == "/panelAdmin" <==> rol.value == "admin")
  {
    var e, ok := Validar(f, confirmPassword);
    if !ok {
      return Invalido(e);
    }
    if rol.None? {
      return ErrorServidor;
    }
    r := Ingreso(RutaSegunRol(rol.value));
  }
}
