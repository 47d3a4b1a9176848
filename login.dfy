/** The login screen (components/Login.js): the username pre-filled from a
    registration record, the empty-field gate, and which username and token
    `handleLogin` persists. */
module Login {
  import opened Js

  const LoginPath := "/api/auth/login"
  const FailedFallback := "Error al iniciar sesión"

  /** The value `reg.usuario` had, when it was a string (`typeof ... === 'string'`). */
  predicate IsString(v: Value) {
    v.Some? && v.value.Str?
  }

  /** The username after the `useEffect` that reads `route.params?.registro`:
      `reg.usuario` when it is a string, else `reg.usuario.usuario` when that is
      a string, else the first element of a non-empty `reg.usuario.correo`
      array; a falsy choice, or a falsy `reg`, leaves the username as it was. */
  function Prefill(reg: Value, username: Json): (u: Json)
    ensures !Truthy(reg) ==> u == username
    ensures u != username ==> Truthy(Some(u))
    // reg.usuario is a string
    ensures Truthy(reg) && IsString(OptProp(reg, "usuario")) ==>
              u == if OptProp(reg, "usuario").value.s != "" then OptProp(reg, "usuario").value else username
    // reg.usuario is falsy and not a string
    ensures Truthy(reg) && !IsString(OptProp(reg, "usuario")) && !Truthy(OptProp(reg, "usuario")) ==> u == username
    // reg.usuario.usuario is a string
    ensures var ru := OptProp(reg, "usuario");
            Truthy(reg) && !IsString(ru) && Truthy(ru) && IsString(OptProp(ru, "usuario")) ==>
              u == if OptProp(ru, "usuario").value.s != "" then OptProp(ru, "usuario").value else username
    // otherwise the first correo, when there is one and it is truthy
    ensures var ru := OptProp(reg, "usuario"); var c := OptProp(ru, "correo");
            Truthy(reg) && !IsString(ru) && Truthy(ru) && !IsString(OptProp(ru, "usuario")) ==>
              u == if c.Some? && c.value.Arr? && |c.value.items| > 0 && Truthy(Some(c.value.items[0]))
                   then c.value.items[0] else username
  {
    if !Truthy(reg) then username
    else
      // reg is neither null nor undefined here, so these reads cannot throw
      var ru := OptProp(reg, "usuario");
      var prefill :=
        if IsString(ru) then ru.value
        else if Truthy(ru) && IsString(OptProp(ru, "usuario")) then OptProp(ru, "usuario").value
        else if Truthy(ru) && OptProp(ru, "correo").Some? && OptProp(ru, "correo").value.Arr? &&
                |OptProp(ru, "correo").value.items| > 0 then OptProp(ru, "correo").value.items[0]
        else Str("");
      if Truthy(Some(prefill)) then prefill else username
  }

  /** What `handleLogin` ends with. */
  datatype LoginOutcome =
    | Incomplete             // an empty field: no request
    | Failed(alert: Json)    // non-ok response: body.error or a fallback
    | NoConnection           // the catch block
    | Welcome(shown: Value)  // alert with data.usuario, then Home

  class Screen {
    var username: Json
    var password: string
    var loading: bool

    constructor ()
      ensures username == Str("") && password == "" && !loading
    {
      username, password, loading := Str(""), "", false;
    }

    /** The `useEffect` on `route.params`. */
    method ApplyPrefill(reg: Value)
      modifies this`username
      ensures username == Prefill(reg, old(username))
    {
      username := Prefill(reg, username);
    }

    /** `handleLogin()`, with the backend's reply as input (used only if the
        request is sent). */
    method HandleLogin(store: Storage, reply: Reply)
      returns (request: Option<Request>, outcome: LoginOutcome, store': Storage)
      modifies this`loading
      ensures request.None? <==> username == Str("") || password == ""
      ensures request.None? ==> outcome == Incomplete && store' == store && loading == old(loading)
      ensures request.Some? ==>
                request.value == Request("POST", LoginPath, None,
                  Some(Obj([Field("usuario", username), Field("contrasena", Str(password))])))
                && !loading
      // nothing is written unless the response is ok
      ensures !(reply.Answered? && Ok(reply.status)) ==> store' == store
      // a parsed, non-null, non-ok answer fails with body.error or the fallback
      ensures outcome.Failed? <==>
                request.Some? && reply.Answered? && !Ok(reply.status) && reply.body.Some? && reply.body.value != Null
      ensures outcome.Failed? ==>
                outcome.alert == Or(OptProp(reply.body, "error"), Some(Str(FailedFallback))).value
      // the token is written only from a truthy data.token, and never removed
      ensures TokenKey in store ==> TokenKey in store'
      ensures TokenKey in store' && (TokenKey !in store || store'[TokenKey] != store[TokenKey]) ==>
                reply.Answered? && Ok(reply.status) && Truthy(OptProp(reply.body, "token")) &&
                IsString(OptProp(reply.body, "token")) &&
                store'[TokenKey] == Text(OptProp(reply.body, "token").value.s)
      // welcome exactly when an ok, non-null answer leaves a string token (if
      // any) and a string name to store; the name is data.usuario when
      // truthy, else the typed one; no other item is touched
      ensures outcome.Welcome? <==>
                request.Some? && reply.Answered? && Ok(reply.status) && reply.body.Some? && reply.body.value != Null &&
                (Truthy(OptProp(reply.body, "token")) ==> IsString(OptProp(reply.body, "token"))) &&
                Or(OptProp(reply.body, "usuario"), Some(username)).value.Str?
      ensures outcome.Welcome? ==>
                var token := OptProp(reply.body, "token");
                var name := Or(OptProp(reply.body, "usuario"), Some(username)).value;
                && outcome.shown == OptProp(reply.body, "usuario")
                && GetItem(store', UsuarioKey) == Some(name.s)
                && GetItem(store', TokenKey) == (if Truthy(token) then Some(token.value.s) else GetItem(store, TokenKey))
                && store' - {TokenKey, UsuarioKey} == store - {TokenKey, UsuarioKey}
      // every other way out of a sent request is the catch block
      ensures request.Some? && !outcome.Failed? && !outcome.Welcome? ==> outcome == NoConnection
      // the catch block keeps every item but the token written before the throw
      ensures outcome == NoConnection ==> store' - {TokenKey} == store - {TokenKey}
      ensures outcome == Incomplete <==> request.None?
    {
      request, store' := None, store;
      if username == Str("") || password == "" {
        outcome := Incomplete;
        return;
      }
      loading := true;
      request := Some(Request("POST", LoginPath, None,
                  Some(Obj([Field("usuario", username), Field("contrasena", Str(password))]))));
      outcome := NoConnection;
      // try: a failed fetch, a body that does not parse, a read of a property
      // of null and a rejected setItem all end in the catch (NoConnection)
      if reply.Answered? && reply.body.Some? && reply.body.value != Null {
        var data := reply.body;
        if !Ok(reply.status) {
          outcome := Failed(Or(OptProp(data, "error"), Some(Str(FailedFallback))).value);
        } else {
          var token := OptProp(data, "token");
          var tokenWritten := true;
          if Truthy(token) {
            // setItem accepts only a string value
            if token.value.Str? {
              store' := store'[TokenKey := Text(token.value.s)];
            } else {
              tokenWritten := false;
            }
          }
          if tokenWritten {
            var name := Or(OptProp(data, "usuario"), Some(username)).value;
            if name.Str? {
              store' := store'[UsuarioKey := Text(name.s)];
              outcome := Welcome(OptProp(data, "usuario"));
            }
          }
        }
      }
      loading := false;
    }
  }
}
