/** The user registration screen (components/Registro.js): the password rule,
    the submission gates of `handleNext`, the registration payload and which
    outcomes mark the form as saved and write the local registration record. */
module Registro {
  import opened Text
  import opened Js

  predicate IsUpperAZ(c: char) { 'A' <= c <= 'Z' }
  predicate IsDigit(c: char) { '0' <= c <= '9' }
  predicate IsAlnum(c: char) { 'A' <= c <= 'Z' || 'a' <= c <= 'z' || '0' <= c <= '9' }

  /** The characters that `.` does not match in a JavaScript regular expression. */
  predicate IsLineTerminator(c: char) {
    c == '\n' || c == '\r' || c == '\U{2028}' || c == '\U{2029}'
  }

  /** The character classes the password lookaheads search for. */
  datatype CharClass = UpperAZ | Digit

  predicate InClass(c: char, cls: CharClass) {
    match cls
    case UpperAZ => IsUpperAZ(c)
    case Digit => IsDigit(c)
  }

  /** The password rule as the comment above the regular expression words it:
      at least 8 characters, an upper-case letter A-Z, a digit, and nothing
      but ASCII letters and digits. */
  predicate PasswordRule(p: string) {
    && |p| >= 8
    && (exists i :: 0 <= i < |p| && IsUpperAZ(p[i]))
    && (exists i :: 0 <= i < |p| && IsDigit(p[i]))
    && (forall i :: 0 <= i < |p| ==> IsAlnum(p[i]))
  }

  /** The regular expression /^(?=.{8,}$)(?=.*[A-Z])(?=.*\d)[A-Za-z0-9]+$/ as the
      JavaScript engine matches it, term by term, at position 0. */
  predicate RegexTest(s: string)
    ensures RegexTest(s) ==> s != [] && forall i :: 0 <= i < |s| ==> IsAlnum(s[i])
  {
    AlnumToEndMeaning(s);
    DotsToEnd(s, 8) && DotsThen(s, UpperAZ) && DotsThen(s, Digit) && AlnumToEnd(s)
  }

  /** `.{min,}$`: at least `min` characters that `.` matches, then the end. */
  predicate DotsToEnd(s: string, min: nat) {
    if s == [] then min == 0
    else !IsLineTerminator(s[0]) && DotsToEnd(s[1..], if min > 0 then min - 1 else 0)
  }

  /** `.*[X]`: some characters that `.` matches, then one of class `cls`. */
  predicate DotsThen(s: string, cls: CharClass) {
    s != [] && (InClass(s[0], cls) || (!IsLineTerminator(s[0]) && DotsThen(s[1..], cls)))
  }

  /** `[A-Za-z0-9]+$`. */
  predicate AlnumToEnd(s: string) {
    s != [] && IsAlnum(s[0]) && (|s| == 1 || AlnumToEnd(s[1..]))
  }

  lemma {:induction false} AlnumToEndMeaning(s: string)
    ensures AlnumToEnd(s) <==> s != [] && forall i :: 0 <= i < |s| ==> IsAlnum(s[i])
  {
    if |s| > 1 {
      AlnumToEndMeaning(s[1..]);
      assert forall i :: 1 <= i < |s| ==> s[i] == s[1..][i - 1];
    }
  }

  lemma {:induction false} DotsToEndMeaning(s: string, min: nat)
    requires forall i :: 0 <= i < |s| ==> IsAlnum(s[i])
    ensures DotsToEnd(s, min) <==> |s| >= min
  {
    if s != [] {
      assert forall i :: 0 <= i < |s| - 1 ==> s[1..][i] == s[i + 1];
      DotsToEndMeaning(s[1..], if min > 0 then min - 1 else 0);
    }
  }

  lemma {:induction false} DotsThenMeaning(s: string, cls: CharClass)
    requires forall i :: 0 <= i < |s| ==> IsAlnum(s[i])
    ensures DotsThen(s, cls) <==> exists i :: 0 <= i < |s| && InClass(s[i], cls)
  {
    if s != [] {
      assert forall i :: 0 <= i < |s| - 1 ==> s[1..][i] == s[i + 1];
      DotsThenMeaning(s[1..], cls);
      if exists i :: 0 <= i < |s| && InClass(s[i], cls) {
        var i :| 0 <= i < |s| && InClass(s[i], cls);
        if i > 0 { assert InClass(s[1..][i - 1], cls); }
      }
    }
  }

  /** The regular expression accepts exactly the passwords the rule describes. */
  lemma PasswordRegexMeaning(p: string)
    ensures RegexTest(p) <==> PasswordRule(p)
  {
    AlnumToEndMeaning(p);
    if forall i :: 0 <= i < |p| ==> IsAlnum(p[i]) {
      DotsToEndMeaning(p, 8);
      DotsThenMeaning(p, UpperAZ);
      DotsThenMeaning(p, Digit);
      assert (exists i :: 0 <= i < |p| && InClass(p[i], UpperAZ)) <==> (exists i :: 0 <= i < |p| && IsUpperAZ(p[i]));
      assert (exists i :: 0 <= i < |p| && InClass(p[i], Digit)) <==> (exists i :: 0 <= i < |p| && IsDigit(p[i]));
    }
  }

  const PasswordMessage := "La contraseña debe tener mínimo 8 caracteres, al menos una mayúscula, al menos un número y sólo letras (A-Z) y dígitos."

  /** The error `onPasswordChange` records for the typed text: none for an empty
      password, none for one the rule accepts, the fixed message otherwise. */
  function PasswordErrorFor(text: string): (e: string)
    ensures text == "" ==> e == ""
    ensures text != "" && PasswordRule(text) ==> e == ""
    ensures text != "" && !PasswordRule(text) ==> e == PasswordMessage
  {
    PasswordRegexMeaning(text);
    if text == "" then "" else if !RegexTest(text) then PasswordMessage else ""
  }

  const RegisterPath := "/api/auth/register"
  const RejectedFallback := "No se pudo registrar en el servidor"

  /** What `handleNext` ends with. */
  datatype NextOutcome =
    | ToVehicleScreen           // already saved: navigate to Registrocarro
    | MissingPersonal           // nombre, apPat or correo empty
    | MissingVehicle            // vehicle requested but marca, modelo or placas empty
    | InvalidPassword(message: string)
    | Rejected(alert: Json)     // non-ok response, alert with body.error or a fallback
    | Registered(registro: Json)   // alert, then Login with this record
    | SavedLocally(registro: Json) // offline fallback, Login with this record

  /** A vehicle as the client sends it. */
  datatype Vehicle = Vehicle(marca: string, modelo: string, placas: string, vin: string)

  /** The registration payload `usuarioData`. */
  datatype UsuarioData = UsuarioData(
    nombre: string, apPat: string, apMat: string,
    usuario: string, contrasena: string,
    correo: string, telefono: string,
    entidad: string, municipio: string,
    vehiculo: Option<Vehicle>)

  /** The vehicle object: each of its four keys reads back its field. */
  function VehicleJson(v: Vehicle): (j: Json)
    ensures j.Obj?
    ensures Lookup(j.fields, "marca") == Some(Str(v.marca)) && Lookup(j.fields, "modelo") == Some(Str(v.modelo))
    ensures Lookup(j.fields, "placas") == Some(Str(v.placas)) && Lookup(j.fields, "VIN") == Some(Str(v.vin))
  {
    var fs := [Field("marca", Str(v.marca)), Field("modelo", Str(v.modelo)),
               Field("placas", Str(v.placas)), Field("VIN", Str(v.vin))];
    LookupHit(fs, 1, "modelo");
    LookupHit(fs, 2, "placas");
    LookupHit(fs, 3, "VIN");
    Obj(fs)
  }

  /** The JSON object `usuarioData` is, with its keys in the order the source
      writes them. */
  function UsuarioJson(d: UsuarioData): Json {
    Obj(UsuarioFields(d) + VehicleTail(d.vehiculo))
  }

  /** Each key of `usuarioData` reads back its field, `correo` and `telefono`
      are one-element lists, and there is a `vehiculo` key exactly when a
      vehicle is included. */
  lemma UsuarioJsonFields(d: UsuarioData)
    ensures UsuarioJson(d).Obj?
    ensures Lookup(UsuarioJson(d).fields, "usuario") == Some(Str(d.usuario))
    ensures Lookup(UsuarioJson(d).fields, "contrasena") == Some(Str(d.contrasena))
    ensures Lookup(UsuarioJson(d).fields, "correo") == Some(Arr([Str(d.correo)]))
    ensures Lookup(UsuarioJson(d).fields, "telefono") == Some(Arr([Str(d.telefono)]))
    ensures Lookup(UsuarioJson(d).fields, "numero_vehiculos") == Some(Num(1))
    ensures Lookup(UsuarioJson(d).fields, "entidad") == Some(Str(d.entidad))
    ensures Lookup(UsuarioJson(d).fields, "municipio") == Some(Str(d.municipio))
    ensures Lookup(UsuarioJson(d).fields, "vehiculo") == match d.vehiculo
                                                         case Some(v) => Some(VehicleJson(v))
                                                         case None => None
  {
    UsuarioLookups(d, VehicleTail(d.vehiculo));
    VehicleTailLookup(d);
  }

  /** `nombre_usuario` reads back the given name and both surnames. */
  lemma UsuarioJsonName(d: UsuarioData)
    ensures var n := OptProp(Some(UsuarioJson(d)), "nombre_usuario");
            && OptProp(n, "nombre") == Some(Str(d.nombre))
            && OptProp(n, "ap_pat") == Some(Str(d.apPat))
            && OptProp(n, "ap_mat") == Some(Str(d.apMat))
  {
    NombreBack(d);
  }

  /** `nombre_usuario`: the given name and the two surnames. */
  function NombreJson(d: UsuarioData): Json {
    Obj([Field("nombre", Str(d.nombre)), Field("ap_pat", Str(d.apPat)), Field("ap_mat", Str(d.apMat))])
  }

  /** The name object reads back its three names. */
  lemma NombreBack(d: UsuarioData)
    ensures Lookup(NombreJson(d).fields, "nombre") == Some(Str(d.nombre))
    ensures Lookup(NombreJson(d).fields, "ap_pat") == Some(Str(d.apPat))
    ensures Lookup(NombreJson(d).fields, "ap_mat") == Some(Str(d.apMat))
  {
    LookupHit(NombreJson(d).fields, 1, "ap_pat");
    LookupHit(NombreJson(d).fields, 2, "ap_mat");
  }

  /** The `vehiculo` field, present only when a vehicle is included. */
  function VehicleTail(v: Option<Vehicle>): seq<Field> {
    match v
    case Some(v) => [Field("vehiculo", VehicleJson(v))]
    case None => []
  }

  /** `vehiculo` is found in the trailing field, or not at all. */
  lemma VehicleTailLookup(d: UsuarioData)
    ensures Lookup(UsuarioFields(d) + VehicleTail(d.vehiculo), "vehiculo") == match d.vehiculo
                                            case Some(v) => Some(VehicleJson(v))
                                            case None => None
  {
    var fs := UsuarioFields(d) + VehicleTail(d.vehiculo);
    match d.vehiculo {
      case Some(v) =>
        LookupHit(fs, 8, "vehiculo");
      case None =>
        assert fs == UsuarioFields(d);
    }
  }

  function UsuarioFields(d: UsuarioData): (fs: seq<Field>)
    ensures |fs| == 8
    ensures forall i :: 0 <= i < |fs| ==> fs[i].key != "vehiculo"
  {
    [
      Field("nombre_usuario", NombreJson(d)),
      Field("usuario", Str(d.usuario)),
      Field("contrasena", Str(d.contrasena)),
      Field("correo", Arr([Str(d.correo)])),
      Field("telefono", Arr([Str(d.telefono)])),
      Field("numero_vehiculos", Num(1)),
      Field("entidad", Str(d.entidad)),
      Field("municipio", Str(d.municipio))
    ]
  }

  /** Each of the eight base keys reads back its field, whatever follows them. */
  lemma UsuarioLookups(d: UsuarioData, tail: seq<Field>)
    ensures Lookup(UsuarioFields(d) + tail, "usuario") == Some(Str(d.usuario))
    ensures Lookup(UsuarioFields(d) + tail, "contrasena") == Some(Str(d.contrasena))
    ensures Lookup(UsuarioFields(d) + tail, "correo") == Some(Arr([Str(d.correo)]))
    ensures Lookup(UsuarioFields(d) + tail, "telefono") == Some(Arr([Str(d.telefono)]))
    ensures Lookup(UsuarioFields(d) + tail, "numero_vehiculos") == Some(Num(1))
    ensures Lookup(UsuarioFields(d) + tail, "entidad") == Some(Str(d.entidad))
    ensures Lookup(UsuarioFields(d) + tail, "municipio") == Some(Str(d.municipio))
  {
    UsuarioLookup(d, tail, 1);
    UsuarioLookup(d, tail, 2);
    UsuarioLookup(d, tail, 3);
    UsuarioLookup(d, tail, 4);
    UsuarioLookup(d, tail, 5);
    UsuarioLookup(d, tail, 6);
    UsuarioLookup(d, tail, 7);
  }

  /** The key at position `i` of the base fields is found there. */
  lemma UsuarioLookup(d: UsuarioData, tail: seq<Field>, i: nat)
    requires 1 <= i < 8
    ensures Lookup(UsuarioFields(d) + tail, UsuarioFields(d)[i].key) == Some(UsuarioFields(d)[i].value)
  {
    var fs := UsuarioFields(d);
    if i == 1 {
      LookupHit(fs, 1, "usuario");
    } else if i == 2 {
      LookupHit(fs, 2, "contrasena");
    } else if i == 3 {
      LookupHit(fs, 3, "correo");
    } else if i == 4 {
      LookupHit(fs, 4, "telefono");
    } else if i == 5 {
      LookupHit(fs, 5, "numero_vehiculos");
    } else if i == 6 {
      LookupHit(fs, 6, "entidad");
    } else {
      LookupHit(fs, 7, "municipio");
    }
    LookupPrefix(fs, tail, fs[i].key);
  }

  /** `usuarioData.vehiculo || null`. */
  function VehicleOrNull(d: UsuarioData): Json {
    match d.vehiculo
    case Some(v) => VehicleJson(v)
    case None => Null
  }

  /** The record handed to the Login screen. */
  function LoginRecord(usuario: Json, vehiculo: Json): (j: Json)
    ensures Prop(Some(j), "usuario") == Gives(Some(usuario))
    ensures Prop(Some(j), "vehiculo") == Gives(Some(vehiculo))
  {
    var fs := [Field("usuario", usuario), Field("vehiculo", vehiculo)];
    LookupHit(fs, 1, "vehiculo");
    Obj(fs)
  }

  /** The record the offline fallback hands to the Login screen. */
  function LocalRecord(d: UsuarioData): Json {
    LoginRecord(UsuarioJson(d), VehicleOrNull(d))
  }

  /** What the request and its try/catch make of the reply: a non-ok parsed
      reply is rejected with `body.error` or a fallback and writes nothing;
      an ok one saves the record and hands the backend's `usuario` and
      `vehiculo` (or the local ones) to Login; any failure to reach the
      backend or to use its answer saves the record and hands the local one.
      The specification of `Form.Submit`. */
  predicate Submitted(d: UsuarioData, store: Storage, reply: Reply, outcome: NextOutcome, store': Storage)
  {
    && (outcome.Registered? || outcome.SavedLocally? || outcome.Rejected?)
    && store' == (if outcome.Rejected? then store else store[RegistroKey := Doc(UsuarioJson(d))])
    && match reply
       case Answered(st, Some(b)) =>
         if b == Null then outcome == SavedLocally(LocalRecord(d))
         else if !Ok(st) then outcome == Rejected(Or(Prop(Some(b), "error").v, Some(Str(RejectedFallback))).value)
         else outcome == Registered(LoginRecord(Or(Prop(Some(b), "usuario").v, Some(UsuarioJson(d))).value,
                                                Or(Prop(Some(b), "vehiculo").v, Some(VehicleOrNull(d))).value))
       case _ => outcome == SavedLocally(LocalRecord(d))
  }

  /** After the request: rejected exactly by a parsed, non-null, non-ok
      answer; otherwise the record stored under `registro` is the JSON text
      of the payload; no other item changes. */
  lemma SubmittedStores(d: UsuarioData, store: Storage, reply: Reply, outcome: NextOutcome, store': Storage)
    requires Submitted(d, store, reply, outcome, store')
    ensures outcome.Rejected? <==> reply.Answered? && !Ok(reply.status) && reply.body.Some? && reply.body.value != Null
    ensures !outcome.Rejected? ==> GetItem(store', RegistroKey) == Some(Stringify(UsuarioJson(d)))
    ensures outcome.Rejected? ==> store' == store
    ensures forall k :: k != RegistroKey ==> GetItem(store', k) == GetItem(store, k)
  {
  }

  class Form {
    var nombre: string
    var apPat: string
    var apMat: string
    var correo: string
    var telefono: string
    var usuario: string
    var contrasena: string
    var passwordError: string
    var entidad: string
    var municipio: string
    var includeVehiculo: bool
    var marca: string
    var modelo: string
    var placas: string
    var vin: string
    var saved: bool
    var loading: bool

    constructor ()
      ensures nombre == apPat == apMat == correo == telefono == usuario == ""
      ensures contrasena == passwordError == entidad == municipio == ""
      ensures marca == modelo == placas == vin == ""
      ensures !includeVehiculo && !saved && !loading
      ensures Valid()
    {
      nombre, apPat, apMat, correo, telefono, usuario := "", "", "", "", "", "";
      contrasena, passwordError, entidad, municipio := "", "", "", "";
      marca, modelo, placas, vin := "", "", "", "";
      includeVehiculo, saved, loading := false, false, false;
    }

    /** The shown error is the one computed for the current password, which
        holds as long as the password changes only through `OnPasswordChange`. */
    ghost predicate Valid()
      reads this
    {
      passwordError == PasswordErrorFor(contrasena)
    }

    /** `onPasswordChange(text)`: stores the text and its error. */
    method OnPasswordChange(text: string)
      modifies this`contrasena, this`passwordError
      ensures contrasena == text && Valid()
      ensures text == "" || PasswordRule(text) ==> passwordError == ""
      ensures text != "" && !PasswordRule(text) ==> passwordError == PasswordMessage
    {
      contrasena := text;
      var pwOk := RegexTest(text);
      PasswordRegexMeaning(text);
      if text == "" {
        passwordError := "";
      } else if !pwOk {
        passwordError := PasswordMessage;
      } else {
        passwordError := "";
      }
    }

    /** The username sent: `usuario`, or the part of `correo` before its first '@'. */
    function Username(): (u: string)
      reads this`usuario, this`correo
      ensures usuario != "" ==> u == usuario
      ensures usuario == "" ==> u <= correo && '@' !in u && (|u| == |correo| || correo[|u|] == '@')
    {
      OrText(usuario, Before(correo, '@'))
    }

    /** `usuarioData`. `generated` stands for the random default password
        that is used when the password field is empty. */
    function Payload(generated: string): UsuarioData
      reads this`nombre, this`apPat, this`apMat, this`usuario, this`contrasena, this`correo, this`telefono
      reads this`entidad, this`municipio, this`includeVehiculo, this`marca, this`modelo, this`placas, this`vin
    {
      UsuarioData(nombre, apPat, apMat, Username(), OrText(contrasena, generated),
                  correo, telefono, OrText(entidad, ""), OrText(municipio, ""),
                  if includeVehiculo then Some(Vehicle(marca, modelo, placas, OrText(vin, ""))) else None)
    }

    /** The JSON sent carries the username, the typed or generated password,
        one-element `correo` and `telefono` lists, `entidad` and `municipio`,
        and a `vehiculo` holding the typed plates and VIN exactly when one is
        included. */
    lemma PayloadSent(generated: string)
      ensures var fs := UsuarioJson(Payload(generated)).fields;
              && Lookup(fs, "usuario") == Some(Str(Username()))
              && Lookup(fs, "contrasena") == Some(Str(if contrasena != "" then contrasena else generated))
              && Lookup(fs, "correo") == Some(Arr([Str(correo)]))
              && Lookup(fs, "telefono") == Some(Arr([Str(telefono)]))
              && Lookup(fs, "entidad") == Some(Str(entidad)) && Lookup(fs, "municipio") == Some(Str(municipio))
              && (Lookup(fs, "vehiculo").Some? <==> includeVehiculo)
              && (includeVehiculo ==>
                    && Lookup(fs, "vehiculo").value.Obj?
                    && Lookup(Lookup(fs, "vehiculo").value.fields, "placas") == Some(Str(placas))
                    && Lookup(Lookup(fs, "vehiculo").value.fields, "VIN") == Some(Str(vin)))
    {
      UsuarioJsonFields(Payload(generated));
    }

    /** Whether `handleNext` gets past its three validation gates. */
    predicate PassesGates()
      reads this`nombre, this`apPat, this`correo, this`includeVehiculo, this`marca, this`modelo, this`placas
      reads this`contrasena, this`passwordError
    {
      && nombre != "" && apPat != "" && correo != ""
      && !(includeVehiculo && (marca == "" || modelo == "" || placas == ""))
      && !(contrasena != "" && passwordError != "")
    }

    /** The early returns of `handleNext()`: an already saved form goes on
        to the vehicle screen, then the personal fields, the vehicle fields
        when a vehicle is included, and a password with an error shown.
        `None` when every gate is passed. */
    function GateOutcome(): (r: Option<NextOutcome>)
      reads this`saved, this`nombre, this`apPat, this`correo, this`includeVehiculo, this`marca, this`modelo
      reads this`placas, this`contrasena, this`passwordError
      ensures saved ==> r == Some(ToVehicleScreen)
      ensures !saved && (nombre == "" || apPat == "" || correo == "") ==> r == Some(MissingPersonal)
      ensures !saved && nombre != "" && apPat != "" && correo != "" &&
              includeVehiculo && (marca == "" || modelo == "" || placas == "") ==>
                r == Some(MissingVehicle)
      ensures r.Some? && r.value.InvalidPassword? ==> r.value.message == passwordError
      // past the first three gates, the password gate stops exactly on a
      // non-empty password with an error shown, and with that error
      ensures !saved && nombre != "" && apPat != "" && correo != "" &&
              !(includeVehiculo && (marca == "" || modelo == "" || placas == "")) ==>
                r == if contrasena != "" && passwordError != "" then Some(InvalidPassword(passwordError)) else None
      ensures r.None? <==> !saved && PassesGates()
      // with the password gate read through the standing invariant
      ensures Valid() && !saved && nombre != "" && apPat != "" && correo != "" &&
              !(includeVehiculo && (marca == "" || modelo == "" || placas == "")) ==>
                (r.Some? <==> contrasena != "" && !PasswordRule(contrasena))
    {
      if saved then Some(ToVehicleScreen)
      else if nombre == "" || apPat == "" || correo == "" then Some(MissingPersonal)
      else if includeVehiculo && (marca == "" || modelo == "" || placas == "") then Some(MissingVehicle)
      else if contrasena != "" && passwordError != "" then Some(InvalidPassword(passwordError))
      else None
    }

    /** `handleNext()`: given the stored items, the random default password and
        the backend's reply (used only if the request is sent), returns the
        request issued, the outcome and the storage afterwards. */
    method HandleNext(store: Storage, generated: string, reply: Reply)
      returns (request: Option<Request>, outcome: NextOutcome, store': Storage)
      modifies this`saved, this`loading
      ensures request.None? <==> old(GateOutcome()).Some?
      ensures request.None? ==>
                outcome == old(GateOutcome()).value &&
                store' == store && saved == old(saved) && loading == old(loading)
      // once sent: the payload, then the reply decides the outcome, the
      // record written and whether the form counts as saved
      ensures request.Some? ==>
                && request == Some(Request("POST", RegisterPath, None, Some(UsuarioJson(Payload(generated)))))
                && Submitted(Payload(generated), store, reply, outcome, store')
                && (saved <==> !outcome.Rejected?)
                && !loading
    {
      request, store' := None, store;
      var gate := GateOutcome();
      if gate.Some? {
        outcome := gate.value;
        return;
      }
      var d := Payload(generated);
      request := Some(Request("POST", RegisterPath, None, Some(UsuarioJson(d))));
      outcome, store' := Submit(d, store, reply);
    }

    /** The part of `handleNext` after the gates: the request and its try/catch. */
    method Submit(d: UsuarioData, store: Storage, reply: Reply) returns (outcome: NextOutcome, store': Storage)
      modifies this`saved, this`loading
      ensures Submitted(d, store, reply, outcome, store')
      ensures saved <==> old(saved) || !outcome.Rejected?
      ensures !loading
    {
      var data := UsuarioJson(d);
      loading := true;
      // the try block: every way out of it that throws lands in the catch below
      if reply.Answered? && reply.body.Some? && reply.body.value != Null {
        var b := reply.body.value;
        if !Ok(reply.status) {
          loading := false;
          outcome, store' := Rejected(Or(Prop(Some(b), "error").v, Some(Str(RejectedFallback))).value), store;
          return;
        }
        store' := store[RegistroKey := Doc(data)];
        saved := true;
        loading := false;
        var u := Or(Prop(Some(b), "usuario").v, Some(data)).value;
        var v := Or(Prop(Some(b), "vehiculo").v, Some(VehicleOrNull(d))).value;
        outcome := Registered(LoginRecord(u, v));
        return;
      }
      // catch: the backend could not be reached or its answer could not be used
      loading := false;
      store' := store[RegistroKey := Doc(data)];
      saved := true;
      outcome := SavedLocally(LocalRecord(d));
    }
  }
}
