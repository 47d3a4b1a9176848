/** The profile screen (components/Perfil.js): the initials shown in the
    avatar, where the profile and the vehicle list are loaded from, and how
    `handleAddVehicle` normalises a vehicle and appends it to the list and,
    offline, to the locally stored record. */
module Perfil {
  import opened Text
  import opened Js
  import Registro

  const MePath := "/api/usuario/me"
  const CarsPath := "/api/vehiculo/mis-vehiculos"
  const AddPath := "/api/vehiculo"
  const FailedFallback := "No se pudo agregar el vehículo"

  // ---------------------------------------------------------------------------
  // Initials

  /** The name `getInitials` starts from: `userData?.nombre_usuario?.nombre`,
      else the stored `usuario`, else `''`. `None` when the value chosen is not
      a string, so that calling `trim` on it would throw. */
  function InitialsName(userData: Value, usuario: Option<string>): Option<string> {
    var n := OptProp(OptProp(userData, "nombre_usuario"), "nombre");
    if Truthy(n) then (if n.value.Str? then Some(n.value.s) else None)
    else if usuario.Some? then Some(usuario.value)
    else Some("")
  }

  /** `getInitials()` on a name: the first letter of the first space-separated
      part of the trimmed name, followed, when there is a second part, by the
      first letter of that part, upper-cased. The split always has at least
      one part, so the `parts.length === 0` branch is never taken. */
  function GetInitials(name: string): (r: string)
    // stated through the first space instead of through Split
    ensures var t := Trim(name);
            && (' ' !in t ==> r == Upper(Head1(t)))
            && (' ' in t ==> var k := FirstIndex(t, ' ');
                             r == Upper(Head1(t[..k]) + Head1(Before(t[k + 1..], ' '))))
    ensures Upper(r) == r
    ensures Trim(name) != "" <==> r != ""
    ensures '\U{00DF}' !in name ==> |r| <= 2
  {
    var t := Trim(name);
    var letters := Letters(Split(t, ' '));
    LettersFormula(t);
    LettersNonEmpty(t);
    UpperIdempotent(letters);
    if '\U{00DF}' !in name then
      LettersFrom(t);
      TrimSub(name);
      UpperKeepsLength(letters);
      Upper(letters)
    else Upper(letters)
  }

  /** The name "ßa b", character by character. */
  predicate SharpSName(t: string) {
    |t| == 4 && t[0] == '\U{00DF}' && t[1] == 'a' && t[2] == ' ' && t[3] == 'b'
  }

  /** Why the length bound of `GetInitials` excludes the sharp s: `toUpperCase`
      turns it into two letters, so the two-part name "ßa b" gives three. */
  lemma SharpSInitials(t: string)
    requires SharpSName(t)
    ensures GetInitials(t) == "SSB"
  {
    SharpSParts(t);
    UpperSharpS();
  }

  /** "ßa b" is trimmed, splits at index 2, and its parts start with ß and b. */
  lemma SharpSParts(t: string)
    requires SharpSName(t)
    ensures Trim(t) == t && FirstIndex(t, ' ') == 2
    ensures Head1(t[..2]) == ['\U{00DF}'] && Head1(Before(t[3..], ' ')) == "b"
  {
    assert !IsJsSpace(t[0]) && !IsJsSpace(t[|t| - 1]);
    assert ' ' !in t[..2];
    assert t[3..] == "b";
  }

  /** The upper-casing step of `SharpSInitials`: "ßb" becomes "SSB". */
  lemma UpperSharpS()
    ensures Upper(['\U{00DF}', 'b']) == "SSB"
  {
    assert Upper(['\U{00DF}', 'b']) == "SS" + Upper("b");
  }

  /** The first letters of the first one or two parts. */
  function Letters(parts: seq<string>): (r: string)
    requires |parts| >= 1
    ensures |r| <= 2
  {
    if |parts| == 1 then Head1(parts[0]) else Head1(parts[0]) + Head1(parts[1])
  }

  lemma LettersFormula(t: string)
    ensures ' ' !in t ==> Letters(Split(t, ' ')) == Head1(t)
    ensures ' ' in t ==> var k := FirstIndex(t, ' ');
                         Letters(Split(t, ' ')) == Head1(t[..k]) + Head1(Before(t[k + 1..], ' '))
  {
    SplitFront(t, ' ');
    if ' ' !in t {
      assert t[..FirstIndex(t, ' ')] == t;
    } else {
      var k := FirstIndex(t, ' ');
      assert Split(t, ' ')[1] == Split(t[k + 1..], ' ')[0];
    }
  }

  /** A trimmed name gives no letters only when it is empty. */
  lemma LettersNonEmpty(t: string)
    requires t == [] || !IsJsSpace(t[0])
    ensures t != "" <==> Letters(Split(t, ' ')) != ""
  {
    SplitFront(t, ' ');
    if t != "" {
      assert t[0] != ' ';
      assert FirstIndex(t, ' ') > 0;
    }
  }

  /** Every letter comes from the name. */
  lemma LettersFrom(t: string)
    ensures forall i :: 0 <= i < |Letters(Split(t, ' '))| ==> Letters(Split(t, ' '))[i] in t
  {
    LettersFormula(t);
    var letters := Letters(Split(t, ' '));
    var k := FirstIndex(t, ' ');
    forall i | 0 <= i < |letters| ensures letters[i] in t {
      if ' ' !in t {
        assert letters[i] == t[0];
      } else {
        var a := Head1(t[..k]);
        var b := Head1(Before(t[k + 1..], ' '));
        assert letters == a + b;
        if i < |a| {
          assert letters[i] == t[0];
        } else {
          assert letters[i] == b[0] == t[k + 1..][0];
        }
      }
    }
  }

  /** Every character of a trimmed string comes from the string; the step
      `GetInitials` uses to bound the initials of a name without ß. */
  lemma TrimSub(s: string)
    ensures forall c :: c in Trim(s) ==> c in s
  {
    TrimIsSlice(s);
  }

  // ---------------------------------------------------------------------------
  // Loading

  /** A reply whose body the handler can read: ok, parsed, and not `null`
      (reading a field of `null` throws into the catch). */
  predicate Usable(reply: Reply) {
    reply.Answered? && Ok(reply.status) && reply.body.Some? && reply.body.value != Null
  }

  /** The profile state the load effect sets. */
  datatype Loaded = Loaded(userData: Json, vehiculos: Json)

  /** The local fallback: a stored registration record becomes the profile, and
      its `vehiculo`, when truthy, the one-element vehicle list. A missing or
      empty entry changes nothing; plain text fails to parse; a `null`
      document throws when its `vehiculo` is read, after the profile is set. */
  function LocalProfile(store: Storage, current: Loaded): (r: Loaded)
    ensures RegistroKey !in store || store[RegistroKey].Text? ==> r == current
    ensures RegistroKey in store && store[RegistroKey].Doc? ==>
              var j := store[RegistroKey].j;
              var v := OptProp(Some(j), "vehiculo");
              && r.userData == j
              && (Truthy(v) ==> r.vehiculos == Arr([v.value]))
              && (!Truthy(v) ==> r.vehiculos == current.vehiculos)
  {
    if RegistroKey !in store then current
    else match store[RegistroKey]
      case Text(_) => current
      case Doc(j) =>
        Loaded(j, match Prop(Some(j), "vehiculo")
                  case Throws => current.vehiculos
                  case Gives(v) => if Truthy(v) then Arr([v.value]) else current.vehiculos)
  }

  // ---------------------------------------------------------------------------
  // Adding a vehicle

  /** The vehicle `handleAddVehicle` builds: marca and modelo trimmed, placas
      upper-cased but not trimmed, VIN trimmed. */
  function NormalizedVehicle(marca: string, modelo: string, placas: string, vin: string): (v: Registro.Vehicle)
    ensures v.marca == Trim(marca) && v.modelo == Trim(modelo) && v.vin == Trim(vin)
    ensures v.placas == Upper(placas) && Upper(v.placas) == v.placas
    ensures '\U{00DF}' !in placas ==> |v.placas| == |placas|
  {
    PlacasFacts(placas);
    Registro.Vehicle(Trim(marca), Trim(modelo), Upper(placas), Trim(vin))
  }

  /** Upper-cased plates are a fixed point and keep their length without ß;
      the facts `NormalizedVehicle` states about `placas`. */
  lemma PlacasFacts(placas: string)
    ensures Upper(Upper(placas)) == Upper(placas)
    ensures '\U{00DF}' !in placas ==> |Upper(placas)| == |placas|
  {
    UpperIdempotent(placas);
    if '\U{00DF}' !in placas {
      UpperKeepsLength(placas);
    }
  }

  /** The one-character strings a string spreads into. */
  function Chars(s: string): (r: seq<Json>)
    ensures |r| == |s|
    ensures forall i :: 0 <= i < |s| ==> r[i] == Str([s[i]])
  {
    if s == [] then [] else [Str([s[0]])] + Chars(s[1..])
  }

  /** `[...prev, x]` on the vehicle list: an array keeps its elements, a
      string spreads into its characters, and `x` comes last; any other
      value cannot be spread and is left as it is. */
  function Appended(list: Json, x: Json): (r: Json)
    ensures list.Arr? ==> r.Arr? && |r.items| == |list.items| + 1 && r.items[..|list.items|] == list.items && r.items[|list.items|..] == [x]
    ensures list.Str? ==>
              && r.Arr? && |r.items| == |list.s| + 1 && r.items[|list.s|] == x
              && forall i :: 0 <= i < |list.s| ==> r.items[i] == Str([list.s[i]])
    ensures !list.Arr? && !list.Str? ==> r == list
  {
    match list
    case Arr(items) => Arr(items + [x])
    case Str(s) => Arr(Chars(s) + [x])
    case _ => list
  }

  /** The `vehiculos` list in a stored record after the new vehicle is pushed:
      created empty when falsy; `None` when push cannot run (a truthy
      `vehiculos` that is not an array). */
  function PushVehicle(fs: seq<Field>, x: Json): (r: Option<seq<Field>>)
    ensures !Truthy(Lookup(fs, "vehiculos")) ==> r.Some? && Lookup(r.value, "vehiculos") == Some(Arr([x]))
    ensures Truthy(Lookup(fs, "vehiculos")) ==>
              (r.Some? <==> Lookup(fs, "vehiculos").value.Arr?)
    ensures r.Some? ==> forall k :: k != "vehiculos" ==> Lookup(r.value, k) == Lookup(fs, k)
    ensures r.Some? && Truthy(Lookup(fs, "vehiculos")) ==>
              Lookup(r.value, "vehiculos") == Some(Arr(Lookup(fs, "vehiculos").value.items + [x]))
  {
    if !Truthy(Lookup(fs, "vehiculos")) then
      // `parsed.vehiculos = []`, then the push
      Some(Assign(Assign(fs, "vehiculos", Arr([])), "vehiculos", Arr([x])))
    else match Lookup(fs, "vehiculos").value
      case Arr(items) => Some(Assign(fs, "vehiculos", Arr(items + [x])))
      case _ => None
  }

  /** The storage after the offline fallback writes the new vehicle into
      `registro_usuario`. No entry (or an empty one) starts from `{}`; an
      object record gets the vehicle pushed onto its `vehiculos`; an array
      record is written back as it was (a named property of an array is not
      part of its JSON text); anything else throws and nothing is written. */
  function StoreVehicle(store: Storage, x: Json): (st: Storage)
    ensures st.Keys == store.Keys + {RegistroKey} || st == store
    ensures forall k :: k in store && k != RegistroKey ==> k in st && st[k] == store[k]
    ensures !Present(GetItem(store, RegistroKey)) ==>
              st == store[RegistroKey := Doc(Obj([Field("vehiculos", Arr([x]))]))]
    // a text, array or null record, or one whose vehiculos has no push, is
    // left as it was
    ensures Present(GetItem(store, RegistroKey)) &&
            !(store[RegistroKey].Doc? && store[RegistroKey].j.Obj? && PushVehicle(store[RegistroKey].j.fields, x).Some?) ==>
              st == store
  {
    if !Present(GetItem(store, RegistroKey)) then
      assert Assign([], "vehiculos", Arr([])) == [Field("vehiculos", Arr([]))];
      assert Assign([Field("vehiculos", Arr([]))], "vehiculos", Arr([x])) == [Field("vehiculos", Arr([x]))];
      store[RegistroKey := Doc(Obj(PushVehicle([], x).value))]
    else match store[RegistroKey]
      case Doc(Obj(fs)) =>
        (match PushVehicle(fs, x)
         case Some(fs') => store[RegistroKey := Doc(Obj(fs'))]
         case None => store)
      case _ => store
  }

  /** A stored object record keeps every other field and gains the new vehicle
      at the end of its `vehiculos`. */
  lemma StoreVehicleAppends(store: Storage, x: Json, fs: seq<Field>)
    requires RegistroKey in store && store[RegistroKey] == Doc(Obj(fs))
    requires !Truthy(Lookup(fs, "vehiculos")) || Lookup(fs, "vehiculos").value.Arr?
    ensures StoreVehicle(store, x)[RegistroKey].Doc?
    ensures var j := StoreVehicle(store, x)[RegistroKey].j;
            && j.Obj?
            && (forall k :: k != "vehiculos" ==> Lookup(j.fields, k) == Lookup(fs, k))
            && Lookup(j.fields, "vehiculos") ==
                 Some(Arr((if Truthy(Lookup(fs, "vehiculos")) then Lookup(fs, "vehiculos").value.items else []) + [x]))
  {
    assert Present(GetItem(store, RegistroKey));
    assert [] + [x] == [x];
  }

  /** The try block of the offline fallback: read `registro_usuario`, parse it
      (`{}` when there is none), make sure it has a `vehiculos` list, push the
      vehicle and write the record back. */
  method SaveLocally(store: Storage, x: Json) returns (store': Storage)
    ensures store' == StoreVehicle(store, x)
  {
    store' := store;
    var registro := GetItem(store, RegistroKey);
    if !Present(registro) {
      var parsed := [];
      parsed := Assign(parsed, "vehiculos", Arr([]));
      assert parsed == [Field("vehiculos", Arr([]))];
      assert Lookup(parsed, "vehiculos").value.items + [x] == [x];
      parsed := Assign(parsed, "vehiculos", Arr(Lookup(parsed, "vehiculos").value.items + [x]));
      assert parsed == [Field("vehiculos", Arr([x]))];
      store' := store[RegistroKey := Doc(Obj(parsed))];
    } else if store[RegistroKey].Doc? && store[RegistroKey].j.Obj? {
      var parsed := store[RegistroKey].j.fields;
      var created := !Truthy(Lookup(parsed, "vehiculos"));
      if created {
        parsed := Assign(parsed, "vehiculos", Arr([]));
      }
      var list := Lookup(parsed, "vehiculos").value;
      if list.Arr? {
        parsed := Assign(parsed, "vehiculos", Arr(list.items + [x]));
        assert created ==> list.items + [x] == [x];
        store' := store[RegistroKey := Doc(Obj(parsed))];
      }
    }
  }

  /** `!s.trim()`: the text is empty or white space only. */
  predicate Blank(s: string) {
    Trim(s) == ""
  }

  /** What `handleAddVehicle` ends with. */
  datatype AddOutcome =
    | Incomplete             // trimmed marca, modelo or placas empty
    | Failed(alert: Json)    // non-ok reply: body.error or a fallback
    | AddedRemote(nuevo: Json)
    | AddedLocally

  /** The add-vehicle form: its four fields and whether the modal is shown. */
  datatype VehicleForm = VehicleForm(marca: string, modelo: string, placas: string, vin: string, modalVisible: bool)

  class ProfileScreen {
    var loading: bool
    var usuario: Option<string>
    var userData: Json
    var vehiculos: Json
    var token: Option<string>
    var modalVisible: bool
    var marca: string
    var modelo: string
    var placas: string
    var vin: string
    var submitting: bool

    constructor ()
      ensures loading && usuario == None && userData == Null && vehiculos == Arr([]) && token == None
      ensures !modalVisible && marca == modelo == placas == vin == "" && !submitting
    {
      loading, usuario, userData, vehiculos, token := true, None, Null, Arr([]), None;
      modalVisible, marca, modelo, placas, vin, submitting := false, "", "", "", "", false;
    }

    /** The initials the avatar shows; `None` where the render would throw:
        when `nombre_usuario.nombre` is truthy but not a string. They come from
        that given name when it is a truthy string, else from the stored
        username, and are empty when there is neither; always upper case. */
    function Initials(): (r: Option<string>)
      reads this
      ensures var n := OptProp(OptProp(Some(userData), "nombre_usuario"), "nombre");
              && (r.None? <==> Truthy(n) && !n.value.Str?)
              && (Truthy(n) && n.value.Str? ==> r == Some(GetInitials(n.value.s)))
              && (!Truthy(n) && usuario.Some? ==> r == Some(GetInitials(usuario.value)))
              && (!Truthy(n) && (usuario.None? || Blank(usuario.value)) ==> r == Some(""))
      ensures r.Some? ==> Upper(r.value) == r.value
    {
      match InitialsName(Some(userData), usuario)
      case Some(name) => Some(GetInitials(name))
      case None => None
    }

    /** The mount effect: the stored username and token, then `/api/usuario/me`,
        then `/api/vehiculo/mis-vehiculos`, then the local record, each tried
        only when the one before gave nothing usable. */
    method Load(store: Storage, meReply: Reply, carsReply: Reply) returns (requests: seq<Request>)
      modifies this`loading, this`usuario, this`token, this`userData, this`vehiculos
      ensures !loading && usuario == GetItem(store, UsuarioKey) && token == GetItem(store, TokenKey)
      ensures !Present(token) ==> requests == []
      ensures Present(token) ==>
                1 <= |requests| <= 2 && requests[0] == Request("GET", MePath, token, None)
      ensures Present(token) && Usable(meReply) ==>
                var b := meReply.body;
                && |requests| == 1
                && userData == Or(OptProp(b, "usuario"), b).value
                && vehiculos == Or(Or(OptProp(b, "vehiculos"), OptProp(b, "vehiculos_usuario")), Some(Arr([]))).value
      ensures Present(token) && !Usable(meReply) ==>
                |requests| == 2 && requests[1] == Request("GET", CarsPath, token, None)
      ensures Present(token) && !Usable(meReply) && Usable(carsReply) ==>
                userData == old(userData) &&
                vehiculos == Or(OptProp(carsReply.body, "vehiculos"), carsReply.body).value
      ensures !(Present(token) && (Usable(meReply) || Usable(carsReply))) ==>
                Loaded(userData, vehiculos) == LocalProfile(store, Loaded(old(userData), old(vehiculos)))
    {
      usuario := GetItem(store, UsuarioKey);
      token := GetItem(store, TokenKey);
      requests := [];
      if Present(token) {
        requests := [Request("GET", MePath, token, None)];
        if Usable(meReply) {
          var b := meReply.body;
          userData := Or(OptProp(b, "usuario"), b).value;
          vehiculos := Or(Or(OptProp(b, "vehiculos"), OptProp(b, "vehiculos_usuario")), Some(Arr([]))).value;
          loading := false;
          return;
        }
        requests := requests + [Request("GET", CarsPath, token, None)];
        if Usable(carsReply) {
          vehiculos := Or(OptProp(carsReply.body, "vehiculos"), carsReply.body).value;
          loading := false;
          return;
        }
      }
      // fallback: the record saved at registration
      if RegistroKey in store && store[RegistroKey].Doc? {
        var parsed := store[RegistroKey].j;
        userData := parsed;
        var v := Prop(Some(parsed), "vehiculo");
        if v.Gives? && Truthy(v.v) {
          vehiculos := Arr([v.v.value]);
        }
      }
      loading := false;
    }

    /** The form is emptied and the modal closed. */
    method ResetForm()
      modifies this`modalVisible, this`marca, this`modelo, this`placas, this`vin, this`submitting
      ensures !modalVisible && marca == modelo == placas == vin == "" && !submitting
    {
      modalVisible := false;
      marca, modelo, placas, vin := "", "", "", "";
      submitting := false;
    }

    function Form(): VehicleForm
      reads this`marca, this`modelo, this`placas, this`vin, this`modalVisible
    {
      VehicleForm(marca, modelo, placas, vin, modalVisible)
    }

    /** The vehicle built from the form, as the JSON object sent and stored. */
    function NewVehicle(): Json
      reads this`marca, this`modelo, this`placas, this`vin
    {
      Registro.VehicleJson(NormalizedVehicle(marca, modelo, placas, vin))
    }

    /** What `handleAddVehicle` does once the gate is passed and the vehicle `x`
        is built, `list0` and `form0` being the vehicle list and the form
        before: the POST is made only with a token; exactly a parsed, non-null,
        non-ok reply fails, keeping the list and the form; a usable reply
        appends the backend's vehicle; anything else appends `x` and stores it
        locally; both kinds of success close the modal and empty the form.
        The specification of `Send`, and of `AddVehicle` past its gate. */
    predicate Sent(store: Storage, reply: Reply, x: Json, list0: Json, form0: VehicleForm,
                   request: Option<Request>, outcome: AddOutcome, store': Storage)
      reads this
      // the local path is exactly the one where the POST gave no readable
      // answer, and it is the only one that writes to storage
      ensures Sent(store, reply, x, list0, form0, request, outcome, store') ==>
                (outcome == AddedLocally <==>
                   !(request.Some? && reply.Answered? && reply.body.Some? && reply.body.value != Null))
      ensures Sent(store, reply, x, list0, form0, request, outcome, store') && store' != store ==>
                outcome == AddedLocally
    {
      && outcome != Incomplete
      && request == (if Present(token) then Some(Request("POST", AddPath, token, Some(x))) else None)
      && (outcome.Failed? <==>
            request.Some? && reply.Answered? && !Ok(reply.status) && reply.body.Some? && reply.body.value != Null)
      && (outcome.Failed? ==>
            outcome.alert == Or(OptProp(reply.body, "error"), Some(Str(FailedFallback))).value &&
            vehiculos == list0 && store' == store && !submitting && Form() == form0)
      && (outcome.AddedRemote? <==> request.Some? && Usable(reply))
      && (outcome.AddedRemote? ==>
            outcome.nuevo == Or(OptProp(reply.body, "vehiculo"), reply.body).value &&
            vehiculos == Appended(list0, outcome.nuevo) && store' == store)
      && (outcome == AddedLocally ==>
            vehiculos == Appended(list0, x) && store' == StoreVehicle(store, x))
      && (outcome.AddedRemote? || outcome.AddedLocally? ==>
            !modalVisible && marca == modelo == placas == vin == "" && !submitting)
    }

    /** `handleAddVehicle()`, given the storage and the reply to the POST (used
        only when a token is held). */
    method AddVehicle(store: Storage, reply: Reply)
      returns (request: Option<Request>, outcome: AddOutcome, store': Storage)
      modifies this`vehiculos, this`modalVisible, this`marca, this`modelo, this`placas, this`vin, this`submitting
      ensures outcome == Incomplete ==>
                request == None && store' == store && vehiculos == old(vehiculos) &&
                Form() == old(Form()) && submitting == old(submitting)
      ensures outcome != Incomplete ==>
                Sent(store, reply, old(NewVehicle()), old(vehiculos), old(Form()), request, outcome, store')
      ensures Blank(old(marca)) || Blank(old(modelo)) || Blank(old(placas)) <==> outcome == Incomplete
    {
      request, store' := None, store;
      if Blank(marca) || Blank(modelo) || Blank(placas) {
        outcome := Incomplete;
        return;
      }
      var nuevoLocal := NewVehicle();
      request, outcome, store' := Send(store, reply, nuevoLocal);
    }

    /** `handleAddVehicle()` after the gate, with the vehicle it builds. */
    method Send(store: Storage, reply: Reply, x: Json)
      returns (request: Option<Request>, outcome: AddOutcome, store': Storage)
      modifies this`vehiculos, this`modalVisible, this`marca, this`modelo, this`placas, this`vin, this`submitting
      ensures Sent(store, reply, x, old(vehiculos), old(Form()), request, outcome, store')
    {
      submitting := true;
      request, store' := None, store;
      if Present(token) {
        request := Some(Request("POST", AddPath, token, Some(x)));
        // a failed fetch, a body that does not parse and a read of a field of
        // null leave the try block for the local fallback below
        if reply.Answered? && reply.body.Some? && reply.body.value != Null {
          var body := reply.body;
          if !Ok(reply.status) {
            outcome := Failed(Or(OptProp(body, "error"), Some(Str(FailedFallback))).value);
            submitting := false;
            return;
          }
          var nuevo := Or(OptProp(body, "vehiculo"), body).value;
          vehiculos := Appended(vehiculos, nuevo);
          ResetForm();
          outcome := AddedRemote(nuevo);
          return;
        }
      }
      // local fallback
      vehiculos := Appended(vehiculos, x);
      store' := SaveLocally(store, x);
      ResetForm();
      outcome := AddedLocally;
    }
  }
}
