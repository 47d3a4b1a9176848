/** The ARCO (data-rights) requests screen (components/Pantalla.js): the
    token short-circuit, the classification of a backend reply, the request
    body builder, and the state updates of `fetchSolicitudes` and
    `crearSolicitud`. */
module Arco {
  import opened Text
  import opened Js

  const ListPath := "/api/arco/listar"
  const CreatePath := "/api/arco/registrar"
  const ListFallback := "No se pudieron cargar las solicitudes"
  const CreateFallback := "No se pudo registrar la solicitud"
  const CreatedFallback := "Solicitud registrada"

  /** The error text with which the backend reports an invalid session. */
  const InvalidTokenText := "Token inválido"

  /** How one reply to an ARCO call is classified. */
  datatype Verdict =
    | SessionInvalid         // token removed, alert that leads to Login
    | Failure(alert: Json)   // any other non-ok reply
    | Success(value: Json)   // what the handler reads from a good reply
    | NoConnection           // the catch block

  /** The session check both handlers make before looking at `res.ok`: a 401,
      or an object body whose `error` is the invalid-token text (`data?.error`
      finds nothing on any other body, `null` included). */
  predicate SessionCheck(status: int, data: Json)
    ensures SessionCheck(status, data) <==>
              status == 401 || (data.Obj? && Lookup(data.fields, "error") == Some(Str(InvalidTokenText)))
  {
    status == 401 || OptProp(Some(data), "error") == Some(Str(InvalidTokenText))
  }

  /** The try block shared by both handlers: `res.json()`, then the session
      check, then `res.ok`; a good reply yields `data[okKey] || okDefault`,
      a bad one `data.mensaje || data.error || failFallback`. Reading a field
      of a `null` body throws into the catch. */
  function Classify(reply: Reply, failFallback: string, okKey: string, okDefault: Json): (v: Verdict)
    ensures v == SessionInvalid <==>
              reply.Answered? && reply.body.Some? && SessionCheck(reply.status, reply.body.value)
    ensures v.Failure? <==>
              reply.Answered? && reply.body.Some? && reply.body.value != Null &&
              !SessionCheck(reply.status, reply.body.value) && !Ok(reply.status)
    ensures v.Failure? ==>
              v.alert == Or(Or(OptProp(reply.body, "mensaje"), OptProp(reply.body, "error")), Some(Str(failFallback))).value
    ensures v.Success? <==>
              reply.Answered? && reply.body.Some? && reply.body.value != Null &&
              !SessionCheck(reply.status, reply.body.value) && Ok(reply.status)
    ensures v.Success? ==> v.value == Or(OptProp(reply.body, okKey), Some(okDefault)).value
  {
    match reply
    case Unreachable => NoConnection
    case Answered(status, None) => NoConnection
    case Answered(status, Some(data)) =>
      if SessionCheck(status, data) then SessionInvalid
      else if data == Null then NoConnection
      else if !Ok(status) then
        Failure(Or(Or(OptProp(Some(data), "mensaje"), OptProp(Some(data), "error")), Some(Str(failFallback))).value)
      else Success(Or(OptProp(Some(data), okKey), Some(okDefault)).value)
  }

  /** An optional text field of the request body: no entry when empty,
      otherwise the one-element list of its trimmed value. */
  function OptionalList(s: string): (l: seq<string>)
    ensures |l| <= 1
    ensures l == [] <==> s == ""
    ensures s != "" ==> l[0] == Trim(s) && |l[0]| <= |s|
  {
    if s != "" then [Trim(s)] else []
  }

  /** The requester of an ARCO request. */
  datatype Solicitante = Solicitante(nombre: string, apPat: string, apMat: string)

  /** The body `crearSolicitud` posts, before it is encoded. */
  datatype Solicitud = Solicitud(solicitante: Solicitante, telefono: seq<string>, correo: seq<string>,
                                 tipo: seq<string>, complemento: seq<string>)

  function Strs(l: seq<string>): seq<Json> {
    if l == [] then [] else [Str(l[0])] + Strs(l[1..])
  }

  /** The JSON text of the body: `solicitante`, `medios_contacto` with
      `telefono` and `correo`, `tipo_solicitud` and `complemento`. */
  function SolicitudJson(b: Solicitud): Json {
    Obj([
      Field("solicitante", SolicitanteJson(b.solicitante)),
      Field("medios_contacto", ContactoJson(b.telefono, b.correo)),
      Field("tipo_solicitud", Arr(Strs(b.tipo))),
      Field("complemento", Arr(Strs(b.complemento)))
    ])
  }

  function SolicitanteJson(s: Solicitante): Json {
    Obj([Field("nombre", Str(s.nombre)), Field("ap_pat", Str(s.apPat)), Field("ap_mat", Str(s.apMat))])
  }

  function ContactoJson(telefono: seq<string>, correo: seq<string>): Json {
    Obj([Field("telefono", Arr(Strs(telefono))), Field("correo", Arr(Strs(correo)))])
  }

  /** The strings of a list whose every element is a string. */
  function Texts(items: seq<Json>): Option<seq<string>> {
    if items == [] then Some([])
    else
      var rest := Texts(items[1..]);
      if items[0].Str? && rest.Some? then Some([items[0].s] + rest.value) else None
  }

  lemma {:induction false} TextsStrs(l: seq<string>)
    ensures Texts(Strs(l)) == Some(l)
  {
    if l != [] {
      TextsStrs(l[1..]);
      assert Strs(l)[1..] == Strs(l[1..]);
      assert [l[0]] + l[1..] == l;
    }
  }

  function TextOf(v: Value): Option<string> {
    if v.Some? && v.value.Str? then Some(v.value.s) else None
  }

  function TextList(v: Value): Option<seq<string>> {
    if v.Some? && v.value.Arr? then Texts(v.value.items) else None
  }

  function DecodeSolicitante(v: Value): Option<Solicitante> {
    var nombre, apPat, apMat := TextOf(OptProp(v, "nombre")), TextOf(OptProp(v, "ap_pat")), TextOf(OptProp(v, "ap_mat"));
    if nombre.Some? && apPat.Some? && apMat.Some? then Some(Solicitante(nombre.value, apPat.value, apMat.value))
    else None
  }

  /** Reads a request body back: what a receiver of the JSON can recover. */
  function DecodeSolicitud(j: Json): Option<Solicitud> {
    var s := DecodeSolicitante(OptProp(Some(j), "solicitante"));
    var m := OptProp(Some(j), "medios_contacto");
    var tel, cor := TextList(OptProp(m, "telefono")), TextList(OptProp(m, "correo"));
    var tipo, comp := TextList(OptProp(Some(j), "tipo_solicitud")), TextList(OptProp(Some(j), "complemento"));
    if s.Some? && tel.Some? && cor.Some? && tipo.Some? && comp.Some? then
      Some(Solicitud(s.value, tel.value, cor.value, tipo.value, comp.value))
    else None
  }

  lemma SolicitanteBack(s: Solicitante)
    ensures DecodeSolicitante(Some(SolicitanteJson(s))) == Some(s)
  {
    LookupHit(SolicitanteJson(s).fields, 1, "ap_pat");
    LookupHit(SolicitanteJson(s).fields, 2, "ap_mat");
  }

  lemma ContactoBack(telefono: seq<string>, correo: seq<string>)
    ensures TextList(OptProp(Some(ContactoJson(telefono, correo)), "telefono")) == Some(telefono)
    ensures TextList(OptProp(Some(ContactoJson(telefono, correo)), "correo")) == Some(correo)
  {
    LookupHit(ContactoJson(telefono, correo).fields, 1, "correo");
    TextsStrs(telefono);
    TextsStrs(correo);
  }

  /** Each key of the body holds its part. */
  lemma BodyFields(b: Solicitud)
    ensures OptProp(Some(SolicitudJson(b)), "solicitante") == Some(SolicitanteJson(b.solicitante))
    ensures OptProp(Some(SolicitudJson(b)), "medios_contacto") == Some(ContactoJson(b.telefono, b.correo))
    ensures OptProp(Some(SolicitudJson(b)), "tipo_solicitud") == Some(Arr(Strs(b.tipo)))
    ensures OptProp(Some(SolicitudJson(b)), "complemento") == Some(Arr(Strs(b.complemento)))
  {
    var fs := SolicitudJson(b).fields;
    LookupHit(fs, 1, "medios_contacto");
    LookupHit(fs, 2, "tipo_solicitud");
    LookupHit(fs, 3, "complemento");
  }

  /** The JSON body carries every part of the request: reading it back gives
      the same requester, contacts, request types and remarks. */
  lemma SolicitudRoundTrip(b: Solicitud)
    ensures DecodeSolicitud(SolicitudJson(b)) == Some(b)
  {
    BodyFields(b);
    SolicitanteBack(b.solicitante);
    ContactoBack(b.telefono, b.correo);
    TextsStrs(b.tipo);
    TextsStrs(b.complemento);
  }

  /** The body built from the form: the requester's names trimmed, and each
      optional field an empty list or its trimmed value. */
  function SolicitudBody(nombre: string, apPat: string, apMat: string, telefono: string,
                         correo: string, tipo: string, complemento: string): Solicitud
  {
    Solicitud(Solicitante(Trim(nombre), Trim(apPat), Trim(apMat)),
              OptionalList(telefono), OptionalList(correo), OptionalList(tipo), OptionalList(complemento))
  }

  datatype FormFields = FormFields(nombre: string, apPat: string, apMat: string, telefono: string,
                                   correo: string, tipo: string, complemento: string, modalVisible: bool)

  /** The list a fetch leaves for a verdict: the listed data on success, the
      old list when the server could not be reached, empty otherwise. */
  function ListAfter(verdict: Verdict, current: Json): Json {
    match verdict
    case Success(list) => list
    case NoConnection => current
    case _ => Arr([])
  }

  /** The list `fetchSolicitudes` leaves, reply by reply: emptied by a 401 or
      any other parsed non-ok answer, kept when the server cannot be reached or
      the body does not parse, and on success the body's `data`, or the empty
      list when that is falsy. Whatever the reply, it is the old list, the
      empty list or the body's `data`. */
  lemma ListAfterReply(reply: Reply, current: Json)
    ensures var l := ListAfter(Classify(reply, ListFallback, "data", Arr([])), current);
            && (reply.Answered? && reply.status == 401 && reply.body.Some? ==> l == Arr([]))
            && (reply.Answered? && !Ok(reply.status) && reply.body.Some? && reply.body.value != Null ==> l == Arr([]))
            && (reply.Unreachable? || reply.body.None? ==> l == current)
            && (reply.Answered? && Ok(reply.status) && reply.body.Some? && reply.body.value.Obj? &&
                Lookup(reply.body.value.fields, "error") != Some(Str(InvalidTokenText)) ==>
                  l == if Truthy(Lookup(reply.body.value.fields, "data"))
                       then Lookup(reply.body.value.fields, "data").value else Arr([]))
            && (l == current || l == Arr([]) || (reply.Answered? && reply.body.Some? && Some(l) == OptProp(reply.body, "data")))
  {
  }

  /** What `fetchSolicitudes` ends with. */
  datatype ListOutcome = NoToken | Listed(verdict: Verdict)

  /** What `crearSolicitud` ends with. */
  datatype CreateOutcome =
    | NameMissing                         // trimmed nombre empty: validation alert
    | CreateNoToken                       // no token: alert, no request
    | Done(verdict: Verdict)              // anything but success
    | Created(alert: Json, refetch: ListOutcome)  // success: form reset, list fetched again

  class Screen {
    var loading: bool
    var refreshing: bool
    var solicitudes: Json
    var modalVisible: bool
    var nombre: string
    var apPat: string
    var apMat: string
    var telefono: string
    var correo: string
    var tipo: string
    var complemento: string

    constructor ()
      ensures !loading && !refreshing && !modalVisible && solicitudes == Arr([])
      ensures nombre == apPat == apMat == telefono == correo == tipo == complemento == ""
    {
      loading, refreshing, modalVisible, solicitudes := false, false, false, Arr([]);
      nombre, apPat, apMat, telefono, correo, tipo, complemento := "", "", "", "", "", "", "";
    }

    /** The creation form as a value: its seven fields and whether it is shown. */
    function Fields(): FormFields
      reads this`nombre, this`apPat, this`apMat, this`telefono, this`correo, this`tipo, this`complemento
      reads this`modalVisible
    {
      FormFields(nombre, apPat, apMat, telefono, correo, tipo, complemento, modalVisible)
    }

    /** `fetchSolicitudes()`: with no token, no request; otherwise one GET whose
        verdict decides the list, and a session verdict removes the token. */
    method FetchSolicitudes(store: Storage, reply: Reply)
      returns (request: Option<Request>, outcome: ListOutcome, store': Storage)
      modifies this`loading, this`refreshing, this`solicitudes
      ensures !loading
      ensures !Present(GetItem(store, TokenKey)) ==>
                request == None && outcome == NoToken && store' == store &&
                solicitudes == old(solicitudes) && refreshing == old(refreshing)
      ensures Present(GetItem(store, TokenKey)) ==>
                && request == Some(Request("GET", ListPath, GetItem(store, TokenKey), None))
                && outcome == Listed(Classify(reply, ListFallback, "data", Arr([])))
                && !refreshing
                && (store' == if outcome.verdict == SessionInvalid then store - {TokenKey} else store)
                && solicitudes == ListAfter(outcome.verdict, old(solicitudes))
    {
      loading := true;
      var token := GetItem(store, TokenKey);
      if !Present(token) {
        loading := false;
        request, outcome, store' := None, NoToken, store;
        return;
      }
      request := Some(Request("GET", ListPath, token, None));
      var verdict := Classify(reply, ListFallback, "data", Arr([]));
      outcome, store' := Listed(verdict), store;
      match verdict {
        case SessionInvalid =>
          store' := store - {TokenKey};
          solicitudes := Arr([]);
        case Failure(_) =>
          solicitudes := Arr([]);
        case Success(list) =>
          solicitudes := list;
        case NoConnection =>
      }
      loading := false;
      refreshing := false;
    }

    /** `handleRefresh()`: the pull-to-refresh flag, then a fetch. */
    method HandleRefresh(store: Storage, reply: Reply)
      returns (request: Option<Request>, outcome: ListOutcome, store': Storage)
      modifies this`loading, this`refreshing, this`solicitudes
      ensures !loading
      ensures refreshing <==> outcome == NoToken
      ensures outcome == NoToken <==> !Present(GetItem(store, TokenKey))
      ensures !Present(GetItem(store, TokenKey)) ==>
                request == None && store' == store && solicitudes == old(solicitudes)
      ensures Present(GetItem(store, TokenKey)) ==>
                && request == Some(Request("GET", ListPath, GetItem(store, TokenKey), None))
                && outcome == Listed(Classify(reply, ListFallback, "data", Arr([])))
                && (store' == if outcome.verdict == SessionInvalid then store - {TokenKey} else store)
                && solicitudes == ListAfter(outcome.verdict, old(solicitudes))
    {
      refreshing := true;
      request, outcome, store' := FetchSolicitudes(store, reply);
    }

    /** The JSON body built from the form. */
    function NewSolicitud(): Json
      reads this`nombre, this`apPat, this`apMat, this`telefono, this`correo, this`tipo, this`complemento
    {
      SolicitudJson(SolicitudBody(nombre, apPat, apMat, telefono, correo, tipo, complemento))
    }

    /** Reading the posted body back gives the requester's names trimmed, and
        for each optional field no entry when it is empty and its trimmed
        value otherwise. */
    lemma NewSolicitudBack()
      ensures var b := DecodeSolicitud(NewSolicitud());
              && b.Some?
              && b.value.solicitante == Solicitante(Trim(nombre), Trim(apPat), Trim(apMat))
              && (b.value.telefono == [] <==> telefono == "") && (telefono != "" ==> b.value.telefono == [Trim(telefono)])
              && (b.value.correo == [] <==> correo == "") && (correo != "" ==> b.value.correo == [Trim(correo)])
              && (b.value.tipo == [] <==> tipo == "") && (tipo != "" ==> b.value.tipo == [Trim(tipo)])
              && (b.value.complemento == [] <==> complemento == "") &&
                 (complemento != "" ==> b.value.complemento == [Trim(complemento)])
    {
      SolicitudRoundTrip(SolicitudBody(nombre, apPat, apMat, telefono, correo, tipo, complemento));
    }

    /** What a success does to the form: every field emptied and the modal closed. */
    method ResetForm()
      modifies this`nombre, this`apPat, this`apMat, this`telefono, this`correo, this`tipo,
               this`complemento, this`modalVisible
      ensures nombre == apPat == apMat == telefono == correo == tipo == complemento == ""
      ensures !modalVisible
    {
      nombre, apPat, apMat, telefono, correo, tipo, complemento := "", "", "", "", "", "", "";
      modalVisible := false;
    }

    /** `crearSolicitud()`, given the storage, the reply to the POST and the
        reply to the list request made after a success. */
    method CrearSolicitud(store: Storage, reply: Reply, listReply: Reply)
      returns (requests: seq<Request>, outcome: CreateOutcome, store': Storage)
      modifies this
      ensures Trim(old(nombre)) == "" ==>
                outcome == NameMissing && requests == [] && store' == store && Fields() == old(Fields()) &&
                loading == old(loading) && refreshing == old(refreshing) && solicitudes == old(solicitudes)
      ensures Trim(old(nombre)) != "" && !Present(GetItem(store, TokenKey)) ==>
                outcome == CreateNoToken && requests == [] && store' == store && Fields() == old(Fields()) &&
                loading == old(loading) && refreshing == old(refreshing) && solicitudes == old(solicitudes)
      ensures |requests| > 0 <==> Trim(old(nombre)) != "" && Present(GetItem(store, TokenKey))
      // once posted, created exactly on a success verdict, done with the verdict otherwise
      ensures |requests| > 0 ==>
                (outcome.Created? <==> Classify(reply, CreateFallback, "mensaje", Str(CreatedFallback)).Success?) &&
                (outcome.Created? || outcome == Done(Classify(reply, CreateFallback, "mensaje", Str(CreatedFallback))))
      ensures |requests| > 0 ==>
                requests[0] == Request("POST", CreatePath, GetItem(store, TokenKey),
                  Some(old(NewSolicitud())))
                && !loading
      ensures outcome.Done? ==>
                outcome.verdict == Classify(reply, CreateFallback, "mensaje", Str(CreatedFallback)) &&
                |requests| == 1 && Fields() == old(Fields()) && solicitudes == old(solicitudes) &&
                refreshing == old(refreshing) &&
                store' == if outcome.verdict == SessionInvalid then store - {TokenKey} else store
      ensures outcome.Created? ==>
                && Classify(reply, CreateFallback, "mensaje", Str(CreatedFallback)) == Success(outcome.alert)
                && nombre == apPat == apMat == telefono == correo == tipo == complemento == ""
                && !modalVisible && !loading && !refreshing
                && |requests| == 2 && requests[1] == Request("GET", ListPath, GetItem(store, TokenKey), None)
                && outcome.refetch == Listed(Classify(listReply, ListFallback, "data", Arr([])))
                && solicitudes == ListAfter(outcome.refetch.verdict, old(solicitudes))
                && store' == (if outcome.refetch.verdict == SessionInvalid then store - {TokenKey} else store)
    {
      requests, store' := [], store;
      if Trim(nombre) == "" {
        outcome := NameMissing;
        return;
      }
      var token := GetItem(store, TokenKey);
      if !Present(token) {
        outcome := CreateNoToken;
        return;
      }
      requests, outcome, store' := Submit(store, token, Classify(reply, CreateFallback, "mensaje", Str(CreatedFallback)), listReply);
    }

    /** A created request empties the form, closes the modal and fetches the
        list again. */
    method AfterCreated(store: Storage, token: Option<string>, listReply: Reply)
      returns (listRequest: Request, listed: ListOutcome, store': Storage)
      requires token == GetItem(store, TokenKey) && Present(token)
      modifies this
      ensures nombre == apPat == apMat == telefono == correo == tipo == complemento == ""
      ensures !modalVisible && !loading && !refreshing
      ensures listRequest == Request("GET", ListPath, token, None)
      ensures listed == Listed(Classify(listReply, ListFallback, "data", Arr([])))
      ensures store' == (if listed.verdict == SessionInvalid then store - {TokenKey} else store)
      ensures solicitudes == ListAfter(listed.verdict, old(solicitudes))
    {
      ResetForm();
      var request;
      request, listed, store' := FetchSolicitudes(store, listReply);
      listRequest := request.value;
    }

    /** The try block of `crearSolicitud()`, once the name and the token are
        there, given how the reply to the POST is classified. */
    method Submit(store: Storage, token: Option<string>, verdict: Verdict, listReply: Reply)
      returns (requests: seq<Request>, outcome: CreateOutcome, store': Storage)
      requires token == GetItem(store, TokenKey) && Present(token)
      modifies this
      ensures !loading && |requests| > 0
      ensures requests[0] == Request("POST", CreatePath, token, Some(old(NewSolicitud())))
      ensures !verdict.Success? ==>
                outcome == Done(verdict) &&
                |requests| == 1 && Fields() == old(Fields()) && solicitudes == old(solicitudes) &&
                refreshing == old(refreshing) &&
                store' == if verdict == SessionInvalid then store - {TokenKey} else store
      ensures verdict.Success? ==>
                && outcome.Created? && outcome.alert == verdict.value
                && nombre == apPat == apMat == telefono == correo == tipo == complemento == ""
                && !modalVisible && !refreshing
                && |requests| == 2 && requests[1] == Request("GET", ListPath, token, None)
                && outcome.refetch == Listed(Classify(listReply, ListFallback, "data", Arr([])))
                && solicitudes == ListAfter(outcome.refetch.verdict, old(solicitudes))
                && store' == (if outcome.refetch.verdict == SessionInvalid then store - {TokenKey} else store)
    {
      var post := Request("POST", CreatePath, token, Some(NewSolicitud()));
      loading := true;
      store' := store;
      if verdict.Success? {
        var listRequest, listed, st := AfterCreated(store, token, listReply);
        requests, store' := [post, listRequest], st;
        outcome := Created(verdict.value, listed);
      } else {
        requests := [post];
        if verdict == SessionInvalid {
          store' := store - {TokenKey};
        }
        outcome := Done(verdict);
      }
      loading := false;
    }
  }
}
