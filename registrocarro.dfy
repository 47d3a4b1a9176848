/** The vehicle registration screen (components/Registrocarro.js): the field
    gate, the token gate, the fixed-shape payload and the outcome branches of
    `handleRegister`. */
module Registrocarro {
  import opened Js

  const AddPath := "/api/vehiculos/agregar"
  const FailedFallback := "No se pudo registrar el vehículo"

  /** What `handleRegister` ends with. */
  datatype Outcome =
    | Incomplete            // marca, modelo or placas empty
    | NotAuthenticated      // no token: alert and navigate to Login
    | Failed(alert: Json)   // non-ok response: body.error or a fallback
    | Registered            // fields cleared, navigate Home
    | NoConnection          // the catch block

  /** `vehiculoData`, with its keys in the order the source writes them. */
  function VehiculoData(marca: string, modelo: string, placas: string, vin: string): Json {
    Obj([Field("marca", Str(marca)), Field("modelo", Str(modelo)), Field("placas", Str(placas)),
         Field("VIN", Str(vin)), Field("estado_motor", Bool(true))])
  }

  /** The payload carries the four fields exactly as typed, and the engine
      flagged on. */
  lemma VehiculoDataFields(marca: string, modelo: string, placas: string, vin: string)
    ensures VehiculoData(marca, modelo, placas, vin).Obj?
    ensures var fs := VehiculoData(marca, modelo, placas, vin).fields;
            && Lookup(fs, "marca") == Some(Str(marca))
            && Lookup(fs, "modelo") == Some(Str(modelo))
            && Lookup(fs, "placas") == Some(Str(placas))
            && Lookup(fs, "VIN") == Some(Str(vin))
            && Lookup(fs, "estado_motor") == Some(Bool(true))
  {
    var fs := VehiculoData(marca, modelo, placas, vin).fields;
    LookupHit(fs, 1, "modelo");
    LookupHit(fs, 2, "placas");
    LookupHit(fs, 3, "VIN");
    LookupHit(fs, 4, "estado_motor");
  }

  class Form {
    var marca: string
    var modelo: string
    var placas: string
    var vin: string
    var loading: bool

    constructor ()
      ensures marca == modelo == placas == vin == "" && !loading
    {
      marca, modelo, placas, vin, loading := "", "", "", "", false;
    }

    predicate Filled()
      reads this
    {
      marca != "" && modelo != "" && placas != ""
    }

    /** `handleRegister()`, with the stored items and the backend's reply
        (used only if the request is sent) as inputs. */
    method HandleRegister(store: Storage, reply: Reply) returns (request: Option<Request>, outcome: Outcome)
      modifies this
      ensures !old(Filled()) ==> outcome == Incomplete && request == None && loading == old(loading)
      ensures old(Filled()) && !Present(GetItem(store, TokenKey)) ==> outcome == NotAuthenticated && request == None
      ensures request.Some? <==> old(Filled()) && Present(GetItem(store, TokenKey))
      ensures request.Some? ==>
                request.value == Request("POST", AddPath, GetItem(store, TokenKey),
                                         Some(VehiculoData(old(marca), old(modelo), old(placas), old(vin))))
      ensures outcome == Registered <==> request.Some? && reply.Answered? && Ok(reply.status) && reply.body.Some?
      ensures outcome.Failed? <==>
                request.Some? && reply.Answered? && !Ok(reply.status) && reply.body.Some? && reply.body.value != Null
      ensures outcome.Failed? ==> outcome.alert == Or(OptProp(reply.body, "error"), Some(Str(FailedFallback))).value
      ensures outcome == Registered ==> marca == modelo == placas == vin == ""
      ensures outcome != Registered ==>
                marca == old(marca) && modelo == old(modelo) && placas == old(placas) && vin == old(vin)
      ensures outcome != Incomplete ==> !loading
      // each outcome exactly in its own case
      ensures outcome == Incomplete <==> !old(Filled())
      ensures outcome == NotAuthenticated <==> old(Filled()) && !Present(GetItem(store, TokenKey))
      ensures outcome == NoConnection <==>
                request.Some? && !(reply.Answered? && reply.body.Some? && (Ok(reply.status) || reply.body.value != Null))
    {
      request := None;
      if marca == "" || modelo == "" || placas == "" {
        outcome := Incomplete;
        return;
      }
      loading := true;
      var token := GetItem(store, TokenKey);
      if !Present(token) {
        loading := false;
        outcome := NotAuthenticated;
        return;
      }
      request := Some(Request("POST", AddPath, token, Some(VehiculoData(marca, modelo, placas, vin))));
      // a failed fetch, a body that does not parse and a read of null.error end in the catch
      if reply.Answered? && reply.body.Some? {
        var body := reply.body;
        if !Ok(reply.status) {
          if body.value != Null {
            outcome := Failed(Or(OptProp(body, "error"), Some(Str(FailedFallback))).value);
            loading := false;
            return;
          }
        } else {
          marca, modelo, placas, vin := "", "", "", "";
          loading := false;
          outcome := Registered;
          return;
        }
      }
      outcome := NoConnection;
      loading := false;
    }
  }
}
