/** How the screens hand data to each other through navigation parameters
    and AsyncStorage: the record Registro saves is read back by Login and by
    Perfil. */
module Flows {
  import opened Text
  import opened Js
  import Registro
  import Login
  import Perfil

  /** The Profile screen's local fallback on the record Registro saved: the
      profile is the registration object, and the vehicle list is the one
      vehicle registered with it, or is left alone when none was. */
  lemma RegisteredRecordLoads(d: Registro.UsuarioData, store: Storage, current: Perfil.Loaded)
    requires RegistroKey in store && store[RegistroKey] == Doc(Registro.UsuarioJson(d))
    ensures Perfil.LocalProfile(store, current) ==
              Perfil.Loaded(Registro.UsuarioJson(d),
                            match d.vehiculo
                            case Some(v) => Arr([Registro.VehicleJson(v)])
                            case None => current.vehiculos)
  {
    Registro.UsuarioJsonFields(d);
  }

  /** The record the offline registration path hands to Login pre-fills the
      username the user registered with. */
  lemma LocalRecordPrefills(d: Registro.UsuarioData, username: Json)
    requires d.usuario != ""
    ensures Login.Prefill(Some(Registro.LocalRecord(d)), username) == Str(d.usuario)
  {
    var reg := Some(Registro.LocalRecord(d));
    assert OptProp(reg, "usuario") == Some(Registro.UsuarioJson(d));
    Registro.UsuarioJsonFields(d);
  }

  /** The avatar of a profile loaded from the registration object shows the
      initials of the registered given name, whatever username is stored. */
  lemma RegisteredInitials(d: Registro.UsuarioData, usuario: Option<string>)
    requires d.nombre != ""
    ensures Perfil.InitialsName(Some(Registro.UsuarioJson(d)), usuario) == Some(d.nombre)
  {
    var fs := Registro.UsuarioJson(d).fields;
    LookupHit(fs, 0, "nombre_usuario");
  }

  /** A vehicle added offline on the Profile screen to the record Registro
      saved keeps every registration field and starts the `vehiculos` list. */
  lemma OfflineVehicleJoinsRecord(d: Registro.UsuarioData, store: Storage, x: Json)
    requires RegistroKey in store && store[RegistroKey] == Doc(Registro.UsuarioJson(d))
    ensures var st := Perfil.StoreVehicle(store, x);
            && st[RegistroKey].Doc? && st[RegistroKey].j.Obj?
            && (forall k :: k != "vehiculos" ==>
                  Lookup(st[RegistroKey].j.fields, k) == Lookup(Registro.UsuarioJson(d).fields, k))
            && Lookup(st[RegistroKey].j.fields, "vehiculos") == Some(Arr([x]))
  {
    var fs := Registro.UsuarioJson(d).fields;
    assert Lookup(fs, "vehiculos") == None by {
      forall i | 0 <= i < |fs| ensures fs[i].key != "vehiculos" {
        assert fs[i].key in ["nombre_usuario", "usuario", "contrasena", "correo", "telefono",
                             "numero_vehiculos", "entidad", "municipio", "vehiculo"];
      }
    }
    Perfil.StoreVehicleAppends(store, x, fs);
  }
}
