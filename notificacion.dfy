/** The notification list (components/Notificacion.js): a counter that issues
    ids, newest-first insertion, a clear action that keeps the counter, and
    four handlers with fixed texts. */
module Notificacion {
  import opened Text

  /** One entry. `time` is the timestamp text the caller supplies. */
  datatype Notification = Notification(id: string, title: string, message: string, time: string)

  /** The number an id was issued for: the id is that number's decimal text. */
  predicate IssuedAs(id: string, k: nat) {
    Decimal(k) == id
  }

  class NotificationList {
    var items: seq<Notification>
    var nextId: nat
    /** Every id issued so far, including those of cleared entries. */
    ghost var issued: set<string>

    /** The counter starts at 1; every listed id was issued; ids issued are the
        decimal texts of 1 .. nextId - 1; the list is newest first, so its ids
        come from strictly decreasing counter values. */
    ghost predicate Valid()
      reads this
    {
      && nextId >= 1
      && (forall i :: 0 <= i < |items| ==> items[i].id in issued)
      && (forall id :: id in issued ==> 1 <= DecimalValue(id) < nextId && IssuedAs(id, DecimalValue(id)))
      && (forall i, j :: 0 <= i < j < |items| ==> DecimalValue(items[i].id) > DecimalValue(items[j].id))
    }

    constructor ()
      ensures Valid() && items == [] && nextId == 1 && issued == {}
    {
      items, nextId, issued := [], 1, {};
    }

    /** `pushNotification(title, message)`: the new entry, with the id
        `String(nextId.current++)`, goes in front of the unchanged list. */
    method Push(title: string, message: string, time: string)
      requires Valid()
      modifies this
      ensures Valid()
      ensures items == [Notification(Decimal(old(nextId)), title, message, time)] + old(items)
      ensures nextId == old(nextId) + 1
      ensures items[0].id !in old(issued) && issued == old(issued) + {items[0].id}
    {
      var id := Decimal(nextId);
      DecimalRoundTrip(nextId);
      assert id !in issued;
      items := [Notification(id, title, message, time)] + items;
      issued := issued + {id};
      nextId := nextId + 1;
    }

    /** The "Eliminar" button: empties the list; the counter is not reset. */
    method Clear()
      requires Valid()
      modifies this
      ensures Valid()
      ensures items == [] && nextId == old(nextId) && issued == old(issued)
    {
      items := [];
    }

    method MotorLockedFromWatch(time: string)
      requires Valid()
      modifies this
      ensures Valid() && nextId == old(nextId) + 1 && Decimal(old(nextId)) !in old(issued)
      ensures items == [Notification(Decimal(old(nextId)), "Motor", "Se bloqueó el motor desde el reloj", time)] + old(items)
    {
      Push("Motor", "Se bloqueó el motor desde el reloj", time);
    }

    method MotorUnlockedFromWatch(time: string)
      requires Valid()
      modifies this
      ensures Valid() && nextId == old(nextId) + 1 && Decimal(old(nextId)) !in old(issued)
      ensures items == [Notification(Decimal(old(nextId)), "Motor", "Se desbloqueó el motor desde el reloj", time)] + old(items)
    {
      Push("Motor", "Se desbloqueó el motor desde el reloj", time);
    }

    method ProximityAlert(time: string)
      requires Valid()
      modifies this
      ensures Valid() && nextId == old(nextId) + 1 && Decimal(old(nextId)) !in old(issued)
      ensures items == [Notification(Decimal(old(nextId)), "Proximidad", "¡Alguien está muy cerca del carro!", time)] + old(items)
    {
      Push("Proximidad", "¡Alguien está muy cerca del carro!", time);
    }

    method WearConnected(time: string)
      requires Valid()
      modifies this
      ensures Valid() && nextId == old(nextId) + 1 && Decimal(old(nextId)) !in old(issued)
      ensures items == [Notification(Decimal(old(nextId)), "Conexión", "Se conectó a un dispositivo Wear OS", time)] + old(items)
    {
      Push("Conexión", "Se conectó a un dispositivo Wear OS", time);
    }
  }

  /** The list a `FlatList` keys by id never shows one id twice. */
  lemma ListedIdsDistinct(l: NotificationList, i: nat, j: nat)
    requires l.Valid()
    requires i < j < |l.items|
    ensures l.items[i].id != l.items[j].id
  {
  }
}
