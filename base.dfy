/** Shared vocabulary of the shop's model: optional values, results with an
    error, the primary keys of the database tables and the clock types. */
module Base {

  datatype Option<+T> = None | Some(value: T) {
    function GetOr(default: T): T {
      match this
      case Some(v) => v
      case None => default
    }
  }

  datatype Result<+T, +E> = Ok(value: T) | Err(error: E)

  /** Primary keys of the tables `users`, `tea_products`, `teas`, `orders`
      and `cart_items`. */
  type UserId = nat
  type ProductId = nat
  type TeaId = nat
  type OrderId = nat
  type ItemId = nat

  /** A point in time (a `DateTimeField`), in seconds. */
  type Time = int

  /** A calendar day (a `DateField`), as a day number. */
  type Date = int

  /** Deleting a key just inserted gives the map back. */
  lemma RemoveInserted<K, V>(m: map<K, V>, k: K, v: V)
    requires k !in m
    ensures m[k := v] - {k} == m
  {
  }
}
