/**
 * The database tables the core reads and writes, each as a mutable store of
 * rows. A JPA repository's findById/existsById/save/delete become map lookups
 * and updates; a table read in insertion order is a sequence.
 */
module Stores {
  import opened Wrappers
  import opened Domain
  import opened Cart
  import opened Reservations

  /** Every product row is stored under its own code, the table's primary key. */
  predicate KeyedByCode(rows: map<string, Product>) {
    forall c :: c in rows ==> rows[c].code == c
  }

  /** The products table, keyed by product code. */
  class ProductRepository {
    var rows: map<string, Product>

    ghost predicate Valid()
      reads this
    {
      KeyedByCode(rows)
    }

    constructor (rows: map<string, Product>)
      ensures this.rows == rows
    {
      this.rows := rows;
    }
  }

  /**
   * A stored cart as the persistent-cart table holds it: either data that
   * deserialises back into a cart, or data that does not.
   */
  datatype StoredCart = Readable(data: CartData) | Unreadable

  /** The persistent_carts table, one row per user id. */
  class PersistentCartRepository {
    var rows: map<UserId, StoredCart>

    constructor (rows: map<UserId, StoredCart>)
      ensures this.rows == rows
    {
      this.rows := rows;
    }
  }

  /** The orders table (with its details), in insertion order. */
  class OrderRepository {
    var orders: seq<Order>

    constructor (orders: seq<Order>)
      ensures this.orders == orders
    {
      this.orders := orders;
    }
  }

  /** The accounts table, keyed by email. */
  class AccountRepository {
    var rows: map<string, Account>

    constructor (rows: map<string, Account>)
      ensures this.rows == rows
    {
      this.rows := rows;
    }
  }

  /** The contacts table, in insertion order. */
  class ContactRepository {
    var contacts: seq<Contact>

    constructor (contacts: seq<Contact>)
      ensures this.contacts == contacts
    {
      this.contacts := contacts;
    }
  }

  /**
   * The reservations table. Ids come from an identity column: `nextId` is
   * the next one it hands out.
   */
  class ReservationRepository {
    var rows: map<int, ReservationData>
    var nextId: int

    /** Every row carries its own key, and every key was handed out already. */
    ghost predicate Valid()
      reads this
    {
      forall id :: id in rows ==> rows[id].id == Some(id) && id < nextId
    }

    constructor (rows: map<int, ReservationData>, nextId: int)
      ensures this.rows == rows && this.nextId == nextId
    {
      this.rows := rows;
      this.nextId := nextId;
    }

    /**
     * save: a reservation without an id is inserted under the next identity
     * value, which is written back to the entity; one with an id overwrites
     * its row.
     */
    method Save(r: Reservation) returns (saved: ReservationData)
      modifies this, r`id
      ensures old(r.id).None? ==> r.id == Some(old(nextId)) && nextId == old(nextId) + 1
      ensures old(r.id).Some? ==> r.id == old(r.id) && nextId == old(nextId)
      ensures saved == r.Data() && rows == old(rows)[r.id.value := saved]
      ensures old(Valid()) && (old(r.id).None? || old(r.id.value) in old(rows)) ==> Valid()
      ensures old(Valid()) && old(r.id).None? ==> r.id.value !in old(rows)
    {
      if r.id.None? {
        r.id := Some(nextId);
        nextId := nextId + 1;
      }
      saved := r.Data();
      rows := rows[r.id.value := saved];
    }
  }
}
