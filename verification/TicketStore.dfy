/**
 * The `tickets` table of helpbot.db as a map from the primary key `id` to
 * the rest of the row, with the two writes the bot issues: the INSERT of
 * create_ticket and the UPDATE of update_ticket_status.
 */
module TicketStore {
  import opened Common
  import opened Text
  import opened TicketId

  /** One row: nickname, message, status (default 'Waiting') and a nullable oper. */
  datatype Ticket = Ticket(nickname: string, message: string, status: string, oper: Option<string>)

  type Store = map<string, Ticket>

  /** The three status strings the bot writes, spelled as it spells them. */
  const Waiting: string := "Waiting"
  const Closed: string := "CLOSED"
  const Open: string := "OPEN"

  /** Why an INSERT is refused: the id is already a primary key of the table. */
  datatype StoreError = DuplicateKey(id: string)

  /**
   * INSERT INTO tickets (id, nickname, message, status) VALUES (?, ?, ?, "Waiting"):
   * a new Waiting row without operator, or a constraint failure that leaves
   * the table as it was.
   */
  function Insert(store: Store, id: string, nickname: string, message: string): (r: Result<Store, StoreError>)
    ensures r.Failure? <==> id in store
    ensures r.Failure? ==> r.error == DuplicateKey(id)
    ensures r.Success? ==>
      && r.value.Keys == store.Keys + {id}
      && |r.value| == |store| + 1
      && r.value[id] == Ticket(nickname, message, Waiting, None)
      && forall k :: k in store ==> r.value[k] == store[k]
  {
    if id in store then Failure(DuplicateKey(id))
    else Success(store[id := Ticket(nickname, message, Waiting, None)])
  }

  /**
   * UPDATE tickets SET status = ?, oper = ? WHERE id = ?: only the named row
   * changes, only in status and oper, and an unknown id matches no row.
   */
  function Update(store: Store, id: string, status: string, oper: Option<string>): (r: Store)
    ensures r.Keys == store.Keys
    ensures forall k :: k in store && k != id ==> r[k] == store[k]
    ensures id in store ==>
      && r[id].status == status && r[id].oper == oper
      && r[id].nickname == store[id].nickname && r[id].message == store[id].message
    ensures id !in store ==> r == store
  {
    if id in store then store[id := store[id].(status := status, oper := oper)] else store
  }

  /** SELECT ... FROM tickets WHERE id = ?, as the row or NULL. */
  function Lookup(store: Store, id: string): (r: Option<Ticket>)
    ensures r.Some? <==> id in store
    ensures r.Some? ==> r.value == store[id]
  {
    if id in store then Some(store[id]) else None
  }

  /** A row as the bot writes it: an id of its own shape, a lowercased nickname, a sanitised message, one of its three statuses, and an operator only on a CLOSED ticket. */
  predicate WellFormedTicket(id: string, t: Ticket) {
    && IsTicketId(id)
    && IsLowerCase(t.nickname)
    && AllSafe(t.message)
    && (t.status == Waiting || t.status == Closed || t.status == Open)
    && (t.oper.Some? ==> t.status == Closed)
  }

  predicate WellFormed(store: Store) {
    forall id :: id in store ==> WellFormedTicket(id, store[id])
  }

  /** An insert of a well-formed row keeps a well-formed table well-formed. */
  lemma InsertPreservesWellFormed(store: Store, id: string, nickname: string, message: string)
    requires WellFormed(store)
    requires IsTicketId(id) && IsLowerCase(nickname) && AllSafe(message)
    ensures Insert(store, id, nickname, message).Success? ==> WellFormed(Insert(store, id, nickname, message).value)
  {
  }

  /** Setting CLOSED with an operator, or any known status without one, keeps the table well-formed. */
  lemma UpdatePreservesWellFormed(store: Store, id: string, status: string, oper: Option<string>)
    requires WellFormed(store)
    requires status == Waiting || status == Closed || status == Open
    requires oper.Some? ==> status == Closed
    ensures WellFormed(Update(store, id, status, oper))
  {
  }

  /** After an update the lookup reads back what was written; other ids read as before. */
  lemma UpdateThenLookup(store: Store, id: string, status: string, oper: Option<string>, other: string)
    requires id in store
    ensures Lookup(Update(store, id, status, oper), id) == Some(store[id].(status := status, oper := oper))
    ensures other != id ==> Lookup(Update(store, id, status, oper), other) == Lookup(store, other)
  {
  }
}
