/**
 * The catalog routes `sg-be/routes/machineTypes.js`, `machineSubtypes.js`
 * and `machines.js`: the same five handlers over one catalog table, told
 * apart only by the table and the not-found message.
 */
module CatalogRoutes {
  import opened Values
  import opened CatalogModel

  /** Which of the three routers a handler belongs to. */
  datatype Kind = MachineTypes | MachineSubtypes | Machines

  /** The 404 message of each router. */
  function NotFound(k: Kind): string {
    match k
    case MachineTypes => "Machine type not found"
    case MachineSubtypes => "Machine subtype not found"
    case Machines => "Machine not found"
  }

  /** The reply bodies these routes send. */
  datatype Body =
    | Items(rows: seq<NameRow>)
    | Item(row: NameRow)
    | Error(error: string)
    | Named(id: int, name: Json)
    | NoContent

  /** `GET /`: every row, by ascending id. */
  function ListAll(t: NameTable): (reply: Reply<Body>)
    requires t.Valid()
    reads t
    ensures reply.status == 200 && reply.body.Items?
    ensures forall row :: row in reply.body.rows <==> row.id in t.names && t.names[row.id] == row.name
    ensures forall i, j :: 0 <= i < j < |reply.body.rows| ==> reply.body.rows[i].id < reply.body.rows[j].id
  {
    Reply(200, Items(t.GetAll()))
  }

  /** `GET /:id`: the row, or 404 with the router's message. */
  function GetOne(t: NameTable, k: Kind, id: int): (reply: Reply<Body>)
    reads t
    ensures reply.status == 200 <==> id in t.names
    ensures id in t.names ==> reply.body == Item(NameRow(id, t.names[id]))
    ensures id !in t.names ==> reply == Reply(404, Error(NotFound(k)))
  {
    var row := t.GetById(id);
    if row.None? then Reply(404, Error(NotFound(k))) else Reply(200, Item(row.value))
  }

  /** A name that passes `if (!name)` binds to a non-NULL cell, so the NOT NULL column accepts it. */
  lemma TruthyNameIsNotNull(name: Json)
    requires Truthy(name)
    ensures Bind(name) != SqlNull
  {
  }

  /** `POST /`: 400 for a falsy name, else a new row and 201 with `{ id, name }`. */
  method Create(t: NameTable, name: Json) returns (reply: Reply<Body>)
    requires t.Valid()
    modifies t
    ensures t.Valid()
    ensures !Truthy(name) ==>
      reply == Reply(400, Error("Name is required")) && t.names == old(t.names) && t.nextId == old(t.nextId)
    ensures Truthy(name) ==>
      reply == Reply(201, Named(old(t.nextId), name)) && old(t.nextId) !in old(t.names) &&
      t.names == old(t.names)[old(t.nextId) := Bind(name)]
  {
    if !Truthy(name) {
      return Reply(400, Error("Name is required"));
    }
    TruthyNameIsNotNull(name);
    var id := t.Create(Bind(name));
    reply := Reply(201, Named(id.value, name));
  }

  /** `PUT /:id`: 400 for a falsy name, 404 when no row changed, else 200 with `{ id, name }`. */
  method Update(t: NameTable, k: Kind, id: int, name: Json) returns (reply: Reply<Body>)
    requires t.Valid()
    modifies t
    ensures t.Valid() && t.nextId == old(t.nextId)
    ensures !Truthy(name) ==> reply == Reply(400, Error("Name is required")) && t.names == old(t.names)
    ensures Truthy(name) && id !in old(t.names) ==> reply == Reply(404, Error(NotFound(k))) && t.names == old(t.names)
    ensures Truthy(name) && id in old(t.names) ==>
      reply == Reply(200, Named(id, name)) && t.names == old(t.names)[id := Bind(name)]
  {
    if !Truthy(name) {
      return Reply(400, Error("Name is required"));
    }
    TruthyNameIsNotNull(name);
    var changes := t.Update(id, Bind(name));
    if changes == Some(0) {
      return Reply(404, Error(NotFound(k)));
    }
    reply := Reply(200, Named(id, name));
  }

  /** `DELETE /:id`: 404 when no row changed, else the row removed and 204 with no body. */
  method Delete(t: NameTable, k: Kind, id: int) returns (reply: Reply<Body>)
    requires t.Valid()
    modifies t
    ensures t.Valid() && t.nextId == old(t.nextId)
    ensures t.names == old(t.names) - {id}
    ensures id !in old(t.names) ==> reply == Reply(404, Error(NotFound(k)))
    ensures id in old(t.names) ==> reply == Reply(204, NoContent)
  {
    var changes := t.Delete(id);
    if changes == 0 {
      return Reply(404, Error(NotFound(k)));
    }
    reply := Reply(204, NoContent);
  }

  /** After `POST /` with a truthy name, `GET /:id` on the returned id answers the stored row. */
  method CreateThenGetOne(t: NameTable, k: Kind, name: Json) returns (created: Reply<Body>, fetched: Reply<Body>)
    requires t.Valid() && Truthy(name)
    modifies t
    ensures t.Valid()
    ensures created.status == 201 && created.body.Named?
    ensures fetched == Reply(200, Item(NameRow(created.body.id, Bind(name))))
  {
    created := Create(t, name);
    fetched := GetOne(t, k, created.body.id);
  }

  /** After `DELETE /:id` answers 204, `GET /:id` answers 404, and a second delete answers 404. */
  method DeleteThenGetOne(t: NameTable, k: Kind, id: int)
      returns (deleted: Reply<Body>, fetched: Reply<Body>, again: Reply<Body>)
    requires t.Valid()
    modifies t
    ensures t.Valid()
    ensures deleted.status == 204 || deleted.status == 404
    ensures fetched == Reply(404, Error(NotFound(k)))
    ensures again == Reply(404, Error(NotFound(k)))
  {
    deleted := Delete(t, k, id);
    fetched := GetOne(t, k, id);
    again := Delete(t, k, id);
  }

}
