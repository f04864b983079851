/** The subscriber handlers of controllers/subscribers.js. The record a
    request refers to (`req.subscriber`, loaded before the handler runs) is
    a document object the handlers change in place; the collection is a map
    from id to stored record. */
module SubscribersController {
  import opened Common

  /** A stored subscriber: the two fields the handlers write and the
      subscription date the schema fills in. */
  datatype Record = Record(name: Option<string>, subscribedToChannel: Option<string>, subscribeDate: nat)

  /** A JSON request body, field name to value; a field that is `null` or
      `undefined` is absent. */
  type Body = map<string, string>

  /** A JSON record (`null` when `None`), a fixed message, or the message of
      a thrown error. */
  datatype Reply = Json(status: nat, subscriber: Option<Record>) | Message(status: nat, message: string) | Thrown(status: nat)

  function Field(body: Body, key: string): Option<string>
  {
    if key in body then Some(body[key]) else None
  }

  /** `new Subscriber({ name, subscribedToChannel })`, dated `now`. */
  function NewRecord(body: Body, now: nat): (r: Record)
    ensures r.name == Field(body, "name") && r.subscribedToChannel == Field(body, "subscribedToChannel")
    ensures r.subscribeDate == now
  {
    Record(Field(body, "name"), Field(body, "subscribedToChannel"), now)
  }

  /** Fields of the body other than the two the handler copies make no
      difference to the created record. */
  lemma CreateIgnoresOtherFields(body: Body, other: Body, now: nat)
    requires Field(body, "name") == Field(other, "name")
    requires Field(body, "subscribedToChannel") == Field(other, "subscribedToChannel")
    ensures NewRecord(body, now) == NewRecord(other, now)
  {
  }

  /** The effect of `updateSubscriber` on the record: each of the two
      fields is overwritten exactly when the body carries it; nothing else
      changes. */
  function ApplyUpdate(r: Record, body: Body): (u: Record)
    ensures "name" in body ==> u.name == Some(body["name"])
    ensures "name" !in body ==> u.name == r.name
    ensures "subscribedToChannel" in body ==> u.subscribedToChannel == Some(body["subscribedToChannel"])
    ensures "subscribedToChannel" !in body ==> u.subscribedToChannel == r.subscribedToChannel
    ensures u.subscribeDate == r.subscribeDate
  {
    var named := if "name" in body then r.(name := Some(body["name"])) else r;
    if "subscribedToChannel" in body then named.(subscribedToChannel := Some(body["subscribedToChannel"])) else named
  }

  /** Applying the same update twice gives the record applying it once
      gives. */
  lemma UpdateIdempotent(r: Record, body: Body)
    ensures ApplyUpdate(ApplyUpdate(r, body), body) == ApplyUpdate(r, body)
  {
  }

  /** A body with neither field leaves the record as it was, and an empty
      string is a value like any other (it is not `null`). */
  lemma UpdateWithoutFieldsIsIdentity(r: Record, body: Body)
    requires "name" !in body && "subscribedToChannel" !in body
    ensures ApplyUpdate(r, body) == r
  {
  }

  /** The document `req.subscriber` refers to. */
  class SubscriberDoc {
    const id: string
    var name: Option<string>
    var subscribedToChannel: Option<string>
    var subscribeDate: nat

    function Snapshot(): Record
      reads this
    {
      Record(name, subscribedToChannel, subscribeDate)
    }

    constructor (id: string, r: Record)
      ensures this.id == id && Snapshot() == r
    {
      this.id := id;
      name, subscribedToChannel, subscribeDate := r.name, r.subscribedToChannel, r.subscribeDate;
    }
  }

  /** `getOneSubscriber`: the loaded record, or `null`. */
  function GetOneSubscriber(doc: SubscriberDoc?): (r: Option<Record>)
    reads doc
    ensures r.None? <==> doc == null
    ensures doc != null ==> r == Some(doc.Snapshot())
  {
    if doc == null then None else Some(doc.Snapshot())
  }

  class SubscriberStore {
    var records: map<string, Record>

    constructor ()
      ensures records == map[]
    {
      records := map[];
    }

    /** `createSubscriber`: only `name` and `subscribedToChannel` are taken
        from the body; a save the store rejects (the id is taken) is 400. */
    method CreateSubscriber(newId: string, body: Body, now: nat) returns (reply: Reply)
      modifies this
      ensures newId in old(records) ==> reply == Thrown(400) && records == old(records)
      ensures newId !in old(records) ==>
        records == old(records)[newId := NewRecord(body, now)] && reply == Json(201, Some(NewRecord(body, now)))
    {
      var subscriber := Record(Field(body, "name"), Field(body, "subscribedToChannel"), now);
      if newId in records {
        return Thrown(400);
      }
      records := records[newId := subscriber];
      reply := Json(201, Some(subscriber));
    }

    /** `updateSubscriber`: with no loaded document the first property access
        throws (400); otherwise the document's fields are overwritten in
        place, then saved, which fails (400) when the stored record is gone. */
    method UpdateSubscriber(doc: SubscriberDoc?, body: Body) returns (reply: Reply)
      modifies this, doc
      ensures doc == null ==> reply == Thrown(400) && records == old(records)
      ensures doc != null ==> doc.Snapshot() == ApplyUpdate(old(doc.Snapshot()), body)
      ensures doc != null && doc.id in old(records) ==>
        records == old(records)[doc.id := doc.Snapshot()] && reply == Json(200, Some(doc.Snapshot()))
      ensures doc != null && doc.id !in old(records) ==> records == old(records) && reply == Thrown(400)
    {
      if doc == null {
        return Thrown(400);
      }
      if "name" in body {
        doc.name := Some(body["name"]);
      }
      if "subscribedToChannel" in body {
        doc.subscribedToChannel := Some(body["subscribedToChannel"]);
      }
      if doc.id !in records {
        return Thrown(400);
      }
      records := records[doc.id := doc.Snapshot()];
      reply := Json(200, Some(doc.Snapshot()));
    }

    /** `deleteSubscriber`: with a loaded document exactly its record is
        removed; without one, 404 and nothing is removed. */
    method DeleteSubscriber(doc: SubscriberDoc?) returns (reply: Reply)
      modifies this
      ensures doc == null ==> reply == Message(404, "Subscriber not found") && records == old(records)
      ensures doc != null ==> reply == Message(200, "Subscriber deleted") && records == old(records) - {doc.id}
    {
      if doc == null {
        return Message(404, "Subscriber not found");
      }
      records := records - {doc.id};
      reply := Message(200, "Subscriber deleted");
    }
  }
}
