/** The entities of the service: items, outbox rows and the envelopes clients receive. */
module Model {

  datatype Option<+T> = None | Some(value: T)

  type ItemId = nat
  type Time = int

  datatype Item = Item(name: string, value: int, version: nat, createdAt: Time, updatedAt: Time)

  datatype Kind = Created | Updated | Deleted

  /** An outbox row as its writer inserts it: `id` from the BIGSERIAL, `payload` a full snapshot. */
  datatype Event = Event(id: nat, aggregate: ItemId, kind: Kind, payload: Item)

  /** `published_at` and `stream_seq` (`pos` throughout), which a table constraint makes null together. */
  datatype Stamp = Stamp(at: Time, pos: nat)

  datatype Row = Row(event: Event, stamp: Option<Stamp>)

  /** The outbox table by primary key. */
  type Outbox = map<nat, Row>

  /** What a published row looks like to a consumer. */
  datatype Envelope = Envelope(pos: nat, event: Event)

  /** The optional server-side filter on one entity. */
  predicate Wants(aggregate: Option<ItemId>, e: Envelope) {
    aggregate.None? || aggregate.value == e.event.aggregate
  }

  ghost predicate Rising(s: seq<Envelope>) {
    forall i, j :: 0 <= i < j < |s| ==> s[i].pos < s[j].pos
  }

  /** The last position of a rising history; 0 while it is empty. */
  function Head(h: seq<Envelope>): nat {
    if h == [] then 0 else h[|h| - 1].pos
  }
}
