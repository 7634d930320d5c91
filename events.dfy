/**
 * The stored event record and its constructor. The payload encoder, the GUID
 * generator, the clock and the payload's type name are injected: they are
 * parameters of the constructor rather than calls it makes.
 */
module Events {
  import opened Errors

  newtype Int64 = x: int | -0x8000_0000_0000_0000 <= x < 0x8000_0000_0000_0000

  /** A UTC reading of the clock. */
  type Instant = int

  datatype StoreEvent = StoreEvent(
    id: Int64,                 // assigned by a backend; 0 until then
    eventType: string,
    aggregateId: string,
    aggregateName: string,
    createdAt: Option<Instant>,
    createdBy: string,
    payloadData: string,       // the encoder's output
    payloadDataType: string)   // the type name of the original payload
  {
    /** The payload's type name and encoded data, in that order. */
    function GetPayload(): (r: (string, string))
      ensures r.0 == payloadDataType && r.1 == payloadData
    {
      (payloadDataType, payloadData)
    }
  }

  /** The zero value of the record, returned beside an error. */
  const ZeroEvent := StoreEvent(0, "", "", "", None, "", "", "")

  /**
   * Builds a fresh event. `encode` stands for the payload codec, `typeName`
   * for the reflected type name, `newGuid` for the GUID drawn at this call
   * and `now` for the clock's UTC reading at this call.
   */
  function NewStoreEvent<T>(eventType: string, aggregateName: string, userId: string, payload: T,
                            aggregateId: Option<string>, encode: T -> Result<string>,
                            typeName: T -> string, newGuid: string, now: Instant): (r: (StoreEvent, Option<Error>))
    ensures encode(payload).Err? ==> r == (ZeroEvent, Some(encode(payload).error))
    ensures encode(payload).Ok? ==>
      && r.1 == None
      && r.0.id == 0
      && r.0.aggregateId == (if aggregateId.Some? then aggregateId.value else newGuid)
      && r.0.eventType == eventType && r.0.aggregateName == aggregateName && r.0.createdBy == userId
      && r.0.createdAt == Some(now)
      && r.0.payloadData == encode(payload).value && r.0.payloadDataType == typeName(payload)
  {
    match encode(payload)
    case Err(e) => (ZeroEvent, Some(e))
    case Ok(payloadData) =>
      var finalAggregateId := if aggregateId.Some? then aggregateId.value else newGuid;
      (StoreEvent(0, eventType, finalAggregateId, aggregateName, Some(now), userId, payloadData, typeName(payload)), None)
  }

  /** What a successfully built event hands to a backend is the encoder's output under the payload's type name. */
  lemma PayloadOfNewEvent<T>(eventType: string, aggregateName: string, userId: string, payload: T,
                             aggregateId: Option<string>, encode: T -> Result<string>,
                             typeName: T -> string, newGuid: string, now: Instant)
    requires encode(payload).Ok?
    ensures NewStoreEvent(eventType, aggregateName, userId, payload, aggregateId, encode, typeName, newGuid, now).0.GetPayload()
            == (typeName(payload), encode(payload).value)
  {
  }
}
