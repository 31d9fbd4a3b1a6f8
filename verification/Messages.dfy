/** Kafka messages and their making from outbox rows (internal/relay/relay.go, internal/broker/publisher.go). */
module Messages {
  import opened Wrappers
  import opened Domain
  import opened Json
  import opened Events
  import opened Database
  import ShipmentApi
  import Decimal

  datatype Message = Message(topic: string, key: ShipmentId, value: Text, headers: map<string, string>)

  /** The payload is decoded only to lift the headers out of it; an undecodable row has no message. */
  function MessageFor(row: OutboxRow): Result<Message, DecodeError> {
    match Decode(IsJson(row.payload))
    case Err(e) => Err(e)
    case Ok(payload) =>
      Ok(Message(TOPIC, row.shipmentId, IsJson(row.payload),
                 map["event_type" := payload.eventType,
                     "schema_version" := if payload.schemaVersion >= 0 then Decimal.Print(payload.schemaVersion) else "",
                     "correlation_id" := payload.correlationId]))
  }

  /** A row built by CreateShipment is publishable, and its message decodes to the created event. */
  lemma CreatedRowIsPublishable(db: Tables, c: ShipmentApi.CreateCall)
    requires ShipmentApi.Prepare(c).Ok? && c.eventId != "" && c.shipmentId != ""
    requires var p := ShipmentApi.Prepare(c).value; CreateTx(db, p.shipment, p.event).Ok?
    ensures var p := ShipmentApi.Prepare(c).value;
            var row := CreateTx(db, p.shipment, p.event).value.outbox[c.eventId];
            && MessageFor(row).Ok?
            && MessageFor(row).value ==
               Message("shipment.created.v1", c.shipmentId, p.event.payload,
                       map["event_type" := "shipment.created", "schema_version" := "1", "correlation_id" := c.correlationId])
            && Decode(MessageFor(row).value.value) == Ok(ShipmentApi.EventOf(c, p.shipment.price))
  {
    ShipmentApi.PreparedIsValid(c);
    ShipmentApi.StoredPayloadDecodes(c);
  }
}
