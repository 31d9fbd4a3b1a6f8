/** The shipment.created.v1 message contract of internal/events/events.go. */
module Events {
  import opened Wrappers
  import opened Domain
  import opened Json

  const TOPIC := "shipment.created.v1"
  const TYPE_SHIPMENT_CREATED := "shipment.created"
  const SCHEMA_VERSION: int64 := 1

  datatype ShipmentCreatedData = ShipmentCreatedData(weightGrams: int32, amountCents: int64, currency: string)

  datatype ShipmentCreated = ShipmentCreated(
    eventId: EventId, eventType: string, schemaVersion: int64, shipmentId: ShipmentId,
    occurredAt: int, correlationId: string, data: ShipmentCreatedData)

  datatype DecodeError = Malformed | Unsupported

  /** The event of a freshly created shipment; eventId is the fresh identifier. */
  function NewShipmentCreated(eventId: EventId, s: Shipment, correlationId: string): ShipmentCreated {
    ShipmentCreated(eventId, TYPE_SHIPMENT_CREATED, SCHEMA_VERSION, s.id, s.createdAt, correlationId,
                    ShipmentCreatedData(s.weightGrams, s.price.amountCents, s.price.currency))
  }

  function EncodeData(d: ShipmentCreatedData): Value {
    Object(map["weight_grams" := Number(d.weightGrams), "amount_cents" := Number(d.amountCents),
               "currency" := String(d.currency)])
  }

  /** Fails only when the instant has no text form. */
  function Encode(e: ShipmentCreated): Option<Value> {
    match PrintInstant(e.occurredAt)
    case None => None
    case Some(occurredAt) => Some(Object(map[
      "event_id" := String(e.eventId),
      "event_type" := String(e.eventType),
      "schema_version" := Number(e.schemaVersion),
      "shipment_id" := String(e.shipmentId),
      "occurred_at" := String(occurredAt),
      "correlation_id" := String(e.correlationId),
      "data" := EncodeData(e.data)]))
  }

  datatype WireData = WireData(weightGrams: Option<int32>, amountCents: Option<int64>, currency: Option<string>)

  /** Every field is a pointer, so absent or null differs from a zero value. */
  datatype WireEvent = WireEvent(
    eventId: Option<string>, eventType: Option<string>, schemaVersion: Option<int64>,
    shipmentId: Option<string>, occurredAt: Option<int>, correlationId: Option<string>,
    data: Option<WireData>)

  function UnmarshalData(fields: map<string, Value>): Field<WireData> {
    match Lookup(fields, "data")
    case Null => Ok(None)
    case Object(d) =>
      (match (Int32Field(d, "weight_grams"), Int64Field(d, "amount_cents"), StringField(d, "currency"))
       case (Ok(w), Ok(a), Ok(c)) => Ok(Some(WireData(w, a, c)))
       case _ => Err(TypeError))
    case _ => Err(TypeError)
  }

  function UnmarshalFields(o: map<string, Value>): Result<WireEvent, TypeError> {
    match (StringField(o, "event_id"), StringField(o, "event_type"), Int64Field(o, "schema_version"),
           StringField(o, "shipment_id"), InstantField(o, "occurred_at"), StringField(o, "correlation_id"),
           UnmarshalData(o))
    case (Ok(id), Ok(ty), Ok(ver), Ok(sid), Ok(at), Ok(cor), Ok(d)) =>
      Ok(WireEvent(id, ty, ver, sid, at, cor, d))
    case _ => Err(TypeError)
  }

  /** The whole payload is unmarshalled before any rule is applied; JSON null leaves every field nil. */
  function Unmarshal(payload: Text): Result<WireEvent, TypeError> {
    match payload
    case IsJson(Object(o)) => UnmarshalFields(o)
    case IsJson(Null) => Ok(WireEvent(None, None, None, None, None, None, None))
    case _ => Err(TypeError)
  }

  /** Every field the contract requires is present, and the identifiers are not empty. */
  predicate Complete(w: WireEvent) {
    && w.eventId.Some? && w.eventId.value != ""
    && w.shipmentId.Some? && w.shipmentId.value != ""
    && w.occurredAt.Some? && w.correlationId.Some? && w.data.Some?
    && w.data.value.weightGrams.Some? && w.data.value.amountCents.Some? && w.data.value.currency.Some?
  }

  function Validate(w: WireEvent): Result<ShipmentCreated, DecodeError> {
    if w.eventType.None? then Err(Malformed)
    else if w.eventType.value != TYPE_SHIPMENT_CREATED then Err(Unsupported)
    else if w.schemaVersion.None? then Err(Malformed)
    else if w.schemaVersion.value != SCHEMA_VERSION then Err(Unsupported)
    else if !Complete(w) then Err(Malformed)
    else
      var data := w.data.value;
      var money := Money(data.amountCents.value, data.currency.value);
      if !ValidWeight(data.weightGrams.value) then Err(Malformed)
      else if !ValidMoney(money) then Err(Malformed)
      else Ok(ShipmentCreated(
                w.eventId.value, w.eventType.value, w.schemaVersion.value, w.shipmentId.value,
                w.occurredAt.value, w.correlationId.value,
                ShipmentCreatedData(data.weightGrams.value, money.amountCents, money.currency)))
  }

  function Decode(payload: Text): Result<ShipmentCreated, DecodeError> {
    match Unmarshal(payload)
    case Err(_) => Err(Malformed)
    case Ok(w) => Validate(w)
  }

  // ----- What the contract means, without the decoder -----

  /** The rules a v1 event obeys. */
  predicate ValidEvent(e: ShipmentCreated) {
    && e.eventType == TYPE_SHIPMENT_CREATED && e.schemaVersion == SCHEMA_VERSION
    && e.eventId != "" && e.shipmentId != ""
    && ValidWeight(e.data.weightGrams)
    && ValidMoney(Money(e.data.amountCents, e.data.currency))
  }

  /** The payload is a JSON object that spells e out key by key; other keys are ignored. */
  predicate SpellsOut(payload: Text, e: ShipmentCreated) {
    && payload.IsJson? && payload.value.Object?
    && var o := payload.value.fields;
    && HasString(o, "event_id", e.eventId)
    && HasString(o, "event_type", e.eventType)
    && HasNumber(o, "schema_version", e.schemaVersion)
    && HasString(o, "shipment_id", e.shipmentId)
    && "occurred_at" in o && o["occurred_at"].String? && ReadInstant(o["occurred_at"].s) == Some(e.occurredAt)
    && HasString(o, "correlation_id", e.correlationId)
    && "data" in o && o["data"].Object?
    && var d := o["data"].fields;
    && HasNumber(d, "weight_grams", e.data.weightGrams)
    && HasNumber(d, "amount_cents", e.data.amountCents)
    && HasString(d, "currency", e.data.currency)
  }

  lemma DecodeSound(payload: Text)
    requires Decode(payload).Ok?
    ensures SpellsOut(payload, Decode(payload).value) && ValidEvent(Decode(payload).value)
  {
    assert payload.IsJson?;
    if payload.value.Null? {
      assert false;
    }
    var o := payload.value.fields;
    assert UnmarshalFields(o).Ok?;
  }

  lemma DecodeComplete(payload: Text, e: ShipmentCreated)
    requires SpellsOut(payload, e) && ValidEvent(e)
    ensures Decode(payload) == Ok(e)
  {
    var o := payload.value.fields;
    var d := o["data"].fields;
    assert UnmarshalData(o) == Ok(Some(WireData(Some(e.data.weightGrams), Some(e.data.amountCents), Some(e.data.currency))));
    assert UnmarshalFields(o).Ok?;
  }

  /** Decode accepts exactly the payloads that spell out a valid event, and returns that event. */
  lemma DecodeAcceptsExactly(payload: Text, e: ShipmentCreated)
    ensures Decode(payload) == Ok(e) <==> SpellsOut(payload, e) && ValidEvent(e)
  {
    if Decode(payload) == Ok(e) {
      DecodeSound(payload);
    }
    if SpellsOut(payload, e) && ValidEvent(e) {
      DecodeComplete(payload, e);
    }
  }

  // ----- Known fields of the right type -----

  predicate Absent(o: map<string, Value>, key: string) {
    key !in o || o[key].Null?
  }

  predicate TypedString(o: map<string, Value>, key: string) {
    Absent(o, key) || o[key].String?
  }

  /** An integer literal of so many bits. */
  predicate TypedNumber(o: map<string, Value>, key: string, limit: int) {
    Absent(o, key) || (o[key].Number? && -limit <= o[key].n < limit)
  }

  predicate TypedInstant(o: map<string, Value>, key: string) {
    Absent(o, key) || (o[key].String? && ReadInstant(o[key].s).Some?)
  }

  predicate TypedData(o: map<string, Value>) {
    || Absent(o, "data")
    || (&& o["data"].Object?
        && TypedNumber(o["data"].fields, "weight_grams", 0x8000_0000)
        && TypedNumber(o["data"].fields, "amount_cents", INT64_LIMIT)
        && TypedString(o["data"].fields, "currency"))
  }

  /** Every known field is absent, null, or of its type; unknown fields do not matter. */
  predicate WellTyped(o: map<string, Value>) {
    && TypedString(o, "event_id") && TypedString(o, "event_type")
    && TypedNumber(o, "schema_version", INT64_LIMIT)
    && TypedString(o, "shipment_id") && TypedInstant(o, "occurred_at")
    && TypedString(o, "correlation_id") && TypedData(o)
  }

  lemma UnmarshalsWhenTyped(o: map<string, Value>)
    ensures UnmarshalFields(o).Ok? <==> WellTyped(o)
    ensures WellTyped(o) ==>
              && UnmarshalFields(o).value.eventType == StringField(o, "event_type").value
              && UnmarshalFields(o).value.schemaVersion == Int64Field(o, "schema_version").value
  {
    assert UnmarshalData(o).Ok? <==> TypedData(o);
    hide UnmarshalData, TypedData;
  }

  /** The event is of another type, or of another version of this one. */
  predicate NotForUs(o: map<string, Value>) {
    && "event_type" in o && o["event_type"].String?
    && (|| o["event_type"].s != TYPE_SHIPMENT_CREATED
        || ("schema_version" in o && o["schema_version"].Number? && o["schema_version"].n != SCHEMA_VERSION))
  }

  /** Unsupported exactly when every known field has its type and the event type or version is another one. */
  lemma UnsupportedExactly(payload: Text)
    ensures Decode(payload) == Err(Unsupported) <==>
            payload.IsJson? && payload.value.Object? && WellTyped(payload.value.fields) && NotForUs(payload.value.fields)
  {
    hide WellTyped, UnmarshalFields;
    if payload.IsJson? && payload.value.Object? {
      UnmarshalsWhenTyped(payload.value.fields);
      if WellTyped(payload.value.fields) {
        TypedVersion(payload.value.fields);
      }
    }
  }

  lemma TypedVersion(o: map<string, Value>)
    requires WellTyped(o)
    ensures StringField(o, "event_type") == Ok(if Absent(o, "event_type") then None else Some(o["event_type"].s))
    ensures Int64Field(o, "schema_version") == Ok(if Absent(o, "schema_version") then None else Some(o["schema_version"].n))
  {
  }

  /** Any known field of a wrong type makes the payload malformed, whatever type and version it claims. */
  lemma RetypedFieldIsMalformed(o: map<string, Value>)
    requires !WellTyped(o)
    ensures Decode(IsJson(Object(o))) == Err(Malformed)
  {
    hide WellTyped, UnmarshalFields;
    UnmarshalsWhenTyped(o);
  }

  lemma EncodeSpellsOut(e: ShipmentCreated)
    requires Encode(e).Some?
    ensures SpellsOut(IsJson(Encode(e).value), e)
  {
    ReadPrintInstant(e.occurredAt);
  }

  /** An encoded event decodes to itself exactly when it obeys the contract. */
  lemma EncodeDecode(e: ShipmentCreated)
    requires Encode(e).Some?
    ensures Decode(IsJson(Encode(e).value)) == Ok(e) <==> ValidEvent(e)
  {
    EncodeSpellsOut(e);
    DecodeAcceptsExactly(IsJson(Encode(e).value), e);
  }

  /** Whatever was decoded encodes again and decodes to itself. */
  lemma DecodeEncodeDecode(payload: Text)
    requires Decode(payload).Ok?
    ensures Encode(Decode(payload).value).Some?
    ensures Decode(IsJson(Encode(Decode(payload).value).value)) == Decode(payload)
  {
    DecodeSound(payload);
    EncodeDecode(Decode(payload).value);
  }
}
