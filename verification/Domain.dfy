/** Business types and validators of internal/domain/domain.go. */
module Domain {
  type ShipmentId = string
  type EventId = string
  type DispatchId = string

  /** Go's fixed-width integers, as ranges. */
  const INT64_LIMIT: int := 0x8000_0000_0000_0000
  type int32 = x: int | -0x8000_0000 <= x < 0x8000_0000
  type int64 = x: int | -INT64_LIMIT <= x < INT64_LIMIT

  const MIN_WEIGHT_GRAMS: int32 := 1
  const MAX_WEIGHT_GRAMS: int32 := 30_000

  datatype Money = Money(amountCents: int64, currency: string)

  datatype Shipment = Shipment(id: ShipmentId, weightGrams: int32, price: Money, createdAt: int)

  predicate ValidWeight(weightGrams: int) {
    MIN_WEIGHT_GRAMS <= weightGrams <= MAX_WEIGHT_GRAMS
  }

  predicate IsCurrencyCode(s: string) {
    |s| == 3 && forall i :: 0 <= i < 3 ==> 'A' <= s[i] <= 'Z'
  }

  predicate ValidMoney(m: Money) {
    0 <= m.amountCents && IsCurrencyCode(m.currency)
  }

  datatype OutboxStatus = OutboxPending | OutboxPublished

  /** DispatchUnset is the zero value of the Go struct, which is neither constant. */
  datatype Dispatch =
    | DispatchUnset
    | DispatchPending
    | Dispatched(id: DispatchId, eventId: EventId, dispatchedAt: int)

  datatype ShipmentView = ShipmentView(shipment: Shipment, outbox: OutboxStatus, dispatch: Dispatch)
}
