/** The topic and its committed offsets as one process sees them (internal/broker/publisher.go and the client). */
module Kafka {
  import opened Messages
  import opened Storage
  import P = Protocol

  /** What becomes of one message: outcome, partition chosen by the client, and the text of an error. */
  datatype Sending = Sending(outcome: P.PublishOutcome, partition: P.Partition, error: string)

  class Broker {
    var log: seq<P.Record>
    var committed: map<P.Partition, nat>

    constructor ()
      ensures log == [] && committed == map[]
    {
      log, committed := [], map[];
    }

    /** A failed publish may still have been written. */
    method Publish(m: Message, s: Sending) returns (acked: bool)
      modifies this`log
      ensures log == old(log) + if s.outcome.NotWritten? then [] else [P.Record(s.partition, m.key, m.value)]
      ensures acked <==> s.outcome.Acked?
    {
      if !s.outcome.NotWritten? {
        log := log + [P.Record(s.partition, m.key, m.value)];
      }
      return s.outcome.Acked?;
    }

    /** Moves the partition's committed offset past the record; a failed commit may still have done so. */
    method CommitRecord(offset: nat, fault: Fault) returns (ok: bool)
      requires offset < |log|
      modifies this`committed
      ensures committed ==
              if TakesEffect(fault) then old(committed)[log[offset].partition := offset + 1] else old(committed)
      ensures ok <==> fault.NoFault?
    {
      if TakesEffect(fault) {
        committed := committed[log[offset].partition := offset + 1];
      }
      return fault.NoFault?;
    }
  }
}
