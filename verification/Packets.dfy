/** Packets: a timestamp and, unless the packet is empty, a typed payload. */
module Packets {
  import opened Timestamps

  datatype Packet =
    | EmptyAt(ts: Timestamp)
    | Data(ts: Timestamp, typeId: nat, value: int)

  predicate StrictlyIncreasing(ps: seq<Packet>) {
    forall i, j :: 0 <= i < j < |ps| ==> ps[i].ts < ps[j].ts
  }
}
