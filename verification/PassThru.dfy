/** The J2534 vocabulary shared by the wrapper: messages (PassThruStruct.h) and result codes
    (j2534_defs.h). */
module PassThru {
  import opened Bytes

  const DATA_CAPACITY := 4128

  const CAN := 5
  const CAN_PS := 0x8004
  const CAN_29BIT_ID := 0x100

  /** An unsigned long of the 32-bit target. */
  type word = n: int | 0 <= n < TWO_32

  /** PASSTHRU_MSG.  `data` is the whole fixed array, not just its first `dataSize` bytes. */
  datatype Message = Message(protocolID: word, rxStatus: word, txFlags: word, timestamp: word,
                             dataSize: word, extraDataIndex: word, data: seq<byte>)

  type PassThruMsg = m: Message | |m.data| == DATA_CAPACITY
    witness Message(0, 0, 0, 0, 0, 0, seq(DATA_CAPACITY, _ => 0))

  /** A data array that starts with the given bytes and is zero after them. */
  function Fill(bytes: seq<byte>): (r: seq<byte>)
    requires |bytes| <= DATA_CAPACITY
    ensures |r| == DATA_CAPACITY && r[..|bytes|] == bytes
    ensures forall i :: |bytes| <= i < DATA_CAPACITY ==> r[i] == 0
  {
    bytes + seq(DATA_CAPACITY - |bytes|, _ => 0)
  }

  lemma FillUnique(bytes: seq<byte>, data: seq<byte>)
    requires |bytes| <= |data| == DATA_CAPACITY
    ensures data == Fill(bytes) <==>
            data[..|bytes|] == bytes && forall i :: |bytes| <= i < DATA_CAPACITY ==> data[i] == 0
  {
    assert data == data[..|bytes|] + data[|bytes|..];
  }

  datatype Status =
    | STATUS_NOERROR
    | ERR_INVALID_CHANNEL_ID
    | ERR_NULL_PARAMETER
    | ERR_FAILED
    | ERR_DEVICE_NOT_CONNECTED
    | ERR_DEVICE_IN_USE
    | ERR_INVALID_DEVICE_ID
    | ERR_NO_MORE_DEVICES
}
