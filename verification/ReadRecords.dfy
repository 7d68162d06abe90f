/** The log record of one PassThruReadMsgs (j2534cannelloniclient.cpp) and what the application reads
    out of it. */
module ReadRecords {
  import opened Bytes
  import opened PassThru
  import opened CanCodec
  import opened Channels
  import opened ChannelSafety
  import opened ChannelTheorems
  import opened MessageList

  // ---------------------------------------------------------------- what readers get

  /** Messages whose array is zero beyond their size, which is that of a CAN message. */
  predicate Clean(m: PassThruMsg) {
    4 <= m.dataSize <= 12 && Trimmed(m) == m
  }

  lemma CleanFrame(f: seq<byte>)
    requires |f| == FRAME_SIZE && f[4] <= MAX_FRAME_DATA
    ensures Clean(DecodeFrame(f))
  {
    DecodedFrame(f);
    TrimmedSame(DecodeFrame(f));
  }

  lemma {:induction false} DecodedAreClean(version: byte, dgs: seq<Datagram>)
    ensures forall i :: 0 <= i < |DecodeAll(version, dgs)| ==> Clean(DecodeAll(version, dgs)[i])
    decreases |dgs|
  {
    hide DecodeFrame, Clean;
    if dgs != [] {
      DecodedAreClean(version, dgs[1..]);
      if Accepted(version, dgs[0]) && LengthsInRange(version, dgs[0]) {
        forall i | 0 <= i < Count(dgs[0])
          ensures Clean(Decode(version, dgs[0])[i])
        {
          CleanFrame(FrameAt(dgs[0], i));
        }
      }
    }
  }

  lemma OpenReturned(version: byte, thread: Thread, log: Log, c: Context)
    requires OpenOk(version, thread, log, c)
    ensures log.returned <= DecodeAll(version, log.consumed)
  {
    hide LogOk, DecodeAll, Pending, Receivable;
    var held := Pending(version, thread.pc);
    assert log.returned + c.queue + held == log.returned + (c.queue + held);
  }

  lemma ReturnedIsDecoded(cfg: Config, actions: seq<Action>, t: nat)
    requires t < |Exec(Init(cfg), actions).logs|
    ensures var log := Exec(Init(cfg), actions).logs[t]; log.returned <= DecodeAll(cfg.version, log.consumed)
  {
    InvRun(cfg, actions);
    CfgRun(Init(cfg), actions);
    hide Next, Exec, DecodeAll, OpenOk, LogOk;
    var s := Exec(Init(cfg), actions);
    assert PeriodOk(s, t);
    if Attached(s, t) { OpenReturned(cfg.version, s.threads[t], s.logs[t], s.channels[s.threads[t].port]); }
  }

  /** Whatever is read from a channel in any run is clean. */
  lemma ReadsAreClean(cfg: Config, actions: seq<Action>, t: nat)
    requires t < |Exec(Init(cfg), actions).logs|
    ensures forall m :: m in Exec(Init(cfg), actions).logs[t].returned ==> Clean(m)
  {
    ReturnedIsDecoded(cfg, actions, t);
    hide Next, Exec, DecodeAll, Clean;
    var log := Exec(Init(cfg), actions).logs[t];
    DecodedAreClean(cfg.version, log.consumed);
    forall m | m in log.returned
      ensures Clean(m)
    {
      var k :| 0 <= k < |log.returned| && log.returned[k] == m;
      assert m == DecodeAll(cfg.version, log.consumed)[k];
    }
  }

  // ---------------------------------------------------------------- the record

  /** The entries made before the channel is looked up. */
  function RecordHead(channelID: word, timeout: word, count: word): seq<(Cbor, Cbor)> {
    [(Int(KEY_FUNC_NAME), Int(KEY_PASSTHRU_READ_MSGS)), (Int(KEY_PARAM1), Int(channelID)),
     (Int(KEY_PARAM3), Int(count)), (Int(KEY_PARAM4), Int(timeout))]
  }

  /** The record of a read that returned `msgs`; `count` is what the caller asked for. */
  function ReadLog(channelID: word, timeout: word, count: word, msgs: seq<PassThruMsg>): Cbor
    requires Sized(msgs)
  {
    Map(RecordHead(channelID, timeout, count)
        + [(Int(KEY_PARAM2), ListTree(msgs))]
        + [(Int(KEY_RX_TX), Int(1)), (Int(KEY_RETVAL_LONG), Int(0))])
  }

  /** With __FUNCTION__ as the plain name; the text plays no part below. */
  const INVALID_CHANNEL := "Function PassThruReadMsgs -> Invalid ChannelID"

  /** The record of a read from a channel that is not open. */
  function RefusedLog(channelID: word, timeout: word, count: word): Cbor {
    Map(RecordHead(channelID, timeout, count)
        + [(Int(KEY_PARAM2), Int(0)), (Int(KEY_RX_TX), Int(0)), (Int(KEY_ERROR), Text(INVALID_CHANNEL))])
  }

  method StartRecord(channelID: word, timeout: word, count: word) returns (root: CborMap)
    ensures fresh(root) && root.entries == RecordHead(channelID, timeout, count)
  {
    root := new CborMap();
    MapPutInt(root, KEY_FUNC_NAME, KEY_PASSTHRU_READ_MSGS);
    MapPutInt(root, KEY_PARAM1, channelID);
    MapPutInt(root, KEY_PARAM3, count);
    MapPutInt(root, KEY_PARAM4, timeout);
  }

  method RefuseRecord(root: CborMap, ghost channelID: word, ghost timeout: word, ghost count: word)
    returns (record: Cbor)
    requires root.entries == RecordHead(channelID, timeout, count)
    modifies root
    ensures record == RefusedLog(channelID, timeout, count)
  {
    MapPutInt(root, KEY_PARAM2, 0);
    MapPutInt(root, KEY_RX_TX, 0);
    root.Put(Int(KEY_ERROR), Text(INVALID_CHANNEL));
    record := Map(root.entries);
  }

  /** The messages are taken from the caller's buffer. */
  method FinishRecord(root: CborMap, ghost channelID: word, ghost timeout: word, ghost count: word,
                      readCount: word, buffer: seq<PassThruMsg>) returns (record: Cbor)
    requires root.entries == RecordHead(channelID, timeout, count)
    requires readCount <= |buffer| && Sized(buffer[..readCount])
    modifies root
    ensures record == ReadLog(channelID, timeout, count, buffer[..readCount])
  {
    hide ListTree, RecordHead;
    MapPutPassThruMsg(root, KEY_PARAM2, readCount, buffer);
    MapPutInt(root, KEY_RX_TX, 1);
    MapPutInt(root, KEY_RETVAL_LONG, 0);
    record := Map(root.entries);
  }

  lemma CleanIsSized(msgs: seq<PassThruMsg>)
    requires forall m :: m in msgs ==> Clean(m)
    ensures Sized(msgs)
  {
    forall i | 0 <= i < |msgs|
      ensures msgs[i].dataSize <= DATA_CAPACITY
    {
      assert msgs[i] in msgs;
    }
  }

  // ---------------------------------------------------------------- the application

  /** The records that ExJ2534Cannelloni hands to its list of read messages. */
  predicate IsReadRecord(root: Cbor) {
    Value(ToMap(root), KEY_FUNC_NAME) == Int(KEY_PASSTHRU_READ_MSGS)
  }

  ghost predicate Dispatchable(root: Cbor) { IsReadRecord(root) ==> Readable(root) }

  /** What a record adds to that list. */
  function Dispatch(root: Cbor): seq<PassThruMsg>
    requires Dispatchable(root)
  {
    if IsReadRecord(root) then ReadMessages(root) else []
  }

  lemma ReadLogRead(channelID: word, timeout: word, count: word, msgs: seq<PassThruMsg>)
    requires forall m :: m in msgs ==> Clean(m)
    ensures Sized(msgs)
    ensures var root := ReadLog(channelID, timeout, count, msgs);
            IsReadRecord(root) && Readable(root) && ReadMessages(root) == msgs
  {
    hide ListTree, Readable, ReadMessages, Trimmed;
    CleanIsSized(msgs);
    forall i | 0 <= i < |msgs|
      ensures Trimmed(msgs[i]) == msgs[i]
    {
      assert msgs[i] in msgs && Clean(msgs[i]);
    }
    var tail := [(Int(KEY_RX_TX), Int(1)), (Int(KEY_RETVAL_LONG), Int(0))];
    ListRoundTrip(RecordHead(channelID, timeout, count), msgs, tail);
  }

  /** The record field by field: function, channel, time-out, count asked for, direction and result. */
  lemma ReadLogFields(channelID: word, timeout: word, count: word, msgs: seq<PassThruMsg>)
    requires Sized(msgs)
    ensures var e := ToMap(ReadLog(channelID, timeout, count, msgs));
            Value(e, 0) == Int(27) && Value(e, 1) == Int(channelID) && Value(e, 2) == ListTree(msgs)
            && Value(e, 3) == Int(count) && Value(e, 4) == Int(timeout)
            && Value(e, 8) == Int(1) && Value(e, 9) == Int(0)
  {
    hide ListTree, Value;
    var e := ReadLog(channelID, timeout, count, msgs).entries;
    ValueAt(e, 0, 0);
    ValueAt(e, 1, 1);
    ValueAt(e, 3, 2);
    ValueAt(e, 4, 3);
    ValueAt(e, 2, 4);
    ValueAt(e, 8, 5);
    ValueAt(e, 9, 6);
  }

  lemma RefusedLogFields(channelID: word, timeout: word, count: word)
    ensures var e := ToMap(RefusedLog(channelID, timeout, count));
            Value(e, 0) == Int(27) && Value(e, 1) == Int(channelID) && Value(e, 2) == Int(0)
            && Value(e, 3) == Int(count) && Value(e, 4) == Int(timeout) && Value(e, 8) == Int(0) && Value(e, 10).Text?
  {
    hide Value;
    var e := RefusedLog(channelID, timeout, count).entries;
    ValueAt(e, 0, 0);
    ValueAt(e, 1, 1);
    ValueAt(e, 3, 2);
    ValueAt(e, 4, 3);
    ValueAt(e, 2, 4);
    ValueAt(e, 8, 5);
    ValueAt(e, 10, 6);
  }

  /** Function number 27 decides which records reach the list of read messages. */
  lemma ReadRecordNumber(f: int, details: seq<(Cbor, Cbor)>)
    ensures IsReadRecord(Map([(Int(0), Int(f))] + details)) <==> f == 27
  {}

  /** A refused read shows nothing. */
  lemma RefusedLogRead(channelID: word, timeout: word, count: word)
    ensures var root := RefusedLog(channelID, timeout, count);
            IsReadRecord(root) && Readable(root) && ReadMessages(root) == []
  {
    ValueAt(RefusedLog(channelID, timeout, count).entries, KEY_PARAM2, 4);
  }
}
