/** The records that the calls of one client send over the pipe, and what they account for. */
module CallLog {
  import opened PassThru
  import opened Channels
  import opened ChannelTheorems
  import opened ClientCalls
  import opened MessageList
  import opened ReadRecords

  /** A logged call: a read of a channel in one of its periods, with what it returned; a read of a
      channel that is not open; or any other. */
  datatype Call =
    | Read(period: nat, channelID: word, timeout: word, count: word, msgs: seq<PassThruMsg>)
    | RefusedRead(channelID: word, timeout: word, count: word)
    | Other

  /** `root` is the record that such a call sends. */
  ghost predicate RecordOf(root: Cbor, call: Call) {
    match call
    case Read(_, channelID, timeout, count, msgs) => Sized(msgs) && root == ReadLog(channelID, timeout, count, msgs)
    case RefusedRead(channelID, timeout, count) => root == RefusedLog(channelID, timeout, count)
    case Other => !IsReadRecord(root)
  }

  /** What a call returned, if it was a read. */
  function Taken(call: Call): seq<PassThruMsg> {
    if call.Read? then call.msgs else []
  }

  predicate ReadsFrom(call: Call, t: nat) { call.Read? && call.period == t }

  /** What the reads of period t returned, in order. */
  function ReadFrom(calls: seq<Call>, t: nat): seq<PassThruMsg> {
    if calls == [] then [] else (if ReadsFrom(calls[0], t) then Taken(calls[0]) else []) + ReadFrom(calls[1..], t)
  }

  /** What all reads returned, in order. */
  function AllRead(calls: seq<Call>): seq<PassThruMsg> {
    if calls == [] then [] else Taken(calls[0]) + AllRead(calls[1..])
  }

  ghost predicate OnlyPeriod(calls: seq<Call>, t: nat) {
    forall i :: 0 <= i < |calls| && calls[i].Read? ==> calls[i].period == t
  }

  /** If all reads are of one period, there is no difference. */
  lemma {:induction false} AllReadOfOne(calls: seq<Call>, t: nat)
    requires OnlyPeriod(calls, t)
    ensures AllRead(calls) == ReadFrom(calls, t)
    decreases |calls|
  {
    if calls != [] { AllReadOfOne(calls[1..], t); }
  }

  lemma {:induction false} ReadFromLast(calls: seq<Call>, call: Call, t: nat)
    ensures ReadFrom(calls + [call], t) == ReadFrom(calls, t) + if ReadsFrom(call, t) then Taken(call) else []
    decreases |calls|
  {
    if calls == [] {
      assert [] + [call] == [call];
      assert ReadFrom([call][1..], t) == [];
    } else {
      assert (calls + [call])[1..] == calls[1..] + [call];
      ReadFromLast(calls[1..], call, t);
      hide ReadsFrom, Taken;
      var first := if ReadsFrom(calls[0], t) then Taken(calls[0]) else [];
      var last := if ReadsFrom(call, t) then Taken(call) else [];
      assert first + (ReadFrom(calls[1..], t) + last) == (first + ReadFrom(calls[1..], t)) + last;
    }
  }

  lemma {:induction false} InReadFrom(calls: seq<Call>, i: nat, m: PassThruMsg)
    requires i < |calls| && calls[i].Read? && m in calls[i].msgs
    ensures m in ReadFrom(calls, calls[i].period)
    decreases i
  {
    if i > 0 { InReadFrom(calls[1..], i - 1, m); }
  }

  lemma {:induction false} NothingReadFrom(calls: seq<Call>, t: nat)
    requires forall i :: 0 <= i < |calls| ==> !ReadsFrom(calls[i], t)
    ensures ReadFrom(calls, t) == []
    decreases |calls|
  {
    if calls != [] { NothingReadFrom(calls[1..], t); }
  }

  // ---------------------------------------------------------------- the account

  /** The records are those of the calls, and the calls account for all that readers got, period by
      period. */
  ghost predicate Accounted(records: seq<Cbor>, calls: seq<Call>, logs: seq<Log>) {
    |records| == |calls|
    && (forall i :: 0 <= i < |calls| ==> RecordOf(records[i], calls[i]))
    && (forall i :: 0 <= i < |calls| && calls[i].Read? ==> calls[i].period < |logs|)
    && forall t :: 0 <= t < |logs| ==> ReadFrom(calls, t) == logs[t].returned
  }

  /** Nothing was read meanwhile. */
  ghost predicate SameReturned(logs: seq<Log>, logs': seq<Log>) {
    |logs'| == |logs| && forall t :: 0 <= t < |logs| ==> logs'[t].returned == logs[t].returned
  }

  lemma AccountKept(records: seq<Cbor>, calls: seq<Call>, logs: seq<Log>, logs': seq<Log>)
    requires Accounted(records, calls, logs) && SameReturned(logs, logs')
    ensures Accounted(records, calls, logs')
  {
    hide RecordOf, ReadFrom;
  }

  lemma AccountOpened(records: seq<Cbor>, calls: seq<Call>, logs: seq<Log>)
    requires Accounted(records, calls, logs)
    ensures Accounted(records, calls, logs + [EMPTY_LOG])
  {
    hide RecordOf, ReadFrom;
    NothingReadFrom(calls, |logs|);
  }

  /** The record of a call that reads nothing. */
  lemma AccountLogged(records: seq<Cbor>, calls: seq<Call>, logs: seq<Log>, root: Cbor, call: Call)
    requires Accounted(records, calls, logs) && RecordOf(root, call) && !call.Read?
    ensures Accounted(records + [root], calls + [call], logs)
  {
    hide RecordOf, ReadFrom;
    forall t | 0 <= t < |logs|
      ensures ReadFrom(calls + [call], t) == logs[t].returned
    {
      ReadFromLast(calls, call, t);
    }
  }

  /** Every read keeps the account: with its record added, the calls account for all that readers got
      when it ends. */
  lemma AccountRead(records: seq<Cbor>, calls: seq<Call>, s: State, s': State, root: Cbor,
                    channelID: word, timeout: word, count: word, out: seq<PassThruMsg>)
    requires Accounted(records, calls, s.logs) && Progress(s, s', channelID, out, [])
    requires Sized(out) && root == ReadLog(channelID, timeout, count, out)
    ensures var call := Read(s.channels[channelID].period, channelID, timeout, count, out);
            Accounted(records + [root], calls + [call], s'.logs)
  {
    hide ContextRely, ReadFrom, ReadLog, RefusedLog, IsReadRecord, Sized;
    var call := Read(s.channels[channelID].period, channelID, timeout, count, out);
    forall t | 0 <= t < |s'.logs|
      ensures ReadFrom(calls + [call], t) == s'.logs[t].returned
    {
      ReadFromLast(calls, call, t);
      if t != call.period { assert LogRely(s.logs[t], s'.logs[t]); }
    }
  }

  lemma RelyReturned(s: State, s': State)
    requires Rely(s, s')
    ensures SameReturned(s.logs, s'.logs)
  {
    forall t | 0 <= t < |s.logs|
      ensures s'.logs[t].returned == s.logs[t].returned
    {
      assert LogRely(s.logs[t], s'.logs[t]);
    }
  }

  lemma WriteReturned(s: State, s': State, port: Port, sent: seq<PassThruMsg>)
    requires Progress(s, s', port, [], sent)
    ensures SameReturned(s.logs, s'.logs)
  {
    forall t | 0 <= t < |s.logs|
      ensures s'.logs[t].returned == s.logs[t].returned
    {
      if t != s.channels[port].period { assert LogRely(s.logs[t], s'.logs[t]); }
    }
  }
}
