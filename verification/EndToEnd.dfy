/** Results that span the client, its peer and the application. */
module EndToEnd {
  import opened Bytes
  import opened PassThru
  import opened CanCodec
  import opened Channels
  import opened ChannelSafety
  import opened ChannelTheorems
  import opened ClientCalls
  import opened PipeFraming
  import opened PipeServer
  import opened MessageList
  import opened ReadRecords
  import opened CallLog
  import J2534CannelloniClient

  // ---------------------------------------------------------------- client to client

  /** A message as a peer of the same version receives it. */
  function EchoMessage(m: PassThruMsg): PassThruMsg {
    Message(CAN, 0, 0, 0, 12, 0, Fill(Echo(m)))
  }

  /** What survives of a sequence of writes: everything before the first message that has fewer than
      eight data bytes. */
  function Echoes(msgs: seq<PassThruMsg>): seq<PassThruMsg> {
    if msgs == [] || msgs[0].dataSize != 12 then [] else [EchoMessage(msgs[0])] + Echoes(msgs[1..])
  }

  lemma PacketWellFormed(version: byte, seqNo: byte, m: PassThruMsg)
    requires Writable(m)
    ensures var dg := EncodePacket(version, seqNo, m);
            Receivable(version, dg)
            && (AfterRecv(version, dg).Exited? <==> m.dataSize != 12)
            && (m.dataSize == 12 ==> Frames(version, dg) == [EchoMessage(m)])
  {
    WriterToReceiver(version, seqNo, m);
  }

  /** The packets of any sequence of writes, received in order by a client of the same version, mean
      the echoes of the messages up to the first short one, and nothing after it. */
  lemma {:induction false} PeerReceives(version: byte, start: nat, msgs: seq<PassThruMsg>)
    requires AllWritable(msgs)
    ensures DecodeAll(version, Packets(version, start, msgs)) == Echoes(msgs)
    decreases |msgs|
  {
    if msgs != [] {
      var packets := Packets(version, start, msgs);
      PacketWellFormed(version, start % 256, msgs[0]);
      hide EncodePacket, Writable, Frames, AfterRecv, EchoMessage;
      assert packets[0] == EncodePacket(version, (start + 0) % 256, msgs[0]);
      assert packets[1..] == Packets(version, start + 1, msgs[1..]);
      PeerReceives(version, start + 1, msgs[1..]);
    }
  }

  /** Which messages those are: the longest prefix of full-size messages, each as a peer sees it. */
  lemma {:induction false} EchoesPrefix(msgs: seq<PassThruMsg>)
    ensures var n := |Echoes(msgs)|;
            n <= |msgs| && (n < |msgs| ==> msgs[n].dataSize != 12)
            && forall i :: 0 <= i < n ==> msgs[i].dataSize == 12 && Echoes(msgs)[i] == EchoMessage(msgs[i])
    decreases |msgs|
  {
    hide EchoMessage;
    if msgs != [] && msgs[0].dataSize == 12 { EchoesPrefix(msgs[1..]); }
  }

  /** Where a datagram that reached one client came from: the init packet of some PassThruOpen of the
      other, the k-th packet of one of its periods, or the byte that some PassThruClose sends to the
      local host to wake its receiver up. */
  datatype Origin = Announcement | Written(period: nat, k: nat) | WakeUp

  const WAKE_UP: Datagram := [0]

  ghost predicate Originates(sender: State, o: Origin, dg: Datagram) {
    match o
    case Announcement => dg == HeaderBytes(sender.cfg.version, 0, 0, 0)
    case Written(t, k) => t < |sender.logs| && k < |sender.logs[t].packets| && dg == sender.logs[t].packets[k]
    case WakeUp => dg == WAKE_UP
  }

  /** The messages behind datagrams of such origins, in the order of the datagrams, up to the first
      wake-up byte. */
  ghost function Behind(sender: State, origins: seq<Origin>): seq<PassThruMsg> {
    if origins == [] || origins[0].WakeUp? then []
    else (match origins[0]
          case Announcement => []
          case Written(t, k) =>
            if t < |sender.logs| && k < |sender.logs[t].attempts| then [sender.logs[t].attempts[k]] else [])
         + Behind(sender, origins[1..])
  }

  lemma AnnouncementDecodes(version: byte, dgs: seq<Datagram>)
    requires dgs != [] && dgs[0] == HeaderBytes(version, 0, 0, 0)
    ensures DecodeAll(version, dgs) == DecodeAll(version, dgs[1..])
  {
    AnnouncementSaysNothing(version);
    hide Frames, AfterRecv;
    assert [] + DecodeAll(version, dgs[1..]) == DecodeAll(version, dgs[1..]);
  }

  lemma PacketDecodes(version: byte, seqNo: byte, m: PassThruMsg, dgs: seq<Datagram>, msgs: seq<PassThruMsg>)
    requires Writable(m) && dgs != [] && dgs[0] == EncodePacket(version, seqNo, m)
    requires DecodeAll(version, dgs[1..]) == Echoes(msgs)
    ensures DecodeAll(version, dgs) == Echoes([m] + msgs)
  {
    PacketWellFormed(version, seqNo, m);
    hide Frames, AfterRecv, EchoMessage, EncodePacket, Writable;
    assert ([m] + msgs)[1..] == msgs;
  }

  /** Datagrams of a client, chosen, repeated and ordered at will, mean the echoes of the messages
      behind them, up to the first short one or the first wake-up byte; init packets mean nothing. */
  lemma {:induction false} ArrivalsDecode(sender: State, origins: seq<Origin>, dgs: seq<Datagram>)
    requires Inv(sender) && |origins| == |dgs|
    requires forall i :: 0 <= i < |dgs| ==> Originates(sender, origins[i], dgs[i])
    ensures DecodeAll(sender.cfg.version, dgs) == Echoes(Behind(sender, origins))
    decreases |dgs|
  {
    hide Inv, Frames, AfterRecv, EchoMessage, EncodePacket, Writable, HeaderBytes, Echoes;
    var version := sender.cfg.version;
    if dgs == [] {
      assert Echoes([]) == [] by { NoEchoes(); }
    } else {
      hide DecodeAll;
      ArrivalsDecode(sender, origins[1..], dgs[1..]);
      assert Originates(sender, origins[0], dgs[0]);
      match origins[0] {
        case Announcement =>
          AnnouncementDecodes(version, dgs);
          assert [] + Behind(sender, origins[1..]) == Behind(sender, origins[1..]);
        case Written(t, k) =>
          PacketOf(sender, t, k);
          PacketDecodes(version, k % 256, sender.logs[t].attempts[k], dgs, Behind(sender, origins[1..]));
        case WakeUp =>
          WakeUpDecodes(version, dgs);
          NoEchoes();
      }
    }
  }

  lemma NoEchoes()
    ensures Echoes([]) == []
  {}

  lemma WakeUpDecodes(version: byte, dgs: seq<Datagram>)
    requires dgs != [] && dgs[0] == WAKE_UP
    ensures DecodeAll(version, dgs) == []
  {
    WakeUpIsMalformed(version);
  }

  lemma AnnouncementSaysNothing(version: byte)
    ensures var dg := HeaderBytes(version, 0, 0, 0);
            !AfterRecv(version, dg).Exited? && Frames(version, dg) == []
  {
    InitPacket(version);
  }

  lemma WakeUpIsMalformed(version: byte)
    ensures AfterRecv(version, WAKE_UP).Exited? && Receivable(version, WAKE_UP)
  {}

  /** A wake-up byte that reaches an open channel ends its reception for the rest of the period. */
  lemma WakeUpEndsReception(cfg: Config, first: seq<Action>, later: seq<Action>, u: nat)
    requires var s := Exec(Init(cfg), first); u < |s.logs| && WAKE_UP in s.logs[u].consumed
    ensures var s, s' := Exec(Init(cfg), first), Exec(Init(cfg), first + later);
            u < |s'.logs| && s'.logs[u].consumed == s.logs[u].consumed
  {
    hide Exec, Next;
    WakeUpIsMalformed(cfg.version);
    var s := Exec(Init(cfg), first);
    assert !AllWellFormed(cfg.version, s.logs[u].consumed) by {
      var k :| 0 <= k < |s.logs[u].consumed| && s.logs[u].consumed[k] == WAKE_UP;
    }
    MalformedEndsReception(cfg, first, later, u);
  }

  lemma PacketOf(s: State, t: nat, k: nat)
    requires Inv(s) && t < |s.logs| && k < |s.logs[t].packets|
    ensures k < |s.logs[t].attempts| && Writable(s.logs[t].attempts[k])
    ensures s.logs[t].packets[k] == EncodePacket(s.cfg.version, k % 256, s.logs[t].attempts[k])
  {
    hide Writable, EncodePacket, DecodeAll, Receivable;
    assert PeriodOk(s, t);
  }

  /** `msgs` are what readers of period u got, followed by what is queued or held, or by what the close
      discarded. */
  ghost predicate Holds(s: State, u: nat, msgs: seq<PassThruMsg>)
    requires u < |s.logs| && u < |s.threads|
  {
    var log, thread := s.logs[u], s.threads[u];
    msgs == log.returned + if Attached(s, u) then s.channels[thread.port].queue + Pending(s.cfg.version, thread.pc)
                           else log.dropped
  }

  /** Two clients, any run of each: if every datagram that reached period u of the receiver came from
      the sender, lost, repeated and reordered as the network likes, with init packets and wake-up
      bytes anywhere, then what the receiver's readers got, followed by what is queued or held, or by what the close
      discarded, are the echoes of the messages behind the datagrams received. */
  lemma TwoClients(sender: Config, sends: seq<Action>, origins: seq<Origin>,
                   receiver: Config, receives: seq<Action>, u: nat)
    requires sender.version == receiver.version
    requires var a, b := Exec(Init(sender), sends), Exec(Init(receiver), receives);
             u < |b.logs| && |origins| == |b.logs[u].arrived|
             && forall i :: 0 <= i < |origins| ==> Originates(a, origins[i], b.logs[u].arrived[i])
    ensures var a, b := Exec(Init(sender), sends), Exec(Init(receiver), receives);
            u < |b.threads| && |b.logs[u].consumed| <= |origins|
            && Holds(b, u, Echoes(Behind(a, origins[..|b.logs[u].consumed|])))
  {
    hide Next, Exec, Pending, Echoes, Behind, DecodeAll;
    var a, b := Exec(Init(sender), sends), Exec(Init(receiver), receives);
    InvRun(sender, sends);
    InvRun(receiver, receives);
    CfgRun(Init(sender), sends);
    CfgRun(Init(receiver), receives);
    hide Numbered, AllWellFormed, OnlyLastMalformed;
    assert PeriodOk(b, u);
    hide Inv, PeriodOk;
    var log := b.logs[u];
    var n := |log.consumed|;
    assert log.consumed <= log.arrived;
    assert forall i :: 0 <= i < n ==> log.consumed[i] == log.arrived[i] && origins[..n][i] == origins[i];
    ArrivalsDecode(a, origins[..n], log.consumed);
    if Attached(b, u) {
      var queue, held := b.channels[b.threads[u].port].queue, Pending(b.cfg.version, b.threads[u].pc);
      assert log.returned + (queue + held) == log.returned + queue + held;
    }
  }

  /** A network that keeps the order and loses only the end: the receiver hears the echoes of the
      messages of one period from its beginning, whether or not its init packet arrived. */
  lemma TwoClientsInOrder(sender: Config, sends: seq<Action>, t: nat, announced: bool,
                          receiver: Config, receives: seq<Action>, u: nat)
    requires sender.version == receiver.version
    requires var a, b := Exec(Init(sender), sends), Exec(Init(receiver), receives);
             t < |a.logs| && u < |b.logs|
             && var init := if announced then [HeaderBytes(sender.version, 0, 0, 0)] else [];
                b.logs[u].arrived <= init + a.logs[t].packets
    ensures var a, b := Exec(Init(sender), sends), Exec(Init(receiver), receives);
            var received := |b.logs[u].consumed| - if announced then 1 else 0;
            var n := if received < 0 then 0 else received;
            u < |b.threads| && n <= |a.logs[t].attempts|
            && Holds(b, u, Echoes(a.logs[t].attempts[..n]))
  {
    hide Next, Exec, Pending, Echoes, Behind;
    var a, b := Exec(Init(sender), sends), Exec(Init(receiver), receives);
    InvRun(sender, sends);
    CfgRun(Init(sender), sends);
    SameNumber(a, t);
    hide Inv;
    var all := InOrder(announced, t, |a.logs[t].packets|);
    var origins := all[..|b.logs[u].arrived|];
    TwoClients(sender, sends, origins, receiver, receives, u);
    var n := |b.logs[u].consumed|;
    assert origins[..n] == all[..n];
    BehindInOrder(a, announced, t, n);
  }

  lemma SameNumber(s: State, t: nat)
    requires Inv(s) && t < |s.logs|
    ensures |s.logs[t].packets| == |s.logs[t].attempts|
  {
    assert PeriodOk(s, t);
  }

  /** The origins of an init packet, if wanted, and the first n packets of period t. */
  function InOrder(announced: bool, t: nat, n: nat): (r: seq<Origin>)
    ensures |r| == n + if announced then 1 else 0
    ensures announced ==> r[0] == Announcement
    ensures var skip := if announced then 1 else 0;
            forall i :: skip <= i < |r| ==> r[i] == Written(t, i - skip)
    ensures forall i :: 0 <= i < |r| ==> !r[i].WakeUp?
  {
    (if announced then [Announcement] else []) + seq(n, i requires 0 <= i < n => Written(t, i))
  }

  lemma {:induction false} BehindInOrder(s: State, announced: bool, t: nat, n: nat)
    requires t < |s.logs| && |s.logs[t].packets| == |s.logs[t].attempts|
    requires n <= |InOrder(announced, t, |s.logs[t].packets|)|
    ensures var received := n - if announced then 1 else 0;
            Behind(s, InOrder(announced, t, |s.logs[t].packets|)[..n])
            == s.logs[t].attempts[..if received < 0 then 0 else received]
    decreases n
  {
    var all := InOrder(announced, t, |s.logs[t].packets|);
    if n > 0 {
      BehindInOrder(s, announced, t, n - 1);
      assert all[..n] == all[..n - 1] + [all[n - 1]];
      BehindLast(s, all[..n - 1], all[n - 1]);
    }
  }

  lemma {:induction false} BehindLast(s: State, origins: seq<Origin>, o: Origin)
    requires forall i :: 0 <= i < |origins| ==> !origins[i].WakeUp?
    ensures Behind(s, origins + [o]) == Behind(s, origins) + Behind(s, [o])
    decreases |origins|
  {
    if origins == [] {
      assert [] + [o] == [o];
    } else {
      assert (origins + [o])[1..] == origins[1..] + [o];
      BehindLast(s, origins[1..], o);
    }
  }

  // ---------------------------------------------------------------- client to application

  /** Whatever is read from a channel in any run, the application's list shows exactly that: any
      stretch of the messages returned, logged and read back, is that stretch. */
  lemma ApplicationShowsReads(cfg: Config, actions: seq<Action>, t: nat, i: nat, j: nat,
                              channelID: word, timeout: word, count: word)
    requires var s := Exec(Init(cfg), actions); t < |s.logs| && i <= j <= |s.logs[t].returned|
    ensures var msgs := Exec(Init(cfg), actions).logs[t].returned[i..j];
            Sized(msgs)
            && var root := ReadLog(channelID, timeout, count, msgs);
               Readable(root) && ReadMessages(root) == msgs
  {
    hide Next, Exec, ReadLog, Readable, ReadMessages;
    ReadsAreClean(cfg, actions, t);
    ReadLogRead(channelID, timeout, count, Exec(Init(cfg), actions).logs[t].returned[i..j]);
  }

  // ---------------------------------------------------------------- over the pipe

  /** One `f` applied to every element: an encoder over records, or a decoder over payloads. */
  function Each<A, B>(f: A -> B, s: seq<A>): (r: seq<B>)
    ensures |r| == |s| && forall i :: 0 <= i < |s| ==> r[i] == f(s[i])
  {
    seq(|s|, i requires 0 <= i < |s| => f(s[i]))
  }

  /** The application's list after a sequence of records. */
  function Shown(roots: seq<Cbor>): seq<PassThruMsg>
    requires forall i :: 0 <= i < |roots| ==> Dispatchable(roots[i])
  {
    if roots == [] then [] else Dispatch(roots[0]) + Shown(roots[1..])
  }

  /** The part of the list that came from the reads of period t. */
  function ShownFrom(roots: seq<Cbor>, calls: seq<Call>, t: nat): seq<PassThruMsg>
    requires |roots| == |calls| && forall i :: 0 <= i < |roots| ==> Dispatchable(roots[i])
  {
    if roots == [] then []
    else (if ReadsFrom(calls[0], t) then Dispatch(roots[0]) else []) + ShownFrom(roots[1..], calls[1..], t)
  }

  lemma {:induction false} ShownIsRead(roots: seq<Cbor>, calls: seq<Call>, t: nat)
    requires |roots| == |calls|
    requires forall i :: 0 <= i < |roots| ==> Dispatchable(roots[i]) && Dispatch(roots[i]) == Taken(calls[i])
    ensures Shown(roots) == AllRead(calls) && ShownFrom(roots, calls, t) == ReadFrom(calls, t)
    decreases |roots|
  {
    hide Dispatchable, Dispatch, Taken, ReadsFrom;
    if roots != [] { ShownIsRead(roots[1..], calls[1..], t); }
  }

  /** The record of each call shows what the call read. */
  lemma RecordShows(cfg: Config, actions: seq<Action>, calls: seq<Call>, root: Cbor, i: nat)
    requires i < |calls| && RecordOf(root, calls[i])
    requires calls[i].Read? ==>
               var s, t := Exec(Init(cfg), actions), calls[i].period;
               t < |s.logs| && ReadFrom(calls, t) == s.logs[t].returned
    ensures Dispatchable(root) && Dispatch(root) == Taken(calls[i])
  {
    hide Next, Exec, ReadLog, RefusedLog, Readable, ReadMessages, IsReadRecord, Clean, ReadFrom;
    match calls[i] {
      case Read(t, channelID, timeout, count, msgs) =>
        ReadsAreClean(cfg, actions, t);
        forall m | m in msgs
          ensures Clean(m)
        {
          InReadFrom(calls, i, m);
        }
        ReadLogRead(channelID, timeout, count, msgs);
      case RefusedRead(channelID, timeout, count) => RefusedLogRead(channelID, timeout, count);
      case Other =>
    }
  }

  /** The application's one list of read messages, to which the records of all clients add in the
      order in which they were delivered; each message is tagged with its client.  `decode` opens the
      envelope too, and what is not meant for this list decodes to nothing that adds to it. */
  function Screen(decode: Payload -> Cbor, out: seq<(Client, Payload)>): seq<(Client, PassThruMsg)>
    requires forall i :: 0 <= i < |out| ==> Dispatchable(decode(out[i].1))
  {
    if out == [] then [] else Tag(out[0].0, Dispatch(decode(out[0].1))) + Screen(decode, out[1..])
  }

  /** Each client's part of the list is what its own records say. */
  lemma {:induction false} ScreenPart(decode: Payload -> Cbor, out: seq<(Client, Payload)>, c: Client)
    requires forall i :: 0 <= i < |out| ==> Dispatchable(decode(out[i].1))
    ensures forall p :: p in Part(out, c) ==> Dispatchable(decode(p))
    ensures Part(Screen(decode, out), c) == Shown(Each(decode, Part(out, c)))
    decreases |out|
  {
    hide Dispatchable, Dispatch;
    if out != [] {
      var msgs, rest := Dispatch(decode(out[0].1)), Part(out[1..], c);
      ScreenPart(decode, out[1..], c);
      PartConcat(Tag(out[0].0, msgs), Screen(decode, out[1..]), c);
      PartTag(out[0].0, msgs, c);
      if out[0].0 == c {
        assert Part(out, c) == [out[0].1] + rest;
        assert Each(decode, Part(out, c))[1..] == Each(decode, rest);
      } else {
        assert Part(out, c) == rest;
      }
    }
  }

  /** The records of a client's calls over the pipe.  The server has any number of other clients, and
      they write to the same list.  Once all of the connection's bytes have come in, in whatever
      chunks, what this client has added to the list is what its reads returned, in order, altogether
      and for each period of a channel.  The byte encoding is any that can be undone. */
  lemma RecordsOverPipe(cfg: Config, actions: seq<Action>, calls: seq<Call>, records: seq<Cbor>,
                        encode: Cbor -> Payload, decode: Payload -> Cbor, isMap: Payload -> bool,
                        events: seq<Event>, c: Client)
    requires Accounted(records, calls, Exec(Init(cfg), actions).logs)
    requires forall i :: 0 <= i < |records| ==>
               var p := encode(records[i]); decode(p) == records[i] && isMap(p) && 0 < |p| < TWO_31
    requires Sessions([], events, c) == [Stream(Each(encode, records))]
    requires var out := Maps(isMap, Run(map[], events).payloads);
             forall i :: 0 <= i < |out| && out[i].0 != c ==> Dispatchable(decode(out[i].1))
    ensures var out := Maps(isMap, Run(map[], events).payloads);
            (forall i :: 0 <= i < |out| ==> Dispatchable(decode(out[i].1)))
            && Part(Screen(decode, out), c) == AllRead(calls)
    ensures Each(decode, Part(Maps(isMap, Run(map[], events).payloads), c)) == records
    ensures forall i :: 0 <= i < |records| ==> Dispatchable(records[i])
    ensures var logs := Exec(Init(cfg), actions).logs;
            forall t :: 0 <= t < |logs| ==> ShownFrom(records, calls, t) == logs[t].returned
  {
    hide Next, Exec, RecordOf, Dispatchable, Dispatch, ReadFrom, ShownFrom, Maps, Run, Sessions, Stream, Part, Screen;
    var payloads := Each(encode, records);
    var out := Maps(isMap, Run(map[], events).payloads);
    OneSession(payloads, isMap, events, c);
    assert Each(decode, payloads) == records;
    forall i | 0 <= i < |records|
      ensures Dispatchable(records[i]) && Dispatch(records[i]) == Taken(calls[i])
    {
      RecordShows(cfg, actions, calls, records[i], i);
    }
    forall i | 0 <= i < |out| && out[i].0 == c
      ensures Dispatchable(decode(out[i].1))
    {
      InPart(out, i);
      var k :| 0 <= k < |payloads| && payloads[k] == out[i].1;
      assert decode(payloads[k]) == records[k];
    }
    ScreenPart(decode, out, c);
    forall t | 0 <= t < |Exec(Init(cfg), actions).logs|
      ensures ShownFrom(records, calls, t) == Exec(Init(cfg), actions).logs[t].returned
    {
      ShownIsRead(records, calls, t);
    }
    ShownIsRead(records, calls, 0);
  }

  lemma ReadFromAccount(records: seq<Cbor>, calls: seq<Call>, logs: seq<Log>, t: nat)
    requires Accounted(records, calls, logs) && t < |logs|
    ensures ReadFrom(calls, t) == logs[t].returned
  {
    hide ReadFrom, RecordOf;
  }

  lemma {:induction false} InPart(out: seq<(Client, Payload)>, i: nat)
    requires i < |out|
    ensures out[i].1 in Part(out, out[i].0)
    decreases i
  {
    if i > 0 { InPart(out[1..], i - 1); }
  }

  /** From the reads of a client to the list on the screen: whenever no call is under way, whatever the
      object and its receivers have been doing, the list holds for this client exactly what all its
      reads returned, in order, and for each period of a channel what its readers got. */
  lemma ReadsOverPipe(client: J2534CannelloniClient.J2534CannelloniClient,
                      encode: Cbor -> Payload, decode: Payload -> Cbor, isMap: Payload -> bool,
                      events: seq<Event>, c: Client)
    requires client.AtRest()
    requires forall i :: 0 <= i < |client.records| ==>
               var p := encode(client.records[i]); decode(p) == client.records[i] && isMap(p) && 0 < |p| < TWO_31
    requires Sessions([], events, c) == [Stream(Each(encode, client.records))]
    requires var out := Maps(isMap, Run(map[], events).payloads);
             forall i :: 0 <= i < |out| && out[i].0 != c ==> Dispatchable(decode(out[i].1))
    ensures var out := Maps(isMap, Run(map[], events).payloads);
            (forall i :: 0 <= i < |out| ==> Dispatchable(decode(out[i].1)))
            && Part(Screen(decode, out), c) == AllRead(client.calls)
    ensures forall i :: 0 <= i < |client.records| ==> Dispatchable(client.records[i])
    ensures forall t :: 0 <= t < |client.logs| ==>
              ShownFrom(client.records, client.calls, t) == client.logs[t].returned
    ensures forall t :: 0 <= t < |client.logs| && OnlyPeriod(client.calls, t) ==>
              Part(Screen(decode, Maps(isMap, Run(map[], events).payloads)), c) == client.logs[t].returned
  {
    hide Next, Exec, Accounted, Dispatchable, ShownFrom, Maps, Run, Sessions, Stream, Part, Screen;
    RecordsOverPipe(client.cfg, client.trace, client.calls, client.records, encode, decode, isMap, events, c);
    assert client.logs == Exec(Init(client.cfg), client.trace).logs;
    forall t | 0 <= t < |client.logs| && OnlyPeriod(client.calls, t)
      ensures AllRead(client.calls) == client.logs[t].returned
    {
      AllReadOfOne(client.calls, t);
      ReadFromAccount(client.records, client.calls, client.logs, t);
    }
  }

  /** A client whose one connection carried framed maps: they are what is delivered for it. */
  lemma OneSession(ps: seq<Payload>, isMap: Payload -> bool, events: seq<Event>, c: Client)
    requires forall i :: 0 <= i < |ps| ==> isMap(ps[i]) && 0 < |ps[i]| < TWO_31
    requires Sessions([], events, c) == [Stream(ps)]
    ensures Part(Maps(isMap, Run(map[], events).payloads), c) == ps
    ensures ParserOf(Run(map[], events).parsers, c) == FRESH
  {
    hide Feed, Run, Maps, Sessions, Stream;
    ClientSessions(events, c);
    PartMaps(isMap, Run(map[], events).payloads, c);
    var all := [Stream(ps)];
    assert Concat(all) == Stream(ps) by { assert Concat(all[1..]) == []; }
    RoundTrip(ps, all);
    ChunkIndependence(FRESH, all);
    assert ReadEach(all) == Feed(FRESH, Stream(ps)).payloads + ReadEach(all[1..]);
    OnlyMapsAll(isMap, ps);
  }
}
