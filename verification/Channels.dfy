/** The channel protocol of j2534cannelloniclient.cpp as interleaved atomic steps.

    API calls hold `globalMutex`; every open channel has a receive thread that takes only the
    channel's `msgQueueMutex`.  An action below is one step of either that no other thread can split.
    `PassThruClose` is three steps (request stop, join, erase) with receivers running in between.
    `Exec` runs any list of actions; a list is an interleaving, and an action that is not enabled
    where it stands does nothing.

    A period is one open..close stretch of a port.  Periods are numbered in order; thread t is the
    receive thread of period t, and logs[t] records what happened in it.
  */
module Channels {
  import opened Bytes
  import opened PassThru
  import opened CanCodec

  type Port = nat
  type Datagram = seq<byte>

  const BASE_PORT: Port := 20000
  const VIRTUAL_DEVICE_COUNT := 3

  datatype Config = Config(version: byte, defaultPort: Port)

  /** Where a receive thread stands. */
  datatype ThreadPc =
    | Testing                 // at the loop head, about to test stopRequested
    | Waiting                 // in select and recv
    | Holding(dg: Datagram)   // has accepted a datagram and is about to push its frames
    | Exited

  datatype Thread = Thread(port: Port, pc: ThreadPc)

  /** ChannelContext; `period` stands for the thread handle, `inbound` for the socket's buffer. */
  datatype Context = Context(period: nat, stopRequested: bool, seqNo: byte,
                             queue: seq<PassThruMsg>, inbound: seq<Datagram>)

  /** How far a PassThruClose that holds the mutex has got. */
  datatype Closing = NotClosing | StopRequested(port: Port) | ThreadJoined(port: Port)

  /** What happened in a period: datagrams that reached the socket and those received from it,
      messages popped by readers, messages dropped by the close, messages whose packets were
      attempted, and those packets. */
  datatype Log = Log(arrived: seq<Datagram>, consumed: seq<Datagram>, returned: seq<PassThruMsg>,
                     dropped: seq<PassThruMsg>, attempts: seq<PassThruMsg>, packets: seq<Datagram>)

  const EMPTY_LOG := Log([], [], [], [], [], [])

  datatype State = State(cfg: Config, channels: map<Port, Context>, threads: seq<Thread>, logs: seq<Log>,
                         closing: Closing, fault: bool, scanIndex: nat, listed: seq<Port>)

  datatype Action =
    | Open(port: Port)
    | RequestStop(port: Port)
    | Join
    | Erase
    | Pop(port: Port)
    | Attempt(port: Port, msg: PassThruMsg)
    | Scan
    | List
    | Arrive(port: Port, dg: Datagram)
    | TestStop(t: nat)
    | PollNothing(t: nat)
    | Receive(t: nat)
    | Push(t: nat)

  function Init(cfg: Config): State {
    State(cfg, map[], [], [], NotClosing, false, 0, [])
  }

  /** The datagrams the model speaks about: they fit the receive buffer and their length fields
      stay within the frame struct. */
  predicate Receivable(version: byte, dg: Datagram) {
    |dg| <= MAX_DATAGRAM && LengthsInRange(version, dg)
  }

  // ---------------------------------------------------------------- steps

  /** The ports PassThruOpen can choose. */
  predicate KnownPort(cfg: Config, port: Port) {
    port == cfg.defaultPort || BASE_PORT <= port < BASE_PORT + VIRTUAL_DEVICE_COUNT
  }

  predicate CanOpen(s: State, port: Port) {
    s.closing.NotClosing? && |s.channels| < VIRTUAL_DEVICE_COUNT && port !in s.channels && KnownPort(s.cfg, port)
  }

  /** An API call other than close may act on an open channel. */
  predicate Available(s: State, port: Port) {
    s.closing.NotClosing? && port in s.channels && s.channels[port].period < |s.logs|
  }

  /** Thread t is still in its loop. */
  predicate Running(s: State, t: nat) {
    t < |s.threads| && t < |s.logs| && !s.threads[t].pc.Exited?
  }

  /** The context that thread t holds a reference to is still the one in the map. */
  predicate Attached(s: State, t: nat)
    requires t < |s.threads|
  {
    var port := s.threads[t].port;
    port in s.channels && s.channels[port].period == t
  }

  function SetContext(s: State, port: Port, c: Context): State {
    s.(channels := s.channels[port := c])
  }

  function SetPc(s: State, t: nat, pc: ThreadPc): State
    requires t < |s.threads|
  {
    s.(threads := s.threads[t := s.threads[t].(pc := pc)])
  }

  function SetLog(s: State, t: nat, log: Log): State
    requires t < |s.logs|
  {
    s.(logs := s.logs[t := log])
  }

  const DEFAULT_CONTEXT := Context(0, false, 0, [], [])

  /** ChannelContext's move assignment: socket, thread and stop flag move; the target keeps its own
      queue and sequence number. */
  function MoveAssign(target: Context, source: Context): Context {
    target.(period := source.period, stopRequested := source.stopRequested, inbound := source.inbound)
  }

  /** PassThruOpen's success: a fresh context and a new thread. */
  function DoOpen(s: State, port: Port): State {
    s.(channels := s.channels[port := Context(|s.threads|, false, 0, [], [])],
       threads := s.threads + [Thread(port, Testing)],
       logs := s.logs + [EMPTY_LOG])
  }

  function DoPop(s: State, port: Port): State
    requires Available(s, port) && s.channels[port].queue != []
  {
    var c := s.channels[port];
    var log := s.logs[c.period];
    SetLog(SetContext(s, port, c.(queue := c.queue[1..])), c.period, log.(returned := log.returned + [c.queue[0]]))
  }

  /** One packet is built with the next sequence number and handed to sendto. */
  function DoAttempt(s: State, port: Port, m: PassThruMsg): State
    requires Available(s, port) && Writable(m)
  {
    var c := s.channels[port];
    var log := s.logs[c.period];
    SetLog(SetContext(s, port, c.(seqNo := (c.seqNo + 1) % 256)), c.period,
           log.(attempts := log.attempts + [m], packets := log.packets + [EncodePacket(s.cfg.version, c.seqNo, m)]))
  }

  function DoErase(s: State, port: Port): State
    requires port in s.channels && s.channels[port].period < |s.logs|
  {
    var c := s.channels[port];
    SetLog(s, c.period, s.logs[c.period].(dropped := c.queue)).(channels := s.channels - {port}, closing := NotClosing)
  }

  function DoArrive(s: State, port: Port, dg: Datagram): State
    requires port in s.channels && s.channels[port].period < |s.logs|
  {
    var c := s.channels[port];
    var log := s.logs[c.period];
    SetLog(SetContext(s, port, c.(inbound := c.inbound + [dg])), c.period, log.(arrived := log.arrived + [dg]))
  }

  /** Where the receive loop goes after recv has delivered a datagram. */
  function AfterRecv(version: byte, dg: Datagram): ThreadPc {
    if |dg| == 0 then Testing else if Accepted(version, dg) then Holding(dg) else Exited
  }

  function DoReceive(s: State, t: nat): State
    requires Running(s, t) && Attached(s, t) && s.channels[s.threads[t].port].inbound != []
  {
    var port := s.threads[t].port;
    var c := s.channels[port];
    var dg := c.inbound[0];
    SetLog(SetPc(SetContext(s, port, c.(inbound := c.inbound[1..])), t, AfterRecv(s.cfg.version, dg)), t,
           s.logs[t].(consumed := s.logs[t].consumed + [dg]))
  }

  /** The messages of one datagram: none if it is refused. */
  function Frames(version: byte, dg: Datagram): seq<PassThruMsg> {
    if Accepted(version, dg) && LengthsInRange(version, dg) then Decode(version, dg) else []
  }

  function DoPush(s: State, t: nat): State
    requires Running(s, t) && Attached(s, t) && s.threads[t].pc.Holding?
  {
    var port := s.threads[t].port;
    var c := s.channels[port];
    SetPc(SetContext(s, port, c.(queue := c.queue + Frames(s.cfg.version, s.threads[t].pc.dg))), t, Testing)
  }

  /** A step of thread t.  It reads or writes its context: if that is gone, the step is a fault. */
  function ThreadStep(s: State, a: Action): State
    requires a.TestStop? || a.PollNothing? || a.Receive? || a.Push?
  {
    if !Running(s, a.t) then s
    else if !Attached(s, a.t) then s.(fault := true)
    else
      var pc := s.threads[a.t].pc;
      var c := s.channels[s.threads[a.t].port];
      match a
      case TestStop(t) => if pc.Testing? then SetPc(s, t, if c.stopRequested then Exited else Waiting) else s
      case PollNothing(t) => if pc.Waiting? then SetPc(s, t, Testing) else s
      case Receive(t) => if pc.Waiting? && c.inbound != [] then DoReceive(s, t) else s
      case Push(t) => if pc.Holding? then DoPush(s, t) else s
  }

  function Next(s: State, a: Action): State {
    match a
    case Open(port) => if CanOpen(s, port) then DoOpen(s, port) else s
    case RequestStop(port) =>
      if Available(s, port) then
        SetContext(s, port, s.channels[port].(stopRequested := true)).(closing := StopRequested(port))
      else s
    case Join =>
      if s.closing.StopRequested? && s.closing.port in s.channels
         && var t := s.channels[s.closing.port].period; t < |s.threads| && s.threads[t].pc.Exited? then
        s.(closing := ThreadJoined(s.closing.port))
      else s
    case Erase =>
      if s.closing.ThreadJoined? && s.closing.port in s.channels && s.channels[s.closing.port].period < |s.logs| then
        DoErase(s, s.closing.port)
      else s
    case Pop(port) => if Available(s, port) && s.channels[port].queue != [] then DoPop(s, port) else s
    case Attempt(port, m) => if Available(s, port) && Writable(m) then DoAttempt(s, port, m) else s
    case Scan => if s.closing.NotClosing? then s.(scanIndex := 0, listed := []) else s
    case List =>
      if s.closing.NotClosing? && s.scanIndex < VIRTUAL_DEVICE_COUNT then
        s.(scanIndex := s.scanIndex + 1, listed := s.listed + [BASE_PORT + s.scanIndex])
      else s
    case Arrive(port, dg) =>
      if port in s.channels && s.channels[port].period < |s.logs| && Receivable(s.cfg.version, dg) then
        DoArrive(s, port, dg)
      else s
    case _ => ThreadStep(s, a)
  }

  function Exec(s: State, actions: seq<Action>): State
    decreases |actions|
  {
    if actions == [] then s else Exec(Next(s, actions[0]), actions[1..])
  }

  lemma {:induction false} ExecConcat(s: State, a: seq<Action>, b: seq<Action>)
    ensures Exec(s, a + b) == Exec(Exec(s, a), b)
    decreases |a|
  {
    hide Next;
    if a == [] {
      assert a + b == b;
    } else {
      assert (a + b)[1..] == a[1..] + b;
      ExecConcat(Next(s, a[0]), a[1..], b);
    }
  }

  // ---------------------------------------------------------------- what the datagrams say

  /** The messages of the longest prefix of datagrams that are all well formed, in order. */
  ghost function DecodeAll(version: byte, dgs: seq<Datagram>): seq<PassThruMsg> {
    if dgs == [] || AfterRecv(version, dgs[0]).Exited? then []
    else Frames(version, dgs[0]) + DecodeAll(version, dgs[1..])
  }

  ghost predicate AllWellFormed(version: byte, dgs: seq<Datagram>) {
    forall i :: 0 <= i < |dgs| ==> !AfterRecv(version, dgs[i]).Exited?
  }

  /** Nothing is received after a malformed datagram. */
  ghost predicate OnlyLastMalformed(version: byte, dgs: seq<Datagram>) {
    forall i :: 0 <= i < |dgs| - 1 ==> !AfterRecv(version, dgs[i]).Exited?
  }

  /** Which datagrams end the receive loop: the non-empty ones that are shorter than a header, have
      another version, or are too short for the frames they announce. */
  lemma LoopEnders(version: byte, dg: Datagram)
    ensures AfterRecv(version, dg).Exited? <==>
            dg != [] && (|dg| < 5 || dg[0] != version || |dg| - 5 < 13 * (dg[3] as int + 256 * dg[4] as int))
    ensures AfterRecv(version, dg).Testing? <==> dg == []
    ensures AfterRecv(version, dg).Holding? ==> AfterRecv(version, dg) == Holding(dg)
  {}

  /** What any other datagram says, byte by byte: one message for each frame announced, at a stride of 13
      bytes, with the id and as many data bytes as the frame's length byte counts. */
  lemma FramesByBytes(version: byte, dg: Datagram, i: nat)
    requires |dg| >= 5 && dg[0] == version
    requires var count := dg[3] as int + 256 * dg[4] as int;
             13 * count <= |dg| - 5 && i < count && forall k :: 0 <= k < count ==> dg[13 * k + 9] <= 8
    ensures |Frames(version, dg)| == dg[3] as int + 256 * dg[4] as int
    ensures var at, length := 5 + 13 * i, dg[5 + 13 * i + 4];
            Frames(version, dg)[i]
            == Message(5, 0, 0, 0, 4 + length, 0, Fill(dg[at..at + 4] + dg[at + 5..at + 5 + length]))
  {
    hide FrameAt, DecodeFrame, Fill;
    FramesAreDecoded(version, dg, i);
    DecodedAt(dg, i);
  }

  lemma FramesAreDecoded(version: byte, dg: Datagram, i: nat)
    requires |dg| >= 5 && dg[0] == version
    requires 13 * Count(dg) <= |dg| - 5 && i < Count(dg) && forall k :: 0 <= k < Count(dg) ==> dg[13 * k + 9] <= 8
    ensures |Frames(version, dg)| == Count(dg) && FrameAt(dg, i)[4] <= MAX_FRAME_DATA
    ensures Frames(version, dg)[i] == DecodeFrame(FrameAt(dg, i))
  {
    hide FrameAt, DecodeFrame;
    forall k | 0 <= k < Count(dg)
      ensures FrameAt(dg, k)[4] <= MAX_FRAME_DATA
    {
      FrameAtIs(dg, k);
    }
  }

  lemma DecodedAt(dg: Datagram, i: nat)
    requires 18 + 13 * i <= |dg| && FrameAt(dg, i)[4] <= MAX_FRAME_DATA
    ensures var at, length := 5 + 13 * i, dg[5 + 13 * i + 4];
            length <= 8
            && DecodeFrame(FrameAt(dg, i))
            == Message(5, 0, 0, 0, 4 + length, 0, Fill(dg[at..at + 4] + dg[at + 5..at + 5 + length]))
  {
    hide FrameAt, DecodeFrame, Fill;
    var at, f := 5 + 13 * i, FrameAt(dg, i);
    FrameAtIs(dg, i);
    DecodedFrame(f);
    assert f[..4] == dg[at..at + 4] && f[5..5 + f[4]] == dg[at + 5..at + 5 + f[4]];
  }

  /** Which sequences of datagrams say what: nothing says nothing, and after well-formed ones a datagram
      adds its messages, or, if it ends the loop, cuts off itself and all that follows. */
  lemma {:induction false} DecodeAllSplit(version: byte, a: seq<Datagram>, dg: Datagram, b: seq<Datagram>)
    requires AllWellFormed(version, a)
    ensures DecodeAll(version, []) == []
    ensures DecodeAll(version, a + [dg] + b)
         == DecodeAll(version, a)
            + if AfterRecv(version, dg).Exited? then [] else Frames(version, dg) + DecodeAll(version, b)
    decreases |a|
  {
    hide Frames, AfterRecv;
    if a == [] {
      assert ([] + [dg] + b)[0] == dg && ([] + [dg] + b)[1..] == b;
    } else {
      assert (a + [dg] + b)[0] == a[0] && (a + [dg] + b)[1..] == a[1..] + [dg] + b;
      DecodeAllSplit(version, a[1..], dg, b);
    }
  }

  /** Datagrams of packed frames that a receiver can take: those with at most 115 frames. */
  lemma ReceivablePacked(version: byte, opCode: byte, seqNo: byte, fs: seq<CanFrame>)
    requires |fs| < 65536 && forall i :: 0 <= i < |fs| ==> fs[i].length <= MAX_FRAME_DATA
    ensures Receivable(version, CanCodec.Datagram(version, opCode, seqNo, fs, [])) <==> |fs| <= 115
  {
    hide FramesBytes, Decode, FrameMessage;
    DecodeInvertsPacking(version, opCode, seqNo, fs, []);
  }

  lemma {:induction false} DecodeAllAppend(version: byte, dgs: seq<Datagram>, dg: Datagram)
    requires AllWellFormed(version, dgs)
    ensures DecodeAll(version, dgs + [dg]) == DecodeAll(version, dgs) + Frames(version, dg)
    decreases |dgs|
  {
    hide Frames;
    if dgs == [] {
      assert [dg][1..] == [];
      assert DecodeAll(version, [dg]) == Frames(version, dg) by { MalformedSaysNothing(version, dg); }
    } else {
      assert (dgs + [dg])[0] == dgs[0] && (dgs + [dg])[1..] == dgs[1..] + [dg];
      DecodeAllAppend(version, dgs[1..], dg);
      var f, d := Frames(version, dgs[0]), DecodeAll(version, dgs[1..]);
      assert f + (d + Frames(version, dg)) == (f + d) + Frames(version, dg);
    }
  }

  lemma MalformedSaysNothing(version: byte, dg: Datagram)
    ensures AfterRecv(version, dg).Exited? ==> Frames(version, dg) == []
    ensures !AfterRecv(version, dg).Holding? ==> Frames(version, dg) == []
  {}
}
