/** What every interleaving of the channel protocol keeps. */
module ChannelSafety {
  import opened Bytes
  import opened PassThru
  import opened CanCodec
  import opened Channels

  /** The frames a thread has accepted and not yet pushed. */
  ghost function Pending(version: byte, pc: ThreadPc): seq<PassThruMsg> {
    if pc.Holding? then Frames(version, pc.dg) else []
  }

  /** The k-th packet of a period carries sequence number k mod 256 and the k-th attempted message. */
  ghost predicate Numbered(version: byte, attempts: seq<PassThruMsg>, packets: seq<Datagram>) {
    |packets| == |attempts|
    && forall k :: 0 <= k < |attempts| ==>
         Writable(attempts[k]) && packets[k] == EncodePacket(version, k % 256, attempts[k])
  }

  /** What holds of every period. */
  ghost predicate LogOk(version: byte, thread: Thread, log: Log) {
    Numbered(version, log.attempts, log.packets)
    && (forall i :: 0 <= i < |log.arrived| ==> Receivable(version, log.arrived[i]))
    && log.consumed <= log.arrived
    && OnlyLastMalformed(version, log.consumed)
    && (!thread.pc.Exited? ==> AllWellFormed(version, log.consumed))
  }

  /** An open period: FIFO conservation. */
  ghost predicate OpenOk(version: byte, thread: Thread, log: Log, c: Context) {
    LogOk(version, thread, log)
    && log.arrived == log.consumed + c.inbound
    && log.dropped == []
    && log.returned + c.queue + Pending(version, thread.pc) == DecodeAll(version, log.consumed)
    && c.seqNo == |log.attempts| % 256
    && (thread.pc.Holding? ==> Accepted(version, thread.pc.dg) && Receivable(version, thread.pc.dg))
    && (thread.pc.Exited? ==> c.stopRequested || !AllWellFormed(version, log.consumed))
  }

  /** A closed period. */
  ghost predicate ClosedOk(version: byte, thread: Thread, log: Log) {
    LogOk(version, thread, log)
    && thread.pc.Exited?
    && log.returned + log.dropped == DecodeAll(version, log.consumed)
  }

  ghost predicate PeriodOk(s: State, t: nat)
    requires t < |s.threads| && t < |s.logs|
  {
    var thread, log := s.threads[t], s.logs[t];
    if Attached(s, t) then OpenOk(s.cfg.version, thread, log, s.channels[thread.port])
    else ClosedOk(s.cfg.version, thread, log)
  }

  ghost predicate ChannelOk(s: State, port: Port)
    requires port in s.channels
  {
    var c := s.channels[port];
    KnownPort(s.cfg, port)
    && c.period < |s.threads| && s.threads[c.period].port == port
    && (c.stopRequested <==> !s.closing.NotClosing? && s.closing.port == port)
  }

  ghost predicate ClosingOk(s: State) {
    !s.closing.NotClosing? ==>
      s.closing.port in s.channels
      && var t := s.channels[s.closing.port].period;
         t < |s.threads| && (s.closing.ThreadJoined? ==> s.threads[t].pc.Exited?)
  }

  /** The device enumeration since the last scan. */
  ghost predicate ListingOk(s: State) {
    s.scanIndex <= VIRTUAL_DEVICE_COUNT
    && |s.listed| == s.scanIndex && forall i :: 0 <= i < s.scanIndex ==> s.listed[i] == BASE_PORT + i
  }

  ghost predicate Inv(s: State) {
    && |s.threads| == |s.logs|
    && !s.fault
    && |s.channels| <= VIRTUAL_DEVICE_COUNT
    && (forall port :: port in s.channels ==> ChannelOk(s, port))
    && ClosingOk(s)
    && ListingOk(s)
    && forall t :: 0 <= t < |s.threads| ==> PeriodOk(s, t)
  }

  // ---------------------------------------------------------------- preservation

  /** A period whose thread, log and context are untouched stays as it was. */
  lemma PeriodFrame(s: State, s': State, t: nat)
    requires t < |s.threads| && t < |s.logs| && PeriodOk(s, t)
    requires t < |s'.threads| && t < |s'.logs| && s'.cfg == s.cfg
    requires s'.threads[t] == s.threads[t] && s'.logs[t] == s.logs[t]
    requires Attached(s, t) == Attached(s', t)
    requires Attached(s, t) ==> s'.channels[s.threads[t].port] == s.channels[s.threads[t].port]
    ensures PeriodOk(s', t)
  {
    hide OpenOk, ClosedOk;
  }

  /** A step that changes at most one context and keeps its period and stop flag. */
  lemma ChannelsTouched(s: State, s': State, port: Port)
    requires forall p :: p in s.channels ==> ChannelOk(s, p)
    requires s'.cfg == s.cfg && s'.closing == s.closing && |s'.threads| == |s.threads|
    requires forall u :: 0 <= u < |s.threads| ==> s'.threads[u].port == s.threads[u].port
    requires port in s.channels && port in s'.channels && s'.channels == s.channels[port := s'.channels[port]]
    requires s'.channels[port].period == s.channels[port].period
    requires s'.channels[port].stopRequested == s.channels[port].stopRequested
    ensures forall p :: p in s'.channels ==> ChannelOk(s', p)
    ensures |s'.channels| == |s.channels|
  {
    hide KnownPort;
    assert s'.channels.Keys == s.channels.Keys;
    assert |s'.channels| == |s'.channels.Keys| == |s.channels.Keys| == |s.channels|;
    forall p | p in s'.channels
      ensures ChannelOk(s', p)
    {
      assert ChannelOk(s, p);
    }
  }

  /** A step that touches one open period keeps the invariant if it keeps that period. */
  lemma InvTouch(s: State, s': State, t: nat)
    requires Inv(s) && t < |s.threads| && Attached(s, t)
    requires s' == s.(channels := s'.channels, threads := s'.threads, logs := s'.logs)
    requires |s'.threads| == |s.threads| && |s'.logs| == |s.logs|
    requires forall u :: 0 <= u < |s.threads| && u != t ==> s'.threads[u] == s.threads[u] && s'.logs[u] == s.logs[u]
    requires var port := s.threads[t].port;
             s'.threads[t].port == port
             && (s.threads[t].pc.Exited? ==> s'.threads[t].pc.Exited?)
             && port in s'.channels && s'.channels == s.channels[port := s'.channels[port]]
             && s'.channels[port].period == t && s'.channels[port].stopRequested == s.channels[port].stopRequested
    requires OpenOk(s'.cfg.version, s'.threads[t], s'.logs[t], s'.channels[s.threads[t].port])
    ensures Inv(s')
  {
    hide OpenOk, ClosedOk, ChannelOk;
    ChannelsTouched(s, s', s.threads[t].port);
    forall u | 0 <= u < |s'.threads|
      ensures PeriodOk(s', u)
    {
      assert PeriodOk(s, u);
      if u != t { PeriodFrame(s, s', u); }
    }
  }

  lemma OpenedOk(version: byte, port: Port, t: nat)
    ensures OpenOk(version, Thread(port, Testing), EMPTY_LOG, Context(t, false, 0, [], []))
  {}

  lemma ChannelsAfterOpen(s: State, port: Port)
    requires Inv(s) && CanOpen(s, port)
    ensures var s' := DoOpen(s, port);
            |s'.channels| <= VIRTUAL_DEVICE_COUNT && forall p :: p in s'.channels ==> ChannelOk(s', p)
  {
    hide PeriodOk, KnownPort;
    var s' := DoOpen(s, port);
    assert s'.channels.Keys == s.channels.Keys + {port};
    assert |s'.channels| == |s'.channels.Keys| == |s.channels.Keys| + 1 == |s.channels| + 1;
    forall p | p in s'.channels
      ensures ChannelOk(s', p)
    {
      if p != port { assert ChannelOk(s, p); }
    }
  }

  lemma PeriodsAfterOpen(s: State, port: Port, u: nat)
    requires Inv(s) && CanOpen(s, port) && u <= |s.threads|
    ensures var s' := DoOpen(s, port);
            u < |s'.threads| && u < |s'.logs| && PeriodOk(s', u)
  {
    hide ClosedOk, OpenOk, ClosingOk, ListingOk, KnownPort;
    var s' := DoOpen(s, port);
    if u < |s.threads| {
      assert PeriodOk(s, u);
      if Attached(s, u) { assert ChannelOk(s, s.threads[u].port); }
      PeriodFrame(s, s', u);
    } else {
      OpenedOk(s.cfg.version, port, |s.threads|);
    }
  }

  lemma InvOpen(s: State, port: Port)
    requires Inv(s) && CanOpen(s, port)
    ensures Inv(DoOpen(s, port))
  {
    hide PeriodOk, ChannelOk, KnownPort;
    var s' := DoOpen(s, port);
    ChannelsAfterOpen(s, port);
    forall u | 0 <= u < |s'.threads|
      ensures PeriodOk(s', u)
    {
      PeriodsAfterOpen(s, port, u);
    }
  }

  lemma OwnPeriod(s: State, port: Port)
    requires Inv(s) && port in s.channels
    ensures var t := s.channels[port].period;
            t < |s.threads| && s.threads[t].port == port && Attached(s, t) && PeriodOk(s, t)
  {
    assert ChannelOk(s, port);
  }

  lemma PopNext(version: byte, thread: Thread, log: Log, c: Context)
    requires OpenOk(version, thread, log, c) && c.queue != []
    ensures OpenOk(version, thread, log.(returned := log.returned + [c.queue[0]]), c.(queue := c.queue[1..]))
  {
    hide DecodeAll, Pending;
    assert (log.returned + [c.queue[0]]) + c.queue[1..] == log.returned + c.queue;
  }

  lemma InvPop(s: State, port: Port)
    requires Inv(s) && Available(s, port) && s.channels[port].queue != []
    ensures Inv(DoPop(s, port))
  {
    hide OpenOk, ClosedOk, ChannelOk;
    OwnPeriod(s, port);
    var t := s.channels[port].period;
    PopNext(s.cfg.version, s.threads[t], s.logs[t], s.channels[port]);
    InvTouch(s, DoPop(s, port), t);
  }

  lemma AttemptNext(version: byte, thread: Thread, log: Log, c: Context, m: PassThruMsg)
    requires OpenOk(version, thread, log, c) && Writable(m)
    ensures OpenOk(version, thread,
                   log.(attempts := log.attempts + [m], packets := log.packets + [EncodePacket(version, c.seqNo, m)]),
                   c.(seqNo := (c.seqNo + 1) % 256))
  {
    hide EncodePacket, Writable, DecodeAll;
  }

  lemma InvAttempt(s: State, port: Port, m: PassThruMsg)
    requires Inv(s) && Available(s, port) && Writable(m)
    ensures Inv(DoAttempt(s, port, m))
  {
    hide OpenOk, ClosedOk, ChannelOk, EncodePacket;
    OwnPeriod(s, port);
    var t := s.channels[port].period;
    AttemptNext(s.cfg.version, s.threads[t], s.logs[t], s.channels[port], m);
    InvTouch(s, DoAttempt(s, port, m), t);
  }

  lemma ArriveNext(version: byte, thread: Thread, log: Log, c: Context, dg: Datagram)
    requires OpenOk(version, thread, log, c) && Receivable(version, dg)
    ensures OpenOk(version, thread, log.(arrived := log.arrived + [dg]), c.(inbound := c.inbound + [dg]))
  {
    hide Receivable, DecodeAll, Numbered;
    assert log.arrived + [dg] == log.consumed + (c.inbound + [dg]);
  }

  lemma InvArrive(s: State, port: Port, dg: Datagram)
    requires Inv(s) && port in s.channels && s.channels[port].period < |s.logs| && Receivable(s.cfg.version, dg)
    ensures Inv(DoArrive(s, port, dg))
  {
    hide OpenOk, ClosedOk, ChannelOk, Receivable;
    OwnPeriod(s, port);
    var t := s.channels[port].period;
    ArriveNext(s.cfg.version, s.threads[t], s.logs[t], s.channels[port], dg);
    InvTouch(s, DoArrive(s, port, dg), t);
  }

  lemma AfterRecvHolds(version: byte, dg: Datagram)
    ensures Pending(version, AfterRecv(version, dg)) == Frames(version, dg)
    ensures AfterRecv(version, dg).Holding? ==> AfterRecv(version, dg).dg == dg && Accepted(version, dg)
  {}

  lemma ConsumeNext(version: byte, thread: Thread, log: Log, c: Context)
    requires OpenOk(version, thread, log, c) && thread.pc.Waiting? && c.inbound != []
    ensures var dg := c.inbound[0];
            OpenOk(version, thread.(pc := AfterRecv(version, dg)), log.(consumed := log.consumed + [dg]),
                   c.(inbound := c.inbound[1..]))
  {
    hide Frames, Numbered, Receivable, AfterRecv;
    var dg := c.inbound[0];
    assert log.consumed + c.inbound == (log.consumed + [dg]) + c.inbound[1..];
    assert log.arrived[|log.consumed|] == dg;
    DecodeAllAppend(version, log.consumed, dg);
    AfterRecvHolds(version, dg);
    assert log.returned + c.queue + [] == log.returned + c.queue;
  }

  lemma InvReceive(s: State, t: nat)
    requires Inv(s) && Running(s, t) && Attached(s, t)
    requires s.threads[t].pc.Waiting? && s.channels[s.threads[t].port].inbound != []
    ensures Inv(DoReceive(s, t))
  {
    hide OpenOk, ClosedOk;
    assert PeriodOk(s, t);
    ConsumeNext(s.cfg.version, s.threads[t], s.logs[t], s.channels[s.threads[t].port]);
    InvTouch(s, DoReceive(s, t), t);
  }

  lemma PushNext(version: byte, thread: Thread, log: Log, c: Context)
    requires OpenOk(version, thread, log, c) && thread.pc.Holding?
    ensures OpenOk(version, thread.(pc := Testing), log, c.(queue := c.queue + Frames(version, thread.pc.dg)))
  {
    hide Frames, Numbered, Receivable;
    var f := Frames(version, thread.pc.dg);
    assert log.returned + (c.queue + f) + [] == log.returned + c.queue + f;
  }

  lemma InvPush(s: State, t: nat)
    requires Inv(s) && Running(s, t) && Attached(s, t) && s.threads[t].pc.Holding?
    ensures Inv(DoPush(s, t))
  {
    hide OpenOk, ClosedOk;
    assert PeriodOk(s, t);
    PushNext(s.cfg.version, s.threads[t], s.logs[t], s.channels[s.threads[t].port]);
    InvTouch(s, DoPush(s, t), t);
  }

  lemma MoveNext(version: byte, thread: Thread, log: Log, c: Context, pc: ThreadPc)
    requires OpenOk(version, thread, log, c) && !thread.pc.Exited? && !thread.pc.Holding? && !pc.Holding?
    requires pc.Exited? ==> c.stopRequested
    ensures OpenOk(version, thread.(pc := pc), log, c)
  {}

  /** A thread that moves without a datagram in hand. */
  lemma InvMove(s: State, t: nat, pc: ThreadPc)
    requires Inv(s) && Running(s, t) && Attached(s, t)
    requires !s.threads[t].pc.Holding? && !pc.Holding?
    requires pc.Exited? ==> s.channels[s.threads[t].port].stopRequested
    ensures Inv(SetPc(s, t, pc))
  {
    hide OpenOk, ClosedOk;
    assert PeriodOk(s, t);
    var port := s.threads[t].port;
    assert s.channels == s.channels[port := s.channels[port]];
    MoveNext(s.cfg.version, s.threads[t], s.logs[t], s.channels[port], pc);
    InvTouch(s, SetPc(s, t, pc), t);
  }

  /** A running thread's context is still in the map: no step of a receiver can be a fault. */
  lemma RunningAttached(s: State, t: nat)
    requires Inv(s) && Running(s, t)
    ensures Attached(s, t)
  {
    assert PeriodOk(s, t);
  }

  lemma InvThreadStep(s: State, a: Action)
    requires Inv(s) && (a.TestStop? || a.PollNothing? || a.Receive? || a.Push?)
    ensures Inv(ThreadStep(s, a))
  {
    hide Inv, DoReceive, DoPush, SetPc;
    if Running(s, a.t) {
      RunningAttached(s, a.t);
      var pc, c := s.threads[a.t].pc, s.channels[s.threads[a.t].port];
      match a {
        case TestStop(t) =>
          if pc.Testing? { InvMove(s, t, if c.stopRequested then Exited else Waiting); }
        case PollNothing(t) =>
          if pc.Waiting? { InvMove(s, t, Testing); }
        case Receive(t) =>
          if pc.Waiting? && c.inbound != [] { InvReceive(s, t); }
        case Push(t) =>
          if pc.Holding? { InvPush(s, t); }
      }
    }
  }

  lemma StopNext(version: byte, thread: Thread, log: Log, c: Context)
    requires OpenOk(version, thread, log, c)
    ensures OpenOk(version, thread, log, c.(stopRequested := true))
  {}

  lemma InvRequestStop(s: State, port: Port)
    requires Inv(s) && Available(s, port)
    ensures Inv(Next(s, RequestStop(port)))
  {
    hide KnownPort, OpenOk, ClosedOk;
    OwnPeriod(s, port);
    var s', t := Next(s, RequestStop(port)), s.channels[port].period;
    assert s'.channels.Keys == s.channels.Keys;
    assert |s'.channels| == |s'.channels.Keys| == |s.channels.Keys| == |s.channels|;
    forall p | p in s'.channels
      ensures ChannelOk(s', p)
    {
      assert ChannelOk(s, p);
    }
    StopNext(s.cfg.version, s.threads[t], s.logs[t], s.channels[port]);
    forall u | 0 <= u < |s'.threads|
      ensures PeriodOk(s', u)
    {
      assert PeriodOk(s, u);
      if u != t { PeriodFrame(s, s', u); }
    }
  }

  lemma InvJoin(s: State)
    requires Inv(s)
    ensures Inv(Next(s, Join))
  {
    hide KnownPort, OpenOk, ClosedOk;
    var s' := Next(s, Join);
    forall p | p in s'.channels
      ensures ChannelOk(s', p)
    {
      assert ChannelOk(s, p);
    }
    forall u | 0 <= u < |s'.threads|
      ensures PeriodOk(s', u)
    {
      assert PeriodOk(s, u);
    }
  }

  lemma EraseNext(version: byte, thread: Thread, log: Log, c: Context)
    requires OpenOk(version, thread, log, c) && thread.pc.Exited?
    ensures ClosedOk(version, thread, log.(dropped := c.queue))
  {
    hide Numbered, Receivable, DecodeAll, OnlyLastMalformed, AllWellFormed;
    assert log.returned + c.queue + [] == log.returned + c.queue;
  }

  lemma InvErase(s: State, port: Port)
    requires Inv(s) && s.closing == ThreadJoined(port) && port in s.channels && s.channels[port].period < |s.logs|
    ensures Inv(DoErase(s, port))
  {
    hide KnownPort, OpenOk, ClosedOk;
    OwnPeriod(s, port);
    var s', t := DoErase(s, port), s.channels[port].period;
    assert s'.channels.Keys == s.channels.Keys - {port};
    assert |s'.channels| == |s'.channels.Keys| <= |s.channels.Keys| == |s.channels|;
    forall p | p in s'.channels
      ensures ChannelOk(s', p)
    {
      assert ChannelOk(s, p);
    }
    EraseNext(s.cfg.version, s.threads[t], s.logs[t], s.channels[port]);
    forall u | 0 <= u < |s'.threads|
      ensures PeriodOk(s', u)
    {
      assert PeriodOk(s, u);
      if u != t { PeriodFrame(s, s', u); }
    }
  }

  lemma InvListing(s: State, a: Action)
    requires Inv(s) && (a.Scan? || a.List?)
    ensures Inv(Next(s, a))
  {
    hide KnownPort, OpenOk, ClosedOk;
    var s' := Next(s, a);
    forall p | p in s'.channels
      ensures ChannelOk(s', p)
    {
      assert ChannelOk(s, p);
    }
    forall u | 0 <= u < |s'.threads|
      ensures PeriodOk(s', u)
    {
      assert PeriodOk(s, u);
    }
  }

  lemma InvNext(s: State, a: Action)
    requires Inv(s)
    ensures Inv(Next(s, a))
  {
    hide Inv, DoOpen, DoPop, DoAttempt, DoErase, DoArrive, ThreadStep, CanOpen, Receivable;
    match a {
      case Open(port) => if CanOpen(s, port) { InvOpen(s, port); }
      case RequestStop(port) => if Available(s, port) { InvRequestStop(s, port); }
      case Join => InvJoin(s);
      case Erase =>
        if Next(s, Erase) != s { InvErase(s, s.closing.port); }
      case Pop(port) => if Available(s, port) && s.channels[port].queue != [] { InvPop(s, port); }
      case Attempt(port, m) => if Available(s, port) && Writable(m) { InvAttempt(s, port, m); }
      case Scan => InvListing(s, a);
      case List => InvListing(s, a);
      case Arrive(port, dg) =>
        if Next(s, a) != s { InvArrive(s, port, dg); }
      case _ => InvThreadStep(s, a);
    }
  }

  lemma {:induction false} InvExec(s: State, actions: seq<Action>)
    requires Inv(s)
    ensures Inv(Exec(s, actions))
    decreases |actions|
  {
    hide Inv, Next;
    if actions != [] {
      InvNext(s, actions[0]);
      InvExec(Next(s, actions[0]), actions[1..]);
    }
  }

  /** Every interleaving of receivers and API calls keeps the invariant. */
  lemma InvRun(cfg: Config, actions: seq<Action>)
    ensures Inv(Exec(Init(cfg), actions))
  {
    InvExec(Init(cfg), actions);
  }
}
