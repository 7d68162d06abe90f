/** The main results about the channel protocol, for every interleaving. */
module ChannelTheorems {
  import opened CanCodec
  import opened Channels
  import opened ChannelSafety

  // ---------------------------------------------------------------- first in, first out

  /** In an open period nothing is lost, duplicated or reordered: what readers got, what is queued
      and what the receiver holds make up the messages of the longest well-formed prefix of the
      datagrams received; and the datagrams received and those still in the socket make up all that
      arrived. */
  lemma FifoOpen(cfg: Config, actions: seq<Action>, port: Port)
    requires port in Exec(Init(cfg), actions).channels
    ensures var s := Exec(Init(cfg), actions);
            var c := s.channels[port];
            c.period < |s.logs| && c.period < |s.threads|
            && var thread, log := s.threads[c.period], s.logs[c.period];
               log.returned + c.queue + Pending(cfg.version, thread.pc) == DecodeAll(cfg.version, log.consumed)
               && (!thread.pc.Holding? ==> log.returned + c.queue == DecodeAll(cfg.version, log.consumed))
               && log.consumed + c.inbound == log.arrived
  {
    InvRun(cfg, actions);
    CfgRun(Init(cfg), actions);
    var s := Exec(Init(cfg), actions);
    OwnPeriod(s, port);
    var log, c := s.logs[s.channels[port].period], s.channels[port];
    assert log.returned + c.queue + [] == log.returned + c.queue;
  }

  /** In a closed period the same holds with the messages that the close discarded in place of the
      queue. */
  lemma FifoClosed(cfg: Config, actions: seq<Action>, t: nat)
    requires var s := Exec(Init(cfg), actions); t < |s.threads| && !Attached(s, t)
    ensures var s := Exec(Init(cfg), actions);
            t < |s.logs| && s.threads[t].pc.Exited?
            && s.logs[t].returned + s.logs[t].dropped == DecodeAll(cfg.version, s.logs[t].consumed)
            && s.logs[t].consumed <= s.logs[t].arrived
  {
    InvRun(cfg, actions);
    CfgRun(Init(cfg), actions);
    assert PeriodOk(Exec(Init(cfg), actions), t);
  }

  lemma {:induction false} CfgRun(s: State, actions: seq<Action>)
    ensures Exec(s, actions).cfg == s.cfg
    decreases |actions|
  {
    if actions != [] {
      CfgRun(Next(s, actions[0]), actions[1..]);
      hide Exec;
    }
  }

  /** The steps that can happen while an API call holds the mutex. */
  predicate EnvAction(a: Action) {
    a.Arrive? || a.TestStop? || a.PollNothing? || a.Receive? || a.Push?
  }

  predicate EnvOnly(actions: seq<Action>) {
    forall i :: 0 <= i < |actions| ==> EnvAction(actions[i])
  }

  // ---------------------------------------------------------------- receiver lifetime

  /** No receiver ever touches a context that is gone: the references the threads hold stay good
      through every split of close into stop, join and erase. */
  lemma NoDanglingReceiver(cfg: Config, actions: seq<Action>)
    ensures var s := Exec(Init(cfg), actions);
            !s.fault && forall t :: 0 <= t < |s.threads| && !s.threads[t].pc.Exited? ==> Attached(s, t)
  {
    InvRun(cfg, actions);
    var s := Exec(Init(cfg), actions);
    forall t | 0 <= t < |s.threads| && !s.threads[t].pc.Exited?
      ensures Attached(s, t)
    {
      RunningAttached(s, t);
    }
  }

  ghost predicate Frozen(s: State, s': State, t: nat)
    requires t < |s.threads|
  {
    t < |s'.threads| && t < |s'.logs| && t < |s.logs|
    && !Attached(s', t) && s'.threads[t] == s.threads[t] && s'.logs[t] == s.logs[t]
  }

  lemma ClosedStaysApi(s: State, a: Action, t: nat)
    requires Inv(s) && t < |s.threads| && !Attached(s, t) && !EnvAction(a)
    ensures Frozen(s, Next(s, a), t)
  {
    hide OpenOk, ClosedOk, ThreadStep, DoArrive, KnownPort, EncodePacket;
    if a.Pop? && a.port in s.channels { OwnPeriod(s, a.port); }
    if a.Attempt? && a.port in s.channels { OwnPeriod(s, a.port); }
    if a.Erase? && s.closing.ThreadJoined? { OwnPeriod(s, s.closing.port); }
  }

  lemma ClosedStaysArrive(s: State, a: Action, t: nat)
    requires Inv(s) && t < |s.threads| && !Attached(s, t) && a.Arrive?
    ensures Frozen(s, Next(s, a), t)
  {
    hide Receivable, PeriodOk, ClosingOk, ListingOk, KnownPort, ThreadStep;
    if a.port in s.channels { assert ChannelOk(s, a.port); }
  }

  lemma ClosedStaysThread(s: State, a: Action, t: nat)
    requires Inv(s) && t < |s.threads| && !Attached(s, t) && EnvAction(a) && !a.Arrive?
    ensures Frozen(s, Next(s, a), t)
  {
    ClosedHasExited(s, t);
    hide DoOpen, DoPop, DoErase, DoAttempt, DoArrive, Frames, Receivable, AfterRecv, PeriodOk, ChannelOk, ClosingOk,
         ListingOk, KnownPort;
  }

  lemma ClosedStays(s: State, a: Action, t: nat)
    requires Inv(s) && t < |s.threads| && !Attached(s, t)
    ensures Frozen(s, Next(s, a), t)
  {
    if a.Arrive? {
      ClosedStaysArrive(s, a, t);
    } else if EnvAction(a) {
      ClosedStaysThread(s, a, t);
    } else {
      ClosedStaysApi(s, a, t);
    }
  }

  lemma ClosedHasExited(s: State, t: nat)
    requires Inv(s) && t < |s.threads| && !Attached(s, t)
    ensures s.threads[t].pc.Exited?
  {
    assert PeriodOk(s, t);
  }

  /** Once a period is closed nothing is ever pushed, popped or sent in its name again, whatever is
      opened later, be it the same port. */
  lemma {:induction false} ClosedForGood(s: State, actions: seq<Action>, t: nat)
    requires Inv(s) && t < |s.threads| && !Attached(s, t)
    ensures var s' := Exec(s, actions);
            t < |s'.threads| && t < |s'.logs| && !Attached(s', t) && s'.threads[t].pc.Exited? && s'.logs[t] == s.logs[t]
    decreases |actions|
  {
    hide Inv, Next;
    ClosedHasExited(s, t);
    if actions == [] {
      InvSizes(s);
    } else {
      InvNext(s, actions[0]);
      ClosedStays(s, actions[0], t);
      ClosedForGood(Next(s, actions[0]), actions[1..], t);
    }
  }

  lemma InvSizes(s: State)
    requires Inv(s)
    ensures |s.threads| == |s.logs|
  {}

  /** The erase step of a close ends the period; an open that follows starts from nothing. */
  lemma CloseThenOpen(s: State, port: Port)
    requires Inv(s) && s.closing == ThreadJoined(port) && KnownPort(s.cfg, port)
    ensures var erased := Next(s, Erase);
            var reopened := Next(erased, Open(port));
            port !in erased.channels && s.channels[port].period < |s.threads|
            && !Attached(erased, s.channels[port].period)
            && port in reopened.channels
            && reopened.channels[port] == Context(|s.threads|, false, 0, [], [])
            && reopened.logs == erased.logs + [EMPTY_LOG]
  {
    hide OpenOk, ClosedOk;
    OwnPeriod(s, port);
    var erased := Next(s, Erase);
    assert erased.channels.Keys == s.channels.Keys - {port};
    assert |erased.channels| == |erased.channels.Keys| < |s.channels.Keys| == |s.channels|;
  }

  // ---------------------------------------------------------------- close terminates

  predicate OwnAction(a: Action, t: nat) {
    (a.TestStop? || a.PollNothing? || a.Receive? || a.Push?) && a.t == t
  }

  function Rank(pc: ThreadPc): nat {
    match pc
    case Exited => 0
    case Testing => 1
    case Holding(_) => 2
    case Waiting => 3
  }

  /** Thread t has been told to stop, or is already out of its loop. */
  ghost predicate ToldToStop(s: State, t: nat) {
    t < |s.threads|
    && (Running(s, t) ==> Attached(s, t) && s.channels[s.threads[t].port].stopRequested)
  }

  /** The effective steps of thread t along a run. */
  ghost function OwnSteps(s: State, actions: seq<Action>, t: nat): nat
    decreases |actions|
  {
    if actions == [] then 0
    else
      var s' := Next(s, actions[0]);
      (if OwnAction(actions[0], t) && s' != s then 1 else 0) + OwnSteps(s', actions[1..], t)
  }

  ghost predicate StopAdvanced(s: State, a: Action, t: nat)
    requires t < |s.threads|
  {
    var s' := Next(s, a);
    ToldToStop(s', t)
    && Rank(s'.threads[t].pc) + (if OwnAction(a, t) && s' != s then 1 else 0) <= Rank(s.threads[t].pc)
  }

  lemma StopKeptApi(s: State, a: Action, t: nat)
    requires Inv(s) && ToldToStop(s, t) && Attached(s, t) && !EnvAction(a)
    ensures StopAdvanced(s, a, t)
  {
    hide OpenOk, ClosedOk, ThreadStep, DoArrive, KnownPort, EncodePacket;
    assert PeriodOk(s, t);
    assert ChannelOk(s, s.threads[t].port);
  }

  lemma StopKeptEnv(s: State, a: Action, t: nat)
    requires Inv(s) && ToldToStop(s, t) && Attached(s, t) && EnvAction(a)
    ensures StopAdvanced(s, a, t)
  {
    hide DoOpen, DoPop, DoErase, DoAttempt, Frames, Receivable, PeriodOk, ChannelOk, ClosingOk, ListingOk, Accepted;
    if !a.Arrive? && Running(s, a.t) { RunningAttached(s, a.t); }
  }

  lemma StopIsPermanent(s: State, a: Action, t: nat)
    requires Inv(s) && ToldToStop(s, t)
    ensures StopAdvanced(s, a, t)
  {
    if !Attached(s, t) {
      ClosedStays(s, a, t);
      ClosedHasExited(s, t);
      hide Next;
      if OwnAction(a, t) { ExitedDoesNothing(s, a, t); }
    } else if EnvAction(a) {
      StopKeptEnv(s, a, t);
    } else {
      StopKeptApi(s, a, t);
    }
  }

  lemma ExitedDoesNothing(s: State, a: Action, t: nat)
    requires t < |s.threads| && s.threads[t].pc.Exited? && OwnAction(a, t)
    ensures Next(s, a) == s
  {}

  /** After its stop was requested a receiver takes at most three more effective steps, in every
      interleaving. */
  lemma {:induction false} StopWithinThreeSteps(s: State, actions: seq<Action>, t: nat)
    requires Inv(s) && ToldToStop(s, t)
    ensures var s' := Exec(s, actions);
            ToldToStop(s', t) && Rank(s'.threads[t].pc) + OwnSteps(s, actions, t) <= Rank(s.threads[t].pc) <= 3
    decreases |actions|
  {
    hide Inv, Next, ToldToStop;
    ToldIsThread(s, t);
    if actions != [] {
      InvNext(s, actions[0]);
      StopIsPermanent(s, actions[0], t);
      StopWithinThreeSteps(Next(s, actions[0]), actions[1..], t);
    }
  }

  lemma ToldIsThread(s: State, t: nat)
    requires ToldToStop(s, t)
    ensures t < |s.threads|
  {}

  /** The step a running receiver can always take, data or no data. */
  function Duty(pc: ThreadPc, t: nat): Action {
    match pc
    case Waiting => PollNothing(t)
    case Holding(_) => Push(t)
    case _ => TestStop(t)
  }

  /** A receiver that has not exited is never stuck, so the join inside close cannot wait for ever on
      a receiver that gets to run. */
  lemma ReceiverNeverStuck(s: State, t: nat)
    requires Inv(s) && Running(s, t)
    ensures Next(s, Duty(s.threads[t].pc, t)) != s
  {
    RunningAttached(s, t);
    var s' := Next(s, Duty(s.threads[t].pc, t));
    assert s'.threads[t].pc != s.threads[t].pc;
  }

  // ---------------------------------------------------------------- the end of reception

  ghost predicate Silent(s: State, s': State, t: nat) {
    t < |s.logs| && t < |s'.threads| && t < |s'.logs|
    && s'.threads[t].pc.Exited? && s'.logs[t].consumed == s.logs[t].consumed
  }

  lemma ExitedStays(s: State, a: Action, t: nat)
    requires Inv(s) && t < |s.threads| && s.threads[t].pc.Exited?
    ensures Silent(s, Next(s, a), t)
  {
    hide OpenOk, ClosedOk, KnownPort, EncodePacket, Frames, Receivable, ChannelOk, ListingOk, ClosingOk, PeriodOk;
    if EnvAction(a) {
      hide DoOpen, DoPop, DoErase, DoAttempt;
    } else {
      hide ThreadStep, DoArrive;
    }
  }

  /** Why a receiver of an open channel is out of its loop: it was told to stop, or it received a
      datagram that ends the loop.  An idle poll, an empty datagram or a well-formed one never does. */
  lemma ExitReasons(cfg: Config, actions: seq<Action>, t: nat)
    requires var s := Exec(Init(cfg), actions); t < |s.threads| && s.threads[t].pc.Exited? && Attached(s, t)
    ensures var s := Exec(Init(cfg), actions);
            t < |s.logs|
            && (s.channels[s.threads[t].port].stopRequested
                || exists dg :: dg in s.logs[t].consumed && dg != []
                     && (|dg| < 5 || dg[0] != cfg.version
                         || |dg| - 5 < 13 * (dg[3] as int + 256 * dg[4] as int)))
  {
    InvRun(cfg, actions);
    CfgRun(Init(cfg), actions);
    var s := Exec(Init(cfg), actions);
    hide Exec, AfterRecv, Numbered, DecodeAll, Receivable;
    assert PeriodOk(s, t);
    if !s.channels[s.threads[t].port].stopRequested {
      var i :| 0 <= i < |s.logs[t].consumed| && AfterRecv(cfg.version, s.logs[t].consumed[i]).Exited?;
      LoopEnders(cfg.version, s.logs[t].consumed[i]);
    }
  }

  /** A receiver that has left its loop receives nothing more. */
  lemma {:induction false} ExitedIsSilent(s: State, actions: seq<Action>, t: nat)
    requires Inv(s) && t < |s.threads| && s.threads[t].pc.Exited?
    ensures var s' := Exec(s, actions);
            t < |s'.threads| && t < |s'.logs| && s'.threads[t].pc.Exited?
            && t < |s.logs| && s'.logs[t].consumed == s.logs[t].consumed
    decreases |actions|
  {
    hide Inv, Next;
    InvSizes(s);
    if actions != [] {
      InvNext(s, actions[0]);
      ExitedStays(s, actions[0], t);
      ExitedIsSilent(Next(s, actions[0]), actions[1..], t);
    }
  }

  /** One malformed datagram ends reception for the rest of the period, whatever arrives later. */
  lemma MalformedEndsReception(cfg: Config, first: seq<Action>, later: seq<Action>, t: nat)
    requires var s := Exec(Init(cfg), first);
             t < |s.logs| && !AllWellFormed(cfg.version, s.logs[t].consumed)
    ensures var s, s' := Exec(Init(cfg), first), Exec(Init(cfg), first + later);
            t < |s'.logs| && s'.logs[t].consumed == s.logs[t].consumed
  {
    hide Next;
    InvRun(cfg, first);
    CfgRun(Init(cfg), first);
    var s := Exec(Init(cfg), first);
    assert PeriodOk(s, t);
    ExitedIsSilent(s, later, t);
    ExecConcat(Init(cfg), first, later);
  }

  // ---------------------------------------------------------------- sequence numbers

  /** The k-th packet attempted in a period is the k-th attempted message's encoding with sequence
      number k mod 256, whatever happens on other channels. */
  lemma SequenceNumbers(cfg: Config, actions: seq<Action>, t: nat, k: nat)
    requires var s := Exec(Init(cfg), actions); t < |s.logs| && k < |s.logs[t].packets|
    ensures var log := Exec(Init(cfg), actions).logs[t];
            |log.attempts| == |log.packets| && Writable(log.attempts[k])
            && log.packets[k] == EncodePacket(cfg.version, k % 256, log.attempts[k])
            && log.packets[k][2] == k % 256
  {
    InvRun(cfg, actions);
    CfgRun(Init(cfg), actions);
    var s := Exec(Init(cfg), actions);
    hide Exec, AllWellFormed, OnlyLastMalformed, Receivable, DecodeAll;
    assert PeriodOk(s, t);
  }

  // ---------------------------------------------------------------- devices

  /** At most three channels are open, on the default port or one of the three virtual devices; the
      scan position is bounded, and the devices listed since the last scan are a prefix of the three
      in order, without repeats. */
  lemma DeviceBounds(cfg: Config, actions: seq<Action>)
    ensures var s := Exec(Init(cfg), actions);
            |s.channels| <= 3
            && (forall port :: port in s.channels ==> port in {cfg.defaultPort, 20000, 20001, 20002})
            && s.scanIndex <= 3 && s.listed == [20000, 20001, 20002][..s.scanIndex]
  {
    InvRun(cfg, actions);
    CfgRun(Init(cfg), actions);
    var s := Exec(Init(cfg), actions);
    hide Exec, PeriodOk, ClosingOk;
    forall port | port in s.channels
      ensures port in {cfg.defaultPort, 20000, 20001, 20002}
    {
      assert ChannelOk(s, port);
    }
  }

  const VIRTUAL_PORTS: set<Port> := {20000, 20001, 20002}

  lemma VirtualPorts()
    ensures |VIRTUAL_PORTS| == 3
    ensures forall p: Port :: p in VIRTUAL_PORTS <==> BASE_PORT <= p < BASE_PORT + VIRTUAL_DEVICE_COUNT
  {}

  lemma KnownIsVirtual(s: State, p: Port)
    requires Inv(s) && p in s.channels && BASE_PORT <= s.cfg.defaultPort < BASE_PORT + VIRTUAL_DEVICE_COUNT
    ensures p in VIRTUAL_PORTS
  {
    hide PeriodOk, ClosingOk, ListingOk;
    assert ChannelOk(s, p);
    VirtualPorts();
  }

  /** If every port the client can open is a virtual device, a free device leaves room. */
  lemma FreeDeviceLeavesRoom(s: State, port: Port)
    requires Inv(s) && port !in s.channels && BASE_PORT <= port < BASE_PORT + VIRTUAL_DEVICE_COUNT
    requires BASE_PORT <= s.cfg.defaultPort < BASE_PORT + VIRTUAL_DEVICE_COUNT
    ensures |s.channels| < 3
  {
    hide Inv, VIRTUAL_PORTS;
    VirtualPorts();
    var all := s.channels.Keys + {port};
    forall p | p in all
      ensures p in VIRTUAL_PORTS
    {
      if p != port { KnownIsVirtual(s, p); }
    }
    SubsetSize(all, VIRTUAL_PORTS);
    assert |all| == |s.channels.Keys| + 1;
    assert |s.channels| == |s.channels.Keys|;
  }

  /** A virtual device that is reported available can really be opened exactly when fewer than three
      channels are open. */
  lemma AvailableDeviceOpens(cfg: Config, actions: seq<Action>, port: Port)
    requires var s := Exec(Init(cfg), actions); s.closing.NotClosing? && port !in s.channels
    requires 20000 <= port < 20003
    ensures var s := Exec(Init(cfg), actions);
            (CanOpen(s, port) <==> |s.channels| < 3)
            && (20000 <= cfg.defaultPort < 20003 ==> CanOpen(s, port))
  {
    hide Inv, Exec;
    InvRun(cfg, actions);
    CfgRun(Init(cfg), actions);
    if BASE_PORT <= cfg.defaultPort < BASE_PORT + VIRTUAL_DEVICE_COUNT {
      FreeDeviceLeavesRoom(Exec(Init(cfg), actions), port);
    }
  }

  lemma {:induction false} SubsetSize<T>(a: set<T>, b: set<T>)
    requires a <= b
    ensures |a| <= |b|
  {
    if a != {} {
      var x :| x in a;
      SubsetSize(a - {x}, b - {x});
    }
  }

  /** With a default port of its own a third channel can be taken by it, and then a device that is
      reported available cannot be opened. */
  lemma AvailableDeviceRefused()
    ensures var s := Exec(Init(Config(1, 30000)), [Open(30000), Open(20000), Open(20001)]);
            20002 !in s.channels && !CanOpen(s, 20002)
  {
    var s0 := Init(Config(1, 30000));
    var s1 := Next(s0, Open(30000));
    var s2 := Next(s1, Open(20000));
    var s3 := Next(s2, Open(20001));
    var actions := [Open(30000), Open(20000), Open(20001)];
    assert actions[1..] == [Open(20000), Open(20001)];
    assert actions[1..][1..] == [Open(20001)] && actions[1..][1..][1..] == [];
    assert s3.channels.Keys == {30000, 20000, 20001};
    assert |s3.channels| == |s3.channels.Keys| == 3;
    assert Exec(s2, [Open(20001)]) == Exec(s3, []) == s3;
    assert Exec(s1, actions[1..]) == Exec(s2, actions[1..][1..]);
  }

  // ---------------------------------------------------------------- delivery

  /** The receiver of an open channel is in its loop and nothing malformed waits in its socket. */
  ghost predicate Receiving(s: State, port: Port) {
    Available(s, port)
    && Running(s, s.channels[port].period)
    && AllWellFormed(s.cfg.version, s.channels[port].inbound)
  }

  /** What the receiver does next if it gets to run. */
  function Work(pc: ThreadPc, t: nat, inbound: seq<Datagram>): Action {
    if pc.Waiting? && inbound != [] then Receive(t) else Duty(pc, t)
  }

  function WorkRank(pc: ThreadPc): nat {
    match pc
    case Waiting => 0
    case Testing => 1
    case Holding(_) => 2
    case Exited => 3
  }

  lemma WorkStep(s: State, port: Port)
    requires Inv(s) && Receiving(s, port)
    requires !s.threads[s.channels[port].period].pc.Waiting? || s.channels[port].inbound != []
    ensures var t, c := s.channels[port].period, s.channels[port];
            var s' := Next(s, Work(s.threads[t].pc, t, c.inbound));
            Receiving(s', port) && s'.channels[port].period == t && s'.cfg == s.cfg
            && s'.logs[t].arrived == s.logs[t].arrived && s'.logs[t].returned == s.logs[t].returned
            && (|s'.channels[port].inbound| < |c.inbound|
                || (s'.channels[port].inbound == c.inbound && WorkRank(s'.threads[t].pc) < WorkRank(s.threads[t].pc)))
  {
    hide PeriodOk, ClosingOk, ListingOk, Frames, KnownPort, Accepted;
    assert ChannelOk(s, port);
    var c := s.channels[port];
    assert c.inbound != [] ==> c.inbound[1..] == c.inbound[1..] && !AfterRecv(s.cfg.version, c.inbound[0]).Exited?;
  }

  /** Delivery: if the receiver of an open channel is in its loop and what waits in the socket is well
      formed, letting it run makes every message of every arrived datagram readable: those already
      returned and the queue are then exactly the messages of all that arrived. */
  lemma {:induction false} Deliver(s: State, port: Port) returns (actions: seq<Action>)
    requires Inv(s) && Receiving(s, port)
    ensures EnvOnly(actions)
    ensures var s', t := Exec(s, actions), s.channels[port].period;
            port in s'.channels && s'.channels[port].inbound == [] && t < |s'.logs|
            && s'.logs[t].consumed == s'.logs[t].arrived == s.logs[t].arrived
            && s'.logs[t].returned == s.logs[t].returned
            && s.logs[t].returned + s'.channels[port].queue == DecodeAll(s.cfg.version, s.logs[t].arrived)
    decreases |s.channels[port].inbound|, WorkRank(s.threads[s.channels[port].period].pc)
  {
    var t := s.channels[port].period;
    if s.threads[t].pc.Waiting? && s.channels[port].inbound == [] {
      actions := [];
      Drained(s, port);
    } else {
      var a := Work(s.threads[t].pc, t, s.channels[port].inbound);
      WorkStep(s, port);
      InvNext(s, a);
      hide Inv, Next, Receiving;
      var rest := Deliver(Next(s, a), port);
      actions := [a] + rest;
      assert actions[1..] == rest;
    }
  }

  lemma Drained(s: State, port: Port)
    requires Inv(s) && Receiving(s, port)
    requires s.threads[s.channels[port].period].pc.Waiting? && s.channels[port].inbound == []
    ensures var log := s.logs[s.channels[port].period];
            log.consumed == log.arrived
            && log.returned + s.channels[port].queue == DecodeAll(s.cfg.version, log.arrived)
  {
    OwnPeriod(s, port);
    var log := s.logs[s.channels[port].period];
    assert log.consumed + [] == log.consumed;
    assert log.returned + s.channels[port].queue + [] == log.returned + s.channels[port].queue;
  }

  // ---------------------------------------------------------------- interference

  ghost predicate ContextRely(c: Context, c': Context) {
    c'.period == c.period && c'.stopRequested == c.stopRequested && c'.seqNo == c.seqNo && c.queue <= c'.queue
  }

  ghost predicate LogRely(log: Log, log': Log) {
    log'.returned == log.returned && log'.dropped == log.dropped
    && log'.attempts == log.attempts && log'.packets == log.packets
  }

  /** What a caller holding the mutex can rely on: channels neither come nor go, their queues only
      grow at the back, and nothing the API owns changes. */
  ghost predicate Rely(s: State, s': State) {
    && s'.cfg == s.cfg && s'.closing == s.closing && s'.scanIndex == s.scanIndex && s'.listed == s.listed
    && |s'.threads| == |s.threads| && |s'.logs| == |s.logs|
    && s'.channels.Keys == s.channels.Keys
    && (forall p :: p in s.channels ==> ContextRely(s.channels[p], s'.channels[p]))
    && (forall t :: 0 <= t < |s.threads| ==> s'.threads[t].port == s.threads[t].port)
    && (forall t :: 0 <= t < |s.logs| ==> LogRely(s.logs[t], s'.logs[t]))
  }

  lemma RelyTransitive(a: State, b: State, c: State)
    requires Rely(a, b) && Rely(b, c)
    ensures Rely(a, c)
  {
    forall p | p in a.channels
      ensures ContextRely(a.channels[p], c.channels[p])
    {
      assert ContextRely(a.channels[p], b.channels[p]);
      assert ContextRely(b.channels[p], c.channels[p]);
    }
    forall t | 0 <= t < |a.logs|
      ensures LogRely(a.logs[t], c.logs[t])
    {
      assert LogRely(a.logs[t], b.logs[t]);
    }
  }

  lemma RelyArrive(s: State, port: Port, dg: Datagram)
    requires Inv(s) && port in s.channels && s.channels[port].period < |s.logs|
    ensures Rely(s, DoArrive(s, port, dg))
  {
    hide PeriodOk, ChannelOk, ClosingOk, ListingOk;
  }

  lemma RelyReceive(s: State, t: nat)
    requires Inv(s) && Running(s, t) && Attached(s, t) && s.channels[s.threads[t].port].inbound != []
    ensures Rely(s, DoReceive(s, t))
  {
    hide PeriodOk, ChannelOk, ClosingOk, ListingOk, AfterRecv;
  }

  lemma RelyPush(s: State, t: nat)
    requires Inv(s) && Running(s, t) && Attached(s, t) && s.threads[t].pc.Holding?
    ensures Rely(s, DoPush(s, t))
  {
    hide PeriodOk, ChannelOk, ClosingOk, ListingOk, Frames;
  }

  lemma RelyMove(s: State, t: nat, pc: ThreadPc)
    requires Inv(s) && t < |s.threads|
    ensures Rely(s, SetPc(s, t, pc))
  {
    hide PeriodOk, ChannelOk, ClosingOk, ListingOk;
  }

  lemma RelyStep(s: State, a: Action)
    requires Inv(s) && EnvAction(a)
    ensures Rely(s, Next(s, a))
  {
    hide Inv, Rely, DoArrive, DoReceive, DoPush, Receivable;
    if a.Arrive? {
      RelySame(s);
      if a.port in s.channels && s.channels[a.port].period < |s.logs| { RelyArrive(s, a.port, a.dg); }
    } else {
      RelySame(s);
      if Running(s, a.t) {
        RunningAttached(s, a.t);
        var pc, c := s.threads[a.t].pc, s.channels[s.threads[a.t].port];
        RelyMove(s, a.t, Testing);
        RelyMove(s, a.t, if c.stopRequested then Exited else Waiting);
        if a.Receive? && c.inbound != [] { RelyReceive(s, a.t); }
        if a.Push? && pc.Holding? { RelyPush(s, a.t); }
      }
    }
  }

  lemma RelySame(s: State)
    ensures Rely(s, s)
  {}

  lemma {:induction false} RelyExec(s: State, actions: seq<Action>)
    requires Inv(s) && EnvOnly(actions)
    ensures Rely(s, Exec(s, actions)) && Inv(Exec(s, actions))
    decreases |actions|
  {
    if actions != [] {
      hide Inv, Next, Rely;
      var s' := Next(s, actions[0]);
      InvNext(s, actions[0]);
      RelyStep(s, actions[0]);
      RelyExec(s', actions[1..]);
      RelyTransitive(s, s', Exec(s', actions[1..]));
    }
  }
}
