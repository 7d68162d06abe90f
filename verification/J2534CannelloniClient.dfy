/** `J2534CannelloniClient` (j2534cannelloniclient.cpp) as an object whose every execution, receivers
    included, is a run of the channel protocol. */
module J2534CannelloniClient {
  import opened Bytes
  import opened PassThru
  import opened CanCodec
  import opened Channels
  import opened ChannelSafety
  import opened ChannelTheorems
  import opened ClientCalls
  import opened MessageList
  import opened ReadRecords
  import opened CallLog

  datatype Option<T> = None | Some(value: T)

  /** SDEVICE, as far as it varies. */
  datatype DeviceInfo = DeviceInfo(port: Port, available: bool)

  /** SCHANNELSET; a missing list stands for a null pointer. */
  datatype ChannelSet = ChannelSet(list: Option<seq<Port>>, threshold: nat)

  /** The channel sets PassThruSelect does not refuse. */
  predicate Pollable(channelSet: Option<ChannelSet>) {
    channelSet != None && channelSet.value.list != None && channelSet.value.list.value != []
  }

  /** How a PassThruReadMsgs ends: with a result code, the caller's count and the record sent over the
      pipe, or by reading through the null buffer. */
  datatype ReadOutcome = Returned(status: Status, numMsgs: word, record: Cbor) | NullDereference

  // ---------------------------------------------------------------- opening

  /** std::string::contains. */
  predicate Contains(text: string, part: string) {
    |part| <= |text| && (text[..|part|] == part || (text != [] && Contains(text[1..], part)))
  }

  /** `part` stands somewhere in `text`. */
  ghost predicate Occurs(text: string, part: string) {
    exists before: string, after: string :: text == before + part + after
  }

  lemma {:induction false} ContainsOccurs(text: string, part: string)
    ensures Contains(text, part) <==> Occurs(text, part)
    decreases |text|
  {
    if text != [] {
      ContainsOccurs(text[1..], part);
      OccursLater(text, part);
    }
    if |part| <= |text| && text[..|part|] == part {
      assert text == [] + part + text[|part|..];
    }
    if Occurs(text, part) {
      var before: string, after: string :| text == before + part + after;
      if before == [] { assert text[..|part|] == part; }
    }
  }

  /** A later occurrence is one in the tail. */
  lemma OccursLater(text: string, part: string)
    requires text != []
    ensures Occurs(text[1..], part) <==>
            exists before: string, after: string :: before != [] && text == before + part + after
  {
    if Occurs(text[1..], part) {
      var before: string, after: string :| text[1..] == before + part + after;
      assert text == ([text[0]] + before) + part + after;
    }
    if before: string, after: string :| before != [] && text == before + part + after {
      assert text[1..] == before[1..] + part + after;
    }
  }

  const DEVICE_PORTS: seq<string> := ["20000", "20001", "20002"]

  /** The name given to PassThruOpen mentions virtual device k. */
  ghost predicate Mentions(name: Option<string>, k: nat)
    requires k < VIRTUAL_DEVICE_COUNT
  {
    name != None && Occurs(name.value, DEVICE_PORTS[k])
  }

  /** ... and no device before it. */
  ghost predicate MentionsFirst(name: Option<string>, k: nat)
    requires k < VIRTUAL_DEVICE_COUNT
  {
    Mentions(name, k) && forall j: nat :: j < k ==> !Mentions(name, j)
  }

  /** The port PassThruOpen chooses: the first virtual device that the name mentions, the default if
      it mentions none. */
  function ChosenPort(cfg: Config, name: Option<string>): (r: Port)
    ensures forall k: nat :: k < VIRTUAL_DEVICE_COUNT && MentionsFirst(name, k) ==> r == 20000 + k
    ensures (forall k: nat :: k < VIRTUAL_DEVICE_COUNT ==> !Mentions(name, k)) ==> r == cfg.defaultPort
    ensures KnownPort(cfg, r)
  {
    match name
    case None => cfg.defaultPort
    case Some(text) =>
      ContainsOccurs(text, DEVICE_PORTS[0]);
      ContainsOccurs(text, DEVICE_PORTS[1]);
      ContainsOccurs(text, DEVICE_PORTS[2]);
      assert Mentions(name, 0) <==> Contains(text, "20000");
      assert Mentions(name, 1) <==> Contains(text, "20001");
      assert Mentions(name, 2) <==> Contains(text, "20002");
      if Contains(text, "20000") then 20000
      else if Contains(text, "20001") then 20001
      else if Contains(text, "20002") then 20002
      else cfg.defaultPort
  }

  class J2534CannelloniClient {
    const cfg: Config
    var channelMap: map<Port, Context>
    /** The receive threads, numbered by the period they belong to. */
    var threads: seq<Thread>
    var scanIndex: nat
    ghost var logs: seq<Log>
    ghost var closing: Closing
    ghost var listed: seq<Port>
    /** Everything that has happened, in order. */
    ghost var trace: seq<Action>
    /** The records handed to the pipe, and the calls they are from. */
    var records: seq<Cbor>
    ghost var calls: seq<Call>

    ghost function Abs(): State
      reads this
    {
      State(cfg, channelMap, threads, logs, closing, false, scanIndex, listed)
    }

    /** The object's state is the one its trace leads to. */
    ghost predicate Valid()
      reads this
    {
      Abs() == Exec(Init(cfg), trace)
    }

    /** No close is under way, that is, the mutex is free. */
    ghost predicate Free()
      reads this
    {
      Valid() && closing.NotClosing?
    }

    /** Between two calls: the mutex is free, and the records account for everything read so far. */
    ghost predicate AtRest()
      reads this
    {
      Free() && Accounted(records, calls, logs)
    }

    constructor (cfg: Config)
      ensures AtRest() && this.cfg == cfg && trace == [] && calls == []
    {
      this.cfg := cfg;
      channelMap, threads, scanIndex := map[], [], 0;
      logs, closing, listed, trace := [], NotClosing, [], [];
      records, calls := [], [];
    }

    lemma Invariant()
      requires Valid()
      ensures Inv(Abs())
    {
      InvRun(cfg, trace);
    }

    // -------------------------------------------------------------- the receive threads

    /** The loop head: leave if a stop was requested. */
    method TestStopRequested(t: nat)
      requires Valid() && t < |threads| && threads[t].pc.Testing?
      modifies this`threads, this`trace
      ensures Valid() && trace == old(trace) + [TestStop(t)]
      ensures var port := old(threads)[t].port;
              port in channelMap
              && threads == old(threads)[t := Thread(port, if channelMap[port].stopRequested then Exited else Waiting)]
    {
      hide Exec, Inv;
      ContextOf(t);
      ExecNext(Init(cfg), trace, TestStop(t));
      var ctx := channelMap[threads[t].port];
      threads := threads[t := threads[t].(pc := if ctx.stopRequested then Exited else Waiting)];
      trace := trace + [TestStop(t)];
    }

    /** The reference a running thread holds is to the context in the map. */
    lemma ContextOf(t: nat)
      requires Valid() && t < |threads| && !threads[t].pc.Exited?
      ensures t < |logs| && threads[t].port in channelMap && channelMap[threads[t].port].period == t
      ensures threads[t].pc.Holding? ==>
                Accepted(cfg.version, threads[t].pc.dg) && Receivable(cfg.version, threads[t].pc.dg)
    {
      Invariant();
      InvSizes(Abs());
      RunningAttached(Abs(), t);
      assert PeriodOk(Abs(), t);
    }

    /** The next datagram has been taken from the socket, and the thread goes on as it tells. */
    ghost predicate Received(s: State, s': State, t: nat)
      requires t < |s.threads| && t < |s.logs|
      requires s.threads[t].port in s.channels && s.channels[s.threads[t].port].inbound != []
    {
      var port := s.threads[t].port;
      var c, log := s.channels[port], s.logs[t];
      var dg := c.inbound[0];
      var malformed := dg != [] && (|dg| < 5 || dg[0] != s.cfg.version
                                    || |dg| - 5 < 13 * (dg[3] as int + 256 * dg[4] as int));
      var pc := if malformed then Exited else if dg == [] then Testing else Holding(dg);
      s' == s.(channels := s.channels[port := c.(inbound := c.inbound[1..])],
               threads := s.threads[t := Thread(port, pc)],
               logs := s.logs[t := log.(consumed := log.consumed + [dg])])
    }

    /** select and recv: nothing (timeout or error), or the next datagram of the socket, which is
        checked for size, version and frame count.  A datagram that fails ends the loop. */
    method PollSocket(t: nat, ready: bool)
      requires Valid() && t < |threads| && threads[t].pc.Waiting?
      modifies this`threads, this`channelMap, this`logs, this`trace
      ensures var port := old(threads)[t].port;
              Valid() && port in old(channelMap) && t < |old(logs)|
              && var received := ready && old(channelMap)[port].inbound != [];
                 trace == old(trace) + [if received then Receive(t) else PollNothing(t)]
                 && if received then Received(old(Abs()), Abs(), t)
                    else Abs() == old(Abs()).(threads := old(threads)[t := Thread(port, Testing)])
    {
      hide Exec, Inv;
      ContextOf(t);
      var port := threads[t].port;
      var ctx := channelMap[port];
      if !ready || ctx.inbound == [] {
        ExecNext(Init(cfg), trace, PollNothing(t));
        threads := threads[t := threads[t].(pc := Testing)];
        trace := trace + [PollNothing(t)];
        return;
      }
      ExecNext(Init(cfg), trace, Receive(t));
      var dg := ctx.inbound[0];
      var pc := Exited;
      if |dg| == 0 {
        pc := Testing;
      } else if |dg| >= HEADER_SIZE {
        var version := dg[0];
        var frameCount := Count(dg);
        var framesSize := |dg| - HEADER_SIZE;
        if version == cfg.version && framesSize >= frameCount * FRAME_SIZE {
          pc := Holding(dg);
        }
      }
      channelMap := channelMap[port := ctx.(inbound := ctx.inbound[1..])];
      threads := threads[t := threads[t].(pc := pc)];
      logs := logs[t := logs[t].(consumed := logs[t].consumed + [dg])];
      trace := trace + [Receive(t)];
    }

    /** The messages of the datagram in hand are at the back of the queue. */
    ghost predicate Pushed(s: State, s': State, t: nat)
      requires t < |s.threads| && s.threads[t].pc.Holding? && s.threads[t].port in s.channels
    {
      var port := s.threads[t].port;
      var c := s.channels[port];
      s' == s.(channels := s.channels[port := c.(queue := c.queue + Frames(s.cfg.version, s.threads[t].pc.dg))],
               threads := s.threads[t := Thread(port, Testing)])
    }

    /** Decode the frames out of the receive buffer and push them under the queue's mutex. */
    method PushMessages(t: nat)
      requires Valid() && t < |threads| && threads[t].pc.Holding?
      modifies this`threads, this`channelMap, this`trace
      ensures Valid() && trace == old(trace) + [Push(t)]
      ensures old(threads)[t].port in old(channelMap) && Pushed(old(Abs()), Abs(), t)
    {
      hide Exec, Inv;
      ContextOf(t);
      ExecNext(Init(cfg), trace, Push(t));
      var port := threads[t].port;
      var ctx, dg := channelMap[port], threads[t].pc.dg;
      var buffer := new byte[MAX_DATAGRAM](_ => 0);
      CopyInto(buffer, 0, dg);
      assert buffer[..|dg|] == dg;
      var queue := PushFrames(buffer, |dg|, cfg.version, ctx.queue);
      channelMap := channelMap[port := ctx.(queue := queue)];
      threads := threads[t := threads[t].(pc := Testing)];
      trace := trace + [Push(t)];
    }

    /** One step of a receive thread, wherever it stands. */
    method RunReceiver(t: nat)
      requires Valid() && t < |threads| && !threads[t].pc.Exited?
      modifies this`threads, this`channelMap, this`logs, this`trace
      ensures Valid() && exists a :: trace == old(trace) + [a] && OwnAction(a, t)
      ensures t < |threads| && threads[t].pc != old(threads)[t].pc
    {
      var ready: bool := *;
      match threads[t].pc {
        case Testing =>
          TestStopRequested(t);
          assert OwnAction(TestStop(t), t);
        case Waiting =>
          ghost var before := trace;
          PollSocket(t, ready);
          assert trace[..|before|] == before && OwnAction(trace[|before|], t);
        case Holding(_) =>
          PushMessages(t);
          assert OwnAction(Push(t), t);
      }
    }

    /** A datagram reaches a channel's socket. */
    method DatagramArrives(port: Port, dg: Datagram)
      requires Valid() && port in channelMap && Receivable(cfg.version, dg)
      modifies this`channelMap, this`logs, this`trace
      ensures Valid() && trace == old(trace) + [Arrive(port, dg)]
      ensures port in channelMap && channelMap[port].inbound == old(channelMap)[port].inbound + [dg]
      ensures var t := channelMap[port].period;
              t < |old(logs)| == |logs| && logs[t].arrived == old(logs)[t].arrived + [dg]
    {
      hide Exec, Inv;
      PeriodOf(port);
      ExecNext(Init(cfg), trace, Arrive(port, dg));
      var ctx := channelMap[port];
      logs := logs[ctx.period := logs[ctx.period].(arrived := logs[ctx.period].arrived + [dg])];
      channelMap := channelMap[port := ctx.(inbound := ctx.inbound + [dg])];
      trace := trace + [Arrive(port, dg)];
    }

    lemma PeriodOf(port: Port)
      requires Valid() && port in channelMap
      ensures channelMap[port].period < |threads| == |logs|
      ensures threads[channelMap[port].period].port == port
    {
      Invariant();
      InvSizes(Abs());
      assert ChannelOk(Abs(), port);
    }

    /** A step that is not enabled does nothing. */
    ghost method Skip(a: Action)
      requires Valid() && Next(Abs(), a) == Abs()
      modifies this`trace
      ensures Valid() && trace == old(trace) + [a]
    {
      hide Exec, Next;
      ExecNext(Init(cfg), trace, a);
      trace := trace + [a];
    }

    /** One step of the network or a receiver. */
    method Act(a: Action)
      requires Valid() && EnvAction(a)
      modifies this`threads, this`channelMap, this`logs, this`trace
      ensures Valid() && trace == old(trace) + [a]
    {
      hide Exec, Inv, Receivable;
      match a {
        case Arrive(port, dg) =>
          if port in channelMap && Receivable(cfg.version, dg) {
            DatagramArrives(port, dg);
          } else {
            Skip(a);
          }
        case TestStop(t) =>
          if t < |threads| && threads[t].pc.Testing? {
            TestStopRequested(t);
          } else {
            Idle(a);
            Skip(a);
          }
        case PollNothing(t) =>
          if t < |threads| && threads[t].pc.Waiting? {
            PollSocket(t, false);
          } else {
            Idle(a);
            Skip(a);
          }
        case Receive(t) =>
          if t < |threads| && threads[t].pc.Waiting? && SocketOf(t) != [] {
            PollSocket(t, true);
          } else {
            Idle(a);
            Skip(a);
          }
        case Push(t) =>
          if t < |threads| && threads[t].pc.Holding? {
            PushMessages(t);
          } else {
            Idle(a);
            Skip(a);
          }
      }
    }

    function SocketOf(t: nat): seq<Datagram>
      requires t < |threads|
      reads this
    {
      if threads[t].port in channelMap then channelMap[threads[t].port].inbound else []
    }

    /** A receiver that does not stand where the step begins. */
    lemma Idle(a: Action)
      requires Valid() && (a.TestStop? || a.PollNothing? || a.Receive? || a.Push?)
      requires a.t < |threads| ==>
                 match a
                 case TestStop(t) => !threads[t].pc.Testing?
                 case PollNothing(t) => !threads[t].pc.Waiting?
                 case Receive(t) => !threads[t].pc.Waiting? || SocketOf(t) == []
                 case Push(t) => !threads[t].pc.Holding?
      ensures Next(Abs(), a) == Abs()
    {
      hide Exec, Inv;
      if a.t < |threads| && !threads[a.t].pc.Exited? { ContextOf(a.t); }
    }

    /** What the network and the receivers do, in this order. */
    method Follow(actions: seq<Action>)
      requires Valid() && EnvOnly(actions)
      modifies this`threads, this`channelMap, this`logs, this`trace
      ensures Valid() && trace == old(trace) + actions
      ensures Abs() == Exec(old(Abs()), actions) && Rely(old(Abs()), Abs())
    {
      hide Exec, Inv, Rely, EnvAction;
      for i := 0 to |actions|
        invariant Valid() && trace == old(trace) + actions[..i]
        invariant closing == old(closing) && scanIndex == old(scanIndex) && listed == old(listed)
      {
        Act(actions[i]);
        assert actions[..i + 1] == actions[..i] + [actions[i]];
      }
      assert actions[..|actions|] == actions;
      ExecConcat(Init(cfg), old(trace), actions);
      InvRun(cfg, old(trace));
      RelyExec(old(Abs()), actions);
    }

    /** Anything the network and the receivers may do while an API call holds the mutex. */
    method Interference()
      requires Valid()
      modifies this`threads, this`channelMap, this`logs, this`trace
      ensures Valid() && old(trace) <= trace && EnvOnly(trace[|old(trace)|..])
      ensures Abs() == Exec(old(Abs()), trace[|old(trace)|..]) && Rely(old(Abs()), Abs())
    {
      hide Exec, Rely, Valid;
      assert EnvOnly([]);
      var actions: seq<Action> :| EnvOnly(actions);
      Follow(actions);
    }

    // -------------------------------------------------------------- open, close, connect

    /** The mutex is held; receivers and network went on while it was being taken.  `at` is the state
        the call finds. */
    method Begin() returns (ghost at: State)
      requires AtRest()
      modifies this`threads, this`channelMap, this`logs, this`trace
      ensures AtRest() && old(trace) <= trace
      ensures at == Abs() && Rely(old(Abs()), at) && Performed(old(trace), trace, [])
      ensures channelMap.Keys == old(channelMap).Keys && |channelMap| == |old(channelMap)|
    {
      hide Exec, Inv, Rely, Accounted, SameReturned;
      Interference();
      at := Abs();
      RelyKeys(old(Abs()), at);
      RelyReturned(old(Abs()), at);
      AccountKept(records, calls, old(logs), logs);
    }

    /** Any call but a read sends a record with its function's number and details that do not matter
        here. */
    method Log(key: word)
      requires key != KEY_PASSTHRU_READ_MSGS && Accounted(records, calls, logs)
      modifies this`records, this`calls
      ensures Accounted(records, calls, logs)
      ensures calls == old(calls) + [Other] && |records| == |old(records)| + 1 && old(records) <= records
    {
      hide Accounted;
      var details: seq<(Cbor, Cbor)> :| true;
      var record := Map([(Int(KEY_FUNC_NAME), Int(key))] + details);
      AccountLogged(records, calls, logs, record, Other);
      records, calls := records + [record], calls + [Other];
    }

    /** PassThruOpen.  The flags are what the operating system says: is there a place for the device
        id, is there a socket, is the address valid, does connect succeed. */
    method PassThruOpen(name: Option<string>, hasDeviceID: bool, socketOk: bool, addressOk: bool, connectOk: bool)
      returns (status: Status, deviceID: Port, ghost at: State)
      requires AtRest()
      modifies this
      ensures AtRest() && Rely(old(Abs()), at)
      ensures var inUse := |old(channelMap)| >= 3 || ChosenPort(cfg, name) in old(channelMap);
              status == if !hasDeviceID then ERR_NULL_PARAMETER
                        else if inUse then ERR_DEVICE_IN_USE
                        else if !socketOk then ERR_DEVICE_NOT_CONNECTED
                        else if !addressOk then ERR_INVALID_DEVICE_ID
                        else if !connectOk then ERR_DEVICE_NOT_CONNECTED
                        else STATUS_NOERROR
      ensures Performed(old(trace), trace, if status == STATUS_NOERROR then [Open(deviceID)] else [])
      ensures status != STATUS_NOERROR ==> Abs() == at
      ensures status == STATUS_NOERROR ==>
                deviceID == ChosenPort(cfg, name) && deviceID !in old(channelMap)
                && Abs() == Next(at, Open(deviceID))
                && channelMap == at.channels[deviceID := Context(|old(threads)|, false, 0, [], [])]
    {
      hide Exec, Contains, Accounted, Performed;
      at := Begin();
      deviceID := 0;
      Log(KEY_PASSTHRU_OPEN);
      if !hasDeviceID {
        return ERR_NULL_PARAMETER, deviceID, at;
      }
      var port := ChosenPort(cfg, name);
      if |channelMap| >= VIRTUAL_DEVICE_COUNT {
        return ERR_DEVICE_IN_USE, deviceID, at;
      }
      if port in channelMap {
        return ERR_DEVICE_IN_USE, deviceID, at;
      }
      if !socketOk {
        return ERR_DEVICE_NOT_CONNECTED, deviceID, at;
      }
      if !addressOk {
        return ERR_INVALID_DEVICE_ID, deviceID, at;
      }
      if !connectOk {
        return ERR_DEVICE_NOT_CONNECTED, deviceID, at;
      }
      ExecNext(Init(cfg), trace, Open(port));
      PerformedOne(old(trace), trace, Open(port));
      AccountOpened(records, calls, logs);
      var ctx := DEFAULT_CONTEXT.(period := |threads|);
      channelMap := channelMap[port := MoveAssign(DEFAULT_CONTEXT, ctx)];
      threads := threads + [Thread(port, Testing)];
      logs := logs + [EMPTY_LOG];
      trace := trace + [Open(port)];
      status, deviceID := STATUS_NOERROR, port;
    }

    /** recvThread.join(): wait, while everything else goes on, until thread t has left its loop. */
    method JoinReceiver(t: nat, port: Port)
      requires Valid() && closing == StopRequested(port) && port in channelMap && channelMap[port].period == t
      modifies this`threads, this`channelMap, this`logs, this`trace
      ensures Valid() && old(trace) <= trace
      ensures t < |threads| && threads[t].pc.Exited?
      ensures Rely(old(Abs()), Abs())
    {
      hide Exec, Inv, Rely, Next, ToldToStop;
      Invariant();
      StopIsSet(Abs(), port);
      RelySame(Abs());
      while !threads[t].pc.Exited?
        invariant Valid() && old(trace) <= trace
        invariant closing == old(closing) && scanIndex == old(scanIndex) && listed == old(listed)
        invariant t < |threads| && ToldToStop(Abs(), t) && Rely(old(Abs()), Abs())
        decreases Rank(threads[t].pc)
      {
        ghost var s0, trace0 := Abs(), trace;
        Invariant();
        Interference();
        ghost var s1, trace1 := Abs(), trace;
        StopWithinThreeSteps(s0, trace1[|trace0|..], t);
        RelyTransitive(old(Abs()), s0, s1);
        ToldIsThread(s1, t);
        if !threads[t].pc.Exited? {
          Invariant();
          RunReceiver(t);
          ghost var a :| trace == trace1 + [a] && OwnAction(a, t);
          ExecNext(Init(cfg), trace1, a);
          OwnStep(s1, a, t);
          RelyTransitive(old(Abs()), s1, Abs());
        }
      }
    }

    /** stopRequested = true. */
    method SetStopRequested(port: Port)
      requires Free() && port in channelMap
      modifies this`channelMap, this`closing, this`trace
      ensures Valid() && trace == old(trace) + [RequestStop(port)] && closing == StopRequested(port)
      ensures OthersKept(old(Abs()), Abs(), port)
      ensures port in channelMap && channelMap[port].period == old(channelMap)[port].period
    {
      hide Exec, Inv;
      PeriodOf(port);
      ExecNext(Init(cfg), trace, RequestStop(port));
      OthersStop(Abs(), port);
      channelMap := channelMap[port := channelMap[port].(stopRequested := true)];
      closing := StopRequested(port);
      trace := trace + [RequestStop(port)];
    }

    /** The join has returned. */
    ghost method NoteJoined(port: Port)
      requires Valid() && closing == StopRequested(port) && port in channelMap
      requires channelMap[port].period < |threads| && threads[channelMap[port].period].pc.Exited?
      modifies this`closing, this`trace
      ensures Valid() && trace == old(trace) + [Join] && closing == ThreadJoined(port)
    {
      hide Exec, Inv;
      ExecNext(Init(cfg), trace, Join);
      closing := ThreadJoined(port);
      trace := trace + [Join];
    }

    /** channelMap.erase. */
    method EraseChannel(port: Port)
      requires Valid() && closing == ThreadJoined(port) && port in channelMap
      modifies this`channelMap, this`closing, this`logs, this`trace
      ensures Free() && trace == old(trace) + [Erase] && SameReturned(old(logs), logs)
      ensures channelMap == old(channelMap) - {port}
      ensures forall s :: OthersKept(s, old(Abs()), port) ==> OthersKept(s, Abs(), port)
    {
      hide Exec, Inv, OthersKept;
      PeriodOf(port);
      ExecNext(Init(cfg), trace, Erase);
      forall s | OthersKept(s, Abs(), port)
        ensures OthersKept(s, DoErase(Abs(), port), port)
      {
        OthersErase(s, Abs(), port);
      }
      var ctx := channelMap[port];
      logs := logs[ctx.period := logs[ctx.period].(dropped := ctx.queue)];
      channelMap := channelMap - {port};
      closing := NotClosing;
      trace := trace + [Erase];
    }

    /** PassThruClose: request the stop, join the receiver, erase the channel.  Other channels keep
        what they have. */
    method PassThruClose(deviceID: Port) returns (status: Status)
      requires AtRest()
      modifies this
      ensures AtRest() && old(trace) <= trace
      ensures deviceID !in old(channelMap) ==>
                status == ERR_INVALID_DEVICE_ID && Rely(old(Abs()), Abs()) && Performed(old(trace), trace, [])
      ensures deviceID in old(channelMap) ==>
                status == STATUS_NOERROR && deviceID !in channelMap
                && OthersKept(old(Abs()), Abs(), deviceID)
                && var t := old(channelMap)[deviceID].period;
                   t < |threads| && threads[t].pc.Exited? && !Attached(Abs(), t)
    {
      hide Exec, Inv, Rely, OthersKept, Accounted, Performed, SameReturned;
      if deviceID !in channelMap {
        ghost var _ := Begin();
        Log(KEY_PASSTHRU_CLOSE);
        return ERR_INVALID_DEVICE_ID;
      }
      EraseAfterJoin(deviceID);
      AccountKept(records, calls, old(logs), logs);
      Log(KEY_PASSTHRU_CLOSE);
      status := STATUS_NOERROR;
    }

    /** The body of PassThruClose for an open device. */
    method EraseAfterJoin(deviceID: Port)
      requires Free() && deviceID in channelMap
      modifies this`threads, this`channelMap, this`logs, this`closing, this`trace
      ensures Free() && old(trace) <= trace
      ensures SameReturned(old(logs), logs)
      ensures deviceID !in channelMap && OthersKept(old(Abs()), Abs(), deviceID)
      ensures var t := old(channelMap)[deviceID].period;
              t < |threads| && threads[t].pc.Exited? && !Attached(Abs(), t)
    {
      hide Exec, Inv, Rely, OthersKept;
      var t := channelMap[deviceID].period;
      SetStopRequested(deviceID);
      ghost var s1 := Abs();
      JoinReceiver(t, deviceID);
      RelyContext(s1, Abs(), deviceID);
      RelyReturned(s1, Abs());
      OthersRely(old(Abs()), s1, Abs(), deviceID);
      OthersJoin(old(Abs()), Abs(), deviceID);
      NoteJoined(deviceID);
      ghost var s3 := Abs();
      Interference();
      RelyContext(s3, Abs(), deviceID);
      RelyReturned(s3, Abs());
      OthersRely(old(Abs()), s3, Abs(), deviceID);
      Invariant();
      JoinedHasExited(Abs(), deviceID);
      EraseChannel(deviceID);
    }

    method PassThruConnect(deviceID: Port) returns (status: Status, channelID: Port)
      requires AtRest()
      modifies this
      ensures AtRest() && Rely(old(Abs()), Abs()) && Performed(old(trace), trace, [])
      ensures if deviceID in channelMap then status == STATUS_NOERROR && channelID == deviceID
              else status == ERR_INVALID_DEVICE_ID
    {
      hide Accounted, Performed, Rely;
      ghost var _ := Begin();
      Log(KEY_PASSTHRU_CONNECT);
      if deviceID !in channelMap {
        return ERR_INVALID_DEVICE_ID, 0;
      }
      return STATUS_NOERROR, deviceID;
    }

    // -------------------------------------------------------------- reading

    method PopParsedMsg(port: Port) returns (msg: Option<PassThruMsg>)
      requires Free() && port in channelMap
      modifies this`channelMap, this`logs, this`trace
      ensures Free()
      ensures if old(channelMap)[port].queue != [] then
                msg == Some(old(channelMap)[port].queue[0]) && trace == old(trace) + [Pop(port)]
                && Abs() == Next(old(Abs()), Pop(port))
              else msg == None && trace == old(trace) && Abs() == old(Abs())
    {
      hide Exec, Inv;
      PeriodOf(port);
      var ctx := channelMap[port];
      if ctx.queue != [] {
        ExecNext(Init(cfg), trace, Pop(port));
        msg := Some(ctx.queue[0]);
        logs := logs[ctx.period := logs[ctx.period].(returned := logs[ctx.period].returned + [ctx.queue[0]])];
        channelMap := channelMap[port := ctx.(queue := ctx.queue[1..])];
        trace := trace + [Pop(port)];
      } else {
        msg := None;
      }
    }

    /** What this call took is fit for its record. */
    lemma TakenIsSized(before: State, channelID: Port, out: seq<PassThruMsg>)
      requires Valid() && Progress(before, Abs(), channelID, out, [])
      ensures Sized(out)
    {
      hide Exec, Clean;
      var t := before.channels[channelID].period;
      ReadsAreClean(cfg, trace, t);
      assert logs[t].returned == before.logs[t].returned + out;
      CleanIsSized(out);
    }

    static method Store(pMsg: array<PassThruMsg>, k: nat, m: PassThruMsg)
      requires k < pMsg.Length
      modifies pMsg
      ensures pMsg[..] == old(pMsg[..])[k := m]
    {
      pMsg[k] := m;
    }

    static lemma StoredNext(stored: seq<PassThruMsg>, out: seq<PassThruMsg>, start: seq<PassThruMsg>, m: PassThruMsg)
      requires |out| < |start| && stored == out + start[|out|..]
      ensures stored[|out| := m] == (out + [m]) + start[|out| + 1..]
    {}

    /** The loop of PassThruReadMsgs.  `out` are the messages taken; they are stored in `pMsg`, which
        may be null.  `clock(k)` is what the k-th look at the clock shows, in milliseconds; the first
        look is at the start.  No message is taken after the time was up.  The loop never waits for
        messages: it takes fewer than asked for only if the queue has run empty or the look before the
        next message finds the time up. */
    method TakeMessages(channelID: Port, pMsg: array?<PassThruMsg>, pNumMsgs: word, timeout: word, clock: nat -> nat)
      returns (readCount: word, ghost out: seq<PassThruMsg>)
      requires Free() && channelID in channelMap && (pMsg != null ==> pMsg.Length >= pNumMsgs)
      modifies this`threads, this`channelMap, this`logs, this`trace, pMsg
      ensures Free() && old(trace) <= trace
      ensures readCount == |out| <= pNumMsgs && Progress(old(Abs()), Abs(), channelID, out, [])
      ensures timeout > 0 ==> InTime(clock, timeout, |out|)
      ensures |out| < pNumMsgs && (timeout == 0 || InTime(clock, timeout, |out| + 1)) ==>
                channelID in channelMap && channelMap[channelID].queue == []
      ensures pMsg != null ==> pMsg[..] == out + old(pMsg[..])[|out|..]
    {
      hide Exec, Inv, Rely, Progress, Next, InTime;
      InTimeNone(clock, timeout);
      out := [];
      readCount := 0;
      var startTime := clock(0);
      PeriodOf(channelID);
      ProgressStart(Abs(), channelID);
      while readCount < pNumMsgs
        invariant Free() && old(trace) <= trace
        invariant timeout > 0 ==> InTime(clock, timeout, readCount)
        invariant readCount == |out| <= pNumMsgs
        invariant Progress(old(Abs()), Abs(), channelID, out, [])
        invariant pMsg != null ==> pMsg[..] == out + old(pMsg[..])[readCount..]
      {
        ghost var s0 := Abs();
        Interference();
        ProgressRely(old(Abs()), s0, Abs(), channelID, out, []);
        ProgressKeys(old(Abs()), Abs(), channelID, out, []);
        if timeout > 0 {
          InTimeNext(clock, timeout, readCount + 1);
          var timeoutLeft := timeout - (clock(readCount + 1) - startTime);
          if timeoutLeft <= 0 {
            break;
          }
        }
        ghost var s1 := Abs();
        PeriodOf(channelID);
        var msg := PopParsedMsg(channelID);
        if msg == None {
          break;
        }
        ProgressPop(old(Abs()), s1, channelID, out, []);
        if pMsg != null {
          StoredNext(pMsg[..], out, old(pMsg[..]), msg.value);
          Store(pMsg, readCount, msg.value);
        }
        out := out + [msg.value];
        readCount := readCount + 1;
      }
    }

    /** PassThruReadMsgs.  The messages taken go into the record that is sent over the pipe.  A null
        buffer is passed over while they are taken, but the record is built from it: the call faults
        exactly when it is null and a message was taken. */
    method PassThruReadMsgs(channelID: word, pMsg: array?<PassThruMsg>, pNumMsgs: word, timeout: word,
                            clock: nat -> nat)
      returns (outcome: ReadOutcome, ghost out: seq<PassThruMsg>)
      requires AtRest() && (pMsg != null ==> pMsg.Length >= pNumMsgs)
      modifies this, pMsg
      ensures Free() && (outcome != NullDereference ==> AtRest()) && old(trace) <= trace
      ensures channelID !in old(channelMap) ==>
                outcome == Returned(ERR_INVALID_CHANNEL_ID, pNumMsgs, RefusedLog(channelID, timeout, pNumMsgs))
                && out == [] && Rely(old(Abs()), Abs()) && Performed(old(trace), trace, [])
      ensures channelID in old(channelMap) ==>
                |out| <= pNumMsgs && Progress(old(Abs()), Abs(), channelID, out, []) && Sized(out)
                && outcome == if pMsg == null && out != [] then NullDereference
                              else Returned(STATUS_NOERROR, |out|, ReadLog(channelID, timeout, pNumMsgs, out))
      ensures timeout > 0 ==> InTime(clock, timeout, |out|)
      ensures channelID in old(channelMap) && |out| < pNumMsgs
              && (timeout == 0 || InTime(clock, timeout, |out| + 1)) ==>
                channelID in channelMap && channelMap[channelID].queue == []
      ensures channelID in old(channelMap) ==>
                var available := Least(pNumMsgs, |old(channelMap)[channelID].queue|);
                timeout == 0 || InTime(clock, timeout, available) ==> |out| >= available
      ensures pMsg != null ==> pMsg[..] == out + old(pMsg[..])[|out|..]
      ensures records == old(records) + if outcome.Returned? then [outcome.record] else []
      ensures outcome.Returned? ==>
                calls == old(calls) + [if channelID in old(channelMap)
                                       then Read(old(channelMap)[channelID].period, channelID, timeout, pNumMsgs, out)
                                       else RefusedRead(channelID, timeout, pNumMsgs)]
    {
      hide Exec, Inv, Rely, Progress, Performed, Accounted, Sized, ReadLog, RefusedLog, RecordHead;
      out := [];
      var root := StartRecord(channelID, timeout, pNumMsgs);
      if channelID !in channelMap {
        ghost var _ := Begin();
        var record := RefuseRecord(root, channelID, timeout, pNumMsgs);
        AccountLogged(records, calls, logs, record, RefusedRead(channelID, timeout, pNumMsgs));
        records, calls := records + [record], calls + [RefusedRead(channelID, timeout, pNumMsgs)];
        return Returned(ERR_INVALID_CHANNEL_ID, pNumMsgs, record), out;
      }
      var readCount;
      readCount, out := TakeMessages(channelID, pMsg, pNumMsgs, timeout, clock);
      TakenIsSized(old(Abs()), channelID, out);
      TookEnough(old(Abs()), Abs(), channelID, out, pNumMsgs, timeout, clock);
      if pMsg == null && readCount > 0 {
        return NullDereference, out;
      }
      var buffer := if pMsg == null then [] else pMsg[..];
      assert buffer[..readCount] == out;
      var record := FinishRecord(root, channelID, timeout, pNumMsgs, readCount, buffer);
      AccountRead(records, calls, old(Abs()), Abs(), record, channelID, timeout, pNumMsgs, out);
      records := records + [record];
      calls := calls + [Read(old(channelMap)[channelID].period, channelID, timeout, pNumMsgs, out)];
      outcome := Returned(STATUS_NOERROR, readCount, record);
    }

    // -------------------------------------------------------------- writing

    /** Build the packet for one message with the channel's next sequence number. */
    method NextPacket(port: Port, m: PassThruMsg) returns (packet: array<byte>)
      requires Free() && port in channelMap && Writable(m)
      modifies this`channelMap, this`logs, this`trace
      ensures Free() && trace == old(trace) + [Attempt(port, m)]
      ensures Abs() == Next(old(Abs()), Attempt(port, m))
      ensures fresh(packet) && packet[..] == EncodePacket(cfg.version, old(channelMap)[port].seqNo, m)
    {
      hide Exec, Inv, EncodePacket;
      PeriodOf(port);
      var ctx := channelMap[port];
      ExecNext(Init(cfg), trace, Attempt(port, m));
      channelMap := channelMap[port := ctx.(seqNo := (ctx.seqNo + 1) % 256)];
      packet := BuildPacket(cfg.version, ctx.seqNo, m);
      ghost var log := logs[ctx.period];
      logs := logs[ctx.period := log.(attempts := log.attempts + [m], packets := log.packets + [packet[..]])];
      trace := trace + [Attempt(port, m)];
    }

    /** PassThruWriteMsgs.  `sendOk(k)` says whether the k-th sendto of this call succeeds; `sent` are
        the messages whose packets were attempted.  The first message that is not a CAN message of
        proper size ends the call quietly; a failed send ends it with an error, its sequence number
        consumed and the caller's count untouched. */
    method PassThruWriteMsgs(channelID: Port, pMsg: seq<PassThruMsg>, pNumMsgs: nat, sendOk: nat -> bool)
      returns (status: Status, numMsgs: nat, ghost sent: seq<PassThruMsg>)
      requires AtRest() && pNumMsgs <= |pMsg|
      modifies this
      ensures AtRest() && old(trace) <= trace
      ensures channelID !in old(channelMap) ==>
                status == ERR_INVALID_CHANNEL_ID && numMsgs == pNumMsgs && sent == []
                && Rely(old(Abs()), Abs()) && Performed(old(trace), trace, [])
      ensures channelID in old(channelMap) ==>
                Progress(old(Abs()), Abs(), channelID, [], sent)
                && var valid := ValidPrefix(pMsg[..pNumMsgs]);
                   var k := FirstFailure(sendOk, valid);
                   if k == valid then status == STATUS_NOERROR && numMsgs == valid && sent == pMsg[..valid]
                   else status == ERR_FAILED && numMsgs == pNumMsgs && sent == pMsg[..k + 1]
    {
      hide Exec, Inv, Rely, Progress, Performed, Accounted, ValidPrefix, FirstFailure;
      if channelID !in channelMap {
        ghost var _ := Begin();
        Log(KEY_PASSTHRU_WRITE_MSGS);
        return ERR_INVALID_CHANNEL_ID, pNumMsgs, [];
      }
      var ok;
      ok, numMsgs, sent := SendMessages(channelID, pMsg, pNumMsgs, sendOk);
      WriteReturned(old(Abs()), Abs(), channelID, sent);
      AccountKept(records, calls, old(logs), logs);
      Log(KEY_PASSTHRU_WRITE_MSGS);
      if ok && numMsgs < pNumMsgs {
        Log(KEY_PASSTHRU_WRITE_MSGS);
      }
      status := if ok then STATUS_NOERROR else ERR_FAILED;
    }

    /** The loop of PassThruWriteMsgs; `ok` says that no send failed. */
    method SendMessages(channelID: Port, pMsg: seq<PassThruMsg>, pNumMsgs: nat, sendOk: nat -> bool)
      returns (ok: bool, numMsgs: nat, ghost sent: seq<PassThruMsg>)
      requires Free() && channelID in channelMap && pNumMsgs <= |pMsg|
      modifies this`threads, this`channelMap, this`logs, this`trace
      ensures Free() && old(trace) <= trace
      ensures Progress(old(Abs()), Abs(), channelID, [], sent)
      ensures var valid := ValidPrefix(pMsg[..pNumMsgs]);
              var k := FirstFailure(sendOk, valid);
              if k == valid then ok && numMsgs == valid && sent == pMsg[..valid]
              else !ok && numMsgs == pNumMsgs && sent == pMsg[..k + 1]
    {
      hide Exec, Inv, Rely, Progress, Next, ValidPrefix, FirstFailure, Writable;
      sent := [];
      var sentMsgs := 0;
      ghost var msgs := pMsg[..pNumMsgs];
      PeriodOf(channelID);
      ProgressStart(Abs(), channelID);
      var i := 0;
      while i < pNumMsgs
        invariant Free() && old(trace) <= trace
        invariant sentMsgs == i <= pNumMsgs && sent == pMsg[..i]
        invariant forall k :: 0 <= k < i ==> Writable(pMsg[k]) && sendOk(k)
        invariant Progress(old(Abs()), Abs(), channelID, [], sent)
      {
        ghost var s0 := Abs();
        Interference();
        ProgressRely(old(Abs()), s0, Abs(), channelID, [], sent);
        ProgressKeys(old(Abs()), Abs(), channelID, [], sent);
        var srcMsg := pMsg[i];
        if !Writable(srcMsg) {
          break;
        }
        ghost var s1 := Abs();
        PeriodOf(channelID);
        var packet := NextPacket(channelID, srcMsg);
        ProgressSend(old(Abs()), s1, channelID, [], sent, srcMsg);
        sent := sent + [srcMsg];
        assert sent == pMsg[..i + 1];
        if sendOk(sentMsgs) {
          sentMsgs := sentMsgs + 1;
        } else {
          FailedAt(sendOk, msgs, i);
          return false, pNumMsgs, sent;
        }
        i := i + 1;
      }
      AllSent(sendOk, msgs, i);
      ok, numMsgs := true, sentMsgs;
    }

    // -------------------------------------------------------------- enumerating devices

    method PassThruScanForDevices(hasCount: bool) returns (status: Status, deviceCount: nat, ghost at: State)
      requires AtRest()
      modifies this
      ensures AtRest() && Rely(old(Abs()), at)
      ensures if hasCount then
                status == STATUS_NOERROR && deviceCount == 3 && scanIndex == 0 && listed == []
                && Abs() == Next(at, Scan) && Performed(old(trace), trace, [Scan])
              else status == ERR_NULL_PARAMETER && Abs() == at && Performed(old(trace), trace, [])
    {
      hide Exec, Accounted, Performed, Rely;
      at := Begin();
      Log(KEY_PASSTHRU_SCAN_FOR_DEVICES);
      if !hasCount {
        return ERR_NULL_PARAMETER, 0, at;
      }
      ExecNext(Init(cfg), trace, Scan);
      PerformedOne(old(trace), trace, Scan);
      scanIndex := 0;
      listed := [];
      trace := trace + [Scan];
      return STATUS_NOERROR, VIRTUAL_DEVICE_COUNT, at;
    }

    /** ++scanIndex, after a device was described. */
    method AdvanceScan()
      requires Free() && scanIndex < VIRTUAL_DEVICE_COUNT
      modifies this`scanIndex, this`listed, this`trace
      ensures Free() && trace == old(trace) + [List] && Abs() == Next(old(Abs()), List)
    {
      hide Exec;
      ExecNext(Init(cfg), trace, List);
      listed := listed + [BASE_PORT + scanIndex];
      scanIndex := scanIndex + 1;
      trace := trace + [List];
    }

    method PassThruGetNextDevice(hasDevice: bool)
      returns (status: Status, device: Option<DeviceInfo>, ghost at: State)
      requires AtRest()
      modifies this
      ensures AtRest() && Rely(old(Abs()), at)
      ensures status == if !hasDevice then ERR_NULL_PARAMETER
                        else if old(scanIndex) >= 3 then ERR_NO_MORE_DEVICES
                        else STATUS_NOERROR
      ensures if status == STATUS_NOERROR then
                var port := 20000 + old(scanIndex);
                device == Some(DeviceInfo(port, port !in channelMap)) && listed == old(listed) + [port]
                && scanIndex == old(scanIndex) + 1 && Abs() == Next(at, List) && Performed(old(trace), trace, [List])
              else device == None && Abs() == at && Performed(old(trace), trace, [])
    {
      hide Exec, Accounted, Performed;
      at := Begin();
      Log(KEY_PASSTHRU_GET_NEXT_DEVICE);
      if !hasDevice {
        return ERR_NULL_PARAMETER, None, at;
      }
      if scanIndex >= VIRTUAL_DEVICE_COUNT {
        return ERR_NO_MORE_DEVICES, None, at;
      }
      var port := BASE_PORT + scanIndex;
      var isOpen := port in channelMap;
      PerformedOne(old(trace), trace, List);
      AdvanceScan();
      return STATUS_NOERROR, Some(DeviceInfo(port, !isOpen)), at;
    }

    /** The flags: are all out-parameters given, do the two allocations succeed. */
    method PassThruGetNextCarDAQ(hasOutputs: bool, nameAllocated: bool, addrAllocated: bool)
      returns (status: Status, port: Option<Port>, ghost at: State)
      requires AtRest()
      modifies this
      ensures AtRest() && Rely(old(Abs()), at)
      ensures status == if !hasOutputs then ERR_NULL_PARAMETER
                        else if old(scanIndex) >= 3 then ERR_NO_MORE_DEVICES
                        else if !nameAllocated || !addrAllocated then ERR_NULL_PARAMETER
                        else STATUS_NOERROR
      ensures if status == STATUS_NOERROR then
                port == Some(20000 + old(scanIndex)) && listed == old(listed) + [20000 + old(scanIndex)]
                && scanIndex == old(scanIndex) + 1 && Abs() == Next(at, List) && Performed(old(trace), trace, [List])
              else port == None && Abs() == at && Performed(old(trace), trace, [])
    {
      hide Exec, Accounted, Performed;
      at := Begin();
      Log(KEY_PASSTHRU_GET_NEXT_CARDAQ);
      if !hasOutputs {
        return ERR_NULL_PARAMETER, None, at;
      }
      if scanIndex >= VIRTUAL_DEVICE_COUNT {
        return ERR_NO_MORE_DEVICES, None, at;
      }
      port := Some(BASE_PORT + scanIndex);
      if !nameAllocated {
        return ERR_NULL_PARAMETER, None, at;
      }
      if !addrAllocated {
        return ERR_NULL_PARAMETER, None, at;
      }
      PerformedOne(old(trace), trace, List);
      AdvanceScan();
      status := STATUS_NOERROR;
    }

    // -------------------------------------------------------------- select

    /** One poll of the listed channels; receivers go on pushing between the looks at the queues: `env`
        says what happens before each step of the call, and step `base` is the next one. */
    method PollChannels(list: seq<Port>, ghost start: State, env: nat -> seq<Action>, base: nat)
      returns (readyCount: nat)
      requires Valid() && Inv(start) && Quiet(env) && Abs() == World(start, env, base)
      modifies this`threads, this`channelMap, this`logs, this`trace
      ensures Valid() && old(trace) <= trace
      ensures Abs() == World(start, env, base + |list|)
      ensures readyCount == Seen(start, env, list, base, |list|)
    {
      hide Exec, Inv, Rely, Quiet;
      readyCount := 0;
      for i := 0 to |list|
        invariant Valid() && old(trace) <= trace
        invariant closing == old(closing) && scanIndex == old(scanIndex) && listed == old(listed)
        invariant Abs() == World(start, env, base + i)
        invariant readyCount == Seen(start, env, list, base, i)
      {
        FollowStep(start, env, base + i);
        var chanId := list[i];
        if chanId in channelMap {
          if channelMap[chanId].queue != [] {
            readyCount := readyCount + 1;
          }
        }
      }
    }

    /** The loop of PassThruSelect: poll until the threshold is met or the time is up.  `clock(k)` is
        what the k-th look at the clock shows, the first look being at the start; every pass but the
        last sleeps for at least ten milliseconds.  Pass k looks at the clock for the k-th time.  The
        call ends with the first pass that finds the time up or the threshold met, and its count is
        what that pass has seen. */
    method PollUntil(list: seq<Port>, threshold: nat, timeout: nat, clock: nat -> nat, env: nat -> seq<Action>)
      returns (readyCount: nat, ghost polls: nat)
      requires Valid() && Quiet(env) && Sleeps(clock)
      modifies this`threads, this`channelMap, this`logs, this`trace
      ensures Valid() && old(trace) <= trace
      ensures 1 <= polls <= (timeout + 9) / 10 + 1
      ensures InTime(clock, timeout, polls - 1) && Missed(old(Abs()), env, list, threshold, polls - 1)
      ensures Ended(old(Abs()), Abs(), env, list, threshold, readyCount, InTime(clock, timeout, polls), polls)
    {
      hide Exec, Inv, Rely, Seen, Quiet, Sleeps, InTime, Missed, World, Ended;
      ghost var start := Abs();
      Invariant();
      WorldStart(start, env);
      InTimeNone(clock, timeout);
      MissedNone(start, env, list, threshold);
      var startTime := clock(0);
      var done := false;
      var step := 0;
      var pass := 0;
      readyCount := 0;
      while !done
        invariant Valid() && old(trace) <= trace
        invariant closing == old(closing) && scanIndex == old(scanIndex) && listed == old(listed)
        invariant !done ==>
                    InTime(clock, timeout, pass) && Missed(start, env, list, threshold, pass)
                    && step + 1 == PassStart(|list|, pass + 1) && Abs() == World(start, env, step)
        invariant done ==>
                    pass >= 1 && InTime(clock, timeout, pass - 1) && Missed(start, env, list, threshold, pass - 1)
                    && Ended(start, Abs(), env, list, threshold, readyCount, InTime(clock, timeout, pass), pass)
        invariant pass <= (timeout + 9) / 10 + 1
        decreases !done, (timeout + 9) / 10 + 1 - pass
      {
        PassBound(clock, timeout, pass + 1);
        readyCount := 0;
        pass := pass + 1;
        FollowStep(start, env, step);
        step := step + 1;
        InTimeNext(clock, timeout, pass);
        var elapsed := clock(pass) - startTime;
        if elapsed >= timeout {
          done := true;
          EndedLate(start, Abs(), env, list, threshold, pass);
        } else {
          readyCount := PollChannels(list, start, env, step);
          if readyCount >= threshold {
            done := true;
            EndedMet(start, Abs(), env, list, threshold, readyCount, pass);
          } else {
            MissedNext(start, env, list, threshold, pass);
            step := step + |list|;
            FollowStep(start, env, step);
            step := step + 1;
          }
        }
      }
      polls := pass;
    }

    /** What happens before step n of a call that began in `start`. */
    method FollowStep(ghost start: State, env: nat -> seq<Action>, n: nat)
      requires Valid() && Quiet(env) && Abs() == World(start, env, n)
      modifies this`threads, this`channelMap, this`logs, this`trace
      ensures Valid() && old(trace) <= trace && Abs() == World(start, env, n + 1)
      ensures closing == old(closing) && scanIndex == old(scanIndex) && listed == old(listed)
    {
      hide Exec, Inv, Rely, Quiet;
      QuietAt(env, n);
      Follow(env(n));
      RelyRest(old(Abs()), Abs());
    }

    /** PassThruSelect.  `ready` is the count of the last pass, `polls` the number of passes.  A time-out
        gives code 9, and so do, in time, nine ready entries and a threshold of zero met by none. */
    method PassThruSelect(channelSet: Option<ChannelSet>, timeout: nat, clock: nat -> nat, env: nat -> seq<Action>)
      returns (retval: nat, ghost ready: nat, ghost polls: nat)
      requires AtRest() && Quiet(env) && Sleeps(clock)
      modifies this
      ensures AtRest() && old(trace) <= trace && Rely(old(Abs()), Abs())
      ensures channelSet == None ==> retval == 4 && Performed(old(trace), trace, [])
      ensures channelSet != None && !Pollable(channelSet) ==> retval == 2 && Performed(old(trace), trace, [])
      ensures Pollable(channelSet) ==>
                1 <= polls <= (timeout + 9) / 10 + 1
                && retval == (if ready > 0 then ready else 9)
                && var list, threshold := channelSet.value.list.value, channelSet.value.threshold;
                   InTime(clock, timeout, polls - 1) && Missed(old(Abs()), env, list, threshold, polls - 1)
                   && if InTime(clock, timeout, polls) then
                        var pollStart := World(old(Abs()), env, PassStart(|list|, polls)).channels;
                        threshold <= ready == PassSeen(old(Abs()), env, list, polls)
                        && Ready(old(channelMap), list) <= Ready(pollStart, list) <= ready <= Ready(channelMap, list)
                        && (retval == 9 <==> ready == 9 || ready == threshold == 0)
                      else
                        ready == 0 && retval == 9
    {
      hide Exec, Inv, Rely, Accounted, Performed, SameReturned, World, Missed, InTime, Ended, PassSeen,
           PassStart, Ready, Quiet, Sleeps;
      ready, polls := 0, 0;
      if channelSet == None {
        ghost var _ := Begin();
        Log(KEY_PASSTHRU_SELECT);
        return ERR_NULL_PARAMETER_CODE, ready, polls;
      }
      if !Pollable(channelSet) {
        ghost var _ := Begin();
        Log(KEY_PASSTHRU_SELECT);
        return ERR_INVALID_CHANNEL_ID_CODE, ready, polls;
      }
      var list, threshold := channelSet.value.list.value, channelSet.value.threshold;
      var readyCount;
      Invariant();
      readyCount, polls := PollUntil(list, threshold, timeout, clock, env);
      EndedMeans(old(Abs()), Abs(), env, list, threshold, readyCount, InTime(clock, timeout, polls), polls);
      RelyReturned(old(Abs()), Abs());
      AccountKept(records, calls, old(logs), logs);
      Log(KEY_PASSTHRU_SELECT);
      ready := readyCount;
      retval := SelectCode(readyCount);
      SelectCodeAmbiguous(readyCount);
    }
  }
}
