/** What an API call that holds the mutex does to the protocol state while receivers interfere. */
module ClientCalls {
  import opened Bytes
  import opened PassThru
  import opened CanCodec
  import opened Channels
  import opened ChannelSafety
  import opened ChannelTheorems

  // ---------------------------------------------------------------- runs

  lemma ExecNext(s: State, trace: seq<Action>, a: Action)
    ensures Exec(s, trace + [a]) == Next(Exec(s, trace), a)
  {
    ExecConcat(s, trace, [a]);
    hide Next;
    var u := Exec(s, trace);
    assert [a][1..] == [];
    assert Exec(Next(u, a), []) == Next(u, a);
  }

  /** A call has added its own steps, and before them only what others did meanwhile. */
  ghost predicate Performed(trace: seq<Action>, trace': seq<Action>, own: seq<Action>) {
    |trace| + |own| <= |trace'| && trace <= trace'
    && EnvOnly(trace'[|trace|..|trace'| - |own|]) && trace'[|trace'| - |own|..] == own
  }

  lemma PerformedOne(trace: seq<Action>, trace': seq<Action>, a: Action)
    requires Performed(trace, trace', [])
    ensures Performed(trace, trace' + [a], [a])
  {
    assert (trace' + [a])[|trace|..|trace'|] == trace'[|trace|..|trace'|];
  }

  // ---------------------------------------------------------------- reading and writing

  /** The packets for a list of messages, numbered from `start`. */
  function Packets(version: byte, start: nat, msgs: seq<PassThruMsg>): (r: seq<Datagram>)
    requires forall i :: 0 <= i < |msgs| ==> Writable(msgs[i])
    ensures |r| == |msgs|
    ensures forall i :: 0 <= i < |msgs| ==> r[i] == EncodePacket(version, (start + i) % 256, msgs[i])
  {
    seq(|msgs|, i requires 0 <= i < |msgs| => EncodePacket(version, (start + i) % 256, msgs[i]))
  }

  ghost predicate AllWritable(msgs: seq<PassThruMsg>) {
    forall i :: 0 <= i < |msgs| ==> Writable(msgs[i])
  }

  /** What has become of the channel the call works on: `out` was taken from the front of its queue,
      packets for `sent` were attempted, and otherwise the queue only grew at the back. */
  ghost predicate ContextProgress(version: byte, c: Context, c': Context, log: Log, log': Log,
                                  out: seq<PassThruMsg>, sent: seq<PassThruMsg>) {
    && AllWritable(sent)
    && c'.period == c.period && c'.stopRequested == c.stopRequested
    && c.queue <= out + c'.queue
    && c'.seqNo == (c.seqNo + |sent|) % 256
    && log'.returned == log.returned + out
    && log'.dropped == log.dropped
    && log'.attempts == log.attempts + sent
    && log'.packets == log.packets + Packets(version, c.seqNo, sent)
  }

  /** The call's effect so far on the whole client: nothing outside the one channel is touched, apart
      from queues growing. */
  ghost predicate Progress(s: State, s': State, port: Port, out: seq<PassThruMsg>, sent: seq<PassThruMsg>) {
    && port in s.channels && s.channels[port].period < |s.logs|
    && s'.cfg == s.cfg && s'.closing == s.closing && s'.scanIndex == s.scanIndex && s'.listed == s.listed
    && |s'.threads| == |s.threads| && |s'.logs| == |s.logs|
    && s'.channels.Keys == s.channels.Keys
    && ContextProgress(s.cfg.version, s.channels[port], s'.channels[port],
                       s.logs[s.channels[port].period], s'.logs[s.channels[port].period], out, sent)
    && (forall p :: p in s.channels && p != port ==> ContextRely(s.channels[p], s'.channels[p]))
    && (forall t :: 0 <= t < |s.logs| && t != s.channels[port].period ==> LogRely(s.logs[t], s'.logs[t]))
  }

  lemma ContextProgressStart(version: byte, c: Context, log: Log)
    ensures ContextProgress(version, c, c, log, log, [], [])
  {
    assert [] + c.queue == c.queue;
    assert log.packets + Packets(version, c.seqNo, []) == log.packets;
  }

  lemma ProgressStart(s: State, port: Port)
    requires port in s.channels && s.channels[port].period < |s.logs|
    ensures Progress(s, s, port, [], [])
  {
    hide ContextProgress;
    ContextProgressStart(s.cfg.version, s.channels[port], s.logs[s.channels[port].period]);
  }

  lemma ContextProgressRely(version: byte, c: Context, c1: Context, c2: Context, log: Log, log1: Log, log2: Log,
                            out: seq<PassThruMsg>, sent: seq<PassThruMsg>)
    requires ContextProgress(version, c, c1, log, log1, out, sent) && ContextRely(c1, c2) && LogRely(log1, log2)
    ensures ContextProgress(version, c, c2, log, log2, out, sent)
  {
    hide Packets;
    assert c2.queue == c1.queue + c2.queue[|c1.queue|..];
    assert out + c2.queue == (out + c1.queue) + c2.queue[|c1.queue|..];
  }

  /** Interference keeps progress. */
  lemma ProgressRely(s: State, s1: State, s2: State, port: Port, out: seq<PassThruMsg>, sent: seq<PassThruMsg>)
    requires Progress(s, s1, port, out, sent) && Rely(s1, s2)
    ensures Progress(s, s2, port, out, sent)
  {
    hide ContextProgress;
    var t := s.channels[port].period;
    assert ContextRely(s1.channels[port], s2.channels[port]) && LogRely(s1.logs[t], s2.logs[t]);
    ContextProgressRely(s.cfg.version, s.channels[port], s1.channels[port], s2.channels[port],
                        s.logs[t], s1.logs[t], s2.logs[t], out, sent);
    forall p | p in s.channels && p != port
      ensures ContextRely(s.channels[p], s2.channels[p])
    {
      assert ContextRely(s.channels[p], s1.channels[p]) && ContextRely(s1.channels[p], s2.channels[p]);
    }
    forall u | 0 <= u < |s.logs| && u != t
      ensures LogRely(s.logs[u], s2.logs[u])
    {
      assert LogRely(s.logs[u], s1.logs[u]) && LogRely(s1.logs[u], s2.logs[u]);
    }
  }

  lemma ContextProgressPop(version: byte, c: Context, c1: Context, log: Log, log1: Log,
                           out: seq<PassThruMsg>, sent: seq<PassThruMsg>)
    requires ContextProgress(version, c, c1, log, log1, out, sent) && c1.queue != []
    ensures ContextProgress(version, c, c1.(queue := c1.queue[1..]), log,
                            log1.(returned := log1.returned + [c1.queue[0]]), out + [c1.queue[0]], sent)
  {
    hide Packets;
    assert (out + [c1.queue[0]]) + c1.queue[1..] == out + c1.queue;
  }

  lemma ProgressPop(s: State, s1: State, port: Port, out: seq<PassThruMsg>, sent: seq<PassThruMsg>)
    requires Progress(s, s1, port, out, sent) && Available(s1, port) && s1.channels[port].queue != []
    ensures Progress(s, Next(s1, Pop(port)), port, out + [s1.channels[port].queue[0]], sent)
  {
    var t := s.channels[port].period;
    ContextProgressPop(s.cfg.version, s.channels[port], s1.channels[port], s.logs[t], s1.logs[t], out, sent);
    PeriodKept(s, s1, port, out, sent);
    hide ContextProgress;
    var s2 := DoPop(s1, port);
    assert s2.channels.Keys == s1.channels.Keys;
  }

  lemma PeriodKept(s: State, s1: State, port: Port, out: seq<PassThruMsg>, sent: seq<PassThruMsg>)
    requires Progress(s, s1, port, out, sent)
    ensures s1.channels[port].period == s.channels[port].period
  {}

  lemma PacketsNext(version: byte, start: nat, sent: seq<PassThruMsg>, m: PassThruMsg)
    requires AllWritable(sent) && Writable(m)
    ensures AllWritable(sent + [m])
    ensures Packets(version, start, sent + [m])
         == Packets(version, start, sent) + [EncodePacket(version, (start + |sent|) % 256, m)]
  {
    hide EncodePacket, Writable;
  }

  lemma ContextProgressSend(version: byte, c: Context, c1: Context, log: Log, log1: Log,
                            out: seq<PassThruMsg>, sent: seq<PassThruMsg>, m: PassThruMsg)
    requires ContextProgress(version, c, c1, log, log1, out, sent) && Writable(m)
    ensures ContextProgress(version, c, c1.(seqNo := (c1.seqNo + 1) % 256), log,
                            log1.(attempts := log1.attempts + [m],
                                  packets := log1.packets + [EncodePacket(version, c1.seqNo, m)]),
                            out, sent + [m])
  {
    PacketsNext(version, c.seqNo, sent, m);
    hide Packets, EncodePacket, Writable, AllWritable;
  }

  lemma ProgressSend(s: State, s1: State, port: Port, out: seq<PassThruMsg>, sent: seq<PassThruMsg>, m: PassThruMsg)
    requires Progress(s, s1, port, out, sent) && Available(s1, port) && Writable(m)
    ensures Progress(s, Next(s1, Attempt(port, m)), port, out, sent + [m])
  {
    var t := s.channels[port].period;
    ContextProgressSend(s.cfg.version, s.channels[port], s1.channels[port], s.logs[t], s1.logs[t], out, sent, m);
    PeriodKept(s, s1, port, out, sent);
    hide ContextProgress, EncodePacket, Writable;
    var s2 := DoAttempt(s1, port, m);
    assert s2.channels.Keys == s1.channels.Keys;
  }

  lemma ProgressKeys(s: State, s1: State, port: Port, out: seq<PassThruMsg>, sent: seq<PassThruMsg>)
    requires Progress(s, s1, port, out, sent)
    ensures port in s1.channels && s1.closing == s.closing
  {}

  /** A call that finds the queue empty has taken at least what was queued when it began. */
  lemma ProgressDry(s: State, s1: State, port: Port, out: seq<PassThruMsg>, sent: seq<PassThruMsg>)
    requires Progress(s, s1, port, out, sent) && s1.channels[port].queue == []
    ensures |s.channels[port].queue| <= |out|
  {}

  /** A read that had time for what was queued when it began takes at least that, or all it was asked
      for. */
  lemma TookEnough(s: State, s1: State, port: Port, out: seq<PassThruMsg>, asked: nat, timeout: nat, clock: nat -> nat)
    requires Progress(s, s1, port, out, [])
    requires |out| < asked && (timeout == 0 || InTime(clock, timeout, |out| + 1)) ==> s1.channels[port].queue == []
    ensures var available := Least(asked, |s.channels[port].queue|);
            timeout == 0 || InTime(clock, timeout, available) ==> |out| >= available
  {
    var available := Least(asked, |s.channels[port].queue|);
    if |out| < available && (timeout == 0 || InTime(clock, timeout, available)) {
      ProgressDry(s, s1, port, out, []);
    }
  }

  /** The length of the longest prefix of messages that can be written. */
  function ValidPrefix(msgs: seq<PassThruMsg>): (r: nat)
    ensures r <= |msgs|
    ensures forall i :: 0 <= i < r ==> Writable(msgs[i])
    ensures r < |msgs| ==> !Writable(msgs[r])
  {
    if msgs == [] || !Writable(msgs[0]) then 0 else 1 + ValidPrefix(msgs[1..])
  }

  /** The first of n sends that fails; n if none does. */
  function FirstFailure(sendOk: nat -> bool, n: nat): (r: nat)
    ensures r <= n
    ensures forall k :: 0 <= k < r ==> sendOk(k)
    ensures r < n ==> !sendOk(r)
  {
    if n == 0 then 0
    else if FirstFailure(sendOk, n - 1) < n - 1 || !sendOk(n - 1) then FirstFailure(sendOk, n - 1)
    else n
  }

  lemma FailedAt(sendOk: nat -> bool, msgs: seq<PassThruMsg>, i: nat)
    requires i < |msgs| && !sendOk(i)
    requires forall k :: 0 <= k <= i ==> Writable(msgs[k])
    requires forall k :: 0 <= k < i ==> sendOk(k)
    ensures FirstFailure(sendOk, ValidPrefix(msgs)) == i < ValidPrefix(msgs)
  {
    hide FirstFailure, ValidPrefix, Writable;
  }

  lemma AllSent(sendOk: nat -> bool, msgs: seq<PassThruMsg>, i: nat)
    requires i <= |msgs| && (i < |msgs| ==> !Writable(msgs[i]))
    requires forall k :: 0 <= k < i ==> Writable(msgs[k]) && sendOk(k)
    ensures ValidPrefix(msgs) == FirstFailure(sendOk, ValidPrefix(msgs)) == i
  {
    hide FirstFailure, ValidPrefix, Writable;
  }

  // ---------------------------------------------------------------- closing

  lemma StopIsSet(s: State, port: Port)
    requires Inv(s) && s.closing == StopRequested(port) && port in s.channels
    ensures ToldToStop(s, s.channels[port].period) && s.channels[port].period < |s.threads|
  {
    assert ChannelOk(s, port);
  }

  lemma OwnStep(s: State, a: Action, t: nat)
    requires Inv(s) && ToldToStop(s, t) && OwnAction(a, t)
    requires t < |s.threads| && t < |Next(s, a).threads| && Next(s, a).threads[t].pc != s.threads[t].pc
    ensures ToldToStop(Next(s, a), t) && Rely(s, Next(s, a))
    ensures Rank(Next(s, a).threads[t].pc) < Rank(s.threads[t].pc)
  {
    hide Inv, Next, Rely, ToldToStop;
    StopIsPermanent(s, a, t);
    RelyStep(s, a);
  }

  lemma RelyContext(s: State, s': State, port: Port)
    requires Rely(s, s') && port in s.channels
    ensures port in s'.channels && ContextRely(s.channels[port], s'.channels[port])
    ensures s'.closing == s.closing && |s'.threads| == |s.threads|
  {}

  lemma JoinedHasExited(s: State, port: Port)
    requires Inv(s) && s.closing == ThreadJoined(port)
    ensures port in s.channels && s.channels[port].period < |s.threads|
    ensures s.threads[s.channels[port].period].pc.Exited? && s.threads[s.channels[port].period].port == port
  {
    assert ClosingOk(s);
    assert ChannelOk(s, port);
  }

  lemma RelyKeys(s: State, s': State)
    requires Rely(s, s')
    ensures s'.channels.Keys == s.channels.Keys && |s'.channels| == |s.channels|
  {
    assert |s'.channels| == |s'.channels.Keys| == |s.channels.Keys| == |s.channels|;
  }

  lemma OthersStop(s: State, port: Port)
    requires Available(s, port)
    ensures OthersKept(s, Next(s, RequestStop(port)), port)
  {}

  lemma OthersJoin(s: State, s1: State, port: Port)
    requires OthersKept(s, s1, port)
    ensures OthersKept(s, s1.(closing := ThreadJoined(port)), port)
  {}

  lemma OthersErase(s: State, s1: State, port: Port)
    requires OthersKept(s, s1, port) && port in s1.channels && s1.channels[port].period < |s1.logs|
    ensures OthersKept(s, DoErase(s1, port), port)
  {}

  /** The other channels while one is being closed. */
  ghost predicate OthersKept(s: State, s': State, port: Port) {
    s'.cfg == s.cfg && s'.scanIndex == s.scanIndex && s'.listed == s.listed
    && s'.channels.Keys - {port} == s.channels.Keys - {port}
    && (forall p :: p in s.channels && p != port ==> p in s'.channels && ContextRely(s.channels[p], s'.channels[p]))
  }

  lemma OthersRely(s: State, s1: State, s2: State, port: Port)
    requires OthersKept(s, s1, port) && Rely(s1, s2)
    ensures OthersKept(s, s2, port)
  {
    forall p | p in s.channels && p != port
      ensures p in s2.channels && ContextRely(s.channels[p], s2.channels[p])
    {
      assert ContextRely(s.channels[p], s1.channels[p]) && ContextRely(s1.channels[p], s2.channels[p]);
    }
  }

  // ---------------------------------------------------------------- polling

  /** How many entries of a channel list are open with a non-empty queue; repeats count again. */
  function Ready(channels: map<Port, Context>, list: seq<Port>): (r: nat)
    ensures r <= |list|
  {
    if list == [] then 0
    else Ready(channels, list[..|list| - 1]) +
         if list[|list| - 1] in channels && channels[list[|list| - 1]].queue != [] then 1 else 0
  }

  /** While queues only grow, readiness only grows. */
  lemma {:induction false} ReadyMonotonic(s: State, s': State, list: seq<Port>)
    requires Rely(s, s')
    ensures Ready(s.channels, list) <= Ready(s'.channels, list)
    decreases |list|
  {
    if list != [] {
      var p := list[|list| - 1];
      if p in s.channels { assert ContextRely(s.channels[p], s'.channels[p]); }
      ReadyMonotonic(s, s', list[..|list| - 1]);
    }
  }

  /** The entries up to and including the i-th. */
  lemma ReadyLast(channels: map<Port, Context>, list: seq<Port>, i: nat)
    requires i < |list|
    ensures Ready(channels, list[..i + 1]) == Ready(channels, list[..i]) + Ready(channels, [list[i]])
    ensures Ready(channels, [list[i]]) == if list[i] in channels && channels[list[i]].queue != [] then 1 else 0
  {
    assert list[..i + 1][..i] == list[..i];
    assert [list[i]][..0] == [];
  }

  // ---------------------------------------------------------------- time and surroundings

  /** The looks 1..n at the clock find less than `timeout` gone since look 0. */
  ghost predicate InTime(clock: nat -> nat, timeout: nat, n: nat) {
    forall k :: 1 <= k <= n ==> clock(k) < clock(0) + timeout
  }

  lemma InTimeNone(clock: nat -> nat, timeout: nat)
    ensures InTime(clock, timeout, 0)
  {}

  function Least(a: nat, b: nat): nat { if a < b then a else b }

  lemma InTimeNext(clock: nat -> nat, timeout: nat, n: nat)
    requires n > 0 && InTime(clock, timeout, n - 1)
    ensures InTime(clock, timeout, n) <==> clock(n) - clock(0) < timeout
  {}

  /** Between two looks at the clock lies a sleep of ten milliseconds. */
  ghost predicate Sleeps(clock: nat -> nat) {
    forall k: nat :: clock(k + 1) >= clock(k) + (if k == 0 then 0 else 10)
  }

  lemma SleepAt(clock: nat -> nat, k: nat)
    requires Sleeps(clock)
    ensures clock(k + 1) >= clock(k) + (if k == 0 then 0 else 10)
  {}

  lemma {:induction false} SleptFor(clock: nat -> nat, n: nat)
    requires Sleeps(clock) && n >= 1
    ensures clock(n) >= clock(0) + 10 * (n - 1)
    decreases n
  {
    SleepAt(clock, n - 1);
    if n > 1 { SleptFor(clock, n - 1); }
  }

  /** If all looks but the last are in time, there are not many. */
  lemma PassBound(clock: nat -> nat, timeout: nat, n: nat)
    requires Sleeps(clock) && n >= 1 && InTime(clock, timeout, n - 1)
    ensures n <= (timeout + 9) / 10 + 1
  {
    if n > 1 { SleptFor(clock, n - 1); }
  }

  /** `env(n)` is what network and receivers do before step n of a call. */
  ghost predicate Quiet(env: nat -> seq<Action>) {
    forall n: nat :: EnvOnly(env(n))
  }

  lemma QuietAt(env: nat -> seq<Action>, n: nat)
    requires Quiet(env)
    ensures EnvOnly(env(n))
  {}

  /** The world before step n of a call that itself changes nothing. */
  ghost function World(s: State, env: nat -> seq<Action>, n: nat): State {
    if n == 0 then s else Exec(World(s, env, n - 1), env(n - 1))
  }

  lemma WorldStart(s: State, env: nat -> seq<Action>)
    ensures World(s, env, 0) == s
  {}

  lemma {:induction false} WorldRely(s: State, env: nat -> seq<Action>, m: nat, n: nat)
    requires Inv(s) && Quiet(env) && m <= n
    ensures Inv(World(s, env, m)) && Rely(World(s, env, m), World(s, env, n)) && Inv(World(s, env, n))
    decreases n
  {
    hide Inv, Exec, Rely, Quiet, EnvOnly;
    if n == 0 {
      RelySame(s);
    } else if m == n {
      WorldRely(s, env, m - 1, n - 1);
      QuietAt(env, n - 1);
      RelyExec(World(s, env, n - 1), env(n - 1));
      RelySame(World(s, env, n));
    } else {
      WorldRely(s, env, m, n - 1);
      QuietAt(env, n - 1);
      RelyExec(World(s, env, n - 1), env(n - 1));
      RelyTransitive(World(s, env, m), World(s, env, n - 1), World(s, env, n));
    }
  }

  lemma RelyRest(s: State, s': State)
    requires Rely(s, s')
    ensures s'.closing == s.closing && s'.scanIndex == s.scanIndex && s'.listed == s.listed
  {}

  /** How many of the first n entries a poll that starts at step `base` finds ready, looking at one
      entry after each step. */
  ghost function Seen(s: State, env: nat -> seq<Action>, list: seq<Port>, base: nat, n: nat): nat
    requires n <= |list|
  {
    if n == 0 then 0
    else
      var channels := World(s, env, base + n).channels;
      Seen(s, env, list, base, n - 1)
      + if list[n - 1] in channels && channels[list[n - 1]].queue != [] then 1 else 0
  }

  /** The step at which the poll of pass k begins: a pass takes one step before it looks at the clock,
      one for each entry and one for the sleep. */
  function PassStart(length: nat, k: nat): nat {
    if k <= 1 then 1 else PassStart(length, k - 1) + length + 2
  }

  ghost function PassSeen(s: State, env: nat -> seq<Action>, list: seq<Port>, k: nat): nat {
    Seen(s, env, list, PassStart(|list|, k), |list|)
  }

  /** The passes 1..n have seen less than the threshold. */
  ghost predicate Missed(s: State, env: nat -> seq<Action>, list: seq<Port>, threshold: nat, n: nat) {
    forall k :: 1 <= k <= n ==> PassSeen(s, env, list, k) < threshold
  }

  lemma MissedNone(s: State, env: nat -> seq<Action>, list: seq<Port>, threshold: nat)
    ensures Missed(s, env, list, threshold, 0)
  {}

  lemma MissedNext(s: State, env: nat -> seq<Action>, list: seq<Port>, threshold: nat, n: nat)
    requires n > 0 && Missed(s, env, list, threshold, n - 1) && PassSeen(s, env, list, n) < threshold
    ensures Missed(s, env, list, threshold, n)
  {
    hide PassSeen;
  }

  /** A call that began in `s` has ended in `s'` with pass k: in time with what that pass has seen, which
      meets the threshold, or else with nothing. */
  ghost predicate Ended(s: State, s': State, env: nat -> seq<Action>, list: seq<Port>, threshold: nat,
                        ready: nat, inTime: bool, k: nat) {
    var at := PassStart(|list|, k);
    if inTime then ready == PassSeen(s, env, list, k) >= threshold && s' == World(s, env, at + |list|)
    else ready == 0 && s' == World(s, env, at)
  }

  lemma EndedLate(s: State, s': State, env: nat -> seq<Action>, list: seq<Port>, threshold: nat, k: nat)
    requires s' == World(s, env, PassStart(|list|, k))
    ensures Ended(s, s', env, list, threshold, 0, false, k)
  {}

  lemma EndedMet(s: State, s': State, env: nat -> seq<Action>, list: seq<Port>, threshold: nat, ready: nat, k: nat)
    requires s' == World(s, env, PassStart(|list|, k) + |list|)
    requires ready == PassSeen(s, env, list, k) >= threshold
    ensures Ended(s, s', env, list, threshold, ready, true, k)
  {}

  lemma {:induction false} SeenBetweenFirst(s: State, env: nat -> seq<Action>, list: seq<Port>, base: nat, n: nat)
    requires Inv(s) && Quiet(env) && n <= |list|
    ensures Ready(World(s, env, base).channels, list[..n]) <= Seen(s, env, list, base, n)
         <= Ready(World(s, env, base + n).channels, list[..n])
    decreases n
  {
    hide Inv, Exec, Rely, Quiet, World;
    if n > 0 {
      var s0, s1, s2 := World(s, env, base), World(s, env, base + n - 1), World(s, env, base + n);
      SeenBetweenFirst(s, env, list, base, n - 1);
      WorldRely(s, env, base, base + n);
      WorldRely(s, env, base + n - 1, base + n);
      ReadyMonotonic(s1, s2, list[..n - 1]);
      ReadyMonotonic(s0, s2, [list[n - 1]]);
      ReadyLast(s0.channels, list, n - 1);
      ReadyLast(s2.channels, list, n - 1);
    }
  }

  /** Whatever receivers push during a poll, it sees at least what was ready when it began and at most
      what is ready when it ends. */
  lemma SeenBetween(s: State, env: nat -> seq<Action>, list: seq<Port>, base: nat)
    requires Inv(s) && Quiet(env)
    ensures Ready(World(s, env, base).channels, list) <= Seen(s, env, list, base, |list|)
         <= Ready(World(s, env, base + |list|).channels, list)
  {
    hide Inv, Quiet, World, Seen, Ready;
    SeenBetweenFirst(s, env, list, base, |list|);
    assert list[..|list|] == list;
  }

  /** What such a call means for its caller: nothing but the receivers' work has been done, and a count
      in time lies between what was ready when the last poll began and what is ready now. */
  lemma EndedMeans(s: State, s': State, env: nat -> seq<Action>, list: seq<Port>, threshold: nat,
                   ready: nat, inTime: bool, k: nat)
    requires Inv(s) && Quiet(env) && Ended(s, s', env, list, threshold, ready, inTime, k)
    ensures Rely(s, s')
    ensures if inTime then
              var pollStart := World(s, env, PassStart(|list|, k)).channels;
              threshold <= ready == PassSeen(s, env, list, k)
              && Ready(s.channels, list) <= Ready(pollStart, list) <= ready <= Ready(s'.channels, list)
            else ready == 0
  {
    hide Inv, Rely, Quiet, World, Ready, Seen, PassStart;
    var at := PassStart(|list|, k);
    WorldStart(s, env);
    WorldRely(s, env, 0, at);
    WorldRely(s, env, 0, at + |list|);
    ReadyMonotonic(s, World(s, env, at), list);
    SeenBetween(s, env, list, at);
  }

  // Result codes of PassThruSelect, which returns them in the same integer as a count.
  const ERR_INVALID_CHANNEL_ID_CODE := 2
  const ERR_NULL_PARAMETER_CODE := 4
  const ERR_TIMEOUT_CODE := 9

  /** The count of ready channels, or the time-out code if there is none. */
  function SelectCode(ready: nat): nat {
    if ready > 0 then ready else ERR_TIMEOUT_CODE
  }

  /** The returned integer is the time-out code both when nothing is ready and when nine listed entries
      are: the caller cannot tell the two apart. */
  lemma SelectCodeAmbiguous(ready: nat)
    ensures SelectCode(ready) == ERR_TIMEOUT_CODE <==> ready == 0 || ready == 9
  {}

  /** Nine ready entries do occur: repeats of an id count again. */
  lemma {:induction false} RepeatsCount(channels: map<Port, Context>, port: Port, n: nat)
    requires port in channels && channels[port].queue != []
    ensures Ready(channels, seq(n, _ => port)) == n
    decreases n
  {
    if n > 0 {
      assert seq(n, _ => port)[..n - 1] == seq(n - 1, _ => port);
      RepeatsCount(channels, port, n - 1);
    }
  }
}
