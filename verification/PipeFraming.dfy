/** The length-prefixed framing of the log pipe: `ExPipeClient::send` (expipeclient.cpp) writes it,
    `ExPipeServer::processData` (expipeserver.cpp) takes it apart.  Payloads stay opaque here. */
module PipeFraming {
  import opened Bytes

  /** What the server keeps for one client: unread bytes, and the pending payload size (0 when the
      next thing to read is a prefix). */
  datatype Parser = Parser(buffer: seq<byte>, size: int)

  datatype Output = Output(parser: Parser, payloads: seq<seq<byte>>)

  const FRESH := Parser([], 0)

  /** The pending qint32 size that a four-byte prefix announces. */
  function PrefixSize(b: seq<byte>): int
    requires |b| == 4
  {
    Signed32(FromLe32(b))
  }

  predicate PrefixReady(p: Parser) { p.size == 0 && |p.buffer| >= 4 }

  predicate PayloadReady(p: Parser) { p.size > 0 && |p.buffer| >= p.size }

  /** Nothing can be consumed until more bytes arrive. */
  predicate AtRest(p: Parser) { !PrefixReady(p) && !PayloadReady(p) }

  function ReadPrefix(p: Parser): Parser
    requires PrefixReady(p)
  {
    Parser(p.buffer[4..], PrefixSize(p.buffer[..4]))
  }

  function DropPayload(p: Parser): Parser
    requires PayloadReady(p)
  {
    Parser(p.buffer[p.size..], 0)
  }

  /** Consume prefixes and payloads until nothing more is ready. */
  function Drain(p: Parser): (r: Output)
    ensures AtRest(r.parser)
    decreases |p.buffer|
  {
    if PrefixReady(p) then Drain(ReadPrefix(p))
    else if PayloadReady(p) then
      var rest := Drain(DropPayload(p));
      Output(rest.parser, [p.buffer[..p.size]] + rest.payloads)
    else Output(p, [])
  }

  function Extend(p: Parser, chunk: seq<byte>): Parser {
    Parser(p.buffer + chunk, p.size)
  }

  /** A chunk arrives. */
  function Feed(p: Parser, chunk: seq<byte>): Output {
    Drain(Extend(p, chunk))
  }

  function FeedAll(p: Parser, chunks: seq<seq<byte>>): Output
    decreases |chunks|
  {
    if chunks == [] then Output(p, [])
    else
      var first := Feed(p, chunks[0]);
      var rest := FeedAll(first.parser, chunks[1..]);
      Output(rest.parser, first.payloads + rest.payloads)
  }

  function Concat<T>(chunks: seq<seq<T>>): seq<T> {
    if chunks == [] then [] else chunks[0] + Concat(chunks[1..])
  }

  // ---------------------------------------------------------------- chunk independence

  /** Draining early and feeding the rest later loses nothing. */
  lemma {:induction false} DrainExtend(p: Parser, more: seq<byte>)
    ensures var first := Drain(p);
            var rest := Feed(first.parser, more);
            Drain(Extend(p, more)) == Output(rest.parser, first.payloads + rest.payloads)
    decreases |p.buffer|
  {
    var q := Extend(p, more);
    if PrefixReady(p) {
      assert q.buffer[..4] == p.buffer[..4];
      assert ReadPrefix(q) == Extend(ReadPrefix(p), more);
      DrainExtend(ReadPrefix(p), more);
    } else if PayloadReady(p) {
      assert q.buffer[..p.size] == p.buffer[..p.size];
      assert DropPayload(q) == Extend(DropPayload(p), more);
      DrainExtend(DropPayload(p), more);
    }
  }

  /** Feeding a then b is feeding a + b. */
  lemma FeedTwice(p: Parser, a: seq<byte>, b: seq<byte>)
    ensures var first := Feed(p, a);
            var second := Feed(first.parser, b);
            Feed(p, a + b) == Output(second.parser, first.payloads + second.payloads)
  {
    assert Extend(p, a + b) == Extend(Extend(p, a), b);
    DrainExtend(Extend(p, a), b);
  }

  /** However a stream is cut into chunks, the payloads and the final state are the same. */
  lemma {:induction false} ChunkIndependence(p: Parser, chunks: seq<seq<byte>>)
    requires AtRest(p)
    ensures FeedAll(p, chunks) == Feed(p, Concat(chunks))
    decreases |chunks|
  {
    if chunks == [] {
      assert Extend(p, []) == p;
    } else {
      ChunkIndependence(Feed(p, chunks[0]).parser, chunks[1..]);
      FeedTwice(p, chunks[0], Concat(chunks[1..]));
    }
  }

  // ---------------------------------------------------------------- rest states

  lemma RestStates(p: Parser)
    ensures AtRest(p) <==>
            (p.size == 0 && |p.buffer| < 4) || (p.size > 0 && |p.buffer| < p.size) || p.size < 0
  {}

  /** After a negative prefix no later input yields a payload: everything is buffered for ever. */
  lemma {:induction false} NegativeSizeIsFinal(p: Parser, chunks: seq<seq<byte>>)
    requires p.size < 0
    ensures FeedAll(p, chunks) == Output(Parser(p.buffer + Concat(chunks), p.size), [])
    decreases |chunks|
  {
    if chunks == [] {
      assert p.buffer + [] == p.buffer;
    } else {
      NegativeSizeIsFinal(Extend(p, chunks[0]), chunks[1..]);
      assert p.buffer + chunks[0] + Concat(chunks[1..]) == p.buffer + Concat(chunks);
    }
  }

  // ---------------------------------------------------------------- the sender

  /** The prefix `send` writes: the payload size converted to int. */
  function Prefix(payload: seq<byte>): seq<byte>
    requires |payload| < TWO_32
  {
    Le32(|payload|)
  }

  /** The size goes over the pipe lowest byte first. */
  lemma PrefixBytes(payload: seq<byte>)
    requires |payload| < TWO_32
    ensures var n := |payload|;
            Prefix(payload) == [n % 256, n / 0x100 % 256, n / 0x1_0000 % 256, n / 0x100_0000]
  {
    var n := |payload|;
    assert n / 256 / 256 == n / 0x1_0000 && n / 0x1_0000 / 256 == n / 0x100_0000;
  }

  /** ... and is read as a two's complement integer in that order. */
  lemma PrefixSizeBytes(b0: byte, b1: byte, b2: byte, b3: byte)
    ensures PrefixSize([b0, b1, b2, b3])
         == b0 + 0x100 * b1 + 0x1_0000 * b2 + 0x100_0000 * (if b3 < 128 then b3 else b3 - 256)
  {}

  function Frame(payload: seq<byte>): seq<byte>
    requires |payload| < TWO_32
  {
    Prefix(payload) + payload
  }

  /** Each size fits the four-byte prefix. */
  ghost predicate Prefixable(ps: seq<seq<byte>>) {
    forall i :: 0 <= i < |ps| ==> |ps[i]| < TWO_32
  }

  function Stream(ps: seq<seq<byte>>): seq<byte>
    requires Prefixable(ps)
  {
    if ps == [] then [] else Frame(ps[0]) + Stream(ps[1..])
  }

  /** The payloads the server recovers: empty ones vanish, and the first one of 2^31 bytes or more
      announces a negative size and ends everything. */
  function Recovered(ps: seq<seq<byte>>): seq<seq<byte>> {
    if ps == [] || |ps[0]| >= TWO_31 then []
    else if ps[0] == [] then Recovered(ps[1..])
    else [ps[0]] + Recovered(ps[1..])
  }

  ghost predicate Framable(ps: seq<seq<byte>>) {
    forall i :: 0 <= i < |ps| ==> 0 < |ps[i]| < TWO_31
  }

  /** One frame in front of a stream. */
  lemma DrainFrame(payload: seq<byte>, tail: seq<byte>)
    requires |payload| < TWO_32
    ensures Drain(Parser(Frame(payload) + tail, 0)) ==
            Drain(Parser(payload + tail, Signed32(|payload|)))
  {
    var p := Parser(Frame(payload) + tail, 0);
    Le32RoundTrip(|payload|);
    assert p.buffer[..4] == Prefix(payload);
    assert p.buffer[4..] == payload + tail;
  }

  /** What the server makes of any sequence of sends, sizes of every kind included. */
  lemma {:induction false} DrainStream(ps: seq<seq<byte>>)
    requires Prefixable(ps)
    ensures var r := Drain(Parser(Stream(ps), 0));
            r.payloads == Recovered(ps)
            && (if forall i :: 0 <= i < |ps| ==> |ps[i]| < TWO_31 then r.parser == FRESH else r.parser.size < 0)
    decreases |ps|
  {
    if ps != [] {
      var tail := Stream(ps[1..]);
      var p := Parser(ps[0] + tail, Signed32(|ps[0]|));
      DrainFrame(ps[0], tail);
      if |ps[0]| < TWO_31 {
        DrainStream(ps[1..]);
        if ps[0] == [] {
          assert p == Parser(tail, 0);
        } else {
          assert DropPayload(p) == Parser(tail, 0);
          assert p.buffer[..p.size] == ps[0];
        }
      }
    }
  }

  lemma {:induction false} RecoveredAll(ps: seq<seq<byte>>)
    ensures |Recovered(ps)| <= |ps|
    ensures Recovered(ps) == ps <==> Framable(ps)
    decreases |ps|
  {
    if ps != [] {
      RecoveredAll(ps[1..]);
      assert ps == [ps[0]] + ps[1..];
      if Framable(ps[1..]) && 0 < |ps[0]| < TWO_31 {
        assert Framable(ps);
      }
      if Recovered(ps) == ps {
        assert |Recovered(ps)| == |ps|;
        assert Recovered(ps)[1..] == ps[1..];
      }
    }
  }

  /** Round trip: sends delivered in arbitrary chunks to a fresh connection are recovered exactly
      when every payload is non-empty and shorter than 2^31 bytes; then the connection ends clean. */
  lemma RoundTrip(ps: seq<seq<byte>>, chunks: seq<seq<byte>>)
    requires Prefixable(ps) && Concat(chunks) == Stream(ps)
    ensures FeedAll(FRESH, chunks).payloads == ps <==> Framable(ps)
    ensures Framable(ps) ==> FeedAll(FRESH, chunks).parser == FRESH
  {
    ChunkIndependence(FRESH, chunks);
    assert Extend(FRESH, Stream(ps)) == Parser(Stream(ps), 0);
    DrainStream(ps);
    RecoveredAll(ps);
  }

  /** The framing is injective: a stream has one reading. */
  lemma StreamInjective(ps: seq<seq<byte>>, qs: seq<seq<byte>>)
    requires Framable(ps) && Framable(qs)
    requires Stream(ps) == Stream(qs)
    ensures ps == qs
  {
    DrainStream(ps);
    DrainStream(qs);
    RecoveredAll(ps);
    RecoveredAll(qs);
  }

  /** `ExPipeClient`, as far as `send` is concerned: the bytes that have entered the pipe. */
  class ExPipeClient {
    var written: seq<byte>

    constructor ()
      ensures written == []
    {
      written := [];
    }

    /** WriteFile: `count` bytes get through and the call reports `ok`. */
    method WriteFile(data: seq<byte>, ok: bool, count: nat) returns (complete: bool)
      requires count <= |data|
      modifies this
      ensures written == old(written) + data[..count]
      ensures complete == (ok && count == |data|)
    {
      written := written + data[..count];
      complete := ok && count == |data|;
    }

    /** The prefix, then the body; the body is not attempted when the prefix did not get through. */
    method Send(cbor: seq<byte>, prefixOk: bool, prefixCount: nat, bodyOk: bool, bodyCount: nat)
      requires |cbor| < TWO_32 && prefixCount <= 4 && bodyCount <= |cbor|
      modifies this
      ensures written == old(written) +
                         if prefixOk && prefixCount == 4 then Prefix(cbor) + cbor[..bodyCount]
                         else Prefix(cbor)[..prefixCount]
      ensures prefixOk && prefixCount == 4 && bodyCount == |cbor| ==> written == old(written) + Frame(cbor)
    {
      var complete := WriteFile(Le32(|cbor|), prefixOk, prefixCount);
      if !complete {
        return;
      }
      complete := WriteFile(cbor, bodyOk, bodyCount);
    }
  }
}
