/** `ExPipeServer` (expipeserver.cpp): one parser per connected client. */
module PipeServer {
  import opened Bytes
  import opened PipeFraming

  /** A client socket. */
  type Client = nat

  type Payload = seq<byte>

  datatype Event = Data(client: Client, chunk: seq<byte>) | Disconnect(client: Client)

  datatype Served = Served(parsers: map<Client, Parser>, payloads: seq<(Client, Payload)>)

  /** The hash maps hand out an empty buffer and size 0 for an unknown client. */
  function ParserOf(parsers: map<Client, Parser>, c: Client): Parser {
    if c in parsers then parsers[c] else FRESH
  }

  function Tag<T>(c: Client, ps: seq<T>): (r: seq<(Client, T)>)
    ensures |r| == |ps| && forall i :: 0 <= i < |ps| ==> r[i] == (c, ps[i])
  {
    seq(|ps|, i requires 0 <= i < |ps| => (c, ps[i]))
  }

  function Handle(parsers: map<Client, Parser>, e: Event): Served {
    match e
    case Data(c, chunk) =>
      var r := Feed(ParserOf(parsers, c), chunk);
      Served(parsers[c := r.parser], Tag(c, r.payloads))
    case Disconnect(c) => Served(parsers - {c}, [])
  }

  /** The server's life: any interleaving of chunks and disconnects of any clients. */
  function Run(parsers: map<Client, Parser>, events: seq<Event>): Served
    decreases |events|
  {
    if events == [] then Served(parsers, [])
    else
      var first := Handle(parsers, events[0]);
      var rest := Run(first.parsers, events[1..]);
      Served(rest.parsers, first.payloads + rest.payloads)
  }

  /** What belongs to one client, in order. */
  function Part<T>(out: seq<(Client, T)>, c: Client): seq<T> {
    if out == [] then []
    else (if out[0].0 == c then [out[0].1] else []) + Part(out[1..], c)
  }

  /** The events of one client. */
  function Own(events: seq<Event>, c: Client): (r: seq<Event>)
    ensures forall e :: e in r ==> e.client == c
  {
    if events == [] then []
    else (if events[0].client == c then [events[0]] else []) + Own(events[1..], c)
  }

  /** The byte streams of a client's successive connections; `current` is the one under way. */
  function Sessions(current: seq<byte>, events: seq<Event>, c: Client): (r: seq<seq<byte>>)
    ensures |r| > 0
    decreases |events|
  {
    if events == [] then [current]
    else if events[0].client != c then Sessions(current, events[1..], c)
    else match events[0]
      case Data(_, chunk) => Sessions(current + chunk, events[1..], c)
      case Disconnect(_) => [current] + Sessions([], events[1..], c)
  }

  /** The payloads of several streams, each read on its own from the beginning. */
  function ReadEach(streams: seq<seq<byte>>): seq<Payload> {
    if streams == [] then [] else Feed(FRESH, streams[0]).payloads + ReadEach(streams[1..])
  }

  // ---------------------------------------------------------------- isolation

  lemma Associative<T>(a: seq<T>, b: seq<T>, c: seq<T>)
    ensures a + (b + c) == (a + b) + c
  {}

  lemma {:induction false} PartConcat<T>(a: seq<(Client, T)>, b: seq<(Client, T)>, c: Client)
    ensures Part(a + b, c) == Part(a, c) + Part(b, c)
    decreases |a|
  {
    if a == [] {
      assert a + b == b;
    } else {
      assert (a + b)[1..] == a[1..] + b;
      PartConcat(a[1..], b, c);
      Associative(if a[0].0 == c then [a[0].1] else [], Part(a[1..], c), Part(b, c));
    }
  }

  lemma {:induction false} PartTag<T>(d: Client, ps: seq<T>, c: Client)
    ensures Part(Tag(d, ps), c) == if d == c then ps else []
    decreases |ps|
  {
    if ps != [] {
      assert Tag(d, ps)[1..] == Tag(d, ps[1..]);
      PartTag(d, ps[1..], c);
      assert ps == [ps[0]] + ps[1..];
    }
  }

  /** What remains to be said about client c when `current` has arrived on its present connection. */
  ghost predicate ReadsSessions(parsers: map<Client, Parser>, current: seq<byte>, events: seq<Event>, c: Client) {
    var r := Run(parsers, events);
    var s := Sessions(current, events, c);
    Feed(FRESH, current).payloads + Part(r.payloads, c) == ReadEach(s)
    && ParserOf(r.parsers, c) == Feed(FRESH, s[|s| - 1]).parser
  }

  lemma OtherClient(parsers: map<Client, Parser>, current: seq<byte>, events: seq<Event>, c: Client)
    requires events != [] && events[0].client != c
    requires ReadsSessions(Handle(parsers, events[0]).parsers, current, events[1..], c)
    ensures ReadsSessions(parsers, current, events, c)
  {
    hide Feed;
    var first := Handle(parsers, events[0]);
    PartConcat(first.payloads, Run(first.parsers, events[1..]).payloads, c);
    if events[0].Data? {
      PartTag(events[0].client, Feed(ParserOf(parsers, events[0].client), events[0].chunk).payloads, c);
    }
    var p := Part(Run(first.parsers, events[1..]).payloads, c);
    assert [] + p == p;
  }

  lemma OwnChunk(parsers: map<Client, Parser>, current: seq<byte>, events: seq<Event>, c: Client, chunk: seq<byte>)
    requires events != [] && events[0] == Data(c, chunk)
    requires ParserOf(parsers, c) == Feed(FRESH, current).parser
    requires ReadsSessions(Handle(parsers, events[0]).parsers, current + chunk, events[1..], c)
    ensures ReadsSessions(parsers, current, events, c)
  {
    hide Feed;
    var done, step := Feed(FRESH, current).payloads, Feed(ParserOf(parsers, c), chunk);
    var rest := Run(Handle(parsers, events[0]).parsers, events[1..]);
    PartConcat(Tag(c, step.payloads), rest.payloads, c);
    PartTag(c, step.payloads, c);
    FeedTwice(FRESH, current, chunk);
    assert done + (step.payloads + Part(rest.payloads, c)) == (done + step.payloads) + Part(rest.payloads, c);
  }

  lemma OwnDisconnect(parsers: map<Client, Parser>, current: seq<byte>, events: seq<Event>, c: Client)
    requires events != [] && events[0] == Disconnect(c)
    requires ReadsSessions(Handle(parsers, events[0]).parsers, [], events[1..], c)
    ensures ReadsSessions(parsers, current, events, c)
  {
    hide Drain;
    var rest := Run(Handle(parsers, events[0]).parsers, events[1..]);
    var s := Sessions([], events[1..], c);
    FreshIsQuiet();
    assert [] + rest.payloads == rest.payloads;
    assert [] + Part(rest.payloads, c) == Part(rest.payloads, c);
    assert ([current] + s)[1..] == s;
  }

  lemma FreshIsQuiet()
    ensures Feed(FRESH, []) == Output(FRESH, [])
  {
    assert Extend(FRESH, []) == FRESH;
  }

  lemma {:induction false} SessionsFrom(parsers: map<Client, Parser>, current: seq<byte>, events: seq<Event>, c: Client)
    requires ParserOf(parsers, c) == Feed(FRESH, current).parser
    ensures ReadsSessions(parsers, current, events, c)
    decreases |events|
  {
    if events == [] {
      assert ReadEach([current]) == Feed(FRESH, current).payloads + ReadEach([current][1..]);
    } else {
      hide ReadsSessions, Drain;
      var next := Handle(parsers, events[0]).parsers;
      if events[0].client != c {
        SessionsFrom(next, current, events[1..], c);
        OtherClient(parsers, current, events, c);
      } else {
        match events[0] {
          case Data(_, chunk) =>
            FeedTwice(FRESH, current, chunk);
            SessionsFrom(next, current + chunk, events[1..], c);
            OwnChunk(parsers, current, events, c, chunk);
          case Disconnect(_) =>
            FreshIsQuiet();
            SessionsFrom(next, [], events[1..], c);
            OwnDisconnect(parsers, current, events, c);
        }
      }
    }
  }

  /** In every run, what is extracted for a client is what its own connections' byte streams say,
      each read from its beginning; a disconnect loses that connection's partial frame only, and the
      parser is where the present connection has brought it. */
  lemma ClientSessions(events: seq<Event>, c: Client)
    ensures Part(Run(map[], events).payloads, c) == ReadEach(Sessions([], events, c))
    ensures var s := Sessions([], events, c);
            ParserOf(Run(map[], events).parsers, c) == Feed(FRESH, s[|s| - 1]).parser
  {
    FreshIsQuiet();
    SessionsFrom(map[], [], events, c);
    var p := Part(Run(map[], events).payloads, c);
    assert [] + p == p;
  }

  /** How one more event changes a client's connections: its chunk goes to the present one, its
      disconnect begins a new one, and what others do is nothing to it. */
  lemma {:induction false} SessionsNext(current: seq<byte>, events: seq<Event>, e: Event, c: Client)
    ensures var s, s' := Sessions(current, events, c), Sessions(current, events + [e], c);
            if e.client != c then s' == s
            else if e.Data? then s' == s[|s| - 1 := s[|s| - 1] + e.chunk]
            else s' == s + [[]]
    decreases |events|
  {
    if events == [] {
      assert ([] + [e])[1..] == [];
    } else {
      assert (events + [e])[0] == events[0] && (events + [e])[1..] == events[1..] + [e];
      var next := if events[0].client != c then current else if events[0].Data? then current + events[0].chunk else [];
      SessionsNext(next, events[1..], e, c);
    }
  }

  lemma {:induction false} SessionsOwn(current: seq<byte>, events: seq<Event>, c: Client)
    ensures Sessions(current, Own(events, c), c) == Sessions(current, events, c)
    decreases |events|
  {
    if events != [] {
      if events[0].client != c {
        SessionsOwn(current, events[1..], c);
        assert [] + Own(events[1..], c) == Own(events[1..], c);
      } else {
        assert Own(events, c)[1..] == Own(events[1..], c);
        match events[0] {
          case Data(_, chunk) => SessionsOwn(current + chunk, events[1..], c);
          case Disconnect(_) => SessionsOwn([], events[1..], c);
        }
      }
    }
  }

  /** Clients do not mix: the payloads of one client are those of a server it has to itself. */
  lemma ClientIsolation(events: seq<Event>, c: Client)
    ensures Part(Run(map[], events).payloads, c) == Part(Run(map[], Own(events, c)).payloads, c)
  {
    ClientSessions(events, c);
    ClientSessions(Own(events, c), c);
    SessionsOwn([], events, c);
  }

  // ---------------------------------------------------------------- the server object

  lemma {:induction false} RunAppend(parsers: map<Client, Parser>, events: seq<Event>, e: Event)
    ensures var r := Run(parsers, events);
            var last := Handle(r.parsers, e);
            Run(parsers, events + [e]) == Served(last.parsers, r.payloads + last.payloads)
    decreases |events|
  {
    if events == [] {
      assert ([] + [e])[1..] == [];
      assert Run(Handle(parsers, e).parsers, []).payloads == [];
    } else {
      assert (events + [e])[1..] == events[1..] + [e];
      var first := Handle(parsers, events[0]);
      var r := Run(first.parsers, events[1..]);
      RunAppend(first.parsers, events[1..], e);
      Associative(first.payloads, r.payloads, Handle(r.parsers, e).payloads);
    }
  }

  /** Payloads that decode to a CBOR map go on; the others are reported and dropped. */
  function Maps(isMap: Payload -> bool, out: seq<(Client, Payload)>): seq<(Client, Payload)> {
    if out == [] then []
    else (if isMap(out[0].1) then [out[0]] else []) + Maps(isMap, out[1..])
  }

  lemma {:induction false} MapsConcat(isMap: Payload -> bool, a: seq<(Client, Payload)>, b: seq<(Client, Payload)>)
    ensures Maps(isMap, a + b) == Maps(isMap, a) + Maps(isMap, b)
    decreases |a|
  {
    if a == [] {
      assert a + b == b;
    } else {
      assert (a + b)[1..] == a[1..] + b;
      MapsConcat(isMap, a[1..], b);
      Associative(if isMap(a[0].1) then [a[0]] else [], Maps(isMap, a[1..]), Maps(isMap, b));
    }
  }

  /** The same for the payloads of one client. */
  function OnlyMaps(isMap: Payload -> bool, ps: seq<Payload>): seq<Payload> {
    if ps == [] then [] else (if isMap(ps[0]) then [ps[0]] else []) + OnlyMaps(isMap, ps[1..])
  }

  lemma {:induction false} OnlyMapsConcat(isMap: Payload -> bool, a: seq<Payload>, b: seq<Payload>)
    ensures OnlyMaps(isMap, a + b) == OnlyMaps(isMap, a) + OnlyMaps(isMap, b)
    decreases |a|
  {
    if a == [] {
      assert a + b == b;
    } else {
      assert (a + b)[1..] == a[1..] + b;
      OnlyMapsConcat(isMap, a[1..], b);
      Associative(if isMap(a[0]) then [a[0]] else [], OnlyMaps(isMap, a[1..]), OnlyMaps(isMap, b));
    }
  }

  lemma {:induction false} OnlyMapsAll(isMap: Payload -> bool, ps: seq<Payload>)
    requires forall i :: 0 <= i < |ps| ==> isMap(ps[i])
    ensures OnlyMaps(isMap, ps) == ps
    decreases |ps|
  {
    if ps != [] {
      OnlyMapsAll(isMap, ps[1..]);
      assert ps == [ps[0]] + ps[1..];
    }
  }

  lemma {:induction false} OnlyMapsAreMaps(isMap: Payload -> bool, ps: seq<Payload>)
    ensures forall p :: p in OnlyMaps(isMap, ps) ==> isMap(p)
    decreases |ps|
  {
    if ps != [] { OnlyMapsAreMaps(isMap, ps[1..]); }
  }

  /** Each payload is kept if it is a map and dropped if not, wherever it stands. */
  lemma OnlyMapsAt(isMap: Payload -> bool, a: seq<Payload>, p: Payload, b: seq<Payload>)
    ensures OnlyMaps(isMap, a + [p] + b)
         == OnlyMaps(isMap, a) + (if isMap(p) then [p] else []) + OnlyMaps(isMap, b)
  {
    OnlyMapsConcat(isMap, a + [p], b);
    OnlyMapsConcat(isMap, a, [p]);
    assert [p][1..] == [];
  }

  /** Dropping what is not a map and picking out one client's payloads can be done in either order. */
  lemma {:induction false} PartMaps(isMap: Payload -> bool, out: seq<(Client, Payload)>, c: Client)
    ensures Part(Maps(isMap, out), c) == OnlyMaps(isMap, Part(out, c))
    decreases |out|
  {
    if out != [] {
      var first, own := if isMap(out[0].1) then [out[0]] else [], if out[0].0 == c then [out[0].1] else [];
      PartMaps(isMap, out[1..], c);
      PartConcat(first, Maps(isMap, out[1..]), c);
      OnlyMapsConcat(isMap, own, Part(out[1..], c));
      FirstPayload(isMap, out[0], c);
    }
  }

  lemma FirstPayload(isMap: Payload -> bool, e: (Client, Payload), c: Client)
    ensures Part(if isMap(e.1) then [e] else [], c) == OnlyMaps(isMap, if e.0 == c then [e.1] else [])
  {
    assert [e][1..] == [] && [e.1][1..] == [];
  }

  function DataEvents(c: Client, chunks: seq<seq<byte>>): (r: seq<Event>)
    ensures |r| == |chunks|
  {
    seq(|chunks|, i requires 0 <= i < |chunks| => Data(c, chunks[i]))
  }

  lemma MapsNone(isMap: Payload -> bool, c: Client)
    ensures Maps(isMap, Tag(c, [])) == []
  {}

  lemma MapsTagConcat(isMap: Payload -> bool, c: Client, a: seq<Payload>, b: seq<Payload>)
    ensures Maps(isMap, Tag(c, a + b)) == Maps(isMap, Tag(c, a)) + Maps(isMap, Tag(c, b))
  {
    assert Tag(c, a + b) == Tag(c, a) + Tag(c, b);
    MapsConcat(isMap, Tag(c, a), Tag(c, b));
  }

  lemma MapsNext(isMap: Payload -> bool, c: Client, ps: seq<Payload>, p: Payload)
    ensures Maps(isMap, Tag(c, ps + [p])) == Maps(isMap, Tag(c, ps)) + if isMap(p) then [(c, p)] else []
  {
    MapsTagConcat(isMap, c, ps, [p]);
    assert Tag(c, [p]) == [(c, p)];
    assert Maps(isMap, [(c, p)][1..]) == [];
  }

  /** Parsing from `start` has yielded `out` and is at `p`. */
  ghost predicate Remaining(start: Parser, out: seq<Payload>, p: Parser) {
    Drain(start) == Output(Drain(p).parser, out + Drain(p).payloads)
  }

  lemma PassStart(p: Parser)
    ensures Remaining(p, [], p)
  {
    assert [] + Drain(p).payloads == Drain(p).payloads;
  }

  lemma PassPrefix(start: Parser, out: seq<Payload>, p: Parser)
    requires Remaining(start, out, p) && PrefixReady(p)
    ensures Remaining(start, out, ReadPrefix(p))
  {}

  lemma PassPayload(start: Parser, out: seq<Payload>, p: Parser)
    requires Remaining(start, out, p) && PayloadReady(p)
    ensures Remaining(start, out + [p.buffer[..p.size]], DropPayload(p))
  {
    var rest := Drain(DropPayload(p)).payloads;
    assert out + ([p.buffer[..p.size]] + rest) == (out + [p.buffer[..p.size]]) + rest;
  }

  lemma PassEnd(start: Parser, out: seq<Payload>, p: Parser)
    requires Remaining(start, out, p) && AtRest(p)
    ensures Drain(start) == Output(p, out)
  {
    assert out + [] == out;
  }

  /** The parser the two hash maps hold for a client. */
  function View(buffers: map<Client, seq<byte>>, sizes: map<Client, int>, c: Client): Parser {
    Parser(if c in buffers then buffers[c] else [], if c in sizes then sizes[c] else 0)
  }

  /** The maps and the delivered messages are those of the run of `history`. */
  ghost predicate Explains(history: seq<Event>, isMap: Payload -> bool, buffers: map<Client, seq<byte>>,
                           sizes: map<Client, int>, delivered: seq<(Client, Payload)>) {
    var r := Run(map[], history);
    delivered == Maps(isMap, r.payloads) && forall c :: View(buffers, sizes, c) == ParserOf(r.parsers, c)
  }

  lemma ExplainsData(history: seq<Event>, isMap: Payload -> bool, buffers: map<Client, seq<byte>>,
                     sizes: map<Client, int>, delivered: seq<(Client, Payload)>, c: Client, chunk: seq<byte>)
    requires Explains(history, isMap, buffers, sizes, delivered)
    ensures var r := Feed(View(buffers, sizes, c), chunk);
            Explains(history + [Data(c, chunk)], isMap, buffers[c := r.parser.buffer], sizes[c := r.parser.size],
                     delivered + Maps(isMap, Tag(c, r.payloads)))
  {
    hide Feed, Tag;
    var r := Feed(View(buffers, sizes, c), chunk);
    var before := Run(map[], history);
    RunAppend(map[], history, Data(c, chunk));
    MapsConcat(isMap, before.payloads, Tag(c, r.payloads));
    assert View(buffers, sizes, c) == ParserOf(before.parsers, c);
    var buffers', sizes' := buffers[c := r.parser.buffer], sizes[c := r.parser.size];
    var parsers' := before.parsers[c := r.parser];
    forall d
      ensures View(buffers', sizes', d) == ParserOf(parsers', d)
    {
      assert View(buffers, sizes, d) == ParserOf(before.parsers, d);
    }
  }

  /** Looking a client up inserts the default entries, which changes nothing that matters. */
  lemma ExplainsDefault(history: seq<Event>, isMap: Payload -> bool, buffers: map<Client, seq<byte>>,
                        sizes: map<Client, int>, delivered: seq<(Client, Payload)>, c: Client)
    requires Explains(history, isMap, buffers, sizes, delivered)
    ensures var p := View(buffers, sizes, c);
            Explains(history, isMap, buffers[c := p.buffer], sizes[c := p.size], delivered)
  {
    var p := View(buffers, sizes, c);
    var buffers', sizes' := buffers[c := p.buffer], sizes[c := p.size];
    forall d
      ensures View(buffers', sizes', d) == ParserOf(Run(map[], history).parsers, d)
    {
      assert View(buffers, sizes, d) == ParserOf(Run(map[], history).parsers, d);
    }
  }

  lemma ExplainsDisconnect(history: seq<Event>, isMap: Payload -> bool, buffers: map<Client, seq<byte>>,
                           sizes: map<Client, int>, delivered: seq<(Client, Payload)>, c: Client)
    requires Explains(history, isMap, buffers, sizes, delivered)
    ensures Explains(history + [Disconnect(c)], isMap, buffers - {c}, sizes - {c}, delivered)
  {
    RunAppend(map[], history, Disconnect(c));
    var out := Run(map[], history).payloads;
    assert out + [] == out;
    forall d
      ensures View(buffers - {c}, sizes - {c}, d) == ParserOf(Run(map[], history).parsers - {c}, d)
    {
      assert View(buffers, sizes, d) == ParserOf(Run(map[], history).parsers, d);
    }
  }

  lemma {:induction false} FeedAllAppend(p: Parser, chunks: seq<seq<byte>>, chunk: seq<byte>)
    ensures var done := FeedAll(p, chunks);
            var last := Feed(done.parser, chunk);
            FeedAll(p, chunks + [chunk]) == Output(last.parser, done.payloads + last.payloads)
    decreases |chunks|
  {
    if chunks == [] {
      assert ([] + [chunk])[1..] == [];
      assert FeedAll(Feed(p, chunk).parser, []).payloads == [];
    } else {
      assert (chunks + [chunk])[1..] == chunks[1..] + [chunk];
      FeedAllAppend(Feed(p, chunks[0]).parser, chunks[1..], chunk);
    }
  }

  lemma NoChunks(isMap: Payload -> bool, p: Parser, c: Client)
    ensures FeedAll(p, []) == Output(p, [])
    ensures Maps(isMap, Tag(c, [])) == []
    ensures DataEvents(c, []) == []
  {}

  lemma NextChunk(isMap: Payload -> bool, p: Parser, c: Client, chunks: seq<seq<byte>>, i: nat)
    requires i < |chunks|
    ensures var done, all := FeedAll(p, chunks[..i]), FeedAll(p, chunks[..i + 1]);
            var r := Feed(done.parser, chunks[i]);
            all.parser == r.parser
            && Maps(isMap, Tag(c, all.payloads)) == Maps(isMap, Tag(c, done.payloads)) + Maps(isMap, Tag(c, r.payloads))
    ensures DataEvents(c, chunks[..i + 1]) == DataEvents(c, chunks[..i]) + [Data(c, chunks[i])]
  {
    hide Feed, Maps, Tag, FeedAll;
    var done := FeedAll(p, chunks[..i]);
    FeedAllAppend(p, chunks[..i], chunks[i]);
    assert chunks[..i + 1] == chunks[..i] + [chunks[i]];
    MapsTagConcat(isMap, c, done.payloads, Feed(done.parser, chunks[i]).payloads);
  }

  lemma ViewUpdated(buffers: map<Client, seq<byte>>, sizes: map<Client, int>, c: Client, p: Parser)
    ensures View(buffers[c := p.buffer], sizes[c := p.size], c) == p
  {}

  class ExPipeServer {
    const isMap: Payload -> bool
    var buffers: map<Client, seq<byte>>
    var sizes: map<Client, int>
    /** The messages handed to the preprocessor. */
    var delivered: seq<(Client, Payload)>
    ghost var history: seq<Event>

    ghost function At(c: Client): Parser
      reads this
    {
      View(buffers, sizes, c)
    }

    /** State and output are those of the run of everything that happened so far. */
    ghost predicate Valid()
      reads this
    {
      Explains(history, isMap, buffers, sizes, delivered)
    }

    constructor (isMap: Payload -> bool)
      ensures Valid() && history == [] && this.isMap == isMap
    {
      this.isMap := isMap;
      buffers, sizes, delivered, history := map[], map[], [], [];
    }

    /** What has been delivered for a client are the maps among the payloads of its successive
        connections, each read from its beginning, whatever the other clients did. */
    lemma DeliveredSessions(c: Client)
      requires Valid()
      ensures Part(delivered, c) == OnlyMaps(isMap, ReadEach(Sessions([], history, c)))
      ensures forall p :: p in Part(delivered, c) ==> isMap(p)
    {
      OnlyMapsAreMaps(isMap, ReadEach(Sessions([], history, c)));
      ClientSessions(history, c);
      PartMaps(isMap, Run(map[], history).payloads, c);
    }

    /** The inner loop of `processData`: read a prefix if one is due, then a payload if it is all
        there, until neither can be done. */
    method Parse(buffer: seq<byte>, size: int, c: Client) returns (buffer': seq<byte>, size': int)
      modifies this`delivered
      ensures var r := Drain(Parser(buffer, size));
              Parser(buffer', size') == r.parser && delivered == old(delivered) + Maps(isMap, Tag(c, r.payloads))
    {
      hide Drain, Maps, Tag, PrefixSize, Remaining;
      buffer', size' := buffer, size;
      ghost var out: seq<Payload> := [];
      MapsNone(isMap, c);
      PassStart(Parser(buffer, size));
      while (size' == 0 && |buffer'| >= 4) || (size' > 0 && |buffer'| >= size')
        invariant Remaining(Parser(buffer, size), out, Parser(buffer', size'))
        invariant delivered == old(delivered) + Maps(isMap, Tag(c, out))
        decreases |buffer'|
      {
        if size' == 0 && |buffer'| >= 4 {
          PassPrefix(Parser(buffer, size), out, Parser(buffer', size'));
          size' := PrefixSize(buffer'[..4]);
          buffer' := buffer'[4..];
        }
        if size' > 0 && |buffer'| >= size' {
          PassPayload(Parser(buffer, size), out, Parser(buffer', size'));
          var data := buffer'[..size'];
          buffer' := buffer'[size'..];
          size' := 0;
          MapsNext(isMap, c, out, data);
          out := out + [data];
          if !isMap(data) {
            continue;
          }
          delivered := delivered + [(c, data)];
        }
      }
      PassEnd(Parser(buffer, size), out, Parser(buffer', size'));
    }

    /** The body of the outer loop: append what was read and parse. */
    method ProcessChunk(c: Client, chunk: seq<byte>)
      requires Valid()
      requires c in buffers && c in sizes
      modifies this
      ensures Valid() && history == old(history) + [Data(c, chunk)]
      ensures var r := Feed(old(At(c)), chunk);
              buffers == old(buffers)[c := r.parser.buffer] && sizes == old(sizes)[c := r.parser.size]
              && delivered == old(delivered) + Maps(isMap, Tag(c, r.payloads))
    {
      hide Explains, Drain, Maps, Tag;
      ExplainsData(history, isMap, buffers, sizes, delivered, c, chunk);
      var buffer, size := Parse(buffers[c] + chunk, sizes[c], c);
      buffers, sizes := buffers[c := buffer], sizes[c := size];
      history := history + [Data(c, chunk)];
    }

    /** `processData`: `chunks` are the successive results of readAll while bytes are available. */
    method ProcessData(c: Client, chunks: seq<seq<byte>>)
      requires Valid()
      modifies this
      ensures Valid() && history == old(history) + DataEvents(c, chunks)
      ensures var r := FeedAll(old(At(c)), chunks);
              buffers == old(buffers)[c := r.parser.buffer] && sizes == old(sizes)[c := r.parser.size]
              && delivered == old(delivered) + Maps(isMap, Tag(c, r.payloads))
    {
      hide Explains, Feed, FeedAll, Maps, Tag, DataEvents;
      ghost var start := At(c);
      ExplainsDefault(history, isMap, buffers, sizes, delivered, c);
      buffers := buffers[c := if c in buffers then buffers[c] else []];
      sizes := sizes[c := if c in sizes then sizes[c] else 0];
      NoChunks(isMap, start, c);
      for i := 0 to |chunks|
        invariant Valid() && history == old(history) + DataEvents(c, chunks[..i])
        invariant var r := FeedAll(start, chunks[..i]);
                  buffers == old(buffers)[c := r.parser.buffer] && sizes == old(sizes)[c := r.parser.size]
                  && delivered == old(delivered) + Maps(isMap, Tag(c, r.payloads))
      {
        NextChunk(isMap, start, c, chunks, i);
        ghost var done := FeedAll(start, chunks[..i]);
        ghost var r := Feed(done.parser, chunks[i]);
        ViewUpdated(old(buffers), old(sizes), c, done.parser);
        Associative(old(delivered), Maps(isMap, Tag(c, done.payloads)), Maps(isMap, Tag(c, r.payloads)));
        Associative(old(history), DataEvents(c, chunks[..i]), [Data(c, chunks[i])]);
        ProcessChunk(c, chunks[i]);
      }
      assert chunks[..|chunks|] == chunks;
    }

    /** `handleSocketDisconnected`: forget the client's buffer and size. */
    method HandleSocketDisconnected(c: Client)
      requires Valid()
      modifies this
      ensures Valid() && history == old(history) + [Disconnect(c)]
      ensures buffers == old(buffers) - {c} && sizes == old(sizes) - {c} && delivered == old(delivered)
    {
      hide Explains;
      ExplainsDisconnect(history, isMap, buffers, sizes, delivered, c);
      buffers, sizes := buffers - {c}, sizes - {c};
      history := history + [Disconnect(c)];
    }
  }
}
