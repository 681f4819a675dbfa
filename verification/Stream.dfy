/** Reassembly of each TCP connection's byte stream into the messages of a length-framed protocol. */
module Stream {
  import opened Types

  type Byte = b: nat | b < 256

  type Bytes = seq<Byte>

  /** The length of the whole message at the front of the bytes, if one is there. */
  type Framing = Bytes -> Option<nat>

  /** A message is never empty, lies within the bytes, and is recognised whatever follows it. */
  ghost predicate LengthFramed(f: Framing) {
    && (forall b :: f(b).Some? ==> 0 < f(b).value <= |b|)
    && (forall b: Bytes, c: Bytes {:trigger f(b + c)} :: f(b).Some? ==> f(b + c) == f(b))
  }

  // ----- parsing a stream at once

  function Messages(f: Framing, b: Bytes): seq<Bytes>
    requires LengthFramed(f)
    decreases |b|
  {
    match f(b)
    case None => []
    case Some(n) => [b[..n]] + Messages(f, b[n..])
  }

  function Rest(f: Framing, b: Bytes): Bytes
    requires LengthFramed(f)
    decreases |b|
  {
    match f(b)
    case None => b
    case Some(n) => Rest(f, b[n..])
  }

  function Joined(ms: seq<Bytes>): Bytes {
    if ms == [] then [] else ms[0] + Joined(ms[1..])
  }

  /** Nothing is lost or invented: the messages and the remainder are the stream. */
  lemma {:induction false} ParsingLosesNothing(f: Framing, b: Bytes)
    requires LengthFramed(f)
    ensures Joined(Messages(f, b)) + Rest(f, b) == b
    ensures f(Rest(f, b)).None?
    decreases |b|
  {
    match f(b)
    case None => {}
    case Some(n) =>
      var ms, rest := Messages(f, b[n..]), Rest(f, b[n..]);
      ParsingLosesNothing(f, b[n..]);
      assert Messages(f, b)[1..] == ms;
      Regroup(b[..n], Joined(ms), rest);
  }

  /** The stream is cut where the framing says, message by message. */
  lemma {:induction false} EveryMessageIsFramed(f: Framing, b: Bytes, i: nat)
    requires LengthFramed(f) && i < |Messages(f, b)|
    ensures var ms := Messages(f, b);
            f(Joined(ms[i..]) + Rest(f, b)) == Some(|ms[i]|)
    decreases |b|
  {
    var ms := Messages(f, b);
    ParsingLosesNothing(f, b);
    if i == 0 {
      assert ms[0..] == ms;
    } else {
      var n := f(b).value;
      EveryMessageIsFramed(f, b[n..], i - 1);
      assert ms[1..] == Messages(f, b[n..]) && ms[i..] == ms[1..][i - 1..];
    }
  }

  /** Parsing may stop anywhere: what is left, with more bytes behind it, parses on as the whole would. */
  lemma {:induction false} ParsingResumes(f: Framing, b: Bytes, c: Bytes)
    requires LengthFramed(f)
    ensures Messages(f, b + c) == Messages(f, b) + Messages(f, Rest(f, b) + c)
    ensures Rest(f, b + c) == Rest(f, Rest(f, b) + c)
    decreases |b|
  {
    match f(b)
    case None => {}
    case Some(n) =>
      var head, tail := b[..n], b[n..];
      ParsingResumes(f, tail, c);
      assert f(b + c) == Some(n);
      assert (b + c)[..n] == head;
      assert (b + c)[n..] == tail + c;
      var ms, more := Messages(f, tail), Messages(f, Rest(f, b) + c);
      assert [head] + (ms + more) == ([head] + ms) + more;
  }

  // ----- the gateway

  datatype Event = Data(client: int, bytes: Bytes) | Disconnected(client: int)

  /** The unconsumed tail of each connection, and the messages its protocol was handed. */
  datatype Gateway = Gateway(partial: map<int, Bytes>, handed: map<int, seq<Bytes>>)

  function Tail(g: Gateway, client: int): Bytes {
    if client in g.partial then g.partial[client] else []
  }

  function Handed(g: Gateway, client: int): seq<Bytes> {
    if client in g.handed then g.handed[client] else []
  }

  ghost function Step(f: Framing, g: Gateway, e: Event): Gateway
    requires LengthFramed(f)
  {
    match e
    case Disconnected(c) => Gateway(g.partial - {c}, g.handed - {c})
    case Data(c, data) =>
      var b := Tail(g, c) + data;
      Gateway(if c !in g.partial && Rest(f, b) == [] then g.partial else g.partial[c := Rest(f, b)],
              g.handed[c := Handed(g, c) + Messages(f, b)])
  }

  ghost function Run(f: Framing, es: seq<Event>): Gateway
    requires LengthFramed(f)
  {
    if es == [] then Gateway(map[], map[]) else Step(f, Run(f, es[..|es| - 1]), es[|es| - 1])
  }

  /** Everything a connection has sent since it was opened. */
  function Sent(es: seq<Event>, client: int): Bytes {
    if es == [] then []
    else
      var before, e := Sent(es[..|es| - 1], client), es[|es| - 1];
      if e.client != client then before else if e.Data? then before + e.bytes else []
  }

  /**
   However a connection's bytes are split into reads, and whatever other connections do between
   them, its protocol is handed the messages of the whole stream and the gateway keeps the rest.
   */
  lemma {:induction false} ChunkingDoesNotMatter(f: Framing, es: seq<Event>, client: int)
    requires LengthFramed(f)
    ensures Handed(Run(f, es), client) == Messages(f, Sent(es, client))
    ensures Tail(Run(f, es), client) == Rest(f, Sent(es, client))
  {
    if es == [] {
      assert f([]).None?;
    } else {
      var init, e := es[..|es| - 1], es[|es| - 1];
      ChunkingDoesNotMatter(f, init, client);
      assert f([]).None?;
      if e.client == client && e.Data? {
        ParsingResumes(f, Sent(init, client), e.bytes);
      }
    }
  }

  /** Two ways of cutting the same stream are indistinguishable to the protocol. */
  lemma SameStreamSameMessages(f: Framing, es: seq<Event>, es': seq<Event>, client: int)
    requires LengthFramed(f) && Sent(es, client) == Sent(es', client)
    ensures Handed(Run(f, es), client) == Handed(Run(f, es'), client)
    ensures Tail(Run(f, es), client) == Tail(Run(f, es'), client)
  {
    ChunkingDoesNotMatter(f, es, client);
    ChunkingDoesNotMatter(f, es', client);
  }

  // ----- a framing: two length bytes and that many bytes of body

  function TwoByteLength(b: Bytes): Option<nat> {
    if |b| < 2 then None
    else
      var low: nat, high: nat := b[0], b[1];
      if |b| < 2 + 256 * high + low then None else Some(2 + 256 * high + low)
  }

  lemma TwoByteLengthIsFramed()
    ensures LengthFramed(TwoByteLength)
  {
    forall b: Bytes, c: Bytes | TwoByteLength(b).Some? ensures TwoByteLength(b + c) == TwoByteLength(b) {
      assert (b + c)[0] == b[0] && (b + c)[1] == b[1];
    }
  }

  lemma ParseStep(f: Framing, data: Bytes, i: nat, n: nat)
    requires LengthFramed(f) && i <= |data| && f(data[i..]) == Some(n)
    ensures i + n <= |data|
    ensures Messages(f, data[i..]) == [data[i..i + n]] + Messages(f, data[i + n..])
    ensures Rest(f, data[i..]) == Rest(f, data[i + n..])
  {
    assert data[i..][..n] == data[i..i + n];
    assert data[i..][n..] == data[i + n..];
  }

  lemma ParseStop(f: Framing, b: Bytes)
    requires LengthFramed(f) && f(b).None?
    ensures Messages(f, b) == [] && Rest(f, b) == b
  {
  }

  method Parse(f: Framing, data: Bytes) returns (got: seq<Bytes>, consumed: nat)
    requires LengthFramed(f)
    ensures consumed <= |data| && data[consumed..] == Rest(f, data)
    ensures got == Messages(f, data)
  {
    hide Messages, Rest;
    got, consumed := [], 0;
    assert data[0..] == data;
    while f(data[consumed..]).Some?
      invariant consumed <= |data|
      invariant got + Messages(f, data[consumed..]) == Messages(f, data)
      invariant Rest(f, data[consumed..]) == Rest(f, data)
      decreases |data| - consumed
    {
      var n := f(data[consumed..]).value;
      ParseStep(f, data, consumed, n);
      got := got + [data[consumed..consumed + n]];
      consumed := consumed + n;
    }
    ParseStop(f, data[consumed..]);
  }

  class TcpOrderGateway {
    const framing: Framing
    var partial: map<int, Bytes>
    var handed: map<int, seq<Bytes>>

    ghost function Now(): Gateway
      reads this
    {
      Gateway(partial, handed)
    }

    constructor (f: Framing)
      requires LengthFramed(f)
      ensures framing == f && Now() == Run(f, [])
    {
      framing, partial, handed := f, map[], map[];
    }

    /** The protocol consumes whole messages from the front and reports how many bytes that was. */
    method OnData(client: int, data: Bytes) returns (consumed: nat)
      requires LengthFramed(framing)
      modifies this`handed
      ensures consumed <= |data| && data[consumed..] == Rest(framing, data)
      ensures handed == old(handed)[client := Handed(old(Now()), client) + Messages(framing, data)]
    {
      var got;
      got, consumed := Parse(framing, data);
      handed := handed[client := (if client in handed then handed[client] else []) + got];
    }

    method OnClientData(client: int, data: Bytes)
      requires LengthFramed(framing)
      modifies this
      ensures Now() == Step(framing, old(Now()), Data(client, data))
    {
      if client !in partial || partial[client] == [] {
        assert Tail(Now(), client) + data == data;
        var consumed := OnData(client, data);
        if consumed < |data| {
          partial := partial[client := data[consumed..]];
        } else {
          assert data[consumed..] == [];
        }
        return;
      }
      partial := partial[client := partial[client] + data];
      var consumed := OnData(client, partial[client]);
      partial := partial[client := partial[client][consumed..]];
    }

    method OnClientDisconnected(client: int)
      requires LengthFramed(framing)
      modifies this
      ensures Now() == Step(framing, old(Now()), Disconnected(client))
    {
      partial := partial - {client};
      handed := handed - {client};
    }
  }
}
