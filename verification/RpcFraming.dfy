/**
 RPC framing: a 16-byte little-endian header followed by its payload, and the server loop
 that cuts requests out of a byte stream however the transport splits it into reads.
 */
module RpcFraming {
  import Bits

  type Byte = x: int | 0 <= x < 256

  const HEADER: nat := 16
  const MAX_PAYLOAD: nat := 0x100_0000
  const REQUEST: nat := 0
  const RESPONSE: nat := 1

  datatype Header = Header(reqId: nat, len: nat, verb: nat, kind: nat, pad: nat)

  /** One request as a handler sees it, with the number its response carries. */
  datatype Request = Request(reqId: nat, verb: nat, payload: seq<Byte>)

  // ---------------------------------------------------------------- the header

  function Pow256(n: nat): nat { if n == 0 then 1 else 256 * Pow256(n - 1) }

  function Little(value: nat, n: nat): (bytes: seq<Byte>)
    ensures |bytes| == n
  {
    if n == 0 then [] else [value % 256] + Little(value / 256, n - 1)
  }

  function Value(bytes: seq<Byte>): nat { if bytes == [] then 0 else bytes[0] + 256 * Value(bytes[1..]) }

  lemma {:induction false} LoadInvertsStore(value: nat, n: nat)
    requires value < Pow256(n)
    ensures Value(Little(value, n)) == value
  {
    if 0 < n { LoadInvertsStore(value / 256, n - 1); }
  }

  lemma {:induction false} StoreInvertsLoad(bytes: seq<Byte>)
    ensures Value(bytes) < Pow256(|bytes|) && Little(Value(bytes), |bytes|) == bytes
  {
    if bytes != [] {
      StoreInvertsLoad(bytes[1..]);
      assert Value(bytes) / 256 == Value(bytes[1..]);
    }
  }

  predicate Fits(h: Header) {
    h.reqId < Pow256(8) && h.len < Pow256(4) && h.verb < Pow256(2) && h.kind < 256 && h.pad < 256
  }

  function Encode(h: Header): (bytes: seq<Byte>)
    requires Fits(h)
    ensures |bytes| == HEADER
  {
    Little(h.reqId, 8) + Little(h.len, 4) + Little(h.verb, 2) + [h.kind] + [h.pad]
  }

  function Decode(b: seq<Byte>): Header
    requires HEADER <= |b|
  {
    Header(Value(b[..8]), Value(b[8..12]), Value(b[12..14]), b[14], b[15])
  }

  /** Decoding inverts encoding, whatever follows the header. */
  lemma DecodeInvertsEncode(h: Header, rest: seq<Byte>)
    requires Fits(h)
    ensures Decode(Encode(h) + rest) == h
  {
    var b := Encode(h) + rest;
    assert b[..8] == Little(h.reqId, 8) && b[8..12] == Little(h.len, 4) && b[12..14] == Little(h.verb, 2);
    LoadInvertsStore(h.reqId, 8);
    LoadInvertsStore(h.len, 4);
    LoadInvertsStore(h.verb, 2);
  }

  lemma DivTwice(v: nat, p: nat)
    requires 0 < p
    ensures v / 256 / p == v / (256 * p)
  {
    var q, r, t := v / 256 / p, v / 256 % p, v % 256;
    assert v / 256 == q * p + r && v == 256 * (q * p + r) + t;
    QuotientIs(v, q, 256 * p, 256 * r + t);
  }

  lemma QuotientIs(v: nat, q: nat, d: nat, r: nat)
    requires 0 < d && v == q * d + r && r < d
    ensures v / d == q
  {
    var w := v / d;
    assert v == w * d + v % d;
    if w < q { Bits.MulMono(w + 1, q, d); }
    if q < w { Bits.MulMono(q + 1, w, d); }
  }

  lemma {:induction false} LittleAt(value: nat, n: nat, k: nat)
    requires k < n
    ensures 0 < Pow256(k) && Little(value, n)[k] == value / Pow256(k) % 256
  {
    if 0 < k {
      LittleAt(value / 256, n - 1, k - 1);
      DivTwice(value, Pow256(k - 1));
    }
  }

  /** The bytes of a header: each field at its place, lowest byte first. */
  lemma WireLayout(h: Header, k: nat)
    requires Fits(h) && k < HEADER
    ensures k < 8 ==> 0 < Pow256(k) && Encode(h)[k] == h.reqId / Pow256(k) % 256
    ensures 8 <= k < 12 ==> 0 < Pow256(k - 8) && Encode(h)[k] == h.len / Pow256(k - 8) % 256
    ensures 12 <= k < 14 ==> 0 < Pow256(k - 12) && Encode(h)[k] == h.verb / Pow256(k - 12) % 256
    ensures Encode(h)[14] == h.kind && Encode(h)[15] == h.pad
  {
    if k < 8 {
      LittleAt(h.reqId, 8, k);
    } else if k < 12 {
      LittleAt(h.len, 4, k - 8);
    } else if k < 14 {
      LittleAt(h.verb, 2, k - 12);
    }
  }

  lemma EncodeInvertsDecode(b: seq<Byte>)
    requires |b| == HEADER
    ensures Fits(Decode(b)) && Encode(Decode(b)) == b
  {
    StoreInvertsLoad(b[..8]);
    StoreInvertsLoad(b[8..12]);
    StoreInvertsLoad(b[12..14]);
    assert b == b[..8] + b[8..12] + b[12..14] + [b[14]] + [b[15]];
  }

  /** The Store loops: byte i of the value goes to position i. */
  method Store(out: array<Byte>, at: nat, value: nat, n: nat)
    requires at + n <= out.Length
    modifies out
    ensures out[at..at + n] == Little(value, n)
    ensures out[..at] == old(out[..at]) && out[at + n..] == old(out[at + n..])
  {
    var left := value;
    for i := 0 to n
      invariant out[at..at + i] + Little(left, n - i) == Little(value, n)
      invariant out[..at] == old(out[..at]) && out[at + n..] == old(out[at + n..])
    {
      ghost var before := out[at..at + i];
      out[at + i] := left % 256;
      assert out[at..at + i + 1] == before + [left % 256];
      assert before + ([left % 256] + Little(left / 256, n - i - 1)) ==
        (before + [left % 256]) + Little(left / 256, n - i - 1);
      left := left / 256;
    }
  }

  // ---------------------------------------------------------------- cutting the stream

  datatype Parsed = Parsed(requests: seq<Request>, rest: seq<Byte>, malformed: bool)

  predicate Acceptable(h: Header) { h.kind == REQUEST && h.pad == 0 && h.len <= MAX_PAYLOAD }

  predicate HasFrame(buf: seq<Byte>) { HEADER <= |buf| && Decode(buf).len <= |buf| - HEADER }

  predicate BadHeader(buf: seq<Byte>) { HEADER <= |buf| && !Acceptable(Decode(buf)) }

  function First(buf: seq<Byte>): Request
    requires HasFrame(buf)
  {
    var h := Decode(buf);
    Request(h.reqId, h.verb, buf[HEADER..HEADER + h.len])
  }

  function AfterFirst(buf: seq<Byte>): (rest: seq<Byte>)
    requires HasFrame(buf)
    ensures |rest| + HEADER + Decode(buf).len == |buf|
  {
    buf[HEADER + Decode(buf).len..]
  }

  /** What a whole byte string contains: complete requests, then less than one frame. */
  function Parse(buf: seq<Byte>): (p: Parsed)
    ensures !p.malformed ==> !HasFrame(p.rest) && !BadHeader(p.rest)
    decreases |buf|
  {
    if BadHeader(buf) then Parsed([], buf, true)
    else if !HasFrame(buf) then Parsed([], buf, false)
    else
      var p := Parse(AfterFirst(buf));
      p.(requests := [First(buf)] + p.requests)
  }

  /** More bytes behind a frame do not change it. */
  lemma FrameStays(a: seq<Byte>, b: seq<Byte>)
    requires HEADER <= |a|
    ensures BadHeader(a + b) == BadHeader(a)
    ensures HasFrame(a) ==> HasFrame(a + b) && First(a + b) == First(a) && AfterFirst(a + b) == AfterFirst(a) + b
  {
    assert (a + b)[..8] == a[..8] && (a + b)[8..12] == a[8..12] && (a + b)[12..14] == a[12..14];
  }

  /** Parsing a longer string resumes where parsing its beginning stopped. */
  lemma {:induction false} ParseResumes(a: seq<Byte>, b: seq<Byte>)
    requires !Parse(a).malformed
    ensures Parse(a + b).requests == Parse(a).requests + Parse(Parse(a).rest + b).requests
    ensures Parse(a + b).rest == Parse(Parse(a).rest + b).rest
    ensures Parse(a + b).malformed == Parse(Parse(a).rest + b).malformed
    decreases |a|
  {
    if HasFrame(a) {
      FrameStays(a, b);
      var p := Parse(AfterFirst(a));
      ParseResumes(AfterFirst(a), b);
      Regroup([First(a)], p.requests, Parse(p.rest + b).requests);
    } else {
      assert Parse(a) == Parsed([], a, false);
    }
  }

  // ---------------------------------------------------------------- streams of requests

  predicate WellFormed(r: Request) { r.reqId < Pow256(8) && r.verb < Pow256(2) && |r.payload| <= MAX_PAYLOAD }

  function HeaderOf(r: Request, len: nat, kind: nat): (h: Header)
    requires WellFormed(r) && len <= MAX_PAYLOAD && kind < 256
    ensures Fits(h)
  {
    assert Pow256(4) == 0x1_0000_0000;
    Header(r.reqId, len, r.verb, kind, 0)
  }

  /** The byte string made of one piece per request. */
  function Flat(rs: seq<Request>, f: Request -> seq<Byte>): seq<Byte> {
    if rs == [] then [] else f(rs[0]) + Flat(rs[1..], f)
  }

  lemma Regroup<T>(a: seq<T>, b: seq<T>, c: seq<T>)
    ensures a + (b + c) == (a + b) + c
  {
  }

  lemma {:induction false} FlatAppend(a: seq<Request>, b: seq<Request>, f: Request -> seq<Byte>)
    ensures Flat(a + b, f) == Flat(a, f) + Flat(b, f)
  {
    if a == [] {
      assert a + b == b;
    } else {
      assert (a + b)[1..] == a[1..] + b;
      FlatAppend(a[1..], b, f);
      Regroup(f(a[0]), Flat(a[1..], f), Flat(b, f));
    }
  }

  /** A request as a client frames it. */
  function Framed(): Request -> seq<Byte> {
    (r: Request) => if WellFormed(r) then Encode(HeaderOf(r, |r.payload|, REQUEST)) + r.payload else []
  }

  /** A frame at the front is found as it was written. */
  lemma FrameFirst(r: Request, rest: seq<Byte>)
    requires WellFormed(r)
    ensures var all := Framed()(r) + rest;
      !BadHeader(all) && HasFrame(all) && First(all) == r && AfterFirst(all) == rest
  {
    var h := HeaderOf(r, |r.payload|, REQUEST);
    assert Framed()(r) + rest == Encode(h) + (r.payload + rest);
    DecodeInvertsEncode(h, r.payload + rest);
  }

  lemma ParseFrame(r: Request, rest: seq<Byte>, rs: seq<Request>)
    requires WellFormed(r) && Parse(rest) == Parsed(rs, [], false)
    ensures Parse(Framed()(r) + rest) == Parsed([r] + rs, [], false)
  {
    FrameFirst(r, rest);
  }

  /** Parsing inverts framing. */
  lemma {:induction false} ParseInvertsStream(rs: seq<Request>)
    requires forall i | 0 <= i < |rs| :: WellFormed(rs[i])
    ensures Parse(Flat(rs, Framed())) == Parsed(rs, [], false)
  {
    if rs == [] {
      assert Parse([]) == Parsed([], [], false);
    } else {
      var first, others := rs[0], rs[1..];
      assert [first] + others == rs;
      ParseInvertsStream(others);
      ParseFrame(first, Flat(others, Framed()), others);
      assert Flat(rs, Framed()) == Framed()(first) + Flat(others, Framed());
    }
  }

  // ---------------------------------------------------------------- the server

  datatype Outcome = Closed | InvalidHeader | ResponseTooLarge

  type Handler = seq<Byte> -> seq<Byte>

  datatype Handlers = Handlers(deferred: map<nat, Handler>, direct: map<nat, Handler>)

  /** Asynchronous handlers come first; an unknown verb gets an empty response. */
  function Answer(hs: Handlers, r: Request): seq<Byte> {
    if r.verb in hs.deferred then hs.deferred[r.verb](r.payload)
    else if r.verb in hs.direct then hs.direct[r.verb](r.payload)
    else []
  }

  predicate Answerable(hs: Handlers, r: Request) { WellFormed(r) && |Answer(hs, r)| <= MAX_PAYLOAD }

  function Reply(hs: Handlers): Request -> seq<Byte> {
    (r: Request) =>
      if Answerable(hs, r) then Encode(HeaderOf(r, |Answer(hs, r)|, RESPONSE)) + Answer(hs, r) else []
  }

  /** A response names the request it answers and carries exactly the handler's answer. */
  lemma ReplyMatches(hs: Handlers, r: Request)
    requires Answerable(hs, r)
    ensures var frame, answer := Reply(hs)(r), Answer(hs, r);
      && |frame| == HEADER + |answer| && frame[HEADER..] == answer
      && Decode(frame) == Header(r.reqId, |answer|, r.verb, RESPONSE, 0)
  {
    DecodeInvertsEncode(HeaderOf(r, |Answer(hs, r)|, RESPONSE), Answer(hs, r));
  }

  /** The bytes of a connection's reads, up to an empty one. */
  function Received(chunks: seq<seq<Byte>>): seq<Byte> {
    if chunks == [] || chunks[0] == [] then [] else chunks[0] + Received(chunks[1..])
  }

  lemma DecodedIsWellFormed(buf: seq<Byte>)
    requires HasFrame(buf) && !BadHeader(buf)
    ensures WellFormed(First(buf))
  {
    StoreInvertsLoad(buf[..8]);
    StoreInvertsLoad(buf[12..14]);
  }

  class RpcServer {
    var handlers: Handlers

    constructor ()
      ensures handlers == Handlers(map[], map[])
    {
      handlers := Handlers(map[], map[]);
    }

    /** From now on the handler answers the verb, unless an asynchronous one does. */
    method OnVerb(verb: nat, handler: Handler)
      modifies this
      ensures forall r: Request | r.verb == verb && verb !in old(handlers).deferred ::
        Answer(handlers, r) == handler(r.payload)
      ensures forall r: Request | r.verb != verb || verb in old(handlers).deferred ::
        Answer(handlers, r) == Answer(old(handlers), r)
    {
      handlers := handlers.(direct := handlers.direct[verb := handler]);
    }

    /** From now on the handler answers the verb, whatever answered it before. */
    method OnVerbAsync(verb: nat, handler: Handler)
      modifies this
      ensures forall r: Request | r.verb == verb :: Answer(handlers, r) == handler(r.payload)
      ensures forall r: Request | r.verb != verb :: Answer(handlers, r) == Answer(old(handlers), r)
    {
      handlers := handlers.(deferred := handlers.deferred[verb := handler]);
    }

    /** Runs the request's handler and frames the response. */
    method Handle(r: Request) returns (ok: bool, frame: seq<Byte>)
      requires WellFormed(r)
      ensures ok <==> Answerable(handlers, r)
      ensures ok ==> frame == Reply(handlers)(r)
    {
      var answer := Answer(handlers, r);
      if MAX_PAYLOAD < |answer| { return false, []; }
      ok, frame := true, Encode(HeaderOf(r, |answer|, RESPONSE)) + answer;
    }

    /** One pass over the buffer: every complete request is handled and its response appended.
        `rest` is the buffer from the read position on. */
    method DrainBuffer(buf: seq<Byte>) returns (rest: seq<Byte>, out: seq<Byte>, called: seq<Request>, outcome: Outcome)
      ensures Ends(handlers, Parse(buf), called, outcome)
      ensures outcome.Closed? ==> rest == Parse(buf).rest && out == Flat(called, Reply(handlers))
    {
      out, called, outcome, rest := [], [], Closed, buf;
      while HEADER <= |rest|
        invariant Served(handlers, buf, called, rest, out)
        decreases |rest|
      {
        if !Acceptable(Decode(rest)) {
          ServedStops(handlers, buf, called, rest, out);
          outcome := InvalidHeader;
          return;
        }
        if |rest| - HEADER < Decode(rest).len { break; }
        var r := First(rest);
        ServedFrame(handlers, buf, called, rest, out);
        called := called + [r];
        var ok, frame := Handle(r);
        if !ok { outcome := ResponseTooLarge; return; }
        out := out + frame;
        rest := AfterFirst(rest);
      }
      ServedStops(handlers, buf, called, rest, out);
    }

    /** The serve loop over the reads of one connection; an empty read, or the last one, means that
        the peer has closed. However the bytes are split, the same requests reach the same handlers
        in order up to the first failure, and less than one frame stays buffered. The responses to
        everything complete in one read go out, in order, before the next read; those of the pass
        that fails do not. */
    method Serve(chunks: seq<seq<Byte>>)
      returns (called: seq<Request>, written: seq<Byte>, buffered: seq<Byte>, outcome: Outcome, read: nat)
      ensures read <= |chunks| && Ends(handlers, Parse(Received(chunks)), called, outcome)
      ensures outcome.Closed? ==>
        written == Flat(called, Reply(handlers)) && buffered == Parse(Received(chunks)).rest
      ensures !outcome.Closed? ==> Halted(handlers, chunks, read, called, written, outcome)
    {
      read, called, written, buffered, outcome := 0, [], [], [], Closed;
      ghost var seen := [];
      ServingBegins(handlers, chunks);
      while true
        invariant Serving(handlers, chunks, read, seen, called, buffered, written)
        decreases |chunks| - read
      {
        var rest, out, more, status := DrainBuffer(buffered);
        if !status.Closed? {
          ServingHalts(handlers, chunks, read, seen, called, buffered, written, more, status);
          called, outcome := called + more, status;
          return;
        }
        ServingDrains(handlers, chunks, read, seen, called, buffered, written, more);
        called, buffered, written := called + more, rest, written + out;
        if read == |chunks| || chunks[read] == [] { break; }
        ServingReads(handlers, chunks, read, seen, called, buffered, written);
        buffered := buffered + chunks[read];
        seen := seen + chunks[read];
        read := read + 1;
      }
      ServingCloses(handlers, chunks, read, seen, called, buffered, written);
    }
  }

  /** A failure shows in the bytes read so far; what was complete before the last read is answered. */
  predicate Halted(hs: Handlers, chunks: seq<seq<Byte>>, read: nat, called: seq<Request>, written: seq<Byte>,
                   outcome: Outcome)
  {
    && 0 < read <= |chunks| && Ends(hs, Parse(Received(chunks[..read])), called, outcome)
    && written == Flat(Parse(Received(chunks[..read - 1])).requests, Reply(hs))
  }

  /** What holds before a pass over the buffer: only the requests complete before the last read
      have been handled. */
  ghost predicate Serving(hs: Handlers, chunks: seq<seq<Byte>>, read: nat, seen: seq<Byte>,
                          called: seq<Request>, buffered: seq<Byte>, written: seq<Byte>)
  {
    && read <= |chunks| && ReadSoFar(chunks, read, seen) && Served(hs, seen, called, buffered, written)
    && if read == 0 then buffered == [] else called == Parse(Received(chunks[..read - 1])).requests
  }

  /** What holds after it: everything complete so far has been handled. */
  ghost predicate Drained(hs: Handlers, chunks: seq<seq<Byte>>, read: nat, seen: seq<Byte>,
                          called: seq<Request>, buffered: seq<Byte>, written: seq<Byte>)
  {
    && read <= |chunks| && ReadSoFar(chunks, read, seen) && Served(hs, seen, called, buffered, written)
    && Parse(seen) == Parsed(called, buffered, false)
  }

  lemma ServingBegins(hs: Handlers, chunks: seq<seq<Byte>>)
    ensures Serving(hs, chunks, 0, [], [], [], [])
  {
    assert chunks[..0] == [] && chunks[0..] == chunks;
  }

  lemma ServingHalts(hs: Handlers, chunks: seq<seq<Byte>>, read: nat, seen: seq<Byte>, called: seq<Request>,
                     buffered: seq<Byte>, written: seq<Byte>, more: seq<Request>, outcome: Outcome)
    requires Serving(hs, chunks, read, seen, called, buffered, written)
    requires Ends(hs, Parse(buffered), more, outcome) && !outcome.Closed?
    ensures Halted(hs, chunks, read, called + more, written, outcome)
    ensures Ends(hs, Parse(Received(chunks)), called + more, outcome)
  {
    ServedEnds(hs, seen, called, buffered, written, [], more, outcome);
    ServedEnds(hs, seen, called, buffered, written, Received(chunks[read..]), more, outcome);
    assert seen + [] == seen;
  }

  lemma ServingDrains(hs: Handlers, chunks: seq<seq<Byte>>, read: nat, seen: seq<Byte>, called: seq<Request>,
                      buffered: seq<Byte>, written: seq<Byte>, more: seq<Request>)
    requires Serving(hs, chunks, read, seen, called, buffered, written) && Ends(hs, Parse(buffered), more, Closed)
    ensures var rest, out := Parse(buffered).rest, Flat(more, Reply(hs));
      Drained(hs, chunks, read, seen, called + more, rest, written + out)
  {
    ServedDrain(hs, seen, called, buffered, written, more);
  }

  lemma ServingReads(hs: Handlers, chunks: seq<seq<Byte>>, read: nat, seen: seq<Byte>, called: seq<Request>,
                     buffered: seq<Byte>, written: seq<Byte>)
    requires Drained(hs, chunks, read, seen, called, buffered, written) && read < |chunks| && chunks[read] != []
    ensures Serving(hs, chunks, read + 1, seen + chunks[read], called, buffered + chunks[read], written)
  {
    ServedChunk(hs, seen, called, buffered, written, chunks[read]);
    NextChunk(chunks, read, seen);
  }

  lemma ServingCloses(hs: Handlers, chunks: seq<seq<Byte>>, read: nat, seen: seq<Byte>, called: seq<Request>,
                      buffered: seq<Byte>, written: seq<Byte>)
    requires Drained(hs, chunks, read, seen, called, buffered, written)
    requires read == |chunks| || chunks[read] == []
    ensures Ends(hs, Parse(Received(chunks)), called, Closed)
    ensures written == Flat(called, Reply(hs)) && buffered == Parse(Received(chunks)).rest
  {
    assert Received(chunks[read..]) == [] && seen + [] == seen;
  }

  /** The bytes of the reads made so far, none of them empty. */
  ghost predicate ReadSoFar(chunks: seq<seq<Byte>>, read: nat, seen: seq<Byte>)
    requires read <= |chunks|
  {
    && (forall i | 0 <= i < read :: chunks[i] != []) && seen == Received(chunks[..read])
    && seen + Received(chunks[read..]) == Received(chunks)
  }

  predicate AllAnswerable(hs: Handlers, rs: seq<Request>) { forall i | 0 <= i < |rs| :: Answerable(hs, rs[i]) }

  /** How serving a parsed stream ends: at the end of the stream, at a malformed header after
      everything before it was handled, or at the first response that is too large. */
  predicate Ends(hs: Handlers, p: Parsed, called: seq<Request>, outcome: Outcome) {
    match outcome
    case Closed => !p.malformed && called == p.requests && AllAnswerable(hs, called)
    case InvalidHeader => p.malformed && called == p.requests && AllAnswerable(hs, called)
    case ResponseTooLarge =>
      && called != [] && called <= p.requests && AllAnswerable(hs, called[..|called| - 1])
      && !Answerable(hs, called[|called| - 1])
  }

  /** Everything complete in the bytes seen was handled and answered, except what is in the buffer. */
  predicate Served(hs: Handlers, seen: seq<Byte>, called: seq<Request>, buffered: seq<Byte>, written: seq<Byte>) {
    && Parse(seen) == Preceded(called, Parse(buffered)) && written == Flat(called, Reply(hs))
    && AllAnswerable(hs, called)
  }

  lemma AnswerableAppend(hs: Handlers, a: seq<Request>, b: seq<Request>)
    requires AllAnswerable(hs, a) && AllAnswerable(hs, b)
    ensures AllAnswerable(hs, a + b)
  {
  }

  lemma EndsLater(hs: Handlers, p: Parsed, called: seq<Request>, more: seq<Request>, outcome: Outcome)
    requires AllAnswerable(hs, called) && Ends(hs, p, more, outcome)
    ensures Ends(hs, Preceded(called, p), called + more, outcome)
  {
    if outcome.ResponseTooLarge? {
      var n := |called + more| - 1;
      assert (called + more)[n] == more[|more| - 1] && (called + more)[..n] == called + more[..|more| - 1];
      AnswerableAppend(hs, called, more[..|more| - 1]);
    } else {
      AnswerableAppend(hs, called, more);
    }
  }

  lemma EndsStays(hs: Handlers, seen: seq<Byte>, later: seq<Byte>, called: seq<Request>, outcome: Outcome)
    requires Ends(hs, Parse(seen), called, outcome) && !outcome.Closed?
    ensures Ends(hs, Parse(seen + later), called, outcome)
  {
    ParseGrows(seen, later);
  }

  /** The next request is answered, or is the one whose response is too large. */
  lemma ServedFrame(hs: Handlers, seen: seq<Byte>, called: seq<Request>, rest: seq<Byte>, written: seq<Byte>)
    requires Served(hs, seen, called, rest, written) && HasFrame(rest) && !BadHeader(rest)
    ensures var r := First(rest);
      && WellFormed(r)
      && (Answerable(hs, r) ==> Served(hs, seen, called + [r], AfterFirst(rest), written + Reply(hs)(r)))
      && (!Answerable(hs, r) ==> Ends(hs, Parse(seen), called + [r], ResponseTooLarge))
  {
    var r := First(rest);
    ParseStep(rest, called);
    FlatSnoc(called, r, Reply(hs));
    assert (called + [r])[..|called|] == called;
  }

  /** Without a complete request, serving has come to the end or to a malformed header. */
  lemma ServedStops(hs: Handlers, seen: seq<Byte>, called: seq<Request>, rest: seq<Byte>, written: seq<Byte>)
    requires Served(hs, seen, called, rest, written) && (BadHeader(rest) || !HasFrame(rest))
    ensures Ends(hs, Parse(seen), called, if BadHeader(rest) then InvalidHeader else Closed)
    ensures Parse(seen) == Parsed(called, rest, BadHeader(rest))
  {
    assert called + [] == called;
  }

  /** What one pass over the buffer means for the stream. */
  lemma ServedEnds(hs: Handlers, seen: seq<Byte>, called: seq<Request>, buffered: seq<Byte>, written: seq<Byte>,
                   later: seq<Byte>, more: seq<Request>, outcome: Outcome)
    requires Served(hs, seen, called, buffered, written)
    requires Ends(hs, Parse(buffered), more, outcome) && !outcome.Closed?
    ensures Ends(hs, Parse(seen + later), called + more, outcome)
  {
    EndsLater(hs, Parse(buffered), called, more, outcome);
    EndsStays(hs, seen, later, called + more, outcome);
  }

  lemma ServedDrain(hs: Handlers, seen: seq<Byte>, called: seq<Request>, buffered: seq<Byte>, written: seq<Byte>,
                    more: seq<Request>)
    requires Served(hs, seen, called, buffered, written) && Ends(hs, Parse(buffered), more, Closed)
    ensures var rest, out := Parse(buffered).rest, Flat(more, Reply(hs));
      Served(hs, seen, called + more, rest, written + out) && Parse(seen) == Parsed(called + more, rest, false)
  {
    var rest := Parse(buffered).rest;
    AnswerableAppend(hs, called, more);
    FlatAppend(called, more, Reply(hs));
    assert Parse(rest) == Parsed([], rest, false) && called + more + [] == called + more;
  }

  lemma ServedChunk(hs: Handlers, seen: seq<Byte>, called: seq<Request>, buffered: seq<Byte>, written: seq<Byte>,
                    chunk: seq<Byte>)
    requires Served(hs, seen, called, buffered, written) && Parse(seen) == Parsed(called, buffered, false)
    ensures Served(hs, seen + chunk, called, buffered + chunk, written)
  {
    ParseResumes(seen, chunk);
  }

  lemma {:induction false} ReceivedSnoc(chunks: seq<seq<Byte>>, chunk: seq<Byte>)
    requires chunk != [] && forall i | 0 <= i < |chunks| :: chunks[i] != []
    ensures Received(chunks + [chunk]) == Received(chunks) + chunk
  {
    if chunks == [] {
      assert Received([chunk]) == chunk + Received([]);
    } else {
      ReceivedSnoc(chunks[1..], chunk);
      assert (chunks + [chunk])[1..] == chunks[1..] + [chunk];
      Regroup(chunks[0], Received(chunks[1..]), chunk);
    }
  }

  lemma NextChunk(chunks: seq<seq<Byte>>, read: nat, seen: seq<Byte>)
    requires read < |chunks| && chunks[read] != [] && ReadSoFar(chunks, read, seen)
    ensures ReadSoFar(chunks, read + 1, seen + chunks[read])
  {
    assert chunks[..read + 1] == chunks[..read] + [chunks[read]];
    ReceivedSnoc(chunks[..read], chunks[read]);
    assert chunks[read..][1..] == chunks[read + 1..];
    Regroup(seen, chunks[read], Received(chunks[read + 1..]));
  }

  /** What was found stays found when more bytes arrive, and a malformed header stays the end. */
  lemma {:induction false} ParseGrows(a: seq<Byte>, b: seq<Byte>)
    ensures Parse(a).requests <= Parse(a + b).requests
    ensures Parse(a).malformed ==> Parse(a + b).malformed && Parse(a + b).requests == Parse(a).requests
    decreases |a|
  {
    if HEADER <= |a| {
      FrameStays(a, b);
      if HasFrame(a) && !BadHeader(a) { ParseGrows(AfterFirst(a), b); }
    }
  }

  function Preceded(called: seq<Request>, p: Parsed): Parsed { p.(requests := called + p.requests) }

  lemma ParseStep(buf: seq<Byte>, called: seq<Request>)
    requires HasFrame(buf) && !BadHeader(buf)
    ensures Preceded(called, Parse(buf)) == Preceded(called + [First(buf)], Parse(AfterFirst(buf)))
    ensures WellFormed(First(buf))
  {
    DecodedIsWellFormed(buf);
    Regroup(called, [First(buf)], Parse(AfterFirst(buf)).requests);
  }

  lemma FlatSnoc(a: seq<Request>, r: Request, f: Request -> seq<Byte>)
    ensures Flat(a + [r], f) == Flat(a, f) + f(r)
  {
    FlatAppend(a, [r], f);
    assert Flat([r], f) == f(r) + Flat([], f);
  }
}
