/**
 Sending an HTTP response: a segmented body of owned and borrowed pieces goes out through
 vectored writes that may each take any part of what they are offered.
 */
module StreamOutput {
  datatype Status = Success | TransportError | WroteNothing | WroteBeyond

  datatype Result = Wrote(count: nat) | Failed

  function Flat(pieces: seq<string>): string { if pieces == [] then "" else pieces[0] + Flat(pieces[1..]) }

  lemma Regroup(a: string, b: string, c: string)
    ensures a + (b + c) == (a + b) + c
  {
  }

  lemma {:induction false} FlatAppend(a: seq<string>, b: seq<string>)
    ensures Flat(a + b) == Flat(a) + Flat(b)
  {
    if a == [] {
      assert a + b == b;
    } else {
      assert (a + b)[1..] == a[1..] + b;
      FlatAppend(a[1..], b);
      assert a[0] + (Flat(a[1..]) + Flat(b)) == (a[0] + Flat(a[1..])) + Flat(b);
    }
  }

  function Total(pieces: seq<string>): nat { if pieces == [] then 0 else |pieces[0]| + Total(pieces[1..]) }

  lemma {:induction false} FlatLength(pieces: seq<string>)
    ensures |Flat(pieces)| == Total(pieces)
  {
    if pieces != [] { FlatLength(pieces[1..]); }
  }

  /** The bytes left of a text after the first n, all of them gone if n is past the end. */
  function After(text: string, n: nat): string { if n <= |text| then text[n..] else "" }

  function NonEmpty(pieces: seq<string>): seq<string> {
    if pieces == [] then [] else (if pieces[0] == "" then [] else [pieces[0]]) + NonEmpty(pieces[1..])
  }

  lemma {:induction false} NonEmptyFlat(pieces: seq<string>)
    ensures Flat(NonEmpty(pieces)) == Flat(pieces) && forall p | p in NonEmpty(pieces) :: p != ""
    ensures |NonEmpty(pieces)| <= |pieces|
  {
    if pieces != [] {
      NonEmptyFlat(pieces[1..]);
      if pieces[0] == "" {
        assert NonEmpty(pieces) == NonEmpty(pieces[1..]);
      } else {
        assert NonEmpty(pieces)[1..] == NonEmpty(pieces[1..]);
      }
    }
  }

  /** One answer of the transport: what it was offered, in one buffer or several, and what it said. */
  datatype Write = Write(vectored: bool, pieces: nat, offered: nat, result: Result)

  /** Some bytes were taken and, where the caller checks, not more than were offered. */
  predicate Good(w: Write) {
    w.result.Wrote? && 0 < w.result.count && (w.vectored ==> w.result.count <= w.offered)
  }

  function Cause(w: Write): Status
    requires !Good(w)
  {
    if w.result.Failed? then TransportError else if w.result.count == 0 then WroteNothing else WroteBeyond
  }

  /** No write offers more than n pieces at once. */
  predicate Narrow(log: seq<Write>, n: nat) { forall i | 0 <= i < |log| :: log[i].pieces <= n }

  lemma NarrowAppend(a: seq<Write>, b: seq<Write>, m: nat, n: nat)
    requires Narrow(a, n) && Narrow(b, m) && m <= n
    ensures Narrow(a + b, n)
  {
  }

  predicate AllGood(log: seq<Write>) { forall i | 0 <= i < |log| :: Good(log[i]) }

  /** The status those answers lead to: success exactly if all are good, else the cause of the
      first bad one, after which nothing more is written. */
  predicate Tells(log: seq<Write>, status: Status) {
    && (status.Success? <==> AllGood(log))
    && (!status.Success? ==> log != [] && AllGood(log[..|log| - 1]) && !Good(log[|log| - 1])
                             && status == Cause(log[|log| - 1]))
  }

  lemma TellsAppend(a: seq<Write>, b: seq<Write>, status: Status)
    requires AllGood(a) && Tells(b, status)
    ensures Tells(a + b, status)
  {
    if status.Success? {
      assert AllGood(a + b);
    } else {
      var n := |a + b| - 1;
      assert (a + b)[n] == b[|b| - 1] && (a + b)[..n] == a + b[..|b| - 1];
    }
  }

  lemma TellsLast(done: seq<Write>, w: Write)
    requires AllGood(done)
    ensures if Good(w) then AllGood(done + [w]) else Tells(done + [w], Cause(w))
  {
    if !Good(w) {
      assert (done + [w])[|done|] == w && (done + [w])[..|done|] == done;
    }
  }

  /** So far every write was good and offered at most n pieces. */
  predicate Fine(log: seq<Write>, n: nat) { AllGood(log) && Narrow(log, n) }

  lemma FineNext(done: seq<Write>, w: Write, n: nat)
    requires Fine(done, n) && w.pieces <= n
    ensures Narrow(done + [w], n) && if Good(w) then Fine(done + [w], n) else Tells(done + [w], Cause(w))
  {
    TellsLast(done, w);
  }

  lemma FineTells(log: seq<Write>, n: nat)
    requires Fine(log, n)
    ensures Tells(log, Success) && Narrow(log, n)
  {
  }

  /** The transport: every write takes a prefix of what it is offered, or fails. */
  class TcpStream {
    var sent: string
    ghost var writes: seq<Write>

    /** Any outcome the operating system may report, even a count that is too large. */
    method WriteSomeV(pieces: seq<string>) returns (result: Result)
      modifies this
      ensures writes == old(writes) + [Write(true, |pieces|, |Flat(pieces)|, result)]
      ensures old(sent) <= sent && (result.Failed? ==> sent == old(sent))
      ensures result.Wrote? ==> sent + After(Flat(pieces), result.count) == old(sent) + Flat(pieces)
    {
      var n: int := *;
      var text := Flat(pieces);
      result := if n < 0 then Failed else Wrote(n);
      sent := sent + if n < 0 then "" else if n <= |text| then text[..n] else text;
      writes := writes + [Write(true, |pieces|, |text|, result)];
    }

    /** The same for a single buffer. */
    method WriteSome(text: string) returns (result: Result)
      modifies this
      ensures writes == old(writes) + [Write(false, 1, |text|, result)]
      ensures old(sent) <= sent && (result.Failed? ==> sent == old(sent))
      ensures result.Wrote? ==> sent + After(text, result.count) == old(sent) + text
    {
      var n: int := *;
      result := if n < 0 then Failed else Wrote(n);
      sent := sent + if n < 0 then "" else if n <= |text| then text[..n] else text;
      writes := writes + [Write(false, 1, |text|, result)];
    }

    /** What the transport answered since the log had the given length. */
    ghost function Since(mark: nat): seq<Write>
      requires mark <= |writes|
      reads this
    {
      writes[mark..]
    }

    /** Steps over the pieces a write has taken; returns what it took of the next one. */
    method Skip(remaining: seq<string>, from: nat, count: nat) returns (first: nat, written: nat)
      requires from <= |remaining|
      ensures from <= first <= |remaining|
      ensures After(Flat(remaining[from..]), count) == After(Flat(remaining[first..]), written)
      ensures first < |remaining| ==> written < |remaining[first]|
      ensures count - written == Total(remaining[from..]) - Total(remaining[first..])
    {
      first, written := from, count;
      while first < |remaining| && written >= |remaining[first]|
        invariant from <= first <= |remaining|
        invariant After(Flat(remaining[from..]), count) == After(Flat(remaining[first..]), written)
        invariant count - written == Total(remaining[from..]) - Total(remaining[first..])
      {
        SkipOne(remaining[first..], written);
        assert remaining[first..][1..] == remaining[first + 1..];
        written := written - |remaining[first]|;
        first := first + 1;
      }
    }

    /** Succeeds exactly if every write took something; a count that is too large ends the loop
        like an exact one. */
    method WriteAll(buffer: string) returns (status: Status)
      modifies this
      ensures old(writes) <= writes && Tells(Since(|old(writes)|), status)
      ensures status.Success? ==> sent == old(sent) + buffer
      ensures old(sent) <= sent <= old(sent) + buffer
    {
      var written: nat := 0;
      while written < |buffer|
        invariant old(writes) <= writes && AllGood(Since(|old(writes)|))
        invariant old(sent) <= sent && sent + After(buffer, written) == old(sent) + buffer
        decreases |buffer| - written
      {
        ghost var done := Since(|old(writes)|);
        var result := WriteSome(buffer[written..]);
        assert Since(|old(writes)|) == done + [Write(false, 1, |buffer| - written, result)];
        TellsLast(done, Write(false, 1, |buffer| - written, result));
        if result.Failed? { return TransportError; }
        if result.count == 0 { return WroteNothing; }
        written := written + result.count;
      }
      status := Success;
    }

    method DropEmpty(buffers: seq<string>) returns (remaining: seq<string>)
      ensures remaining == NonEmpty(buffers)
    {
      remaining := [];
      for i := 0 to |buffers|
        invariant remaining + NonEmpty(buffers[i..]) == NonEmpty(buffers)
      {
        assert buffers[i..][1..] == buffers[i + 1..];
        if buffers[i] != "" {
          assert remaining + ([buffers[i]] + NonEmpty(buffers[i + 1..])) ==
            (remaining + [buffers[i]]) + NonEmpty(buffers[i + 1..]);
          remaining := remaining + [buffers[i]];
        }
      }
    }

    /** One write and the bookkeeping behind it; the bytes sent and those still to send stay the same. */
    method WriteOnce(remaining: seq<string>, first: nat) returns (status: Status, left: seq<string>, next: nat)
      requires first < |remaining|
      modifies this
      ensures |writes| == |old(writes)| + 1 && old(writes) <= writes
      ensures writes[|old(writes)|].pieces <= |remaining| == |left|
      ensures Good(writes[|old(writes)|]) <==> status.Success?
      ensures !status.Success? ==> status == Cause(writes[|old(writes)|])
      ensures old(sent) <= sent <= old(sent) + Flat(remaining[first..]) && next <= |left|
      ensures status.Success? ==>
        sent + Flat(left[next..]) == old(sent) + Flat(remaining[first..]) && Total(left[next..]) < Total(remaining[first..])
    {
      left, next := remaining, first;
      var result := WriteSomeV(remaining[first..]);
      if result.Failed? { status := TransportError; return; }
      if result.count == 0 { status := WroteNothing; return; }
      var skipped, written := Skip(remaining, first, result.count);
      FlatLength(remaining[first..]);
      next := skipped;
      if next < |remaining| && written != 0 {
        Trim(remaining, next, written);
        left := remaining[next := remaining[next][written..]];
      } else if next == |remaining| && written != 0 {
        status := WroteBeyond;
        return;
      }
      status := Success;
    }

    /** Succeeds exactly if every write took a positive number of the bytes it was offered, and
        then every byte went out once and in order; any failure leaves a prefix sent. */
    method WriteAllV(buffers: seq<string>) returns (status: Status)
      modifies this
      ensures old(writes) <= writes && Tells(Since(|old(writes)|), status) && Narrow(Since(|old(writes)|), |buffers|)
      ensures status.Success? ==> sent == old(sent) + Flat(buffers)
      ensures old(sent) <= sent <= old(sent) + Flat(buffers)
    {
      var remaining := DropEmpty(buffers);
      NonEmptyFlat(buffers);
      var first: nat := 0;
      while first < |remaining|
        invariant old(writes) <= writes && Fine(Since(|old(writes)|), |buffers|)
        invariant first <= |remaining| <= |buffers| && old(sent) <= sent
        invariant sent + Flat(remaining[first..]) == old(sent) + Flat(buffers)
        decreases Total(remaining[first..])
      {
        ghost var done := Since(|old(writes)|);
        status, remaining, first := WriteOnce(remaining, first);
        assert Since(|old(writes)|) == done + [writes[|writes| - 1]];
        FineNext(done, writes[|writes| - 1], |buffers|);
        if !status.Success? { return; }
      }
      FineTells(Since(|old(writes)|), |buffers|);
      status := Success;
    }
  }

  lemma Trim(remaining: seq<string>, next: nat, written: nat)
    requires next < |remaining| && written < |remaining[next]|
    ensures var left := remaining[next := remaining[next][written..]];
      && Flat(left[next..]) == After(Flat(remaining[next..]), written)
      && Total(left[next..]) + written == Total(remaining[next..])
  {
    var left := remaining[next := remaining[next][written..]];
    assert left[next..][1..] == remaining[next..][1..];
  }

  lemma SkipOne(pieces: seq<string>, written: nat)
    requires pieces != [] && |pieces[0]| <= written
    ensures After(Flat(pieces), written) == After(Flat(pieces[1..]), written - |pieces[0]|)
  {
  }

  // ---------------------------------------------------------------- the response

  /** A piece of the body: borrowed text, or a range of the owned text. */
  datatype BodyPart = Borrowed(text: string) | Owned(offset: nat, size: nat)

  predicate PartOk(body: string, part: BodyPart) { part.Owned? ==> part.offset + part.size <= |body| }

  function Part(body: string, part: BodyPart): string
    requires PartOk(body, part)
  {
    match part
    case Borrowed(text) => text
    case Owned(offset, size) => body[offset..offset + size]
  }

  function PartSize(part: BodyPart): nat { match part case Borrowed(text) => |text| case Owned(_, size) => size }

  predicate PartsOk(body: string, parts: seq<BodyPart>) { forall i | 0 <= i < |parts| :: PartOk(body, parts[i]) }

  function Texts(body: string, parts: seq<BodyPart>): (r: seq<string>)
    requires PartsOk(body, parts)
    ensures |r| == |parts| && forall i | 0 <= i < |r| :: r[i] == Part(body, parts[i])
  {
    seq(|parts|, i requires 0 <= i < |parts| => Part(body, parts[i]))
  }

  /** Owned pieces keep their text when more is appended to the body they point into. */
  lemma TextsGrow(body: string, parts: seq<BodyPart>, more: string)
    requires PartsOk(body, parts)
    ensures PartsOk(body + more, parts) && Texts(body + more, parts) == Texts(body, parts)
  {
    forall i | 0 <= i < |parts| ensures PartOk(body + more, parts[i]) && Part(body + more, parts[i]) == Part(body, parts[i])
    {
      assert PartOk(body, parts[i]);
    }
  }

  lemma FlatSnoc(pieces: seq<string>, piece: string)
    ensures Flat(pieces + [piece]) == Flat(pieces) + piece
  {
    FlatAppend(pieces, [piece]);
    assert Flat([piece]) == piece + Flat([]);
  }

  lemma TextsSnoc(body: string, parts: seq<BodyPart>, part: BodyPart)
    requires PartsOk(body, parts) && PartOk(body, part)
    ensures PartsOk(body, parts + [part])
    ensures Flat(Texts(body, parts + [part])) == Flat(Texts(body, parts)) + Part(body, part)
  {
    assert Texts(body, parts + [part]) == Texts(body, parts) + [Part(body, part)];
    FlatSnoc(Texts(body, parts), Part(body, part));
  }

  class HttpResponse {
    var body: string
    var parts: seq<BodyPart>

    ghost predicate Valid()
      reads this
    {
      PartsOk(body, parts)
    }

    /** What the response will send. */
    ghost function Text(): string
      requires Valid()
      reads this
    {
      if parts == [] then body else Flat(Texts(body, parts))
    }

    constructor (text: string)
      ensures Valid() && Text() == text && parts == []
    {
      body, parts := text, [];
    }

    /** What the service does when a handler fails. */
    method Replace(text: string)
      modifies this
      ensures Valid() && Text() == text
    {
      body, parts := text, [];
    }

    method AppendBorrowedBody(text: string)
      requires Valid()
      modifies this`parts
      ensures Valid() && Text() == old(Text()) + text
    {
      if text == "" { return; }
      if parts == [] && body != "" {
        parts := [Owned(0, |body|)];
        assert Part(body, parts[0]) == body;
        assert Texts(body, parts) == [body] && Flat([body]) == body;
      }
      TextsSnoc(body, parts, Borrowed(text));
      parts := parts + [Borrowed(text)];
    }

    method AppendBody(text: string)
      requires Valid()
      modifies this
      ensures Valid() && Text() == old(Text()) + text
    {
      if text == "" { return; }
      ghost var was := body;
      var offset := |body|;
      body := body + text;
      if parts == [] { return; }
      var before, last := parts[..|parts| - 1], parts[|parts| - 1];
      assert parts == before + [last] && PartsOk(was, before);
      if last.Owned? && last.offset + last.size == offset {
        ExtendLast(was, before, last, text);
        parts := before + [Owned(last.offset, last.size + |text|)];
      } else {
        TextsGrow(was, parts, text);
        TextsSnoc(body, parts, Owned(offset, |text|));
        parts := parts + [Owned(offset, |text|)];
      }
    }

    method BodySize() returns (size: nat)
      requires Valid()
      ensures size == |Text()|
    {
      if parts == [] { return |body|; }
      size := 0;
      ghost var texts := Texts(body, parts);
      for i := 0 to |parts|
        invariant size + Total(texts[i..]) == Total(texts)
      {
        assert texts[i..][1..] == texts[i + 1..] && PartOk(body, parts[i]);
        size := size + PartSize(parts[i]);
      }
      FlatLength(texts);
    }
  }

  lemma SuffixGrows(body: string, text: string, from: nat, size: nat)
    requires from + size == |body|
    ensures (body + text)[from..from + (size + |text|)] == body[from..from + size] + text
  {
  }

  /** Text appended right behind the last piece makes that piece longer. */
  lemma ExtendLast(body: string, before: seq<BodyPart>, last: BodyPart, text: string)
    requires PartsOk(body, before) && last.Owned? && last.offset + last.size == |body|
    ensures var longer := before + [Owned(last.offset, last.size + |text|)];
      && PartsOk(body, before + [last]) && PartsOk(body + text, longer)
      && Flat(Texts(body + text, longer)) == Flat(Texts(body, before + [last])) + text
  {
    var part := Owned(last.offset, last.size + |text|);
    TextsGrow(body, before, text);
    calc {
      Flat(Texts(body + text, before + [part]));
      { TextsSnoc(body + text, before, part); }
      Flat(Texts(body, before)) + Part(body + text, part);
      { SuffixGrows(body, text, last.offset, last.size); }
      Flat(Texts(body, before)) + (Part(body, last) + text);
      { Regroup(Flat(Texts(body, before)), Part(body, last), text); }
      (Flat(Texts(body, before)) + Part(body, last)) + text;
      { TextsSnoc(body, before, last); }
      Flat(Texts(body, before + [last])) + text;
    }
  }

  // ---------------------------------------------------------------- sending it

  function Digits(n: nat): (d: string)
    ensures d != ""
  {
    if n < 10 then [Digit(n)] else Digits(n / 10) + [Digit(n % 10)]
  }

  function Digit(n: nat): char
    requires n < 10
  {
    '0' + n as char
  }

  /** What a recipient reads a Content-Length as. */
  function Number(d: string): nat {
    if d == "" then 0 else 10 * Number(d[..|d| - 1]) + (if '0' <= d[|d| - 1] <= '9' then (d[|d| - 1] - '0') as int else 0)
  }

  lemma {:induction false} LengthIsReadBack(n: nat)
    ensures Number(Digits(n)) == n
  {
    if n < 10 {
      assert Digits(n)[..0] == "";
    } else {
      LengthIsReadBack(n / 10);
      assert Digits(n)[..|Digits(n)| - 1] == Digits(n / 10);
    }
  }

  function Head(status: string, contentType: string, length: nat): string {
    "HTTP/1.1 " + status + "\r\nContent-Type: " + contentType + "\r\nContent-Length: " + Digits(length)
    + "\r\nConnection: close\r\n\r\n"
  }

  const BATCH: nat := 1024

  /** Succeeds exactly if every write behaves; a complete response is its head, announcing the
      length of the body, and exactly that body. */
  method WriteResponse(stream: TcpStream, response: HttpResponse, status: string, contentType: string)
    returns (result: Status)
    requires response.Valid()
    modifies stream
    ensures old(stream.writes) <= stream.writes && Tells(stream.Since(|old(stream.writes)|), result)
    ensures result.Success? ==>
      stream.sent == old(stream.sent) + Head(status, contentType, |response.Text()|) + response.Text()
  {
    var size := response.BodySize();
    result := stream.WriteAll(Head(status, contentType, size));
    if !result.Success? { return; }
    ghost var mark := |stream.writes|;
    ghost var done := stream.Since(|old(stream.writes)|);
    result := WriteBody(stream, response);
    assert stream.Since(|old(stream.writes)|) == done + stream.Since(mark);
    TellsAppend(done, stream.Since(mark), result);
  }

  method WriteBody(stream: TcpStream, response: HttpResponse) returns (result: Status)
    requires response.Valid()
    modifies stream
    ensures old(stream.writes) <= stream.writes && Tells(stream.Since(|old(stream.writes)|), result)
    ensures result.Success? ==> stream.sent == old(stream.sent) + response.Text()
  {
    if response.parts == [] {
      result := stream.WriteAll(response.body);
    } else {
      result := WriteBatches(stream, Texts(response.body, response.parts));
    }
  }

  lemma SendBatch(sent: string, texts: seq<string>, first: nat, count: nat)
    requires first + count <= |texts|
    ensures sent + Flat(texts[first..]) == (sent + Flat(texts[first..first + count])) + Flat(texts[first + count..])
  {
    assert texts[first..] == texts[first..first + count] + texts[first + count..];
    FlatAppend(texts[first..first + count], texts[first + count..]);
    Regroup(sent, Flat(texts[first..first + count]), Flat(texts[first + count..]));
  }

  /** Sends the pieces in batches of bounded size. */
  method WriteBatches(stream: TcpStream, texts: seq<string>) returns (result: Status)
    modifies stream
    ensures old(stream.writes) <= stream.writes && Tells(stream.Since(|old(stream.writes)|), result)
    ensures Narrow(stream.Since(|old(stream.writes)|), 1024)
    ensures result.Success? ==> stream.sent == old(stream.sent) + Flat(texts)
  {
    var first := 0;
    result := Success;
    while first < |texts|
      invariant old(stream.writes) <= stream.writes && AllGood(stream.Since(|old(stream.writes)|))
      invariant Narrow(stream.Since(|old(stream.writes)|), 1024)
      invariant first <= |texts| && stream.sent + Flat(texts[first..]) == old(stream.sent) + Flat(texts)
    {
      var count := if |texts| - first < BATCH then |texts| - first else BATCH;
      ghost var mark := |stream.writes|;
      ghost var done := stream.Since(|old(stream.writes)|);
      SendBatch(stream.sent, texts, first, count);
      result := stream.WriteAllV(texts[first..first + count]);
      assert stream.Since(|old(stream.writes)|) == done + stream.Since(mark);
      TellsAppend(done, stream.Since(mark), result);
      NarrowAppend(done, stream.Since(mark), count, 1024);
      if !result.Success? { return; }
      first := first + count;
    }
    result := Success;
  }
}
