/** Length-prefixed datagrams over a byte stream that is read in arbitrary pieces (internal/udpframe/udpframe.go). */
module UdpFrame {
  import opened Results

  newtype byte = x: int | 0 <= x < 256

  const MAX_PAYLOAD := 65535

  type Payload = p: seq<byte> | |p| <= MAX_PAYLOAD

  datatype Error = EOF | UnexpectedEOF | PayloadTooLarge | WriteFailed

  // ---- Frames ----

  function Header(n: nat): (h: seq<byte>)
    requires n <= MAX_PAYLOAD
    ensures |h| == 2
  {
    [(n / 256) as byte, (n % 256) as byte]
  }

  function Length(h: seq<byte>): (n: nat)
    requires |h| >= 2
    ensures n <= MAX_PAYLOAD
  {
    h[0] as int * 256 + h[1] as int
  }

  lemma LengthOfHeader(n: nat)
    requires n <= MAX_PAYLOAD
    ensures Length(Header(n)) == n
  {}

  lemma HeaderOfLength(h: seq<byte>)
    requires |h| == 2
    ensures Header(Length(h)) == h
  {}

  /** The length comes first, in two bytes with the high one in front. */
  function Frame(p: Payload): (f: seq<byte>)
    ensures |f| == |p| + 2 && f[2..] == p && f[0] as int * 256 + f[1] as int == |p|
  {
    Header(|p|) + p
  }

  /** The bytes of a sequence of datagrams. */
  function Encode(ps: seq<Payload>): seq<byte> {
    if ps == [] then [] else Frame(ps[0]) + Encode(ps[1..])
  }

  /** The datagrams in a byte stream, and whether it ends between two frames. */
  function Decode(s: seq<byte>): (seq<Payload>, bool) {
    if s == [] then ([], true)
    else if |s| < 2 || |s| - 2 < Length(s) then ([], false)
    else
      var n := Length(s);
      var (rest, whole) := Decode(s[2 + n..]);
      ([s[2..2 + n]] + rest, whole)
  }

  lemma DecodeFrame(p: Payload, s: seq<byte>)
    ensures Decode(Frame(p) + s) == ([p] + Decode(s).0, Decode(s).1)
  {
    var whole := Frame(p) + s;
    LengthOfHeader(|p|);
    assert whole[..2] == Header(|p|);
    assert whole[0] == Header(|p|)[0] && whole[1] == Header(|p|)[1];
    assert whole[2..2 + |p|] == p && whole[2 + |p|..] == s;
  }

  /** Reading back what was written gives the same datagrams, and a whole stream. */
  lemma {:induction false} RoundTrip(ps: seq<Payload>)
    ensures Decode(Encode(ps)) == (ps, true)
  {
    hide Frame, Decode;
    if ps == [] {
      assert Decode([]) == ([], true) by { DecodeNothing(); }
    } else {
      RoundTrip(ps[1..]);
      DecodeFrame(ps[0], Encode(ps[1..]));
      assert ps == [ps[0]] + ps[1..];
    }
  }

  lemma DecodeNothing()
    ensures Decode([]) == ([], true)
  {}

  /** Any stream starts with the frames of what is read from it, and is made of them exactly when it ends between
      frames. */
  lemma {:induction false} DecodedIsPrefix(s: seq<byte>)
    ensures Encode(Decode(s).0) <= s
    ensures Decode(s).1 <==> Encode(Decode(s).0) == s
    decreases |s|
  {
    if s == [] || |s| < 2 || |s| - 2 < Length(s) {
    } else {
      var n := Length(s);
      var rest := s[2 + n..];
      DecodedIsPrefix(rest);
      HeaderOfLength(s[..2]);
      assert s == Frame(s[2..2 + n]) + rest;
      assert Decode(s).0[0] == s[2..2 + n] && Decode(s).0[1..] == Decode(rest).0;
    }
  }

  /** A stream cut short gives an initial part of the datagrams, all of them only if nothing was cut off. */
  lemma {:induction false} CutStream(ps: seq<Payload>, s: seq<byte>)
    requires s <= Encode(ps)
    ensures Decode(s).0 <= ps
    ensures Decode(s).0 == ps <==> s == Encode(ps)
  {
    hide Decode;
    if ps == [] {
      DecodeNothing();
    } else {
      var first, rest := Frame(ps[0]), Encode(ps[1..]);
      if |s| < |first| {
        CutFrame(ps[0], s);
      } else {
        assert s == first + s[|first|..];
        assert s[|first|..] <= rest;
        CutStream(ps[1..], s[|first|..]);
        DecodeFrame(ps[0], s[|first|..]);
        assert ps == [ps[0]] + ps[1..];
      }
    }
  }

  lemma CutFrame(p: Payload, s: seq<byte>)
    requires s < Frame(p)
    ensures Decode(s).0 == []
  {
    LengthOfHeader(|p|);
    if |s| >= 2 {
      assert s[0] == Frame(p)[0] == Header(|p|)[0] && s[1] == Frame(p)[1] == Header(|p|)[1];
    }
  }

  // ---- Writing ----

  class Sink {
    var written: seq<byte>
    /** How many writes have failed. */
    ghost var failures: nat

    constructor ()
      ensures written == [] && failures == 0
    {
      written, failures := [], 0;
    }

    /** A write that fails may have written a part. */
    method Put(data: seq<byte>) returns (ok: bool)
      modifies this
      ensures failures == old(failures) + (if ok then 0 else 1)
      ensures ok ==> written == old(written) + data
      ensures !ok ==> exists n :: 0 <= n <= |data| && written == old(written) + data[..n]
    {
      var fails: bool := *;
      if fails {
        var n: int := *;
        var part := if 0 <= n <= |data| then data[..n] else [];
        written := written + part;
        assert part == data[..|part|];
        failures := failures + 1;
        return false;
      }
      written := written + data;
      return true;
    }
  }

  /** Nothing is written of a datagram that is too large, and a failing write leaves a part of one frame. */
  method Write(w: Sink, payload: seq<byte>) returns (error: Option<Error>)
    modifies w
    ensures |payload| > MAX_PAYLOAD <==> error == Some(PayloadTooLarge)
    ensures error == Some(PayloadTooLarge) ==> w.written == old(w.written)
    ensures error.None? ==> w.written == old(w.written) + Frame(payload)
    ensures error == Some(WriteFailed) ==>
      exists n :: 0 <= n <= |Frame(payload)| && w.written == old(w.written) + Frame(payload)[..n]
    ensures error.None? || error == Some(PayloadTooLarge) || error == Some(WriteFailed)
    ensures error == Some(WriteFailed) <==> w.failures != old(w.failures)
  {
    if |payload| > MAX_PAYLOAD { return Some(PayloadTooLarge); }
    ghost var start := w.written;
    var header := Header(|payload|);
    var ok := w.Put(header);
    if !ok {
      ghost var n :| 0 <= n <= |header| && w.written == start + header[..n];
      assert Frame(payload)[..n] == header[..n];
      return Some(WriteFailed);
    }
    ok := w.Put(payload);
    if !ok {
      ghost var n :| 0 <= n <= |payload| && w.written == start + header + payload[..n];
      assert start + Frame(payload)[..2 + n] == start + header + payload[..n];
      return Some(WriteFailed);
    }
    assert start + Frame(payload) == start + header + payload;
    return None;
  }

  // ---- Reading ----

  class Source {
    /** The bytes that will still arrive before the stream ends. */
    var rest: seq<byte>

    constructor (data: seq<byte>)
      ensures rest == data
    {
      rest := data;
    }

    /** One read: some bytes, at most as many as asked for, or the end of the stream. */
    method Receive(max: nat) returns (chunk: seq<byte>)
      requires max > 0
      modifies this
      ensures chunk + rest == old(rest) && |chunk| <= max
      ensures chunk == [] <==> old(rest) == []
    {
      var n: int := *;
      if n <= 0 || n > max || n > |rest| { n := if rest == [] then 0 else 1; }
      chunk, rest := rest[..n], rest[n..];
    }

    /** Fills the beginning of the buffer by as many reads as it takes; an end before the first byte differs from one
        after it. */
    method ReadFull(buf: array<byte>, n: nat) returns (error: Option<Error>)
      requires n <= buf.Length
      modifies this, buf
      ensures error.None? <==> n <= |old(rest)|
      ensures error.None? ==> buf[..n] == old(rest)[..n] && rest == old(rest)[n..]
      ensures error.Some? ==> rest == [] && error == Some(if old(rest) == [] then EOF else UnexpectedEOF)
      ensures buf[n..] == old(buf[n..])
    {
      ghost var start := rest;
      var got := 0;
      while got < n
        invariant 0 <= got <= n && got <= |start|
        invariant buf[..got] == start[..got] && rest == start[got..]
        invariant buf[n..] == old(buf[n..])
      {
        var chunk := Receive(n - got);
        if chunk == [] {
          return Some(if got == 0 then EOF else UnexpectedEOF);
        }
        assert chunk == start[got..got + |chunk|] && rest == start[got + |chunk|..] by {
          assert start[got..] == chunk + rest;
        }
        forall i | got <= i < got + |chunk| { buf[i] := chunk[i - got]; }
        got := got + |chunk|;
      }
      return None;
    }
  }

  /** The stream ends inside a frame, right after its header. */
  predicate OnlyHeader(s: seq<byte>) { |s| == 2 && Length(s) > 0 }

  /** One datagram. An end of the stream right after a header is reported like one between frames. */
  method Read(r: Source, buf: array<byte>) returns (length: nat, error: Option<Error>)
    modifies r, buf
    ensures error.None? ==>
      && length <= buf.Length && length <= MAX_PAYLOAD
      && old(r.rest) == Frame(buf[..length]) + r.rest && buf[length..] == old(buf[length..])
    ensures error.None? <==> |old(r.rest)| >= 2 && Length(old(r.rest)) <= buf.Length && Length(old(r.rest)) <= |old(r.rest)| - 2
    ensures error == Some(EOF) <==>
      old(r.rest) == [] || (OnlyHeader(old(r.rest)) && Length(old(r.rest)) <= buf.Length)
    ensures error == Some(PayloadTooLarge) <==> |old(r.rest)| >= 2 && Length(old(r.rest)) > buf.Length
    ensures error != Some(WriteFailed)
  {
    ghost var start := r.rest;
    var header := new byte[2];
    error := r.ReadFull(header, 2);
    if error.Some? { return 0, error; }
    assert header[..] == header[..2] == start[..2];
    length := Length(header[..]);
    assert length == Length(start);
    if length > buf.Length { return 0, Some(PayloadTooLarge); }
    ghost var body := r.rest;
    error := r.ReadFull(buf, length);
    if error.Some? { return 0, error; }
    HeaderOfLength(start[..2]);
    assert start == start[..2] + body && body == buf[..length] + r.rest;
    assert start == Frame(buf[..length]) + r.rest;
  }

  /** A stream without a complete first frame. */
  lemma StuckDecodes(s: seq<byte>)
    requires |s| < 2 || Length(s) > |s| - 2
    ensures Decode(s) == ([], s == [])
  {}

  /** Repeated reads into a buffer that is large enough give exactly the datagrams of the stream, in order. */
  method ReadAll(r: Source, buf: array<byte>) returns (payloads: seq<Payload>, error: Error)
    requires buf.Length >= MAX_PAYLOAD
    modifies r, buf
    ensures payloads == Decode(old(r.rest)).0
    ensures error == EOF || error == UnexpectedEOF
    ensures Decode(old(r.rest)).1 ==> error == EOF
  {
    ghost var all := r.rest;
    payloads := [];
    while true
      invariant Decode(all).0 == payloads + Decode(r.rest).0 && Decode(all).1 == Decode(r.rest).1
      decreases |r.rest|
    {
      ghost var before := r.rest;
      var length, problem := Read(r, buf);
      if problem.Some? {
        StuckDecodes(before);
        return payloads, problem.value;
      }
      var payload: Payload := buf[..length];
      DecodeFrame(payload, r.rest);
      assert payloads + ([payload] + Decode(r.rest).0) == (payloads + [payload]) + Decode(r.rest).0;
      payloads := payloads + [payload];
    }
  }
}
