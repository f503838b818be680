/** Newline-delimited frames read through a bounded buffer.

    A connection is what it will still deliver: the chunks of its successive reads and the
    error that ends it.  The buffered reader hands out slices of at most its buffer size, and
    the frame reader assembles them.  Everything is specified on the unread byte stream, so
    no result depends on how the stream is cut into chunks. */
module Frames {
  import opened Common

  newtype Byte = b: int | 0 <= b < 256

  const NEWLINE: Byte := 10
  const MAX_FRAME_BYTES: nat := 0x10_0000

  datatype ReadError = Eof | Broken(code: int) | BufferFull
  datatype FrameError = TooLarge | MissingTerminator | Read(error: ReadError) | ExtraLine

  // ----- the specification: splitting a byte stream at newlines

  /** The position of the first newline, or the length when there is none. */
  function FirstNewline(u: seq<Byte>): (k: nat)
    ensures k <= |u|
    ensures k < |u| ==> u[k] == NEWLINE
  {
    if u == [] || u[0] == NEWLINE then 0 else 1 + FirstNewline(u[1..])
  }

  /** One newline, at the end, within the size limit. */
  predicate IsFrame(f: seq<Byte>) {
    0 < |f| <= MAX_FRAME_BYTES && FirstNewline(f) == |f| - 1
  }

  /** Whether the stream starts with an acceptable frame. */
  predicate Terminated(u: seq<Byte>) {
    FirstNewline(u) < |u| && FirstNewline(u) < MAX_FRAME_BYTES
  }

  function Head(u: seq<Byte>): seq<Byte>
    requires Terminated(u)
  {
    u[..FirstNewline(u) + 1]
  }

  function Tail(u: seq<Byte>): seq<Byte>
    requires Terminated(u)
  {
    u[FirstNewline(u) + 1..]
  }

  function Split(u: seq<Byte>): seq<seq<Byte>> {
    if Terminated(u) then [Head(u)] + Split(Tail(u)) else []
  }

  function Rest(u: seq<Byte>): seq<Byte> {
    if Terminated(u) then Rest(Tail(u)) else u
  }

  function Join(fs: seq<seq<Byte>>): seq<Byte> {
    if fs == [] then [] else fs[0] + Join(fs[1..])
  }

  lemma {:induction false} NoneBefore(u: seq<Byte>)
    ensures forall i | 0 <= i < FirstNewline(u) :: u[i] != NEWLINE
  {
    if u != [] && u[0] != NEWLINE {
      NoneBefore(u[1..]);
      forall i | 1 <= i < FirstNewline(u) ensures u[i] != NEWLINE {
        assert u[i] == u[1..][i - 1];
      }
    }
  }

  lemma FirstNewlineUnique(u: seq<Byte>, k: nat)
    requires k <= |u| && forall i | 0 <= i < k :: u[i] != NEWLINE
    requires k < |u| ==> u[k] == NEWLINE
    ensures FirstNewline(u) == k
  {
    NoneBefore(u);
  }

  lemma FirstNewlineDrop(u: seq<Byte>, n: nat)
    requires n <= FirstNewline(u)
    ensures FirstNewline(u[n..]) == FirstNewline(u) - n
  {
    NoneBefore(u);
    FirstNewlineUnique(u[n..], FirstNewline(u) - n);
  }

  lemma HeadIsFrame(u: seq<Byte>)
    requires Terminated(u)
    ensures IsFrame(Head(u)) && u == Head(u) + Tail(u)
  {
    NoneBefore(u);
    FirstNewlineUnique(Head(u), FirstNewline(u));
  }

  /** Accepted frames followed by the unread rest rebuild the stream, every accepted frame is
      a frame, and the rest does not start with one. */
  lemma {:induction false} SplitRebuilds(u: seq<Byte>)
    ensures Join(Split(u)) + Rest(u) == u
    ensures forall f | f in Split(u) :: IsFrame(f)
    ensures !Terminated(Rest(u))
  {
    if Terminated(u) {
      HeadIsFrame(u);
      SplitRebuilds(Tail(u));
      assert Split(u) == [Head(u)] + Split(Tail(u));
      assert Join(Split(u)) + Rest(u) == Head(u) + (Join(Split(Tail(u))) + Rest(Tail(u)));
    }
  }

  /** There is no other way to cut the stream into frames and a rest: `Split` is the only
      answer to its own specification.  With an empty rest this is the round trip: the
      frames a peer writes are exactly the frames that are read. */
  lemma {:induction false} SplitUnique(fs: seq<seq<Byte>>, rest: seq<Byte>)
    requires forall f | f in fs :: IsFrame(f)
    requires !Terminated(rest)
    ensures Split(Join(fs) + rest) == fs && Rest(Join(fs) + rest) == rest
  {
    var u := Join(fs) + rest;
    if fs == [] {
      assert u == rest;
    } else {
      var f, tail := fs[0], Join(fs[1..]) + rest;
      var k := |f| - 1;
      assert IsFrame(f);
      NoneBefore(f);
      assert u == f + tail;
      assert u[..k] == f[..k] && u[k] == f[k];
      FirstNewlineUnique(u, k);
      assert Head(u) == f && Tail(u) == tail;
      SplitUnique(fs[1..], rest);
    }
  }

  lemma FirstNewlineBeyond(a: seq<Byte>, b: seq<Byte>)
    requires FirstNewline(a) == |a|
    ensures FirstNewline(a + b) >= |a|
  {
    NoneBefore(a);
  }

  // ----- the reader

  /** What one slice read returns on the unread stream `u`. */
  function SliceOf(u: seq<Byte>, size: nat, ending: ReadError): (seq<Byte>, Option<ReadError>) {
    var k := FirstNewline(u);
    if k < |u| && k < size then (u[..k + 1], None)
    else if |u| >= size then (u[..size], Some(BufferFull))
    else (u, Some(ending))
  }

  /** An unterminated stream that the frame reader hands back with the read error.  One of
      exactly the maximal length is refused as too large when whole buffers fill it up. */
  predicate Truncated(u: seq<Byte>, size: nat)
    requires size > 0
  {
    && FirstNewline(u) == |u|
    && (|u| < MAX_FRAME_BYTES || (|u| == MAX_FRAME_BYTES && !WholeBuffers(MAX_FRAME_BYTES, size)))
  }

  /** Whether `a` bytes are a whole number of buffers. */
  predicate WholeBuffers(a: nat, size: nat)
    requires size > 0
  {
    a == 0 || (a >= size && WholeBuffers(a - size, size))
  }

  lemma {:induction false} PartialBuffer(a: nat, c: nat, size: nat)
    requires size > 0 && WholeBuffers(a, size) && c < size
    ensures WholeBuffers(a + c, size) <==> c == 0
  {
    if a > 0 {
      PartialBuffer(a - size, c, size);
    }
  }

  /** What the frame reader makes of the stream `u`, and what it leaves unread. */
  predicate FrameResult(u: seq<Byte>, size: nat, ending: ReadError,
                        frame: seq<Byte>, error: Option<FrameError>, unread: seq<Byte>)
    requires size > 0
  {
    if Terminated(u) then error == None && frame == Head(u) && unread == Tail(u)
    else if Truncated(u, size) then error == Some(Read(ending)) && frame == u && unread == []
    else error == Some(TooLarge) && frame == []
  }

  /** What a slice read says about the whole stream when `m` bytes of it, a whole number of
      buffers without a newline, have been taken already: where it ends, ... */
  lemma SliceEnds(u: seq<Byte>, m: nat, size: nat, ending: ReadError)
    requires size > 0 && ending != BufferFull
    requires m <= FirstNewline(u) && WholeBuffers(m, size)
    ensures var (slice, error) := SliceOf(u[m..], size, ending);
            var n := m + |slice|;
            && n <= |u|
            && (error == None || error == Some(BufferFull) || error == Some(ending))
            && (error == None ==> n == FirstNewline(u) + 1)
            && (error == Some(BufferFull) ==> m < n <= FirstNewline(u) && WholeBuffers(n, size))
            && (error == Some(ending) ==> n == |u| == FirstNewline(u) && (WholeBuffers(n, size) <==> n == m))
  {
    FirstNewlineDrop(u, m);
    var (slice, error) := SliceOf(u[m..], size, ending);
    if error == Some(ending) {
      PartialBuffer(m, |slice|, size);
    }
  }

  /** ... and what has then been read of the stream. */
  lemma SliceExtends(u: seq<Byte>, m: nat, size: nat, ending: ReadError)
    requires m <= |u|
    ensures var slice := SliceOf(u[m..], size, ending).0;
            var n := m + |slice|;
            n <= |u| && u[..m] + slice == u[..n] && u[m..][|slice|..] == u[n..]
  {
  }

  /** The frame reader between two slices: it has taken a whole number of buffers without a
      newline, and is still below the limit. */
  predicate Partial(u: seq<Byte>, size: nat, frame: seq<Byte>, unread: seq<Byte>)
    requires size > 0
  {
    && |frame| <= FirstNewline(u) && |frame| < MAX_FRAME_BYTES && WholeBuffers(|frame|, size)
    && frame == u[..|frame|] && unread == u[|frame|..]
  }

  /** One turn of the frame reader's loop. */
  lemma TurnIsRight(u: seq<Byte>, size: nat, ending: ReadError, frame: seq<Byte>, unread: seq<Byte>)
    requires size > 0 && ending != BufferFull && Partial(u, size, frame, unread)
    ensures var (slice, error) := SliceOf(unread, size, ending);
            var next := frame + slice;
            && |slice| <= |unread|
            && if |next| > MAX_FRAME_BYTES || (error == Some(BufferFull) && |next| >= MAX_FRAME_BYTES) then
                 FrameResult(u, size, ending, [], Some(TooLarge), unread[|slice|..])
               else if error == Some(BufferFull) then
                 slice != [] && |slice| <= |u| - |frame| && Partial(u, size, next, unread[|slice|..])
               else
                 FrameResult(u, size, ending, next, if error.Some? then Some(Read(error.value)) else None,
                             unread[|slice|..])
  {
    SliceEnds(u, |frame|, size, ending);
    SliceExtends(u, |frame|, size, ending);
  }

  class BufferedReader {
    const size: nat
    const ending: ReadError
    var buffer: seq<Byte>
    var chunks: seq<seq<Byte>>

    ghost predicate Valid()
      reads this
    {
      size > 0 && |buffer| <= size && ending != BufferFull && [] !in chunks
    }

    /** The unread stream. */
    ghost function Unread(): seq<Byte>
      reads this
    {
      buffer + Join(chunks)
    }

    constructor (size: nat, chunks: seq<seq<Byte>>, ending: ReadError)
      requires size > 0 && [] !in chunks && ending != BufferFull
      ensures Valid() && Unread() == Join(chunks)
      ensures this.size == size && this.ending == ending
    {
      this.size := size;
      this.ending := ending;
      this.buffer := [];
      this.chunks := chunks;
    }

    /** One read of the connection into the free part of the buffer. */
    method Fill()
      requires Valid() && |buffer| < size && chunks != []
      modifies this
      ensures Valid() && Unread() == old(Unread()) && |buffer| > old(|buffer|)
    {
      var n := if |chunks[0]| <= size - |buffer| then |chunks[0]| else size - |buffer|;
      ghost var u := Unread();
      assert Join(chunks) == chunks[0] + Join(chunks[1..]);
      assert chunks[0] in chunks;
      assert chunks[0] == chunks[0][..n] + chunks[0][n..];
      buffer := buffer + chunks[0][..n];
      if n == |chunks[0]| {
        chunks := chunks[1..];
      } else {
        var shorter := [chunks[0][n..]] + chunks[1..];
        assert shorter[1..] == chunks[1..];
        chunks := shorter;
      }
      assert Unread() == u;
    }

    /** Reads up to and including the next newline, or a full buffer, or what is left. */
    method ReadSlice() returns (slice: seq<Byte>, error: Option<ReadError>)
      requires Valid()
      modifies this
      ensures Valid()
      ensures (slice, error) == SliceOf(old(Unread()), size, ending)
      ensures Unread() == old(Unread())[|slice|..]
    {
      while FirstNewline(buffer) == |buffer| && |buffer| < size && chunks != []
        invariant Valid() && Unread() == old(Unread())
        decreases size - |buffer|
      {
        Fill();
      }
      ghost var u := Unread();
      var k := FirstNewline(buffer);
      assert u[..k] == buffer[..k];
      if k < |buffer| {
        NoneBefore(buffer);
        FirstNewlineUnique(u, k);
        slice, error := buffer[..k + 1], None;
        assert slice == u[..k + 1];
      } else {
        FirstNewlineBeyond(buffer, Join(chunks));
        error := if |buffer| == size then Some(BufferFull) else Some(ending);
        slice := buffer;
        assert |buffer| == size ==> slice == u[..size];
        assert |buffer| < size ==> chunks == [] && u == buffer;
      }
      buffer := buffer[|slice|..];
    }

    /** Assembles slices up to the next newline, refusing a frame over the limit. */
    method ReadFrameBytes() returns (frame: seq<Byte>, error: Option<FrameError>)
      requires Valid()
      modifies this
      ensures Valid()
      ensures FrameResult(old(Unread()), size, ending, frame, error, Unread())
      ensures |frame| <= MAX_FRAME_BYTES
    {
      frame := [];
      ghost var u := Unread();
      while true
        invariant Valid() && Partial(u, size, frame, Unread())
        decreases |u| - |frame|
      {
        TurnIsRight(u, size, ending, frame, Unread());
        var slice, readError := ReadSlice();
        if |frame| + |slice| > MAX_FRAME_BYTES {
          return [], Some(TooLarge);
        }
        frame := frame + slice;
        if readError == Some(BufferFull) {
          if |frame| >= MAX_FRAME_BYTES {
            return [], Some(TooLarge);
          }
        } else {
          error := if readError.Some? then Some(Read(readError.value)) else None;
          return;
        }
      }
    }

    /** A whole frame, or an error and no bytes: exactly when the stream starts with a frame. */
    method ReadNewlineFrame() returns (line: seq<Byte>, error: Option<FrameError>)
      requires Valid()
      modifies this
      ensures Valid()
      ensures var u := old(Unread());
              && (error == None <==> Terminated(u))
              && (Terminated(u) ==> line == Head(u) && Unread() == Tail(u))
              && (!Terminated(u) ==> line == [])
              && (!Terminated(u) && !Truncated(u, size) ==> error == Some(TooLarge))
              && (Truncated(u, size) ==>
                    error == Some(if ending == Eof && u != [] then MissingTerminator else Read(ending)))
    {
      line, error := ReadFrameBytes();
      if error.Some? {
        if error == Some(Read(Eof)) && |line| > 0 {
          error := Some(MissingTerminator);
        }
        line := [];
      }
    }

    /** Succeeds exactly at a clean end of the stream. */
    method RequireConnectionEnd() returns (error: Option<FrameError>)
      requires Valid()
      modifies this
      ensures Valid()
      ensures error == None <==> old(Unread()) == [] && ending == Eof
    {
      var extra;
      extra, error := ReadFrameBytes();
      if |extra| != 0 {
        error := Some(ExtraLine);
      } else if error == Some(Read(Eof)) {
        error := None;
      } else if error == None {
        error := Some(ExtraLine);
      }
    }

    /** The reply to an ordinary request is accepted exactly when the connection carried one
        frame that answers the request, and then closed. */
    method ReadResponse(answers: seq<Byte> -> bool) returns (line: seq<Byte>, ok: bool)
      requires Valid()
      modifies this
      ensures Valid()
      ensures ok <==> IsFrame(old(Unread())) && answers(old(Unread())) && ending == Eof
      ensures ok ==> line == old(Unread())
    {
      ghost var u := Unread();
      var error;
      line, error := ReadNewlineFrame();
      assert Terminated(u) ==> u == Head(u) + Tail(u);
      assert Terminated(u) ==> IsFrame(Head(u)) by { if Terminated(u) { HeadIsFrame(u); } }
      assert IsFrame(u) ==> Terminated(u) && Head(u) == u;
      if error.Some? || !answers(line) {
        return line, false;
      }
      error := RequireConnectionEnd();
      ok := error == None;
    }

    /** The event stream: every frame up to the first one that is not an event is delivered,
        in order, and nothing else. */
    method StreamEvents<E>(decode: seq<Byte> -> Option<E>) returns (events: seq<E>)
      requires Valid()
      modifies this
      ensures Valid()
      ensures events == Decoded(Split(old(Unread())), decode)
    {
      events := [];
      ghost var u := Unread();
      while true
        invariant Valid()
        invariant Decoded(Split(u), decode) == events + Decoded(Split(Unread()), decode)
        decreases |Unread()|
      {
        if Terminated(Unread()) {
          DecodedHead(Unread(), decode);
        }
        var line, error := ReadNewlineFrame();
        if error.Some? {
          return;
        }
        var event := decode(line);
        if event == None {
          return;
        }
        events := events + [event.value];
      }
    }
  }

  lemma DecodedHead<E>(u: seq<Byte>, decode: seq<Byte> -> Option<E>)
    requires Terminated(u)
    ensures Decoded(Split(u), decode)
         == (if decode(Head(u)) == None then [] else [decode(Head(u)).value] + Decoded(Split(Tail(u)), decode))
  {
    assert Split(u)[1..] == Split(Tail(u));
  }

  /** The events of the longest prefix of frames that all decode. */
  function Decoded<E>(fs: seq<seq<Byte>>, decode: seq<Byte> -> Option<E>): seq<E> {
    if fs == [] || decode(fs[0]) == None then [] else [decode(fs[0]).value] + Decoded(fs[1..], decode)
  }
}
