/** Capcom APP framing over TCP (opensnap_app/capcom/protocol.py and connection.py). */
module AppStream {
  import opened Snap

  const HEADER_SIZE := 8
  const MAX_SIZE := 1024 * 1024

  type Octets = seq<Byte>

  datatype Error = FrameTooLarge | TrailingBytes | Closed

  datatype Result<+T> = Ok(value: T) | Err(error: Error)

  function Word(b: Octets, at: nat): nat
    requires at + 2 <= |b|
  {
    b[at] as int * 0x100 + b[at + 1] as int
  }

  function FrameSize(b: Octets): nat
    requires |b| >= HEADER_SIZE
  {
    HEADER_SIZE + Word(b, 0)
  }

  /** What `pop_app_frame` takes off the front: a complete frame, nothing yet, or an error. */
  datatype Pop = Frame(frame: Octets, rest: Octets) | Wait | TooLarge

  function Popped(b: Octets): Pop {
    if |b| < HEADER_SIZE then Wait
    else if FrameSize(b) > MAX_SIZE then TooLarge
    else if |b| < FrameSize(b) then Wait
    else Frame(b[..FrameSize(b)], b[FrameSize(b)..])
  }

  /** The frames of a stream and what is left over. */
  function Split(b: Octets): (seq<Octets>, Octets)
    decreases |b|
  {
    match Popped(b)
    case Frame(f, rest) => var (fs, left) := Split(rest); ([f] + fs, left)
    case _ => ([], b)
  }

  function Joined(chunks: seq<Octets>): Octets {
    if chunks == [] then [] else chunks[0] + Joined(chunks[1..])
  }

  lemma {:induction false} JoinedAppends(a: seq<Octets>, b: seq<Octets>)
    ensures Joined(a + b) == Joined(a) + Joined(b)
  {
    if a == [] {
      assert a + b == b;
    } else {
      JoinedAppends(a[1..], b);
      assert (a + b)[1..] == a[1..] + b;
      JoinThree(a[0], Joined(a[1..]), Joined(b));
    }
  }

  lemma JoinThree(a: Octets, b: Octets, c: Octets)
    ensures a + (b + c) == a + b + c
  {
  }

  /** A length word cannot announce a frame the size check refuses. */
  lemma NoFrameIsTooLarge(b: Octets)
    ensures Popped(b) != TooLarge
  {
  }

  /** What follows a complete frame does not change it; what follows an incomplete one may complete it. */
  lemma PoppedIsStable(b: Octets, more: Octets)
    ensures Popped(b).Frame? ==> Popped(b + more) == Frame(Popped(b).frame, Popped(b).rest + more)
  {
    if Popped(b).Frame? {
      var n := FrameSize(b);
      assert (b + more)[..n] == b[..n] && (b + more)[n..] == b[n..] + more;
    }
  }

  /** What splitting leaves over holds no complete frame. */
  lemma {:induction false} SplitLeavesNoFrame(b: Octets)
    ensures Popped(Split(b).1) == Wait
    decreases |b|
  {
    NoFrameIsTooLarge(b);
    if Popped(b).Frame? { SplitLeavesNoFrame(Popped(b).rest); }
  }

  /** Splitting what arrived, then the rest with the leftover, is splitting the whole stream. */
  lemma {:induction false} SplitResumes(b: Octets, more: Octets)
    ensures var (fs, left) := Split(b); var (gs, end) := Split(left + more);
            Split(b + more) == (fs + gs, end)
    decreases |b|
  {
    PoppedIsStable(b, more);
    if Popped(b).Frame? {
      var f, rest := Popped(b).frame, Popped(b).rest;
      SplitResumes(rest, more);
      var (fs, left) := Split(rest);
      var (gs, end) := Split(left + more);
      assert [f] + (fs + gs) == [f] + fs + gs;
    } else {
      var (gs, end) := Split(b + more);
      assert [] + gs == gs;
    }
  }

  /** Frames popped as chunks arrive, one after the other. */
  function Fed(buffer: Octets, chunks: seq<Octets>): (seq<Octets>, Octets)
    decreases |chunks|
  {
    if chunks == [] then Split(buffer)
    else
      var (fs, left) := Split(buffer);
      var (gs, end) := Fed(left + chunks[0], chunks[1..]);
      (fs + gs, end)
  }

  /** However a stream is cut into chunks, the frames and the leftover are those of the whole stream. */
  lemma {:induction false} ChunkingDoesNotMatter(buffer: Octets, chunks: seq<Octets>)
    ensures Fed(buffer, chunks) == Split(buffer + Joined(chunks))
    decreases |chunks|
  {
    if chunks == [] {
      assert buffer + [] == buffer;
    } else {
      var (fs, left) := Split(buffer);
      ChunkingDoesNotMatter(left + chunks[0], chunks[1..]);
      SplitResumes(buffer, Joined(chunks));
      assert left + chunks[0] + Joined(chunks[1..]) == left + Joined(chunks);
    }
  }

  /** The frames of a stream and its leftover are the stream, byte for byte. */
  lemma {:induction false} SplitLosesNothing(b: Octets)
    ensures Joined(Split(b).0) + Split(b).1 == b
    decreases |b|
  {
    if Popped(b).Frame? {
      var f, rest := Popped(b).frame, Popped(b).rest;
      FrameIsWhole(b);
      SplitLosesNothing(rest);
      FrameJoins(f, Split(rest).0, Split(rest).1);
    }
  }

  lemma FrameIsWhole(b: Octets)
    requires Popped(b).Frame?
    ensures var f := Popped(b).frame; f + Popped(b).rest == b && |f| >= HEADER_SIZE && |f| == FrameSize(f)
  {
  }

  /** And each frame is as long as it says. */
  lemma {:induction false} SplitFramesAreWhole(b: Octets, i: nat)
    requires i < |Split(b).0|
    ensures var f := Split(b).0[i]; |f| >= 8 && |f| == 8 + f[0] as int * 256 + f[1]
    decreases |b|
  {
    FrameIsWhole(b);
    if i > 0 { SplitFramesAreWhole(Popped(b).rest, i - 1); }
  }

  lemma FrameJoins(f: Octets, fs: seq<Octets>, left: Octets)
    ensures Joined([f] + fs) + left == f + (Joined(fs) + left)
  {
    assert ([f] + fs)[1..] == fs;
  }

  /** One client connection; `incoming` is what the socket has still to deliver, chunk by chunk. */
  lemma Unread(chunks: seq<Octets>)
    ensures chunks[0..] == chunks && Joined(chunks[..0]) == []
  {
  }

  lemma OneChunkMore(chunks: seq<Octets>, n: nat)
    requires n < |chunks|
    ensures Joined(chunks[..n + 1]) == Joined(chunks[..n]) + chunks[n] && chunks[n..][0] == chunks[n]
    ensures chunks[n..][1..] == chunks[n + 1..]
  {
    assert chunks[..n + 1] == chunks[..n] + [chunks[n]];
    JoinedAppends(chunks[..n], [chunks[n]]);
    var last: seq<Octets> := [chunks[n]];
    assert last[1..] == [] && Joined(last[1..]) == [] && chunks[n] + [] == chunks[n];
  }

  predicate Complete(b: Octets) {
    |b| >= HEADER_SIZE && |b| >= FrameSize(b)
  }

  class AppConnection {
    var buffer: Octets
    var incoming: seq<Octets>

    constructor (incoming: seq<Octets>)
      ensures buffer == [] && this.incoming == incoming
    {
      buffer := [];
      this.incoming := incoming;
    }

    /** TCP delivers no empty chunk: an empty read is the end of the stream. */
    ghost predicate Valid()
      reads this
    {
      forall c :: c in incoming ==> c != []
    }

    ghost function Stream(): Octets
      reads this
    {
      buffer + Joined(incoming)
    }

    method Recv() returns (data: Octets)
      requires Valid()
      modifies this`incoming
      ensures Valid() && data + Joined(incoming) == Joined(old(incoming)) && (data == [] <==> old(incoming) == [])
      ensures if old(incoming) == [] then incoming == [] else data == old(incoming)[0] && incoming == old(incoming)[1..]
    {
      if incoming == [] {
        return [];
      }
      assert incoming[0] in incoming && forall c :: c in incoming[1..] ==> c in incoming;
      data := incoming[0];
      incoming := incoming[1..];
    }

    method PopAppFrame() returns (frame: Result<Option<Octets>>)
      modifies this`buffer
      ensures match old(Popped(buffer))
              case Frame(f, rest) => frame == Ok(Some(f)) && buffer == rest
              case Wait => frame == Ok(None) && buffer == old(buffer)
              case TooLarge => frame == Err(FrameTooLarge) && buffer == old(buffer)
    {
      if |buffer| < HEADER_SIZE {
        return Ok(None);
      }
      var total := HEADER_SIZE + Word(buffer, 0);
      if total > MAX_SIZE {
        return Err(FrameTooLarge);
      }
      if |buffer| < total {
        return Ok(None);
      }
      var taken := buffer[..total];
      buffer := buffer[total..];
      frame := Ok(Some(taken));
    }

    /** The stream's next frame, whatever chunks it comes in; the stream that is left starts right behind it. */
    method Receive() returns (frame: Result<Octets>)
      requires Valid()
      modifies this
      ensures Valid()
      ensures match Popped(old(Stream()))
              case Frame(f, rest) => frame == Ok(f) && Stream() == rest
              case _ => frame == Err(Closed) && Stream() == old(Stream()) && incoming == []
    {
      ghost var whole := Stream();
      NoFrameIsTooLarge(buffer);
      PoppedIsStable(buffer, Joined(incoming));
      var popped := PopAppFrame();
      while popped == Ok(None)
        invariant Valid()
        invariant popped == Ok(None) ==> Stream() == whole && Popped(buffer) == Wait
        invariant popped != Ok(None) ==>
                    popped.Ok? && popped.value.Some? && Popped(whole) == Frame(popped.value.value, Stream())
        decreases popped == Ok(None), |incoming|
      {
        var data := Recv();
        if data == [] {
          assert buffer + [] == buffer;
          return Err(Closed);
        }
        buffer := buffer + data;
        assert Stream() == whole;
        NoFrameIsTooLarge(buffer);
        PoppedIsStable(buffer, Joined(incoming));
        popped := PopAppFrame();
      }
      frame := Ok(popped.value.value);
    }

    predicate HasFrame()
      reads this
    {
      Complete(buffer)
    }

    /**
      Wait for up to `patience` chunks; the stream stays as it is, and ready means
      what `Receive` needs is there. No chunk is read beyond the first with which a
      frame is complete, and only patience or the stream running out gives up.
     */
    method Poll(patience: nat) returns (ready: Result<bool>)
      requires Valid()
      modifies this
      ensures Valid() && Stream() == old(Stream())
      ensures ready == Ok(true) ==> HasFrame() && Popped(buffer).Frame?
      ensures ready == Ok(false) ==> Popped(buffer) == Wait
      ensures ready.Err? ==> ready == Err(Closed) && incoming == [] && Popped(Stream()) == Wait
      ensures var n := |old(incoming)| - |incoming|;
              && 0 <= n <= patience && incoming == old(incoming)[n..]
              && (forall j :: 0 <= j < n ==> !Complete(old(buffer) + Joined(old(incoming)[..j])))
              && (ready == Ok(true) <==> Complete(old(buffer) + Joined(old(incoming)[..n])))
              && (ready == Ok(false) ==> n == patience)
    {
      var left := patience;
      ghost var n := 0;
      Unread(incoming);
      assert buffer + [] == buffer;
      while !HasFrame()
        invariant Valid() && Stream() == old(Stream())
        invariant 0 <= n <= |old(incoming)| && n + left == patience && incoming == old(incoming)[n..]
        invariant buffer == old(buffer) + Joined(old(incoming)[..n])
        invariant forall j :: 0 <= j < n ==> !Complete(old(buffer) + Joined(old(incoming)[..j]))
        decreases left
      {
        if left == 0 {
          return Ok(false);
        }
        left := left - 1;
        var data := Recv();
        if data == [] {
          assert buffer + [] == buffer;
          return Err(Closed);
        }
        buffer := buffer + data;
        OneChunkMore(old(incoming), n);
        assert old(buffer) + Joined(old(incoming)[..n]) + data == old(buffer) + (Joined(old(incoming)[..n]) + data);
        n := n + 1;
      }
      NoFrameIsTooLarge(buffer);
      ready := Ok(true);
    }
  }

  function Prefixed(fs: seq<Octets>, split: (seq<Octets>, Octets)): (seq<Octets>, Octets) {
    (fs + split.0, split.1)
  }

  lemma Regroup<T>(fs: seq<T>, f: T, gs: seq<T>)
    ensures fs + ([f] + gs) == fs + [f] + gs && fs + [] == fs
  {
  }

  lemma OneFrameOff(found: seq<Octets>, b: Octets)
    ensures Prefixed(found, Split(b))
         == match Popped(b)
            case Frame(f, rest) => Prefixed(found + [f], Split(rest))
            case _ => (found, b)
  {
    if Popped(b).Frame? {
      Regroup(found, Popped(b).frame, Split(Popped(b).rest).0);
    } else {
      assert found + [] == found;
    }
  }

  /** A complete byte stream as frames, or an error when it does not end with one. */
  method SplitAppFrames(data: Octets) returns (frames: Result<seq<Octets>>)
    ensures frames == if Split(data).1 == [] then Ok(Split(data).0) else Err(TrailingBytes)
  {
    var connection := new AppConnection([]);
    connection.buffer := data;
    var found: seq<Octets> := [];
    assert Prefixed([], Split(data)) == Split(data) by { assert [] + Split(data).0 == Split(data).0; }
    NoFrameIsTooLarge(data);
    OneFrameOff([], data);
    var popped := connection.PopAppFrame();
    while popped.value.Some?
      invariant popped.Ok?
      invariant popped.value.None? ==> Split(data) == (found, connection.buffer)
      invariant popped.value.Some? ==> Split(data) == Prefixed(found + [popped.value.value], Split(connection.buffer))
      decreases popped.value.Some?, |connection.buffer|
    {
      found := found + [popped.value.value];
      NoFrameIsTooLarge(connection.buffer);
      OneFrameOff(found, connection.buffer);
      popped := connection.PopAppFrame();
    }
    frames := if connection.buffer == [] then Ok(found) else Err(TrailingBytes);
  }
}
