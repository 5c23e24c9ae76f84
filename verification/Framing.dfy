/** One message a line over a stream of bytes (framing.rs). */
module Framing {
  import opened Wrappers
  import opened Bytes

  const MAX_LINE_BYTES: nat := 67_108_864
  const NEWLINE: byte := 10

  datatype StreamError = TooLong | NotUtf8

  function Flatten(chunks: seq<seq<byte>>): seq<byte> {
    if chunks == [] then [] else chunks[0] + Flatten(chunks[1..])
  }

  /** The bytes before the first newline, or all of them. */
  function LineOf(s: seq<byte>): seq<byte> {
    if s == [] || s[0] == NEWLINE then [] else [s[0]] + LineOf(s[1..])
  }

  /** What is left once that line, and its newline if it has one, is taken. */
  function After(s: seq<byte>): seq<byte> {
    var n := LineLength(s);
    if n == |s| then [] else s[n + 1..]
  }

  function LineLength(s: seq<byte>): (n: nat)
    ensures n == |LineOf(s)| <= |s| && LineOf(s) == s[..n]
    ensures NEWLINE !in s[..n] && (n < |s| ==> s[n] == NEWLINE)
  {
    if s == [] || s[0] == NEWLINE then 0 else 1 + LineLength(s[1..])
  }

  /** The newline split: an unterminated last line is a line, and nothing after the last newline is not. */
  function Lines(s: seq<byte>): seq<seq<byte>>
    decreases |s|
  {
    if s == [] then [] else
    var n := LineLength(s);
    [LineOf(s)] + Lines(After(s))
  }

  /** What `send` puts on the wire for messages sent one after another. */
  function Wire(messages: seq<seq<byte>>): seq<byte> {
    if messages == [] then [] else messages[0] + [NEWLINE] + Wire(messages[1..])
  }

  /** The first newline is where the line stops. */
  lemma {:induction false} LineStopsAt(s: seq<byte>, n: nat)
    requires n <= |s| && NEWLINE !in s[..n] && (n < |s| ==> s[n] == NEWLINE)
    ensures LineLength(s) == n
  {
    if n > 0 {
      assert s[0] == s[..n][0] && s[1..][..n - 1] == s[..n][1..];
      LineStopsAt(s[1..], n - 1);
    }
  }

  lemma LineOfTerminated(line: seq<byte>, rest: seq<byte>)
    requires NEWLINE !in line
    ensures LineOf(line + [NEWLINE] + rest) == line && After(line + [NEWLINE] + rest) == rest
  {
    var s := line + [NEWLINE] + rest;
    assert s[..|line|] == line && s[|line| + 1..] == rest;
    LineStopsAt(s, |line|);
  }

  lemma LineOfUnterminated(s: seq<byte>)
    requires NEWLINE !in s
    ensures LineOf(s) == s && After(s) == []
  {
    assert s[..|s|] == s;
    LineStopsAt(s, |s|);
  }

  lemma DropsTo(a: seq<byte>, b: seq<byte>)
    ensures (a + b)[|a|..] == b
  {}

  lemma {:induction false} LongPrefix(a: seq<byte>, b: seq<byte>)
    requires NEWLINE !in a
    ensures |LineOf(a + b)| >= |a|
  {
    if a != [] {
      assert a[0] in a && (a + b)[1..] == a[1..] + b;
      LongPrefix(a[1..], b);
    }
  }

  /** A read that holds the line's end: what was kept and the read up to there make the line. */
  lemma ReadEndsLine(kept: seq<byte>, piece: seq<byte>, n: nat, rest: seq<byte>)
    requires NEWLINE !in kept && n == LineLength(piece) < |piece|
    ensures LineOf(kept + (piece + rest)) == kept + piece[..n]
    ensures After(kept + (piece + rest)) == piece[n + 1..] + rest
  {
    CutAtNewline(kept, piece, n, rest);
    LineOfTerminated(kept + piece[..n], piece[n + 1..] + rest);
  }

  lemma CutAtNewline(kept: seq<byte>, piece: seq<byte>, n: nat, rest: seq<byte>)
    requires n < |piece| && piece[n] == NEWLINE
    ensures kept + (piece + rest) == (kept + piece[..n]) + [NEWLINE] + (piece[n + 1..] + rest)
  {
    assert piece == piece[..n] + [NEWLINE] + piece[n + 1..];
  }

  /** A read without the line's end is kept whole. */
  lemma ReadExtendsLine(kept: seq<byte>, piece: seq<byte>, n: nat, rest: seq<byte>)
    requires NEWLINE !in kept && n == LineLength(piece) == |piece|
    ensures NEWLINE !in kept + piece && piece[..n] == piece && piece[n..] == []
    ensures kept + (piece + rest) == (kept + piece) + rest && [] + rest == rest
  {
    assert piece[..n] == piece;
    assert NEWLINE !in kept + piece;
    Regroup(kept, piece, rest);
  }

  lemma Regroup<T>(a: seq<T>, b: seq<T>, c: seq<T>)
    ensures a + (b + c) == (a + b) + c && [] + c == c
  {
  }

  /** Reading the wire gives back what was sent. */
  lemma {:induction false} LinesUndoWire(messages: seq<seq<byte>>)
    requires forall m | m in messages :: NEWLINE !in m
    ensures Lines(Wire(messages)) == messages
  {
    if messages != [] {
      var rest := Wire(messages[1..]);
      LineOfTerminated(messages[0], rest);
      LinesUndoWire(messages[1..]);
      assert Wire(messages) == messages[0] + [NEWLINE] + rest;
      LinesOfTerminated(messages[0], rest);
      assert messages == [messages[0]] + messages[1..];
    }
  }

  lemma LinesOfTerminated(line: seq<byte>, rest: seq<byte>)
    requires NEWLINE !in line
    ensures Lines(line + [NEWLINE] + rest) == [line] + Lines(rest)
  {
    LineOfTerminated(line, rest);
  }

  // ------------------------------------------------------------ dropped reads

  /** How a turn of the connection's loop ends. */
  datatype Outcome = NewLine | GoesOut | Refused | AtEnd

  /** What it did to the stream: a line delivered, or a waiting read dropped with what it had taken. */
  datatype Turn = Delivered | Dropped(lost: nat)

  function Left(s: seq<byte>, turns: seq<Turn>): seq<byte> {
    if turns == [] then s else
    var rest := Left(s, turns[..|turns| - 1]);
    match turns[|turns| - 1]
    case Delivered => After(rest)
    case Dropped(n) => if n <= |rest| then rest[n..] else []
  }

  function Heard(s: seq<byte>, turns: seq<Turn>): seq<seq<byte>> {
    if turns == [] then [] else
    var before := turns[..|turns| - 1];
    Heard(s, before) + if turns[|turns| - 1].Delivered? then [LineOf(Left(s, before))] else []
  }

  /** A line is delivered when there is one, and a read that waits has taken no newline. */
  predicate Possible(s: seq<byte>, turns: seq<Turn>) {
    turns == [] ||
    var rest := Left(s, turns[..|turns| - 1]);
    && Possible(s, turns[..|turns| - 1])
    && match turns[|turns| - 1] case Delivered => rest != [] case Dropped(n) => n <= LineLength(rest)
  }

  /** No read was dropped after it had taken some of its line. */
  predicate Whole(turns: seq<Turn>) { forall i | 0 <= i < |turns| :: turns[i].Delivered? || turns[i].lost == 0 }

  /** How many reads were dropped. */
  function Drops(turns: seq<Turn>): nat {
    if turns == [] then 0 else
    Drops(turns[..|turns| - 1]) + if turns[|turns| - 1].Dropped? then 1 else 0
  }

  lemma {:induction false} WithoutDropsIsWhole(turns: seq<Turn>)
    ensures Drops(turns) == 0 ==> Whole(turns)
  {
    if turns != [] { WithoutDropsIsWhole(turns[..|turns| - 1]); }
  }

  lemma OneMoreTurn(s: seq<byte>, turns: seq<Turn>, t: Turn)
    ensures Left(s, turns + [t]) == match t
              case Delivered => After(Left(s, turns))
              case Dropped(n) => if n <= |Left(s, turns)| then Left(s, turns)[n..] else []
    ensures Heard(s, turns + [t]) == Heard(s, turns) + if t.Delivered? then [LineOf(Left(s, turns))] else []
    ensures Possible(s, turns + [t]) ==
              (Possible(s, turns)
               && match t case Delivered => Left(s, turns) != [] case Dropped(n) => n <= LineLength(Left(s, turns)))
    ensures Drops(turns + [t]) == Drops(turns) + if t.Dropped? then 1 else 0
  {
    assert (turns + [t])[..|turns|] == turns;
  }

  /** What has been heard after these turns, and what is left of the stream. */
  predicate HeardSoFar(s: seq<byte>, turns: seq<Turn>, lines: seq<seq<byte>>, rest: seq<byte>) {
    Possible(s, turns) && lines == Heard(s, turns) && rest == Left(s, turns)
  }

  lemma DeliveredNext(s: seq<byte>, turns: seq<Turn>, lines: seq<seq<byte>>, rest: seq<byte>)
    requires HeardSoFar(s, turns, lines, rest) && rest != []
    ensures HeardSoFar(s, turns + [Delivered], lines + [LineOf(rest)], After(rest)) && Drops(turns + [Delivered]) == Drops(turns)
  {
    OneMoreTurn(s, turns, Delivered);
  }

  lemma DroppedNext(s: seq<byte>, turns: seq<Turn>, lines: seq<seq<byte>>, rest: seq<byte>, lost: nat)
    requires HeardSoFar(s, turns, lines, rest) && lost <= LineLength(rest)
    ensures HeardSoFar(s, turns + [Dropped(lost)], lines, rest[lost..]) && Drops(turns + [Dropped(lost)]) == Drops(turns) + 1
  {
    OneMoreTurn(s, turns, Dropped(lost));
  }

  function Size(lines: seq<seq<byte>>): nat { if lines == [] then 0 else |lines[0]| + Size(lines[1..]) }

  lemma {:induction false} SizeAppend(lines: seq<seq<byte>>, line: seq<byte>)
    ensures Size(lines + [line]) == Size(lines) + |line|
  {
    if lines != [] {
      assert (lines + [line])[1..] == lines[1..] + [line];
      SizeAppend(lines[1..], line);
    }
  }

  function Newlines(s: seq<byte>): nat { if s == [] then 0 else (if s[0] == NEWLINE then 1 else 0) + Newlines(s[1..]) }

  lemma {:induction false} SkipNoNewline(s: seq<byte>, n: nat)
    requires n <= LineLength(s)
    ensures Newlines(s[n..]) == Newlines(s)
  {
    if n > 0 {
      SkipNoNewline(s[1..], n - 1);
      assert s[1..][n - 1..] == s[n..];
    } else {
      assert s[n..] == s;
    }
  }

  /** A line takes its bytes and its newline, if it has one, off the stream. */
  lemma LineTakes(s: seq<byte>)
    requires s != []
    ensures |s| - Newlines(s) == |LineOf(s)| + |After(s)| - Newlines(After(s))
  {
    var n := LineLength(s);
    SkipNoNewline(s, n);
    if n < |s| { assert s[n..][1..] == s[n + 1..]; }
  }

  function Lost(turns: seq<Turn>): nat {
    if turns == [] then 0 else
    Lost(turns[..|turns| - 1]) + if turns[|turns| - 1].Dropped? then turns[|turns| - 1].lost else 0
  }

  /** Every byte of the stream that is no newline was heard, lost, or is still to come. */
  lemma {:induction false} NothingElseGoesMissing(s: seq<byte>, turns: seq<Turn>)
    requires Possible(s, turns)
    ensures Size(Heard(s, turns)) + Lost(turns) + |Left(s, turns)| - Newlines(Left(s, turns)) == |s| - Newlines(s)
  {
    if turns != [] {
      var before, last := turns[..|turns| - 1], turns[|turns| - 1];
      var rest := Left(s, before);
      NothingElseGoesMissing(s, before);
      match last
      case Delivered =>
        LineTakes(rest);
        SizeAppend(Heard(s, before), LineOf(rest));
      case Dropped(n) =>
        SkipNoNewline(rest, n);
        assert Heard(s, turns) == Heard(s, before);
    }
  }

  lemma {:induction false} LinesHoldAll(s: seq<byte>)
    ensures Size(Lines(s)) == |s| - Newlines(s)
    decreases |s|
  {
    if s != [] {
      LineTakes(s);
      LinesHoldAll(After(s));
      assert ([LineOf(s)] + Lines(After(s)))[1..] == Lines(After(s));
    }
  }

  lemma {:induction false} WholeTurnsHearTheSplit(s: seq<byte>, turns: seq<Turn>)
    requires Possible(s, turns) && Whole(turns)
    ensures Lines(s) == Heard(s, turns) + Lines(Left(s, turns))
  {
    if turns != [] {
      var before := turns[..|turns| - 1];
      WholeTurnsHearTheSplit(s, before);
      var rest := Left(s, before);
      if turns[|turns| - 1].Delivered? {
        NextLine(Heard(s, before), rest);
      } else {
        assert rest[0..] == rest && Heard(s, turns) == Heard(s, before);
      }
    }
  }

  lemma {:induction false} WholeLosesNothing(turns: seq<Turn>)
    ensures Whole(turns) <==> Lost(turns) == 0
  {
    if turns != [] {
      var n := |turns| - 1;
      WholeLosesNothing(turns[..n]);
      assert forall i | 0 <= i < n :: turns[i] == turns[..n][i];
      if Whole(turns) { assert turns[n].Delivered? || turns[n].lost == 0; }
    }
  }

  /** A stream read to its end is heard as its newline split exactly when no dropped read had taken
      part of a line. */
  lemma TornExactly(s: seq<byte>, turns: seq<Turn>)
    requires Possible(s, turns) && Left(s, turns) == []
    ensures Heard(s, turns) == Lines(s) <==> Whole(turns)
  {
    NothingElseGoesMissing(s, turns);
    LinesHoldAll(s);
    WholeLosesNothing(turns);
    if Whole(turns) {
      WholeTurnsHearTheSplit(s, turns);
    }
  }

  /** A read dropped after `n` bytes of its line, and the next one. */
  lemma DropThenDeliver(s: seq<byte>, turns: seq<Turn>, lines: seq<seq<byte>>, rest: seq<byte>, n: nat)
    requires HeardSoFar(s, turns, lines, rest) && n <= LineLength(rest) && rest[n..] != []
    ensures HeardSoFar(s, turns + [Dropped(n)] + [Delivered], lines + [LineOf(rest[n..])], After(rest[n..]))
  {
    DroppedNext(s, turns, lines, rest, n);
    DeliveredNext(s, turns + [Dropped(n)], lines, rest[n..]);
  }

  /** A line of two bytes, the first of them read when a message goes out: its second is all that is heard. */
  lemma ALineIsTorn(a: byte, b: byte)
    requires a != NEWLINE && b != NEWLINE
    ensures var s, turns := [a, b, NEWLINE], [Dropped(1), Delivered];
            Possible(s, turns) && Left(s, turns) == [] && Heard(s, turns) == [[b]] && Lines(s) == [[a, b]]
  {
    var s := [a, b, NEWLINE];
    LineStopsAt(s, 2);
    LineStopsAt([b, NEWLINE], 1);
    assert s[..2] == [a, b] && s[3..] == [] && s[1..] == [b, NEWLINE];
    assert [b, NEWLINE][..1] == [b] && [b, NEWLINE][2..] == [];
    assert HeardSoFar(s, [], [], s);
    DropThenDeliver(s, [], [], s, 1);
    assert [] + [Dropped(1)] + [Delivered] == [Dropped(1), Delivered];
  }

  lemma WireGrows(messages: seq<seq<byte>>, n: nat, first: seq<byte>)
    requires n < |messages|
    ensures first + Wire(messages[..n]) + (messages[n] + [NEWLINE]) == first + Wire(messages[..n + 1])
  {
    assert messages[..n + 1] == messages[..n] + [messages[n]];
    WireAppend(messages[..n], messages[n]);
  }

  lemma {:induction false} WireAppend(messages: seq<seq<byte>>, m: seq<byte>)
    ensures Wire(messages + [m]) == Wire(messages) + (m + [NEWLINE])
  {
    if messages == [] {
      assert [m][1..] == [] && [] + [m] == [m];
    } else {
      assert (messages + [m])[1..] == messages[1..] + [m];
      WireAppend(messages[1..], m);
    }
  }

  class JsonStream {
    /** Bytes read from the peer and not yet consumed, and the reads still to come. */
    var available: seq<byte>
    var chunks: seq<seq<byte>>
    var written: seq<byte>
    const isUtf8: seq<byte> -> bool
    const chunkBytes: nat

    ghost predicate Valid() reads this {
      && |available| <= chunkBytes
      && forall i | 0 <= i < |chunks| :: 0 < |chunks[i]| <= chunkBytes
    }

    ghost function Remaining(): seq<byte> reads this { available + Flatten(chunks) }

    constructor (chunks: seq<seq<byte>>, isUtf8: seq<byte> -> bool, chunkBytes: nat)
      requires forall i | 0 <= i < |chunks| :: 0 < |chunks[i]| <= chunkBytes
      ensures Valid() && Remaining() == Flatten(chunks) && written == []
      ensures this.isUtf8 == isUtf8 && this.chunkBytes == chunkBytes
    {
      available, this.chunks, written := [], chunks, [];
      this.isUtf8, this.chunkBytes := isUtf8, chunkBytes;
    }

    /** Write a message and its newline; `takes` is how many bytes the peer takes before the write fails. */
    method Send(line: seq<byte>, takes: nat) returns (ok: bool)
      modifies this`written
      ensures ok <==> |line| < takes
      ensures written == old(written) + if ok then line + [NEWLINE] else line[..takes]
    {
      ok := |line| < takes;
      written := written + if ok then line + [NEWLINE] else line[..takes];
    }

    /** Read more only when everything read is consumed; empty means the end. */
    method FillBuf()
      requires Valid()
      modifies this`available, this`chunks
      ensures Valid() && Remaining() == old(Remaining())
      ensures available == [] <==> Remaining() == []
      ensures |chunks| <= old(|chunks|) && (old(available) == [] && available != [] ==> |chunks| < old(|chunks|))
    {
      if available == [] && chunks != [] {
        available := chunks[0];
        chunks := chunks[1..];
      }
    }

    /** The next line, or nothing at the end. For lines within the limit the answer does not depend
        on how the bytes were cut into reads; a longer line is refused, or, when its end comes in the
        read that passes the limit, delivered. `peak` is the most that was ever buffered. */
    method Recv() returns (r: Result<Option<seq<byte>>, StreamError>, ghost peak: nat)
      requires Valid()
      modifies this`available, this`chunks
      ensures Valid() && peak <= MAX_LINE_BYTES + chunkBytes
      ensures old(Remaining()) == [] ==> r == Ok(None) && Remaining() == []
      ensures old(Remaining()) != [] && r != Err(TooLong) ==>
                && r == (if isUtf8(LineOf(old(Remaining()))) then Ok(Some(LineOf(old(Remaining())))) else Err(NotUtf8))
                && Remaining() == After(old(Remaining()))
                && |LineOf(old(Remaining()))| <= peak
      ensures r == Err(TooLong) ==> |LineOf(old(Remaining()))| > MAX_LINE_BYTES
    {
      var buf: seq<byte> := [];
      ghost var all := Remaining();
      peak := 0;
      assert [] + all == all;
      while true
        invariant Valid() && NEWLINE !in buf && |buf| == peak <= MAX_LINE_BYTES
        invariant all == buf + Remaining()
        decreases |Remaining()|
      {
        var ended, end;
        buf, ended, end := NextPiece(buf);
        peak := |buf|;
        if end {
          LineOfUnterminated(buf);
          assert all == buf;
          return if buf == [] then Ok(None) else Finish(buf), peak;
        }
        if ended {
          return Finish(buf), peak;
        }
        if |buf| > MAX_LINE_BYTES {
          LongPrefix(buf, Remaining());
          return Err(TooLong), peak;
        }
      }
    }

    /** One turn of that loop: a read, cut at the first newline it holds. `ended` when there is one,
        `end` when the stream has nothing more. */
    method NextPiece(kept: seq<byte>) returns (buf: seq<byte>, ended: bool, end: bool)
      requires Valid() && NEWLINE !in kept
      modifies this`available, this`chunks
      ensures Valid() && |kept| <= |buf| <= |kept| + chunkBytes
      ensures end <==> old(Remaining()) == []
      ensures end ==> !ended && buf == kept && Remaining() == []
      ensures ended ==> buf == LineOf(kept + old(Remaining())) && Remaining() == After(kept + old(Remaining()))
      ensures !ended ==> NEWLINE !in buf && buf + Remaining() == kept + old(Remaining())
      ensures !ended && !end ==> |Remaining()| < |old(Remaining())|
    {
      FillBuf();
      if available == [] {
        return kept, false, true;
      }
      var n := LineLength(available);
      ended, end := n < |available|, false;
      if ended {
        ReadEndsLine(kept, available, n, Flatten(chunks));
      } else {
        ReadExtendsLine(kept, available, n, Flatten(chunks));
      }
      buf := kept + available[..n];
      Consume(if ended then n + 1 else n);
    }

    /** The same call, dropped when it is still waiting after so many reads. What it had taken is `lost`. */
    method RecvUnlessDropped(polls: nat) returns (r: Option<Result<Option<seq<byte>>, StreamError>>, lost: nat)
      requires Valid()
      modifies this`available, this`chunks
      ensures Valid()
      ensures r.None? ==> lost <= LineLength(old(Remaining())) && Remaining() == old(Remaining())[lost..]
      ensures r == Some(Ok(None)) ==> old(Remaining()) == [] && Remaining() == []
      ensures r.Some? && r.value.Err? ==> Refusable(LineOf(old(Remaining())))
      ensures r.Some? && r.value.Ok? && r.value.value.Some? ==>
                old(Remaining()) != [] && r.value.value.value == LineOf(old(Remaining())) && Remaining() == After(old(Remaining()))
    {
      var buf: seq<byte> := [];
      ghost var all := Remaining();
      assert all[0..] == all;
      assert [] + all == all;
      for poll := 0 to polls
        invariant Valid() && NEWLINE !in buf
        invariant all == buf + Remaining()
      {
        var ended, end;
        buf, ended, end := NextPiece(buf);
        if end {
          LineOfUnterminated(buf);
          assert all == buf;
          return Some(if buf == [] then Ok(None) else Finish(buf)), 0;
        }
        if ended {
          return Some(Finish(buf)), 0;
        }
        if |buf| > MAX_LINE_BYTES {
          LongPrefix(buf, Remaining());
          return Some(Err(TooLong)), 0;
        }
      }
      LongPrefix(buf, Remaining());
      DropsTo(buf, Remaining());
      return None, |buf|;
    }

    method Consume(n: nat)
      requires Valid() && n <= |available|
      modifies this`available
      ensures Valid() && available == old(available)[n..]
    {
      available := available[n..];
    }

    function Finish(buf: seq<byte>): Result<Option<seq<byte>>, StreamError> {
      if isUtf8(buf) then Ok(Some(buf)) else Err(NotUtf8)
    }

    /** Reading alone, with nothing going out. However the stream arrives, what comes out is its newline
        split, up to the first line that is over the limit or not text. */
    method ReadAll() returns (lines: seq<seq<byte>>, failed: bool)
      requires Valid()
      modifies this`available, this`chunks
      ensures !failed ==> lines == Lines(old(Remaining())) && Remaining() == []
      ensures failed ==> lines < Lines(old(Remaining())) &&
                         (|Lines(old(Remaining()))[|lines|]| > MAX_LINE_BYTES || !isUtf8(Lines(old(Remaining()))[|lines|]))
      ensures forall line | line in lines :: isUtf8(line)
    {
      ghost var all := Remaining();
      lines, failed := [], false;
      while true
        invariant Valid() && Lines(all) == lines + Lines(Remaining())
        invariant forall line | line in lines :: isUtf8(line)
        decreases |Remaining()|
      {
        ghost var before := Remaining();
        var r, peak := Recv();
        if r == Ok(None) { return; }
        NextLine(lines, before);
        if r.Err? { return lines, true; }
        lines := lines + [r.value.value];
      }
    }

    /** The connection's loop: read lines, and send each message as it comes. A message that is ready
        while a read waits (after so many `polls`, turn by turn) drops that read, and nothing else does.
        The lines heard are the newline split exactly when no read was dropped in the middle of its line;
        where nothing was sent they are. */
    method Serve(messages: seq<seq<byte>>, polls: nat -> nat, takes: nat -> nat)
      returns (lines: seq<seq<byte>>, failed: bool, turns: seq<Turn>, sent: nat)
      requires Valid()
      modifies this
      ensures Possible(old(Remaining()), turns) && lines == Heard(old(Remaining()), turns)
      ensures !failed ==> Remaining() == [] && (lines == Lines(old(Remaining())) <==> Whole(turns))
      ensures !failed && sent == 0 ==> lines == Lines(old(Remaining()))
      ensures !failed ==> Drops(turns) == sent
      ensures failed ==> var line := LineOf(Left(old(Remaining()), turns));
                         || ((|line| > MAX_LINE_BYTES || !isUtf8(line)) && Drops(turns) == sent)
                         || (sent < |messages| && |messages[sent]| >= takes(sent) && Drops(turns) == sent + 1)
      ensures sent <= |messages| && (!failed ==> written == old(written) + Wire(messages[..sent]))
    {
      ghost var all := Remaining();
      lines, failed, turns, sent := [], false, [], 0;
      var turn := 0;
      assert messages[..0] == [] && written + Wire([]) == written;
      while true
        invariant Valid() && HeardSoFar(all, turns, lines, Remaining()) && Drops(turns) == sent
        invariant sent <= |messages| && written == old(written) + Wire(messages[..sent])
        decreases |messages| - sent, |Remaining()|
      {
        var outcome;
        turns, lines, outcome := TakeTurn(all, turns, lines, sent == |messages|, polls(turn));
        turn := turn + 1;
        match outcome {
          case NewLine =>
          case GoesOut =>
            var ok := Send(messages[sent], takes(sent));
            if !ok { failed := true; return; }
            WireGrows(messages, sent, old(written));
            sent := sent + 1;
          case Refused =>
            failed := true;
            return;
          case AtEnd =>
            TornExactly(all, turns);
            WithoutDropsIsWhole(turns);
            return;
        }
      }
    }

    /** Wait for a line: to the end if nothing goes out any more, else until a message does. */
    method TakeTurn(ghost all: seq<byte>, turns: seq<Turn>, lines: seq<seq<byte>>, alone: bool, polls: nat)
      returns (turns': seq<Turn>, lines': seq<seq<byte>>, outcome: Outcome)
      requires Valid() && HeardSoFar(all, turns, lines, Remaining())
      modifies this`available, this`chunks
      ensures Valid() && (alone ==> !outcome.GoesOut?)
      ensures !outcome.Refused? ==> HeardSoFar(all, turns', lines', Remaining())
      ensures outcome.Refused? || outcome.AtEnd? ==> turns' == turns && lines' == lines
      ensures Drops(turns') == Drops(turns) + if outcome.GoesOut? then 1 else 0
      ensures outcome.AtEnd? ==> Remaining() == []
      ensures outcome.Refused? ==> Refusable(LineOf(Left(all, turns)))
      ensures outcome.NewLine? ==> |Remaining()| < |old(Remaining())|
    {
      ghost var before := Remaining();
      var r, lost;
      if alone {
        var result, peak := Recv();
        r, lost := Some(result), 0;
      } else {
        r, lost := RecvUnlessDropped(polls);
      }
      turns', lines', outcome := turns, lines, AtEnd;
      if r.None? {
        DroppedNext(all, turns, lines, before, lost);
        turns', outcome := turns + [Dropped(lost)], GoesOut;
      } else if r.value.Err? {
        outcome := Refused;
      } else if r.value.value.Some? {
        DeliveredNext(all, turns, lines, before);
        NextLine([], before);
        turns', lines', outcome := turns + [Delivered], lines + [r.value.value.value], NewLine;
      }
    }

    predicate Refusable(line: seq<byte>) { |line| > MAX_LINE_BYTES || !isUtf8(line) }
  }

  lemma NextLine(lines: seq<seq<byte>>, left: seq<byte>)
    requires left != []
    ensures var all := lines + Lines(left);
            lines < all && all[|lines|] == LineOf(left) && all == lines + [LineOf(left)] + Lines(After(left))
    ensures |After(left)| < |left|
  {
    assert Lines(left) == [LineOf(left)] + Lines(After(left));
    Splice(lines, LineOf(left), Lines(After(left)));
  }

  lemma Splice<T>(a: seq<T>, x: T, b: seq<T>)
    ensures var all := a + ([x] + b); a < all && all[|a|] == x && all == a + [x] + b
  {
  }
}
