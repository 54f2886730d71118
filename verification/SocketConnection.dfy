/** Lines over a byte stream: the incremental line splitter and the write buffer of
    deephome/common/source/proto/SocketConnection.cpp. */
module SocketConnection {
  import opened Sequences
  import opened Text
  import opened Messages
  import opened WireFormat

  const WRITE_BUFFER_LIMIT: nat := 1024 * 1024
  const READ_SIZE: nat := 4096

  /** What one recv call gave. */
  datatype RecvOutcome = Received(bytes: string) | RecvWouldBlock | RecvClosed | RecvFailed

  /** What one send call gave: how many bytes the kernel took, or why none. */
  datatype SendOutcome = Sent(count: nat) | SendWouldBlock | SendClosed | SendFailed

  /** What packet_received was given: a packet, or the null packet that reports an error. */
  datatype Event = Delivered(packet: Packet) | Disconnected

  // --- The lines of a stream, one character at a time ---

  predicate NewLine(c: char) {
    c == '\r' || c == '\n'
  }

  predicate NotNewLine(c: char) {
    !NewLine(c)
  }

  predicate NoNewLine(s: string) {
    forall i :: 0 <= i < |s| ==> !NewLine(s[i])
  }

  predicate OnlyNewLines(s: string) {
    forall i :: 0 <= i < |s| ==> NewLine(s[i])
  }

  predicate BlankLine(s: string) {
    forall i :: 0 <= i < |s| ==> Blank(s[i])
  }

  /** The non-blank lines so far and the unterminated rest. */
  datatype Framed = Framed(lines: seq<string>, tail: string)

  const NOTHING: Framed := Framed([], "")

  function Ended(f: Framed): Framed {
    Framed(if BlankLine(f.tail) then f.lines else f.lines + [f.tail], "")
  }

  function Feed(f: Framed, c: char): Framed {
    if NewLine(c) then Ended(f) else f.(tail := f.tail + [c])
  }

  function FeedAll(f: Framed, s: string): Framed
    decreases s
  {
    if s == "" then f else FeedAll(Feed(f, s[0]), s[1..])
  }

  /** The lines of a whole stream. */
  function Frame(stream: string): Framed {
    FeedAll(NOTHING, stream)
  }

  /** What a line leads to; one that does not parse is dropped. */
  function LineEvents(line: string): seq<Event> {
    match Parse(line) case Err => [] case Ok(p) => [Delivered(p)]
  }

  function Events(lines: seq<string>): seq<Event> {
    FlatMap(LineEvents, lines)
  }

  /** However a stream is cut in two, framing the parts in turn frames the whole. */
  lemma {:induction false} FeedAppend(f: Framed, a: string, b: string)
    ensures FeedAll(f, a + b) == FeedAll(FeedAll(f, a), b)
    decreases a
  {
    if a == "" {
      assert a + b == b;
    } else {
      assert (a + b)[1..] == a[1..] + b;
      FeedAppend(Feed(f, a[0]), a[1..], b);
    }
  }

  lemma {:induction false} FeedText(f: Framed, s: string)
    requires NoNewLine(s)
    ensures FeedAll(f, s) == f.(tail := f.tail + s)
    decreases s
  {
    if s == "" {
      assert f.tail + s == f.tail;
    } else {
      FeedText(Feed(f, s[0]), s[1..]);
      assert f.tail + [s[0]] + s[1..] == f.tail + s;
    }
  }

  lemma {:induction false} FeedNewLines(lines: seq<string>, s: string)
    requires OnlyNewLines(s)
    ensures FeedAll(Framed(lines, ""), s) == Framed(lines, "")
    decreases s
  {
    if s != "" {
      FeedNewLines(lines, s[1..]);
    }
  }

  /** One line and the line ends after it. */
  lemma FeedLine(lines: seq<string>, line: string, breaks: string, rest: string)
    requires NoNewLine(line) && OnlyNewLines(breaks) && breaks != ""
    ensures FeedAll(Framed(lines, ""), line + (breaks + rest)) == FeedAll(Ended(Framed(lines, line)), rest)
  {
    assert "" + line == line;
    FeedAppend(Framed(lines, ""), line, breaks + rest);
    FeedText(Framed(lines, ""), line);
    FeedAppend(Framed(lines, line), breaks, rest);
    FeedNewLines(Ended(Framed(lines, line)).lines, breaks[1..]);
  }

  lemma {:induction false} TailHasNoNewLine(f: Framed, s: string)
    requires NoNewLine(f.tail)
    ensures NoNewLine(FeedAll(f, s).tail)
    decreases s
  {
    if s != "" {
      TailHasNoNewLine(Feed(f, s[0]), s[1..]);
    }
  }

  /** Lines already complete do not influence later ones. */
  lemma {:induction false} FeedKeepsLines(f: Framed, s: string)
    ensures FeedAll(f, s).lines == f.lines + FeedAll(Framed([], f.tail), s).lines
    ensures FeedAll(f, s).tail == FeedAll(Framed([], f.tail), s).tail
    decreases s
  {
    if s != "" {
      var g := Feed(Framed([], f.tail), s[0]);
      FeedKeepsLines(Feed(f, s[0]), s[1..]);
      FeedKeepsLines(g, s[1..]);
      assert Feed(f, s[0]).lines == f.lines + g.lines;
    }
  }

  lemma SplitAt(sent: string, buffer: string, pos: nat)
    requires pos <= |buffer|
    ensures sent + buffer[..pos] + buffer[pos..] == sent + buffer
    ensures pos == |buffer| ==> buffer[pos..] == "" && sent + buffer[..pos] + "" == sent + buffer
  {
    assert buffer == buffer[..pos] + buffer[pos..];
  }

  // --- The connection ---

  class SocketConnection {
    var readBuffer: string
    var writeBuffer: string
    var gotError: bool
    var readListener: bool
    var writeListener: bool

    // History: bytes received, packets passed on, bytes accepted by send, bytes given to the kernel,
    // and whether no accepted byte was thrown away or sent twice.
    ghost var stream: string
    ghost var events: seq<Event>
    ghost var accepted: string
    ghost var wire: string
    ghost var intact: bool

    ghost predicate Valid()
      reads this
    {
      && readBuffer == Frame(stream).tail
      && (!gotError ==> events == Events(Frame(stream).lines))
      && |writeBuffer| <= WRITE_BUFFER_LIMIT
      && (intact ==> wire + writeBuffer == accepted)
      && (!gotError ==> (writeListener <==> writeBuffer != ""))
    }

    constructor ()
      ensures Valid() && !gotError && stream == "" && accepted == "" && wire == "" && intact
      ensures readBuffer == "" && writeBuffer == "" && events == [] && !readListener && !writeListener
    {
      readBuffer, writeBuffer, gotError, readListener, writeListener := "", "", false, false, false;
      stream, events, accepted, wire, intact := "", [], "", "", true;
    }

    method Subscribe()
      requires Valid()
      modifies `readListener
      ensures Valid() && readListener
    {
      readListener := true;
    }

    method Unsubscribe()
      requires Valid()
      modifies `readListener, `writeListener, `writeBuffer, `intact
      ensures Valid() && !readListener && !writeListener && writeBuffer == ""
      ensures intact == (old(intact) && old(writeBuffer) == "")
      ensures old(intact) ==> (wire + writeBuffer == accepted <==> old(writeBuffer) == "")
    {
      intact := intact && writeBuffer == "";
      readListener := false;
      writeListener := false;
      writeBuffer := "";
    }

    /** `ok` is false where the source throws std::range_error. A connection in error accepts
        everything and sends nothing. */
    method Send(packet: Packet) returns (ok: bool)
      requires Valid()
      requires packet.CommandPacket? ==> packet.command.action != ""
      modifies `writeBuffer, `writeListener, `accepted
      ensures Valid()
      ensures var line := Print(packet) + "\r\n";
        && ok == (gotError || |old(writeBuffer)| + |line| <= WRITE_BUFFER_LIMIT)
        && writeBuffer == old(writeBuffer) + (if ok && !gotError then line else "")
        && accepted == old(accepted) + (if ok && !gotError then line else "")
        && (!ok || gotError ==> writeListener == old(writeListener))
    {
      if gotError {
        return true;
      }
      ok := Append(Print(packet) + "\r\n");
    }

    method Append(line: string) returns (ok: bool)
      requires Valid() && !gotError && line != ""
      modifies `writeBuffer, `writeListener, `accepted
      ensures Valid()
      ensures ok == (|old(writeBuffer)| + |line| <= WRITE_BUFFER_LIMIT)
      ensures writeBuffer == old(writeBuffer) + (if ok then line else "")
      ensures accepted == old(accepted) + (if ok then line else "")
      ensures !ok ==> writeListener == old(writeListener)
    {
      if |writeBuffer| + |line| > WRITE_BUFFER_LIMIT {
        return false;
      }
      assert wire + writeBuffer + line == wire + (writeBuffer + line);
      writeBuffer := writeBuffer + line;
      writeListener := true;
      accepted := accepted + line;
      return true;
    }

    /** The kernel takes bytes from the front of the buffer as `outcomes` tell, one outcome for each
        send call; after the last it would block. `thrown` is where the source throws
        std::runtime_error: it leaves the buffer as it was, so the bytes of earlier calls in the same
        round stay in it and will be sent again. */
    method OnWriteReady(outcomes: seq<SendOutcome>) returns (thrown: bool)
      requires Valid()
      modifies `writeBuffer, `writeListener, `readListener, `gotError, `wire, `intact, `events
      ensures Valid()
      ensures var taken := Taken(outcomes, |old(writeBuffer)|);
        && wire == old(wire) + old(writeBuffer)[..taken]
        && writeBuffer == (if thrown then old(writeBuffer) else old(writeBuffer)[taken..])
        && intact == (old(intact) && !(thrown && taken > 0))
        && (old(intact) ==> (wire + writeBuffer == accepted <==> !(thrown && taken > 0)))
        && (thrown <==> Stop(outcomes, |old(writeBuffer)|) == SendFailed)
        && (gotError <==> old(gotError) || Stop(outcomes, |old(writeBuffer)|) == SendClosed)
        && events == old(events) + (if Stop(outcomes, |old(writeBuffer)|) == SendClosed then [Disconnected] else [])
    {
      var pos, stop := SendSome(outcomes);
      if stop == SendFailed {
        intact := intact && pos == 0;
        return true;
      }
      if stop == SendClosed {
        HandleError();
      }
      SplitAt(old(wire), writeBuffer, pos);
      if pos < |writeBuffer| {
        writeBuffer := writeBuffer[pos..];
      } else {
        writeBuffer := "";
        writeListener := false;
      }
      return false;
    }

    /** The sending loop of on_write_ready: the bytes taken and the outcome that ended it. */
    method SendSome(outcomes: seq<SendOutcome>) returns (pos: nat, stop: SendOutcome)
      modifies `wire
      ensures pos == Taken(outcomes, |writeBuffer|) && stop == Stop(outcomes, |writeBuffer|)
      ensures wire == old(wire) + writeBuffer[..pos]
    {
      pos := 0;
      var len, i := |writeBuffer|, 0;
      while pos < len && i < |outcomes|
        invariant pos <= len && i <= |outcomes|
        invariant wire == old(wire) + writeBuffer[..pos]
        invariant pos + Taken(outcomes[i..], len - pos) == Taken(outcomes, len)
        invariant Stop(outcomes[i..], len - pos) == Stop(outcomes, len)
        decreases |outcomes| - i
      {
        assert outcomes[i..][1..] == outcomes[i + 1..];
        if !outcomes[i].Sent? {
          return pos, outcomes[i];
        }
        var sent := if outcomes[i].count <= len - pos then outcomes[i].count else len - pos;
        assert writeBuffer[..pos + sent] == writeBuffer[..pos] + writeBuffer[pos..pos + sent];
        wire := wire + writeBuffer[pos..pos + sent];
        pos := pos + sent;
        i := i + 1;
      }
      return pos, SendWouldBlock;
    }

    method HandleError()
      modifies `gotError, `readListener, `writeListener, `events
      ensures gotError && !readListener && !writeListener && events == old(events) + [Disconnected]
    {
      gotError := true;
      readListener := false;
      writeListener := false;
      events := events + [Disconnected];
    }

    method OnReadReady(outcome: RecvOutcome) returns (thrown: bool)
      requires Valid() && !gotError
      requires outcome.Received? ==> |outcome.bytes| <= READ_SIZE
      modifies `readBuffer, `gotError, `readListener, `writeListener, `stream, `events
      ensures Valid()
      ensures thrown <==> outcome.RecvFailed?
      ensures gotError <==> outcome.RecvClosed?
      ensures stream == old(stream) + if outcome.Received? then outcome.bytes else ""
      ensures outcome.RecvClosed? ==> events == old(events) + [Disconnected]
      ensures !outcome.RecvClosed? ==> events == Events(Frame(stream).lines)
    {
      thrown := false;
      match outcome {
        case RecvWouldBlock =>
        case RecvClosed =>
          HandleError();
        case RecvFailed =>
          thrown := true;
        case Received(bytes) =>
          if |bytes| == 0 {
            assert stream + bytes == stream;
            return;
          }
          ghost var before := Frame(stream);
          TailHasNoNewLine(NOTHING, stream);
          FeedAppend(NOTHING, stream, bytes);
          assert readBuffer <= readBuffer + bytes && (readBuffer + bytes)[|readBuffer|..] == bytes;
          stream := stream + bytes;
          readBuffer := readBuffer + bytes;
          Split(before);
      }
    }

    /** The scanning loop of on_read_ready. */
    method Split(ghost before: Framed)
      requires before.tail <= readBuffer
      requires NoNewLine(before.tail)
      requires events == Events(before.lines)
      modifies `readBuffer, `events
      ensures var after := FeedAll(before, old(readBuffer)[|before.tail|..]);
        readBuffer == after.tail && events == Events(after.lines)
    {
      ghost var all := readBuffer;
      ghost var lines := before.lines;
      ghost var after := FeedAll(before, all[|before.tail|..]);
      Resume(before, all);

      var start := 0;
      while true
        invariant 0 <= start <= |readBuffer| && readBuffer == all
        invariant FeedAll(Framed(lines, ""), all[start..]) == after
        invariant events == Events(lines)
        decreases |readBuffer| - start
      {
        var end := FindFirst(readBuffer, NewLine, start);
        if end == NPOS {
          FeedText(Framed(lines, ""), all[start..]);
          assert "" + all[start..] == all[start..];
          readBuffer := readBuffer[start..];
          break;
        }
        var line := readBuffer[start..end];
        var next := FindFirst(readBuffer, NotNewLine, end);
        FeedSegment(lines, all, start, end, if next == NPOS then |all| else next);
        PassOn(line, lines);
        lines := Ended(Framed(lines, line)).lines;
        if next == NPOS {
          assert all[|all|..] == "";
          readBuffer := "";
          break;
        }
        start := next;
      }
    }

    method PassOn(line: string, ghost lines: seq<string>)
      requires events == Events(lines)
      modifies `events
      ensures events == Events(Ended(Framed(lines, line)).lines)
    {
      if FindFirst(line, NotBlank, 0) != NPOS {
        FlatMapAppend(LineEvents, lines, [line]);
        HandleLine(line);
      }
    }

    method HandleLine(line: string)
      modifies `events
      ensures events == old(events) + Events([line])
    {
      var packet := Create(line);
      FlatMapOne(LineEvents, line);
      if packet.Ok? {
        events := events + [Delivered(packet.value)];
      }
    }
  }

  lemma Resume(before: Framed, buffer: string)
    requires before.tail <= buffer && NoNewLine(before.tail)
    ensures FeedAll(Framed(before.lines, ""), buffer) == FeedAll(before, buffer[|before.tail|..])
  {
    assert buffer == before.tail + buffer[|before.tail|..] && "" + before.tail == before.tail;
    FeedAppend(Framed(before.lines, ""), before.tail, buffer[|before.tail|..]);
    FeedText(Framed(before.lines, ""), before.tail);
  }

  lemma FeedSegment(lines: seq<string>, s: string, start: nat, end: nat, next: nat)
    requires start <= end < next <= |s|
    requires forall i | start <= i < end :: !NewLine(s[i])
    requires forall i | end <= i < next :: NewLine(s[i])
    ensures FeedAll(Framed(lines, ""), s[start..]) == FeedAll(Ended(Framed(lines, s[start..end])), s[next..])
  {
    assert s[start..] == s[start..end] + (s[end..next] + s[next..]);
    FeedLine(lines, s[start..end], s[end..next], s[next..]);
  }

  /** How many bytes the kernel takes of `len` buffered ones. */
  function Taken(outcomes: seq<SendOutcome>, len: nat): (n: nat)
    ensures n <= len
    decreases outcomes
  {
    if len == 0 || outcomes == [] || !outcomes[0].Sent? then 0
    else if outcomes[0].count >= len then len
    else outcomes[0].count + Taken(outcomes[1..], len - outcomes[0].count)
  }

  /** The outcome that ends the round. */
  function Stop(outcomes: seq<SendOutcome>, len: nat): SendOutcome
    decreases outcomes
  {
    if len == 0 || outcomes == [] then SendWouldBlock
    else if !outcomes[0].Sent? then outcomes[0]
    else if outcomes[0].count >= len then SendWouldBlock
    else Stop(outcomes[1..], len - outcomes[0].count)
  }

  /** What the kernel takes in the first `k` calls. */
  function Total(outcomes: seq<SendOutcome>, k: nat): nat
    requires k <= |outcomes| && forall i | 0 <= i < k :: outcomes[i].Sent?
    decreases k
  {
    if k == 0 then 0 else Total(outcomes, k - 1) + outcomes[k - 1].count
  }

  lemma {:induction false} TotalFirst(outcomes: seq<SendOutcome>, k: nat)
    requires 0 < k <= |outcomes| && forall i | 0 <= i < k :: outcomes[i].Sent?
    ensures Total(outcomes, k) == outcomes[0].count + Total(outcomes[1..], k - 1)
    decreases k
  {
    if k > 1 { TotalFirst(outcomes, k - 1); }
  }

  /** A round ends when everything is taken, or else with the first call that takes nothing: by that one's
      outcome, with what the calls before it took. */
  lemma {:induction false} RoundEnds(outcomes: seq<SendOutcome>, len: nat, k: nat)
    requires k <= |outcomes| && forall i | 0 <= i < k :: outcomes[i].Sent?
    ensures Total(outcomes, k) >= len ==> Taken(outcomes, len) == len && Stop(outcomes, len) == SendWouldBlock
    ensures Total(outcomes, k) < len && (k < |outcomes| ==> !outcomes[k].Sent?) ==>
            Taken(outcomes, len) == Total(outcomes, k) &&
            Stop(outcomes, len) == if k < |outcomes| then outcomes[k] else SendWouldBlock
    decreases k
  {
    if k > 0 {
      TotalFirst(outcomes, k);
      if outcomes[0].count < len { RoundEnds(outcomes[1..], len - outcomes[0].count, k - 1); }
    }
  }
}
