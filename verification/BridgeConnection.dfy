/** The bridge's end of the socket (bridge/openrct2-plugin/src/connection.ts): newline framing of
    what arrives, the snapshot buffer for while there is no connection, and the reconnect timer. */
module Framing {

  /** What JavaScript's `trim` removes. */
  predicate IsWhitespace(ch: char) {
    var n := ch as int;
    || 9 <= n <= 13 || n == 32 || n == 0xA0 || n == 0x1680 || 0x2000 <= n <= 0x200A
    || n == 0x2028 || n == 0x2029 || n == 0x202F || n == 0x205F || n == 0x3000 || n == 0xFEFF
  }

  /** `line.trim().length === 0`. */
  predicate Blank(line: string) {
    forall i :: 0 <= i < |line| ==> IsWhitespace(line[i])
  }

  predicate NewlineFree(line: string) {
    forall i :: 0 <= i < |line| ==> line[i] != '\n'
  }

  /** `indexOf("\n")`, with the length standing for -1. */
  function NewlineIndex(text: string): (i: nat)
    ensures i <= |text| && (i < |text| ==> text[i] == '\n')
    ensures NewlineFree(text[..i])
  {
    if text == "" || text[0] == '\n' then 0
    else
      var i := 1 + NewlineIndex(text[1..]);
      assert text[1..][..i - 1] == text[1..i];
      i
  }

  /** The lines handed on so far, and the unfinished one. */
  datatype Frames = Frames(lines: seq<string>, rest: string)

  function Push(f: Frames, ch: char): Frames {
    if ch == '\n' then Frames(if Blank(f.rest) then f.lines else f.lines + [f.rest], "")
    else Frames(f.lines, f.rest + [ch])
  }

  /** The reference reader: one character at a time. */
  function Feed(f: Frames, text: string): Frames {
    if text == "" then f else Push(Feed(f, text[..|text| - 1]), text[|text| - 1])
  }

  /** Nonblank lines and tail of a whole text. */
  function Split(text: string): Frames {
    Feed(Frames([], ""), text)
  }

  /** A sequence of data events. */
  function FeedAll(f: Frames, chunks: seq<string>): Frames {
    if chunks == [] then f else Feed(FeedAll(f, chunks[..|chunks| - 1]), chunks[|chunks| - 1])
  }

  function Concat(chunks: seq<string>): string {
    if chunks == [] then "" else Concat(chunks[..|chunks| - 1]) + chunks[|chunks| - 1]
  }

  /** What `writeLine` puts on the wire for a sequence of messages. */
  function Encode(lines: seq<string>): string {
    if lines == [] then "" else Encode(lines[..|lines| - 1]) + lines[|lines| - 1] + "\n"
  }

  function NonBlank(lines: seq<string>): seq<string> {
    if lines == [] then []
    else
      var n := |lines| - 1;
      NonBlank(lines[..n]) + if Blank(lines[n]) then [] else [lines[n]]
  }

  lemma {:induction false} FeedAppend(f: Frames, a: string, b: string)
    ensures Feed(f, a + b) == Feed(Feed(f, a), b)
  {
    if b == "" {
      assert a + b == a;
    } else {
      var n := |b| - 1;
      FeedAppend(f, a, b[..n]);
      assert (a + b)[..|a + b| - 1] == a + b[..n];
    }
  }

  lemma {:induction false} FeedNewlineFree(f: Frames, text: string)
    requires NewlineFree(text)
    ensures Feed(f, text) == Frames(f.lines, f.rest + text)
  {
    if text == "" {
      assert f.rest + text == f.rest;
    } else {
      var n := |text| - 1;
      FeedNewlineFree(f, text[..n]);
      assert f.rest + text[..n] + [text[n]] == f.rest + text;
    }
  }

  /** One complete line. */
  lemma FeedLine(f: Frames, line: string)
    requires NewlineFree(line)
    ensures Feed(f, line + "\n") ==
            Frames(if Blank(f.rest + line) then f.lines else f.lines + [f.rest + line], "")
  {
    FeedNewlineFree(f, line);
    assert (line + "\n")[..|line|] == line;
  }

  lemma {:induction false} FeedEncoded(lines: seq<string>)
    requires forall i :: 0 <= i < |lines| ==> NewlineFree(lines[i])
    ensures Feed(Frames([], ""), Encode(lines)) == Frames(NonBlank(lines), "")
  {
    if lines != [] {
      var n := |lines| - 1;
      FeedEncoded(lines[..n]);
      FeedAppend(Frames([], ""), Encode(lines[..n]), lines[n] + "\n");
      FeedLine(Frames(NonBlank(lines[..n]), ""), lines[n]);
      assert "" + lines[n] == lines[n];
      Associative(Encode(lines[..n]), lines[n], "\n");
    }
  }

  lemma Associative(a: string, b: string, d: string)
    ensures (a + b) + d == a + (b + d)
  {
  }

  /** Reading newline-separated text gives exactly its nonblank lines and its tail. */
  lemma SplitEncoded(lines: seq<string>, tail: string)
    requires NewlineFree(tail) && forall i :: 0 <= i < |lines| ==> NewlineFree(lines[i])
    ensures Split(Encode(lines) + tail) == Frames(NonBlank(lines), tail)
  {
    FeedEncoded(lines);
    FeedAppend(Frames([], ""), Encode(lines), tail);
    FeedNewlineFree(Frames(NonBlank(lines), ""), tail);
    assert "" + tail == tail;
  }

  /** Every text is a sequence of lines, each ended by a newline, and a tail without one. */
  lemma {:induction false} TextIsLines(text: string) returns (lines: seq<string>, tail: string)
    ensures text == Encode(lines) + tail
    ensures NewlineFree(tail) && forall i :: 0 <= i < |lines| ==> NewlineFree(lines[i])
  {
    if text == "" {
      lines, tail := [], "";
    } else {
      var n := |text| - 1;
      lines, tail := TextIsLines(text[..n]);
      assert text == text[..n] + [text[n]];
      if text[n] == '\n' {
        assert (lines + [tail])[..|lines|] == lines;
        assert Encode(lines + [tail]) + "" == text;
        lines, tail := lines + [tail], "";
      } else {
        assert Encode(lines) + (tail + [text[n]]) == text;
        tail := tail + [text[n]];
      }
    }
  }

  lemma {:induction false} FeedAllIsFeed(f: Frames, chunks: seq<string>)
    ensures FeedAll(f, chunks) == Feed(f, Concat(chunks))
  {
    if chunks != [] {
      var n := |chunks| - 1;
      FeedAllIsFeed(f, chunks[..n]);
      FeedAppend(f, Concat(chunks[..n]), chunks[n]);
    }
  }

  /** However the received text is cut into data events, what is handed on is its nonblank
      newline-separated lines, and what is kept is its text after the last newline. */
  lemma {:induction false} FramingIgnoresChunks(chunks: seq<string>, lines: seq<string>, tail: string)
    requires Concat(chunks) == Encode(lines) + tail
    requires NewlineFree(tail) && forall i :: 0 <= i < |lines| ==> NewlineFree(lines[i])
    ensures FeedAll(Frames([], ""), chunks) == Frames(NonBlank(lines), tail)
  {
    FeedAllIsFeed(Frames([], ""), chunks);
    SplitEncoded(lines, tail);
  }

  /** JavaScript's white space and line terminators, one by one. */
  const WHITE: set<int> := {
    0x09, 0x0A, 0x0B, 0x0C, 0x0D, 0x20, 0xA0, 0x1680, 0x2000, 0x2001, 0x2002, 0x2003, 0x2004, 0x2005, 0x2006, 0x2007, 0x2008,
    0x2009, 0x200A, 0x2028, 0x2029, 0x202F, 0x205F, 0x3000, 0xFEFF}

  lemma WhiteIsListed(ch: char)
    ensures IsWhitespace(ch) <==> ch as int in WHITE
  {
    var n := ch as int;
    if 9 <= n <= 13 {
      assert n == 9 || n == 10 || n == 11 || n == 12 || n == 13;
    } else if 0x2000 <= n <= 0x200A {
      assert n == 0x2000 || n == 0x2001 || n == 0x2002 || n == 0x2003 || n == 0x2004 || n == 0x2005 || n == 0x2006 || n == 0x2007
             || n == 0x2008 || n == 0x2009 || n == 0x200A;
    }
  }

  /** Exactly which lines are not handed on: those of such characters alone. */
  lemma BlankIff(line: string)
    ensures Blank(line) <==> forall i :: 0 <= i < |line| ==> line[i] as int in WHITE
  {
    forall i | 0 <= i < |line| ensures IsWhitespace(line[i]) <==> line[i] as int in WHITE {
      WhiteIsListed(line[i]);
    }
  }

  /** A line with anything printable in it is handed on as it is. */
  lemma PrintableLineIsHandedOn(lines: seq<string>, line: string, i: nat)
    requires NewlineFree(line) && i < |line| && 33 <= line[i] as int <= 126
    ensures Feed(Frames(lines, ""), line + "\n") == Frames(lines + [line], "")
  {
    FeedFresh(lines, line);
    assert !IsWhitespace(line[i]);
  }

  /** A line of spaces, tabs and carriage returns is dropped. */
  lemma EmptyLineIsDropped(lines: seq<string>, line: string)
    requires OnlySpaces(line)
    ensures Feed(Frames(lines, ""), line + "\n") == Frames(lines, "")
  {
    SpacesAreBlank(line);
    FeedFresh(lines, line);
  }

  predicate OnlySpaces(line: string) {
    forall i :: 0 <= i < |line| ==> line[i] == ' ' || line[i] == '\t' || line[i] == '\r'
  }

  lemma SpacesAreBlank(line: string)
    requires OnlySpaces(line)
    ensures Blank(line) && NewlineFree(line)
  {
  }

  lemma FeedFresh(lines: seq<string>, line: string)
    requires NewlineFree(line)
    ensures Feed(Frames(lines, ""), line + "\n") == Frames(if Blank(line) then lines else lines + [line], "")
  {
    FeedLine(Frames(lines, ""), line);
    assert "" + line == line;
  }

  /** A message as JSON text of an object: it begins with a brace, and has no raw newline (section 7 of
      RFC 8259). */
  predicate IsMessage(line: string) {
    NewlineFree(line) && line != "" && line[0] == '{'
  }

  /** A line that is handed on. */
  predicate IsReadable(line: string) {
    NewlineFree(line) && !Blank(line)
  }

  lemma {:induction false} ReadableAreNonBlank(lines: seq<string>)
    requires forall i :: 0 <= i < |lines| ==> IsReadable(lines[i])
    ensures NonBlank(lines) == lines
  {
    if lines != [] {
      ReadableAreNonBlank(lines[..|lines| - 1]);
    }
  }

  lemma MessagesAreReadable(messages: seq<string>)
    requires forall i :: 0 <= i < |messages| ==> IsMessage(messages[i])
    ensures forall i :: 0 <= i < |messages| ==> IsReadable(messages[i])
  {
    forall i | 0 <= i < |messages| ensures !Blank(messages[i]) {
      assert !IsWhitespace(messages[i][0]);
    }
  }

  /** Writing messages and reading them back, cut in any way, gives the same messages. */
  lemma {:induction false} WrittenMessagesAreRead(messages: seq<string>, chunks: seq<string>)
    requires forall i :: 0 <= i < |messages| ==> IsMessage(messages[i])
    requires Concat(chunks) == Encode(messages)
    ensures FeedAll(Frames([], ""), chunks) == Frames(messages, "")
  {
    assert Encode(messages) + "" == Encode(messages);
    MessagesAreReadable(messages);
    FramingIgnoresChunks(chunks, messages, "");
    ReadableAreNonBlank(messages);
  }

  lemma BlankPrefix(a: string, b: string)
    requires !Blank(b)
    ensures !Blank(a + b)
  {
    var i :| 0 <= i < |b| && !IsWhitespace(b[i]);
    assert (a + b)[|a| + i] == b[i];
  }

  lemma {:induction false} EncodeCons(head: string, lines: seq<string>)
    ensures Encode([head] + lines) == head + "\n" + Encode(lines)
  {
    if lines == [] {
      assert [head] + lines == [head] && [head][..0] == [];
      assert Encode([head]) == "" + head + "\n";
    } else {
      var n := |lines| - 1;
      EncodeCons(head, lines[..n]);
      assert ([head] + lines)[..n + 1] == [head] + lines[..n];
      assert Encode([head] + lines) == head + "\n" + Encode(lines[..n]) + lines[n] + "\n";
      assert head + "\n" + (Encode(lines[..n]) + lines[n] + "\n") == head + "\n" + Encode(lines[..n]) + lines[n] + "\n";
    }
  }

  /** The inbound buffer is not cleared when a connection is lost. The messages of the next one are
      read as they were written if and only if the lost one did not end inside a line. */
  lemma {:induction false} ReconnectReadsCleanlyIff(kept: string, messages: seq<string>, chunks: seq<string>)
    requires NewlineFree(kept) && messages != []
    requires forall i :: 0 <= i < |messages| ==> IsMessage(messages[i])
    requires Concat(chunks) == Encode(messages)
    ensures FeedAll(Frames([], kept), chunks).lines == messages <==> kept == ""
  {
    FeedAllIsFeed(Frames([], kept), chunks);
    ReadsGarbled(kept, messages);
    SameFirst(kept, messages, [kept + messages[0]] + messages[1..]);
  }

  lemma ReadsGarbled(kept: string, messages: seq<string>)
    requires NewlineFree(kept) && messages != []
    requires forall i :: 0 <= i < |messages| ==> IsMessage(messages[i])
    ensures Feed(Frames([], kept), Encode(messages)) == Frames([kept + messages[0]] + messages[1..], "")
  {
    GarbledText(kept, messages);
    KeptFirst(kept, Encode(messages));
    GarbledAreReadable(kept, messages);
    ReadsLines([kept + messages[0]] + messages[1..]);
  }

  lemma ReadsLines(lines: seq<string>)
    requires forall i :: 0 <= i < |lines| ==> IsReadable(lines[i])
    ensures Feed(Frames([], ""), Encode(lines)) == Frames(lines, "")
  {
    FeedEncoded(lines);
    ReadableAreNonBlank(lines);
  }

  lemma GarbledAreReadable(kept: string, messages: seq<string>)
    requires NewlineFree(kept) && messages != []
    requires forall i :: 0 <= i < |messages| ==> IsMessage(messages[i])
    ensures var garbled := [kept + messages[0]] + messages[1..];
            forall i :: 0 <= i < |garbled| ==> IsReadable(garbled[i])
  {
    MessagesAreReadable(messages);
    BlankPrefix(kept, messages[0]);
  }

  lemma KeptFirst(kept: string, text: string)
    requires NewlineFree(kept)
    ensures Feed(Frames([], kept), text) == Feed(Frames([], ""), kept + text)
  {
    FeedNewlineFree(Frames([], ""), kept);
    assert "" + kept == kept;
    FeedAppend(Frames([], ""), kept, text);
  }

  lemma SameFirst(kept: string, messages: seq<string>, garbled: seq<string>)
    requires messages != [] && garbled == [kept + messages[0]] + messages[1..]
    ensures garbled == messages <==> kept == ""
  {
    if kept == "" {
      assert kept + messages[0] == messages[0];
    } else {
      assert |garbled[0]| > |messages[0]|;
    }
  }

  /** What was kept of the old connection comes in front of the first message of the new one. */
  lemma GarbledText(kept: string, messages: seq<string>)
    requires messages != []
    ensures kept + Encode(messages) == Encode([kept + messages[0]] + messages[1..])
  {
    var first, rest := messages[0], messages[1..];
    EncodeCons(first, rest);
    EncodeCons(kept + first, rest);
    assert [first] + rest == messages;
    Associative(kept, first, "\n");
    Associative(kept, first + "\n", Encode(rest));
  }
}

module BridgeConnections {
  import opened Framing
  import opened Backoffs
  import opened WorldModels

  datatype Config = Config(maxBufferedSnapshots: nat, initialReconnectDelayMs: nat, maxReconnectDelayMs: nat)

  /** The lines whose writes did not throw, in order. */
  function Through(lines: seq<string>, throws: seq<bool>): seq<string>
    requires |throws| == |lines|
  {
    if lines == [] then []
    else
      var n := |lines| - 1;
      Through(lines[..n], throws[..n]) + if throws[n] then [] else [lines[n]]
  }

  lemma ThroughStep(lines: seq<string>, throws: seq<bool>, n: nat)
    requires |throws| == |lines| && n < |lines|
    ensures Through(lines[..n + 1], throws[..n + 1]) == Through(lines[..n], throws[..n]) + if throws[n] then [] else [lines[n]]
  {
    assert lines[..n + 1][..n] == lines[..n] && throws[..n + 1][..n] == throws[..n];
  }

  /** A reconnect sends the whole buffer if and only if no write throws. */
  lemma {:induction false} NothingIsLost(lines: seq<string>, throws: seq<bool>)
    requires |throws| == |lines|
    ensures Through(lines, throws) == lines <==> forall i :: 0 <= i < |throws| ==> !throws[i]
    ensures |Through(lines, throws)| <= |lines|
  {
    if lines != [] {
      var n := |lines| - 1;
      NothingIsLost(lines[..n], throws[..n]);
      assert lines == lines[..n] + [lines[n]];
      assert throws[n] ==> |Through(lines, throws)| <= n;
      if Through(lines, throws) == lines {
        assert Through(lines, throws)[..n] == lines[..n];
      }
    }
  }

  /** `handled`, `written` and `timers` record what the class does to the outside: the lines it
      passes on, the lines it writes, and the delays it sets timers for. */
  class BridgeConnection {
    const config: Config
    var socket: bool
    var connected: bool
    var reconnectDelayMs: nat
    var snapshotBuffer: seq<string>
    var inboundBuffer: string
    var handled: seq<string>
    var written: seq<string>
    var timers: seq<nat>

    constructor (config: Config)
      ensures this.config == config && !socket && !connected && inboundBuffer == "" && snapshotBuffer == []
      ensures reconnectDelayMs == config.initialReconnectDelayMs
      ensures handled == [] && written == [] && timers == []
    {
      this.config := config;
      socket, connected := false, false;
      reconnectDelayMs := config.initialReconnectDelayMs;
      snapshotBuffer, inboundBuffer := [], "";
      handled, written, timers := [], [], [];
    }

    /** The search for newlines hands on the lines the reference reader would, and keeps its tail. */
    method OnData(data: string)
      modifies this`inboundBuffer, this`handled
      ensures Frames(handled, inboundBuffer) == Feed(Frames(old(handled), ""), old(inboundBuffer) + data)
      ensures NewlineFree(inboundBuffer)
    {
      inboundBuffer := inboundBuffer + data;
      ghost var goal := Feed(Frames(handled, ""), inboundBuffer);
      var newlineIndex := NewlineIndex(inboundBuffer);
      while newlineIndex != |inboundBuffer|
        invariant newlineIndex == NewlineIndex(inboundBuffer)
        invariant Feed(Frames(handled, ""), inboundBuffer) == goal
        decreases |inboundBuffer|
      {
        var line := inboundBuffer[..newlineIndex];
        ghost var rest := inboundBuffer[newlineIndex + 1..];
        assert inboundBuffer == (line + "\n") + rest;
        FeedAppend(Frames(handled, ""), line + "\n", rest);
        FeedLine(Frames(handled, ""), line);
        assert "" + line == line;
        inboundBuffer := inboundBuffer[newlineIndex + 1..];
        if !Blank(line) {
          handled := handled + [line];
        }
        newlineIndex := NewlineIndex(inboundBuffer);
      }
      assert inboundBuffer[..newlineIndex] == inboundBuffer;
      FeedNewlineFree(Frames(handled, ""), inboundBuffer);
      assert "" + inboundBuffer == inboundBuffer;
    }

    /** A write that throws is logged and forgotten. */
    method WriteLine(line: string, throws: bool)
      modifies this`written
      ensures written == if socket && !throws then old(written) + [line] else old(written)
    {
      if !socket {
        return;
      }
      if !throws {
        written := written + [line];
      }
    }

    method SendHeartbeat(line: string, throws: bool)
      modifies this`written
      ensures written == if connected && socket && !throws then old(written) + [line] else old(written)
    {
      if !connected {
        return;
      }
      WriteLine(line, throws);
    }

    /** Written at once over a live connection, and lost if that write throws; otherwise the latest are kept. */
    method SendSnapshot(line: string, throws: bool)
      modifies this`written, this`snapshotBuffer
      ensures connected && socket ==>
                written == (if throws then old(written) else old(written) + [line]) && snapshotBuffer == old(snapshotBuffer)
      ensures !(connected && socket) ==>
                written == old(written) && snapshotBuffer == Suffix(old(snapshotBuffer) + [line], config.maxBufferedSnapshots)
    {
      if connected && socket {
        WriteLine(line, throws);
      } else {
        snapshotBuffer := snapshotBuffer + [line];
        while |snapshotBuffer| > config.maxBufferedSnapshots
          invariant |snapshotBuffer| >= config.maxBufferedSnapshots || snapshotBuffer == old(snapshotBuffer) + [line]
          invariant snapshotBuffer == Suffix(old(snapshotBuffer) + [line], |snapshotBuffer|)
          invariant |snapshotBuffer| <= |old(snapshotBuffer)| + 1
          invariant written == old(written)
        {
          snapshotBuffer := snapshotBuffer[1..];
        }
      }
    }

    /** `throws` tells of each write in turn whether it throws. */
    method FlushSnapshotBuffer(throws: seq<bool>)
      requires |throws| == |snapshotBuffer|
      modifies this`written, this`snapshotBuffer
      ensures snapshotBuffer == []
      ensures written == if socket then old(written) + Through(old(snapshotBuffer), throws) else old(written)
    {
      var sent := 0;
      while |snapshotBuffer| > 0
        invariant sent + |snapshotBuffer| == |old(snapshotBuffer)|
        invariant snapshotBuffer == old(snapshotBuffer)[sent..]
        invariant written == if socket then old(written) + Through(old(snapshotBuffer)[..sent], throws[..sent]) else old(written)
        decreases |snapshotBuffer|
      {
        var line := snapshotBuffer[0];
        snapshotBuffer := snapshotBuffer[1..];
        WriteLine(line, throws[sent]);
        ThroughStep(old(snapshotBuffer), throws, sent);
        sent := sent + 1;
      }
      assert old(snapshotBuffer)[..sent] == old(snapshotBuffer) && throws[..sent] == throws;
    }

    /** Creating the socket, or connecting it, may throw; either way a reconnect is scheduled, and a socket
        that was created stays set. */
    method Connect(created: bool, started: bool)
      modifies this`socket, this`reconnectDelayMs, this`timers
      ensures socket == (old(socket) || created)
      ensures created && started ==> reconnectDelayMs == old(reconnectDelayMs) && timers == old(timers)
      ensures !(created && started) ==>
                && timers == old(timers) + [old(reconnectDelayMs)]
                && reconnectDelayMs == NextDelay(old(reconnectDelayMs), config.maxReconnectDelayMs)
    {
      if created {
        socket := true;
      }
      if !created || !started {
        ScheduleReconnect();
      }
    }

    /** Everything buffered goes out right after hello, oldest first; the backoff starts over. */
    method OnConnect(hello: string, helloThrows: bool, throws: seq<bool>)
      requires |throws| == |snapshotBuffer|
      modifies this`connected, this`reconnectDelayMs, this`written, this`snapshotBuffer
      ensures connected && reconnectDelayMs == config.initialReconnectDelayMs && snapshotBuffer == []
      ensures written == if socket then old(written) + (if helloThrows then [] else [hello]) + Through(old(snapshotBuffer), throws)
                         else old(written)
    {
      connected := true;
      reconnectDelayMs := config.initialReconnectDelayMs;
      WriteLine(hello, helloThrows);
      FlushSnapshotBuffer(throws);
    }

    method OnCloseOrError()
      modifies this`connected, this`socket, this`reconnectDelayMs, this`timers
      ensures !connected && !socket && timers == old(timers) + [old(reconnectDelayMs)]
      ensures reconnectDelayMs == NextDelay(old(reconnectDelayMs), config.maxReconnectDelayMs)
    {
      connected := false;
      socket := false;
      ScheduleReconnect();
    }

    method ScheduleReconnect()
      modifies this`reconnectDelayMs, this`timers
      ensures timers == old(timers) + [old(reconnectDelayMs)]
      ensures reconnectDelayMs == NextDelay(old(reconnectDelayMs), config.maxReconnectDelayMs)
    {
      var delay := reconnectDelayMs;
      reconnectDelayMs := Min(reconnectDelayMs * 2, config.maxReconnectDelayMs);
      timers := timers + [delay];
    }
  }

  /** What the buffer holds after a whole outage's snapshots. */
  function Buffered(lines: seq<string>, max: nat): seq<string> {
    if lines == [] then [] else Suffix(Buffered(lines[..|lines| - 1], max) + [lines[|lines| - 1]], max)
  }

  /** An outage loses all but the latest snapshots, and keeps those in order. */
  lemma {:induction false} OutageKeepsLatest(lines: seq<string>, max: nat)
    ensures Buffered(lines, max) == Suffix(lines, max)
  {
    if lines != [] {
      var n := |lines| - 1;
      OutageKeepsLatest(lines[..n], max);
      SuffixStep(lines[..n], lines[n], max);
      assert lines[..n] + [lines[n]] == lines;
    }
  }
}
