/** Plugins::Server: the TCP plugin server that batches processed frames
    and forwards raw device data to connected plugins as line-delimited JSON.
    Sockets are identified by number; every write to a socket is appended to
    an outbox, every close or abort to a list of closed sockets, and every
    block of bytes handed to the device writer to a list of device writes. */
module Plugins {
  import opened Wrappers
  import opened Base64

  type SocketId = nat


  /** One QTcpSocket::write: the socket and the text written to it. */
  datatype Write = Write(socket: SocketId, line: string)

  /** The occurrences of s removed from xs, the others kept in order. */
  function Without(xs: seq<SocketId>, s: SocketId): seq<SocketId> {
    if xs == [] then []
    else (if xs[0] == s then [] else [xs[0]]) + Without(xs[1..], s)
  }

  lemma {:induction false} WithoutAbsent(xs: seq<SocketId>, s: SocketId)
    requires s !in xs
    ensures Without(xs, s) == xs
  {
    if xs != [] {
      WithoutAbsent(xs[1..], s);
    }
  }

  lemma WithoutRemoveAt(xs: seq<SocketId>, i: nat, s: SocketId)
    requires i < |xs| && xs[i] == s
    ensures Without(xs[..i] + xs[i + 1..], s) == Without(xs, s)
  {
    assert xs == xs[..i] + ([s] + xs[i + 1..]);
    WithoutConcat(xs[..i], [s] + xs[i + 1..], s);
    WithoutConcat(xs[..i], xs[i + 1..], s);
    assert ([s] + xs[i + 1..])[1..] == xs[i + 1..];
  }

  lemma {:induction false} WithoutConcat(a: seq<SocketId>, b: seq<SocketId>, s: SocketId)
    ensures Without(a + b, s) == Without(a, s) + Without(b, s)
  {
    if a != [] {
      WithoutConcat(a[1..], b, s);
      assert (a + b)[0] == a[0];
      assert (a + b)[1..] == a[1..] + b;
    } else {
      assert a + b == b;
    }
  }

  lemma {:induction false} WithoutMeaning(xs: seq<SocketId>, s: SocketId)
    ensures s !in Without(xs, s)
    ensures forall t :: t != s ==> multiset(Without(xs, s))[t] == multiset(xs)[t]
  {
    if xs != [] {
      WithoutMeaning(xs[1..], s);
      assert xs == [xs[0]] + xs[1..];
    }
  }

  /** removeConnection for a socket that is registered once: it is removed
      and the other sockets stay, in their order. */
  lemma RemoveRegisteredOnce(xs: seq<SocketId>, k: nat, s: SocketId)
    requires k < |xs| && xs[k] == s && multiset(xs)[s] == 1
    ensures Without(xs, s) == xs[..k] + xs[k + 1..]
  {
    var ys := xs[..k] + xs[k + 1..];
    assert xs == xs[..k] + [s] + xs[k + 1..];
    assert multiset(xs) == multiset(ys) + multiset{s};
    WithoutRemoveAt(xs, k, s);
    WithoutAbsent(ys, s);
  }

  /** The loop of removeConnection exactly as written: after removeAt(i) it
      sets i to 0, and the loop's ++i then makes the scan resume at 1. */
  function RemoveAsWritten(xs: seq<SocketId>, s: SocketId, i: nat): seq<SocketId>
    decreases |xs|, |xs| - i
  {
    if i >= |xs| then xs
    else if xs[i] == s then RemoveAsWritten(xs[..i] + xs[i + 1..], s, 1)
    else RemoveAsWritten(xs, s, i + 1)
  }

  /** As written, a socket registered twice, first at position 0, stays
      registered once: the second copy slides to index 0, which the scan skips. */
  lemma AsWrittenLeavesDuplicate()
    ensures RemoveAsWritten([7, 7], 7, 0) == [7]
    ensures 7 in RemoveAsWritten([7, 7], 7, 0)
  {
    assert [7, 7][..0] + [7, 7][1..] == [7];
    assert RemoveAsWritten([7], 7, 1) == [7];
  }

  lemma {:induction false} AsWrittenNoMatch(xs: seq<SocketId>, s: SocketId, i: nat)
    requires forall k :: i <= k < |xs| ==> xs[k] != s
    ensures RemoveAsWritten(xs, s, i) == xs
    decreases |xs| - i
  {
    if i < |xs| {
      AsWrittenNoMatch(xs, s, i + 1);
    }
  }

  lemma {:induction false} AsWrittenReaches(xs: seq<SocketId>, s: SocketId, i: nat, k: nat)
    requires i <= k < |xs| && xs[k] == s
    requires forall j :: i <= j < k ==> xs[j] != s
    ensures RemoveAsWritten(xs, s, i) == RemoveAsWritten(xs[..k] + xs[k + 1..], s, 1)
    decreases k - i
  {
    if i < k {
      AsWrittenReaches(xs, s, i + 1, k);
    }
  }

  lemma TwoRegistrations(xs: seq<SocketId>, i: nat, j: nat)
    requires i < j < |xs| && xs[i] == xs[j]
    ensures multiset(xs)[xs[i]] >= 2
  {
    var a, b, c := xs[..i], xs[i + 1..j], xs[j + 1..];
    assert xs == a + [xs[i]] + b + [xs[j]] + c;
    assert multiset(xs) == multiset(a) + multiset{xs[i]} + multiset(b) + multiset{xs[j]} + multiset(c);
  }

  /** For a socket registered at most once, the loop as written and the
      corrected removal agree. */
  lemma AsWrittenAgreesWhenUnique(xs: seq<SocketId>, s: SocketId)
    requires multiset(xs)[s] <= 1
    ensures RemoveAsWritten(xs, s, 0) == Without(xs, s)
  {
    if s in xs {
      var k :| 0 <= k < |xs| && xs[k] == s;
      forall j | 0 <= j < |xs| && j != k ensures xs[j] != s {
        if xs[j] == s {
          if j < k { TwoRegistrations(xs, j, k); } else { TwoRegistrations(xs, k, j); }
        }
      }
      var ys := xs[..k] + xs[k + 1..];
      assert forall j :: 1 <= j < |ys| ==> ys[j] != s by {
        forall j | 1 <= j < |ys| ensures ys[j] != s {
          if j < k { assert ys[j] == xs[j]; } else { assert ys[j] == xs[j + 1]; }
        }
      }
      AsWrittenReaches(xs, s, 0, k);
      AsWrittenNoMatch(ys, s, 1);
      RemoveRegisteredOnce(xs, k, s);
    } else {
      AsWrittenNoMatch(xs, s, 0);
      WithoutAbsent(xs, s);
    }
  }

  /** The writes of one broadcast: the line, to each writable socket of the
      list in list order. */
  function Broadcast(sockets: seq<SocketId>, writable: SocketId -> bool, line: string): seq<Write> {
    if sockets == [] then []
    else
      var s := sockets[|sockets| - 1];
      Broadcast(sockets[..|sockets| - 1], writable, line) + (if writable(s) then [Write(s, line)] else [])
  }

  function Targets(ws: seq<Write>): seq<SocketId> {
    seq(|ws|, k requires 0 <= k < |ws| => ws[k].socket)
  }

  /** Every write of a broadcast carries the line, and each socket receives
      it once per registration when writable, never otherwise. */
  lemma BroadcastMeaning(sockets: seq<SocketId>, writable: SocketId -> bool, line: string)
    ensures forall k :: 0 <= k < |Broadcast(sockets, writable, line)| ==> Broadcast(sockets, writable, line)[k].line == line
    ensures forall s :: multiset(Targets(Broadcast(sockets, writable, line)))[s]
                        == if writable(s) then multiset(sockets)[s] else 0
  {
    BroadcastLines(sockets, writable, line);
    BroadcastCounts(sockets, writable, line);
  }

  lemma {:induction false} BroadcastLines(sockets: seq<SocketId>, writable: SocketId -> bool, line: string)
    ensures forall k :: 0 <= k < |Broadcast(sockets, writable, line)| ==> Broadcast(sockets, writable, line)[k].line == line
  {
    if sockets != [] {
      BroadcastLines(sockets[..|sockets| - 1], writable, line);
    }
  }

  lemma {:induction false} BroadcastCounts(sockets: seq<SocketId>, writable: SocketId -> bool, line: string)
    ensures forall s :: multiset(Targets(Broadcast(sockets, writable, line)))[s]
                        == if writable(s) then multiset(sockets)[s] else 0
  {
    if sockets != [] {
      var init, last := sockets[..|sockets| - 1], sockets[|sockets| - 1];
      BroadcastCounts(init, writable, line);
      assert sockets == init + [last];
      var before := Broadcast(init, writable, line);
      var tail: seq<Write> := if writable(last) then [Write(last, line)] else [];
      assert Targets(before + tail) == Targets(before) + Targets(tail);
      assert multiset(Targets(before + tail)) == multiset(Targets(before)) + multiset(Targets(tail));
      assert multiset(sockets) == multiset(init) + multiset{last};
    }
  }

  /** The array element for one frame, {"data":<frame>}. */
  function FrameEntry(frameJson: string): string {
    "{\"data\":" + frameJson + "}"
  }

  function JoinWithCommas(items: seq<string>): string {
    if |items| == 0 then ""
    else if |items| == 1 then items[0]
    else items[0] + "," + JoinWithCommas(items[1..])
  }

  /** The entries of the frames array, one per queued frame, in queue order. */
  function FrameEntries<F>(frames: seq<F>, serialize: F -> string): seq<string> {
    seq(|frames|, k requires 0 <= k < |frames| => FrameEntry(serialize(frames[k])))
  }

  /** The compact document {"frames":[...]} and its line terminator. */
  function ProcessedMessage(entries: seq<string>): string {
    "{\"frames\":[" + JoinWithCommas(entries) + "]}" + "\n"
  }

  /** The compact document {"data":"<Base64>"} and its line terminator. */
  function RawMessage(data: seq<byte>): string {
    "{\"data\":\"" + Encode(data) + "\"}" + "\n"
  }

  lemma {:induction false} JoinWithCommasNoNewline(items: seq<string>)
    requires forall k :: 0 <= k < |items| ==> '\n' !in items[k]
    ensures '\n' !in JoinWithCommas(items)
  {
    if |items| > 1 {
      JoinWithCommasNoNewline(items[1..]);
    }
  }

  /** pre + e + post followed by a line break is exactly one line when none
      of the three parts holds a line break, and e sits right after pre. */
  lemma WrappedLine(pre: string, e: string, post: string)
    requires '\n' !in pre && '\n' !in e && '\n' !in post
    ensures var m := pre + e + post + "\n";
      && |m| > 0 && m[|m| - 1] == '\n' && '\n' !in m[..|m| - 1]
      && m[|pre|..|m| - 1 - |post|] == e
  {
    var m := pre + e + post + "\n";
    assert m[..|m| - 1] == pre + e + post;
    assert m[|pre|..|m| - 1 - |post|] == e;
  }

  /** A processed-data message is exactly one line when no serialized frame
      contains a line break (compact JSON never does). */
  lemma ProcessedMessageIsOneLine<F>(frames: seq<F>, serialize: F -> string)
    requires forall k :: 0 <= k < |frames| ==> '\n' !in serialize(frames[k])
    ensures var m := ProcessedMessage(FrameEntries(frames, serialize));
      |m| > 0 && m[|m| - 1] == '\n' && '\n' !in m[..|m| - 1]
  {
    var entries := FrameEntries(frames, serialize);
    forall k | 0 <= k < |entries| ensures '\n' !in entries[k] {
      assert entries[k] == "{\"data\":" + serialize(frames[k]) + "}";
    }
    JoinWithCommasNoNewline(entries);
    WrappedLine("{\"frames\":[", JoinWithCommas(entries), "]}");
  }

  /** A raw-data message is always exactly one line, and the Base64 text it
      carries decodes to the forwarded bytes. */
  lemma RawMessageIsOneLine(data: seq<byte>)
    ensures var m := RawMessage(data);
      |m| > 0 && m[|m| - 1] == '\n' && '\n' !in m[..|m| - 1]
    ensures Decode(RawMessage(data)[9..|RawMessage(data)| - 3]) == Some(data)
  {
    var e := Encode(data);
    EncodeShape(data);
    assert '\n' !in e;
    WrappedLine("{\"data\":\"", e, "\"}");
    DecodeEncode(data);
  }

  class Server<F> {
    var enabled: bool
    /** the frames registered since the last flush, in arrival order */
    var frames: seq<F>
    /** the connected plugin sockets, in connection order */
    var sockets: seq<SocketId>
    /** the sockets the server closed or aborted, in order */
    var closed: seq<SocketId>
    /** every write to a socket, in order */
    var outbox: seq<Write>
    /** every block of bytes handed to the device writer, in order */
    var deviceWrites: seq<seq<byte>>

    /** While disabled there is no connection and no queued frame. */
    ghost predicate Valid()
      reads this
    {
      !enabled ==> frames == [] && sockets == []
    }

    constructor()
      ensures Valid() && !enabled
      ensures frames == [] && sockets == [] && closed == [] && outbox == [] && deviceWrites == []
    {
      enabled := false;
      frames := [];
      sockets := [];
      closed := [];
      outbox := [];
      deviceWrites := [];
    }

    function Enabled(): bool
      reads this
    {
      enabled
    }

    /** registerFrame: queue the frame at the end, only while enabled. */
    method RegisterFrame(frame: F)
      requires Valid()
      modifies this`frames
      ensures Valid()
      ensures frames == if enabled then old(frames) + [frame] else old(frames)
    {
      if enabled {
        frames := frames + [frame];
      }
    }

    /** setEnabled: disabling aborts and forgets every connection; either
        way the frame queue is emptied. */
    method SetEnabled(value: bool)
      requires Valid()
      modifies this
      ensures Valid() && enabled == value && frames == []
      ensures sockets == if value then old(sockets) else []
      ensures closed == if value then old(closed) else old(closed) + old(sockets)
      ensures outbox == old(outbox) && deviceWrites == old(deviceWrites)
    {
      enabled := value;
      if !value {
        var i := 0;
        while i < |sockets|
          invariant 0 <= i <= |sockets|
          invariant sockets == old(sockets) && frames == old(frames)
          invariant closed == old(closed) + sockets[..i]
          invariant enabled == value && outbox == old(outbox) && deviceWrites == old(deviceWrites)
        {
          closed := closed + [sockets[i]];
          i := i + 1;
        }
        sockets := [];
      }
      frames := [];
    }

    /** onDataReceived: the bytes a plugin sent reach the device only while
        enabled; sender is None when no socket called. */
    method OnDataReceived(sender: Option<SocketId>, data: seq<byte>)
      requires Valid()
      modifies this`deviceWrites
      ensures Valid()
      ensures deviceWrites == if enabled && sender.Some? then old(deviceWrites) + [data] else old(deviceWrites)
    {
      if enabled && sender.Some? {
        deviceWrites := deviceWrites + [data];
      }
    }

    /** acceptConnection: pending is the next pending connection, if any.
        While disabled it is closed; while enabled it is registered last. */
    method AcceptConnection(pending: Option<SocketId>)
      requires Valid()
      modifies this`sockets, this`closed
      ensures Valid()
      ensures sockets == if enabled && pending.Some? then old(sockets) + [pending.value] else old(sockets)
      ensures closed == if !enabled && pending.Some? then old(closed) + [pending.value] else old(closed)
    {
      if pending.None? && enabled {
        return;
      }
      if !enabled {
        if pending.Some? {
          closed := closed + [pending.value];
        }
        return;
      }
      sockets := sockets + [pending.value];
    }

    /** removeConnection, with the evidently intended scan: after a removal
        it starts again at index 0, so every registration of the socket goes. */
    method RemoveConnection(sender: Option<SocketId>)
      requires Valid()
      modifies this`sockets
      ensures Valid()
      ensures sockets == if sender.Some? then Without(old(sockets), sender.value) else old(sockets)
    {
      if sender.Some? {
        var s := sender.value;
        var i := 0;
        while i < |sockets|
          invariant 0 <= i <= |sockets|
          invariant s !in sockets[..i]
          invariant Without(sockets, s) == Without(old(sockets), s)
          invariant enabled == old(enabled) && frames == old(frames)
          invariant |sockets| <= |old(sockets)|
          decreases |sockets|, |sockets| - i
        {
          if sockets[i] == s {
            WithoutRemoveAt(sockets, i, s);
            sockets := sockets[..i] + sockets[i + 1..];
            i := 0;
          } else {
            i := i + 1;
          }
        }
        assert sockets[..i] == sockets;
        WithoutAbsent(sockets, s);
        if !enabled {
          assert |old(sockets)| == 0;
        }
      }
    }

    /** Writes line to every writable socket, in list order. */
    method WriteToAll(line: string, writable: SocketId -> bool)
      modifies this`outbox
      ensures outbox == old(outbox) + Broadcast(sockets, writable, line)
    {
      var i := 0;
      while i < |sockets|
        invariant 0 <= i <= |sockets|
        invariant outbox == old(outbox) + Broadcast(sockets[..i], writable, line)
      {
        assert sockets[..i + 1][..i] == sockets[..i];
        if writable(sockets[i]) {
          outbox := outbox + [Write(sockets[i], line)];
        }
        i := i + 1;
      }
      assert sockets[..i] == sockets;
    }

    /** sendProcessedData: while enabled, with frames queued and at least one
        socket, sends all queued frames as one line to every writable socket
        and empties the queue; otherwise does nothing. */
    method SendProcessedData(serialize: F -> string, writable: SocketId -> bool)
      requires Valid()
      modifies this`outbox, this`frames
      ensures Valid()
      ensures if enabled && old(frames) != [] && sockets != [] then
          && outbox == old(outbox) + Broadcast(sockets, writable, ProcessedMessage(FrameEntries(old(frames), serialize)))
          && frames == []
        else outbox == old(outbox) && frames == old(frames)
    {
      if !enabled {
        return;
      }
      if |frames| <= 0 {
        return;
      }
      if |sockets| < 1 {
        return;
      }
      var queued := frames;
      var entries: seq<string> := [];
      var i := 0;
      while i < |queued|
        invariant 0 <= i <= |queued|
        invariant entries == FrameEntries(queued[..i], serialize)
      {
        assert queued[..i + 1] == queued[..i] + [queued[i]];
        entries := entries + [FrameEntry(serialize(queued[i]))];
        i := i + 1;
      }
      assert queued[..i] == queued;
      if |entries| > 0 {
        var json := ProcessedMessage(entries);
        WriteToAll(json, writable);
      }
      frames := [];
    }

    /** sendRawData: while enabled and connected, sends the bytes in Base64
        as one line to every writable socket. */
    method SendRawData(data: seq<byte>, writable: SocketId -> bool)
      requires Valid()
      modifies this`outbox
      ensures Valid()
      ensures outbox == if enabled && sockets != [] then old(outbox) + Broadcast(sockets, writable, RawMessage(data)) else old(outbox)
    {
      if !enabled {
        return;
      }
      if |sockets| < 1 {
        return;
      }
      var json := RawMessage(data);
      WriteToAll(json, writable);
    }
  }
}
