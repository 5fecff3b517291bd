/**
 * Buffer bookkeeping of the client-side sensor event queue (libs/sensor/SensorEventQueue.cpp):
 * the in-place compaction that drops unrequested additional-info events (filterEvents), the
 * consumed/available cursor over the receive buffer (read), and the wake-up acknowledgement
 * counter (sendAck).
 *
 * The socket is left out: what BitTube::recvObjects stores and returns is an argument of Read,
 * and whether ::send succeeded is an argument of SendAck.
 */
module Sensor {

  /** ASensorEvent, reduced to the fields the queue looks at. */
  datatype SensorEvent = SensorEvent(sensor: int, eventType: int, flags: bv32, timestamp: int)

  /** The constants below are defined in the sensor HAL and queue headers, which are not part of
      this model; the proofs do not depend on their values. */
  const SENSOR_TYPE_ADDITIONAL_INFO: int := 33
  const WAKE_UP_SENSOR_EVENT_NEEDS_ACK: bv32 := 0x8000_0000
  const MAX_RECEIVE_BUFFER_EVENT_COUNT: nat := 256

  /** filterEvents' test: keep an event unless it is additional info nobody asked for. */
  predicate Included(e: SensorEvent, requestAdditionalInfo: bool) {
    e.eventType != SENSOR_TYPE_ADDITIONAL_INFO || requestAdditionalInfo
  }

  /** The events of `s` that filterEvents keeps, in their order in `s`. */
  function Kept(s: seq<SensorEvent>, requestAdditionalInfo: bool): seq<SensorEvent>
    decreases |s|
  {
    if s == [] then []
    else Kept(s[..|s| - 1], requestAdditionalInfo) +
         (if Included(s[|s| - 1], requestAdditionalInfo) then [s[|s| - 1]] else [])
  }

  /** The number of events of `s` that carry WAKE_UP_SENSOR_EVENT_NEEDS_ACK. */
  function AcksNeeded(s: seq<SensorEvent>): nat
    decreases |s|
  {
    if s == [] then 0
    else AcksNeeded(s[..|s| - 1]) +
         (if s[|s| - 1].flags & WAKE_UP_SENSOR_EVENT_NEEDS_ACK != 0 then 1 else 0)
  }

  /** Filtering selects: the kept events are exactly the included events of the input, and there
      are never more of them than input events. */
  lemma {:induction false} KeptSelects(s: seq<SensorEvent>, r: bool)
    ensures |Kept(s, r)| <= |s|
    ensures forall e :: e in Kept(s, r) <==> e in s && Included(e, r)
    decreases |s|
  {
    if s != [] {
      var init := s[..|s| - 1];
      KeptSelects(init, r);
      assert s == init + [s[|s| - 1]];
    }
  }

  /** Filtering preserves order: it distributes over concatenation. */
  lemma {:induction false} KeptAppend(a: seq<SensorEvent>, b: seq<SensorEvent>, r: bool)
    ensures Kept(a + b, r) == Kept(a, r) + Kept(b, r)
    decreases |b|
  {
    if b == [] {
      assert a + b == a;
    } else {
      var init := b[..|b| - 1];
      assert (a + b)[..|a + b| - 1] == a + init;
      KeptAppend(a, init, r);
    }
  }

  /** A run of included events is kept whole, and nothing else keeps every event; keeping as many
      events as there are means keeping all of them. */
  lemma {:induction false} KeptAllIncluded(s: seq<SensorEvent>, r: bool)
    ensures Kept(s, r) == s <==> forall j :: 0 <= j < |s| ==> Included(s[j], r)
    ensures |Kept(s, r)| == |s| ==> Kept(s, r) == s
    decreases |s|
  {
    if s != [] {
      var init := s[..|s| - 1];
      var last := s[|s| - 1];
      KeptAllIncluded(init, r);
      KeptSelects(init, r);
      assert s == init + [last];
      assert forall j :: 0 <= j < |init| ==> init[j] == s[j];
      if Included(last, r) {
        assert Kept(s, r) == Kept(init, r) + [last];
        assert Kept(s, r) == s ==> Kept(init, r) == Kept(s, r)[..|s| - 1];
      }
    }
  }

  /** With additional info requested, nothing is dropped; without it, exactly the additional-info
      events are. */
  lemma KeptByType(s: seq<SensorEvent>)
    ensures Kept(s, true) == s
    ensures forall e :: e in Kept(s, false) <==> e in s && e.eventType != SENSOR_TYPE_ADDITIONAL_INFO
  {
    KeptAllIncluded(s, true);
    KeptSelects(s, false);
  }

  /** Acknowledgements add up over concatenation and never exceed the number of events. */
  lemma {:induction false} AcksNeededAppend(a: seq<SensorEvent>, b: seq<SensorEvent>)
    ensures AcksNeeded(a + b) == AcksNeeded(a) + AcksNeeded(b)
    ensures AcksNeeded(b) <= |b|
    decreases |b|
  {
    if b == [] {
      assert a + b == a;
    } else {
      var init := b[..|b| - 1];
      assert (a + b)[..|a + b| - 1] == a + init;
      AcksNeededAppend(a, init);
    }
  }

  /** `s` with the `n` events at `src` copied over the `n` slots at `dst`. */
  ghost function Moved(s: seq<SensorEvent>, dst: nat, src: nat, n: nat): seq<SensorEvent>
    requires src + n <= |s| && dst + n <= |s|
  {
    seq(|s|, j requires 0 <= j < |s| => if dst <= j < dst + n then s[src + (j - dst)] else s[j])
  }

  /** memmove of `n` events from `src` to `dst`, correct for overlapping ranges. */
  method Memmove(a: array<SensorEvent>, dst: nat, src: nat, n: nat)
    requires src + n <= a.Length && dst + n <= a.Length
    modifies a
    ensures forall j :: dst <= j < dst + n ==> a[j] == old(a[src + (j - dst)])
    ensures forall j :: 0 <= j < a.Length && !(dst <= j < dst + n) ==> a[j] == old(a[j])
    ensures a[..] == Moved(old(a[..]), dst, src, n)
  {
    if dst <= src {
      var k := 0;
      while k < n
        invariant 0 <= k <= n
        invariant forall j :: dst <= j < dst + k ==> a[j] == old(a[src + (j - dst)])
        invariant forall j :: 0 <= j < a.Length && !(dst <= j < dst + k) ==> a[j] == old(a[j])
      {
        a[dst + k] := a[src + k];
        k := k + 1;
      }
    } else {
      var k := n;
      while k > 0
        invariant 0 <= k <= n
        invariant forall j :: dst + k <= j < dst + n ==> a[j] == old(a[src + (j - dst)])
        invariant forall j :: 0 <= j < a.Length && !(dst + k <= j < dst + n) ==> a[j] == old(a[j])
      {
        k := k - 1;
        a[dst + k] := a[src + k];
      }
    }
  }

  /** memcpy of `n` events from `src[from..]` to the start of `dst`, two distinct buffers. */
  method Memcpy(dst: array<SensorEvent>, src: array<SensorEvent>, from: nat, n: nat)
    requires dst != src && from + n <= src.Length && n <= dst.Length
    modifies dst
    ensures dst[..n] == src[from..from + n]
    ensures forall j :: n <= j < dst.Length ==> dst[j] == old(dst[j])
  {
    for k := 0 to n
      invariant forall j :: 0 <= j < k ==> dst[j] == src[from + j]
      invariant forall j :: k <= j < dst.Length ==> dst[j] == old(dst[j])
    {
      dst[k] := src[from + k];
    }
  }

  /** After a run of `n` events at `st` has been copied down to `c`, the first `c + n` events
      are the old first `c` followed by the run. */
  lemma MovedRun(before: seq<SensorEvent>, orig: seq<SensorEvent>, c: nat, st: nat, n: nat)
    requires |before| == |orig| && c <= st && st + n <= |orig|
    requires forall j :: st <= j < |orig| ==> before[j] == orig[j]
    ensures Moved(before, c, st, n)[..c + n] == before[..c] + orig[st..st + n]
  {
  }

  /** A move of nothing, or of a run onto itself, changes nothing. */
  lemma MovedInPlace(s: seq<SensorEvent>, dst: nat, src: nat, n: nat)
    requires src + n <= |s| && dst + n <= |s| && (n == 0 || dst == src)
    ensures Moved(s, dst, src, n) == s
  {
  }

  /** The state filterEvents keeps while scanning `orig`: the first `copied` slots of `a` hold
      the kept events of the first `done` input events, and the slots from `done` on still hold
      the input. */
  ghost predicate Compacted(a: seq<SensorEvent>, orig: seq<SensorEvent>, copied: nat, done: nat, r: bool) {
    && |a| == |orig| && copied <= done <= |orig|
    && a[..copied] == Kept(orig[..done], r)
    && forall j :: done <= j < |a| ==> a[j] == orig[j]
  }

  /** The flush step of filterEvents: the run of `n` kept events at `done` is moved down to
      `copied` by memmove, except when the run's recorded start is 0 and it is already in place.
      The run ends at event `i`, or just before it when event `i` is dropped, so afterwards the
      compacted prefix holds the kept events of the first `i + 1`. */
  method FlushInterval(events: array<SensorEvent>, ghost orig: seq<SensorEvent>, copied: nat,
                       intervalStartLoc: nat, n: nat, ghost done: nat, ghost i: nat, ghost r: bool)
    requires Compacted(events[..], orig, copied, done, r)
    requires i < |orig| && intervalStartLoc + n <= events.Length
    requires done + n == (if Included(orig[i], r) then i + 1 else i)
    requires n > 0 ==> intervalStartLoc == done
    requires forall j :: done <= j < done + n ==> Included(orig[j], r)
    modifies events
    ensures Compacted(events[..], orig, copied + n, i + 1, r)
  {
    ghost var before := events[..];
    if intervalStartLoc > 0 {
      Memmove(events, copied, intervalStartLoc, n);
    } else {
      MovedInPlace(before, copied, done, n);
    }
    FlushKeepsCompacted(before, events[..], orig, copied, done, n, i, r);
  }

  /** A flush ending at event `i` (the run ends at `i`, or just before it when `i` is dropped)
      leaves the kept events of the first `i + 1` compacted. */
  lemma FlushKeepsCompacted(before: seq<SensorEvent>, after: seq<SensorEvent>, orig: seq<SensorEvent>,
                            copied: nat, done: nat, n: nat, i: nat, r: bool)
    requires Compacted(before, orig, copied, done, r) && |after| == |orig|
    requires i < |orig| && done + n == (if Included(orig[i], r) then i + 1 else i)
    requires forall j :: done <= j < done + n ==> Included(orig[j], r)
    requires after == Moved(before, copied, done, n)
    ensures Compacted(after, orig, copied + n, i + 1, r)
  {
    MovedRun(before, orig, copied, done, n);
    KeptRun(orig, done, n, i, r);
  }

  /** The kept events of a prefix that ends in a run of included events, possibly followed by one
      dropped event. */
  lemma KeptRun(s: seq<SensorEvent>, start: nat, n: nat, i: nat, r: bool)
    requires i < |s| && start + n == (if Included(s[i], r) then i + 1 else i)
    requires forall j :: start <= j < start + n ==> Included(s[j], r)
    ensures Kept(s[..i + 1], r) == Kept(s[..start], r) + s[start..start + n]
  {
    var end := start + n;
    assert s[..end] == s[..start] + s[start..end];
    KeptAppend(s[..start], s[start..end], r);
    KeptAllIncluded(s[start..end], r);
    if !Included(s[i], r) {
      assert s[..i + 1][..i] == s[..i];
    }
  }

  /** At the end of the scan the compacted prefix is the filter of the input, the rest is
      untouched, and when every event is kept the array is the array it started as. */
  lemma AllKeptInPlace(after: seq<SensorEvent>, before: seq<SensorEvent>, copied: nat, count: nat, r: bool)
    requires Compacted(after, before, copied, count, r)
    ensures after[..copied] == Kept(before[..count], r)
    ensures after[count..] == before[count..]
    ensures copied == count ==> after == before
  {
    assert after[count..] == before[count..];
    if copied == count {
      KeptAllIncluded(before[..count], r);
      assert after == after[..count] + after[count..];
      assert before == before[..count] + before[count..];
    }
  }

  /** What BitTube::recvObjects reports: an error code, or the events it stored. */
  datatype RecvResult = RecvError(err: int) | Received(events: seq<SensorEvent>)

  class SensorEventQueue {
    var recBuffer: array<SensorEvent>
    var available: nat
    var consumed: nat
    var numAcksToSend: int
    var requestAdditionalInfo: bool
    /** Acknowledgements owed for all events passed to SendAck, and those sent so far. */
    ghost var acksOwed: nat
    ghost var acksSent: nat

    ghost predicate Valid()
      reads this
    {
      && recBuffer.Length == MAX_RECEIVE_BUFFER_EVENT_COUNT
      && consumed + available <= recBuffer.Length
      && numAcksToSend >= 0
      && acksSent + numAcksToSend == acksOwed
    }

    /** The received events not yet handed out by Read. */
    ghost function Pending(): seq<SensorEvent>
      reads this, recBuffer
      requires Valid()
    {
      recBuffer[consumed..consumed + available]
    }

    constructor (requestAdditionalInfo: bool)
      ensures Valid() && fresh(recBuffer) && Pending() == []
      ensures available == 0 && consumed == 0
      ensures numAcksToSend == 0 && acksOwed == 0 && acksSent == 0
      ensures this.requestAdditionalInfo == requestAdditionalInfo
    {
      recBuffer := new SensorEvent[MAX_RECEIVE_BUFFER_EVENT_COUNT](_ => SensorEvent(0, 0, 0, 0));
      available := 0;
      consumed := 0;
      numAcksToSend := 0;
      this.requestAdditionalInfo := requestAdditionalInfo;
      acksOwed := 0;
      acksSent := 0;
    }

    /** Compacts the first `count` events in place, keeping only the included ones, in order, and
        returns how many were kept. Runs of kept events are moved with one memmove each, and a
        run that starts at index 0 is not moved. */
    method FilterEvents(events: array<SensorEvent>, count: nat) returns (eventsCopied: nat)
      requires count <= events.Length
      modifies events
      ensures eventsCopied <= count
      ensures events[..eventsCopied] == Kept(old(events[..count]), requestAdditionalInfo)
      ensures events[count..] == old(events[count..])
      ensures eventsCopied == count ==> events[..] == old(events[..])
    {
      ghost var orig := events[..];
      var r := requestAdditionalInfo;
      var intervalStartLocSet := false;
      var intervalStartLoc: nat := 0;
      var eventsInInterval: nat := 0;
      eventsCopied := 0;
      ghost var done: nat := 0;
      assert Compacted(events[..], orig, 0, 0, r);

      for i := 0 to count
        invariant intervalStartLoc <= i && done <= i
        invariant intervalStartLocSet ==>
          i < count && done == intervalStartLoc && done + eventsInInterval == i
        invariant !intervalStartLocSet ==> done == i && eventsInInterval == 0
        invariant forall j :: done <= j < i ==> Included(orig[j], r)
        invariant Compacted(events[..], orig, eventsCopied, done, r)
      {
        assert events[i] == events[..][i] == orig[i];
        var includeEvent := events[i].eventType != SENSOR_TYPE_ADDITIONAL_INFO || r;

        if includeEvent {
          if !intervalStartLocSet {
            intervalStartLoc := i;
            intervalStartLocSet := true;
            eventsInInterval := 0;
          }
          eventsInInterval := eventsInInterval + 1;
        }

        if !includeEvent || i + 1 == count {
          FlushInterval(events, orig, eventsCopied, intervalStartLoc, eventsInInterval, done, i, r);
          eventsCopied := eventsCopied + eventsInInterval;

          eventsInInterval := 0;
          intervalStartLocSet := false;
          done := i + 1;
        }
      }
      AllKeptInPlace(events[..], orig, eventsCopied, count, r);
    }

    /** Hands out up to `numEvents` received events, refilling the receive buffer first when it
        is exhausted; `received` is what recvObjects would report for that refill. */
    method Read(events: array<SensorEvent>, numEvents: nat, received: RecvResult) returns (r: int)
      requires Valid() && events != recBuffer && numEvents <= events.Length
      requires received.RecvError? ==> received.err < 0
      requires received.Received? ==> |received.events| <= MAX_RECEIVE_BUFFER_EVENT_COUNT
      modifies this, recBuffer, events
      ensures Valid() && recBuffer == old(recBuffer)
      ensures unchanged(this`numAcksToSend, this`requestAdditionalInfo, this`acksOwed, this`acksSent)
      ensures old(available) == 0 && received.RecvError? ==>
        r == received.err && available == old(available) && consumed == old(consumed) &&
        events[..] == old(events[..]) && recBuffer[..] == old(recBuffer[..])
      ensures !(old(available) == 0 && received.RecvError?) ==>
        var source := if old(available) == 0 then received.events else old(Pending());
        && r == (if numEvents < |source| then numEvents else |source|)
        && events[..r] == source[..r]
        && events[r..] == old(events[r..])
        && Pending() == source[r..]
        && available + consumed ==
             (if old(available) == 0 then |received.events| else old(available + consumed))
    {
      if available == 0 {
        if received.RecvError? {
          return received.err;
        }
        StoreReceived(received.events);
        available := |received.events|;
        consumed := 0;
      }
      r := Consume(events, numEvents);
    }

    /** The cursor arithmetic of read once events are available: hand out the first
        min(numEvents, available) pending events and move the cursor past them. */
    method Consume(events: array<SensorEvent>, numEvents: nat) returns (count: nat)
      requires Valid() && events != recBuffer && numEvents <= events.Length
      modifies this`available, this`consumed, events
      ensures Valid()
      ensures count == (if numEvents < old(available) then numEvents else old(available))
      ensures events[..count] == old(Pending())[..count]
      ensures events[count..] == old(events[count..])
      ensures Pending() == old(Pending())[count..]
      ensures available + consumed == old(available + consumed)
    {
      count := if numEvents < available then numEvents else available;
      Memcpy(events, recBuffer, consumed, count);
      available := available - count;
      consumed := consumed + count;
    }

    /** BitTube::recvObjects storing the received events at the start of the receive buffer. */
    method StoreReceived(received: seq<SensorEvent>)
      requires Valid() && |received| <= MAX_RECEIVE_BUFFER_EVENT_COUNT
      modifies recBuffer
      ensures recBuffer[..|received|] == received
    {
      forall k | 0 <= k < |received| {
        recBuffer[k] := received[k];
      }
    }

    /** Counts the wake-up events among the first `count` that need an acknowledgement and, if
        any acknowledgement is owed, tries to send the total; `sendSucceeds` is the outcome of
        that ::send. A failed send keeps the total for the next call. */
    method SendAck(events: array<SensorEvent>, count: int, sendSucceeds: bool)
      requires Valid() && count <= events.Length
      modifies this`numAcksToSend, this`acksOwed, this`acksSent
      ensures Valid()
      ensures var total := old(numAcksToSend) + AcksNeeded(events[..if count < 0 then 0 else count]);
        && acksOwed == old(acksOwed) + AcksNeeded(events[..if count < 0 then 0 else count])
        && numAcksToSend == (if total > 0 && sendSucceeds then 0 else total)
        && acksSent == (if total > 0 && sendSucceeds then old(acksSent) + total else old(acksSent))
    {
      var i := 0;
      while i < count
        invariant 0 <= i <= if count < 0 then 0 else count
        invariant numAcksToSend == old(numAcksToSend) + AcksNeeded(events[..i])
        invariant acksOwed == old(acksOwed) + AcksNeeded(events[..i])
        invariant acksSent == old(acksSent)
      {
        assert events[..i + 1][..i] == events[..i];
        if events[i].flags & WAKE_UP_SENSOR_EVENT_NEEDS_ACK != 0 {
          numAcksToSend := numAcksToSend + 1;
          acksOwed := acksOwed + 1;
        }
        i := i + 1;
      }
      if numAcksToSend > 0 {
        if sendSucceeds {
          acksSent := acksSent + numAcksToSend;
          numAcksToSend := 0;
        }
      }
    }
  }
}
