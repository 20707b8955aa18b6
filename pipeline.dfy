/**
 * Pipeline: the hook thread's dispatch filter (`dispatch_proc`), the FIFO
 * handoff queue it fills (`handle_event`), and the forwarder loop body of
 * `process_events_proc`, which hands the front event to the JavaScript
 * boundary and pops it whether or not the boundary accepted it. Threads,
 * the mutex and the condition variable are not modelled: the steps run
 * sequentially, and the boundary's answer for each call is an input.
 */
module Pipeline {
  import opened Events

  /** `dispatch_proc`'s switch: is an event of this raw type copied into the queue? */
  function IsQueued(t: int): (r: bool)
    ensures r <==> KindOf(t).Some? && IsInput(KindOf(t).value)
  {
    t == Code(KeyPressed) || t == Code(KeyReleased) || t == Code(KeyTyped) ||
    t == Code(MousePressed) || t == Code(MouseReleased) || t == Code(MouseClicked) ||
    t == Code(MouseMoved) || t == Code(MouseDragged) || t == Code(MouseWheel)
  }

  /**
   * The dispatch filter and the decoder agree: an event is queued exactly
   * when the decoder will give it one payload, and the hook notifications,
   * which are not queued, would decode to none.
   */
  lemma QueuedIffDecodedWithPayload(e: RawEvent, vc: ModifierCodes)
    requires WellFormed(e)
    ensures IsQueued(e.eventType) <==> HasOnePayload(Decode(e, vc))
    ensures !IsQueued(e.eventType) ==>
      Decode(e, vc).keyboard.None? && Decode(e, vc).mouse.None? && Decode(e, vc).wheel.None?
  {
  }

  /** The events whose forwarding the boundary accepted, in queue order. */
  function Accepted(events: seq<RawEvent>, verdicts: seq<bool>): (r: seq<RawEvent>)
    requires |events| == |verdicts|
    ensures |r| <= |events|
  {
    if events == [] then []
    else (if verdicts[0] then [events[0]] else []) + Accepted(events[1..], verdicts[1..])
  }

  /** The events the boundary refused: each was logged with a warning and dropped. */
  function Dropped(events: seq<RawEvent>, verdicts: seq<bool>): (r: seq<RawEvent>)
    requires |events| == |verdicts|
    ensures |r| <= |events|
  {
    if events == [] then []
    else (if verdicts[0] then [] else [events[0]]) + Dropped(events[1..], verdicts[1..])
  }

  lemma {:induction false} AcceptedAppend(a: seq<RawEvent>, va: seq<bool>, b: seq<RawEvent>, vb: seq<bool>)
    requires |a| == |va| && |b| == |vb|
    ensures Accepted(a + b, va + vb) == Accepted(a, va) + Accepted(b, vb)
    ensures Dropped(a + b, va + vb) == Dropped(a, va) + Dropped(b, vb)
  {
    AcceptedOnlyAppend(a, va, b, vb);
    DroppedAppend(a, va, b, vb);
  }

  lemma {:induction false} AcceptedOnlyAppend(a: seq<RawEvent>, va: seq<bool>, b: seq<RawEvent>, vb: seq<bool>)
    requires |a| == |va| && |b| == |vb|
    ensures Accepted(a + b, va + vb) == Accepted(a, va) + Accepted(b, vb)
  {
    if a == [] {
      assert a + b == b && va + vb == vb;
    } else {
      var ab, v := a + b, va + vb;
      assert ab[0] == a[0] && v[0] == va[0];
      assert ab[1..] == a[1..] + b && v[1..] == va[1..] + vb;
      AcceptedOnlyAppend(a[1..], va[1..], b, vb);
      calc {
        Accepted(ab, v);
        (if v[0] then [ab[0]] else []) + Accepted(ab[1..], v[1..]);
        (if va[0] then [a[0]] else []) + (Accepted(a[1..], va[1..]) + Accepted(b, vb));
      }
    }
  }

  lemma {:induction false} DroppedAppend(a: seq<RawEvent>, va: seq<bool>, b: seq<RawEvent>, vb: seq<bool>)
    requires |a| == |va| && |b| == |vb|
    ensures Dropped(a + b, va + vb) == Dropped(a, va) + Dropped(b, vb)
  {
    if a == [] {
      assert a + b == b && va + vb == vb;
    } else {
      var ab, v := a + b, va + vb;
      assert ab[0] == a[0] && v[0] == va[0];
      assert ab[1..] == a[1..] + b && v[1..] == va[1..] + vb;
      DroppedAppend(a[1..], va[1..], b, vb);
      calc {
        Dropped(ab, v);
        (if v[0] then [] else [ab[0]]) + Dropped(ab[1..], v[1..]);
        (if va[0] then [] else [a[0]]) + (Dropped(a[1..], va[1..]) + Dropped(b, vb));
      }
    }
  }

  /** Every forwarded event is either accepted or dropped: nothing is lost or duplicated. */
  lemma {:induction false} AcceptedDroppedPartition(events: seq<RawEvent>, verdicts: seq<bool>)
    requires |events| == |verdicts|
    ensures multiset(Accepted(events, verdicts)) + multiset(Dropped(events, verdicts)) == multiset(events)
  {
    if events != [] {
      AcceptedDroppedPartition(events[1..], verdicts[1..]);
      assert events == [events[0]] + events[1..];
    }
  }

  /**
   * A refused event k is dropped and not retried: the accepted stream is the
   * accepted events before k followed by the accepted events after k.
   */
  lemma DropDoesNotStall(events: seq<RawEvent>, verdicts: seq<bool>, k: nat)
    requires |events| == |verdicts| && k < |events| && !verdicts[k]
    ensures Accepted(events, verdicts) == Accepted(events[..k], verdicts[..k]) + Accepted(events[k + 1..], verdicts[k + 1..])
    ensures Dropped(events, verdicts) == Dropped(events[..k], verdicts[..k]) + [events[k]] + Dropped(events[k + 1..], verdicts[k + 1..])
  {
    var rest, vrest := events[k..], verdicts[k..];
    assert events == events[..k] + rest && verdicts == verdicts[..k] + vrest;
    AcceptedAppend(events[..k], verdicts[..k], rest, vrest);
    assert rest[1..] == events[k + 1..] && vrest[1..] == verdicts[k + 1..];
    assert Accepted(rest, vrest) == Accepted(events[k + 1..], verdicts[k + 1..]);
    assert Dropped(rest, vrest) == [events[k]] + Dropped(events[k + 1..], verdicts[k + 1..]);
  }

  /** When the boundary accepts every call, every queued event is delivered. */
  lemma {:induction false} AllAccepted(events: seq<RawEvent>, verdicts: seq<bool>)
    requires |events| == |verdicts|
    requires forall i :: 0 <= i < |verdicts| ==> verdicts[i]
    ensures Accepted(events, verdicts) == events
    ensures Dropped(events, verdicts) == []
  {
    if events != [] {
      AllAccepted(events[1..], verdicts[1..]);
    }
  }

  /**
   * The global `event_queue` together with what the forwarder has handed to
   * the boundary so far. `forwarded` lists every event passed to
   * `NonBlockingCall`; `delivered` the ones it accepted; `dropped` the ones
   * it refused (each logged with a warning).
   */
  class EventQueue {
    var items: seq<RawEvent>
    var forwarded: seq<RawEvent>
    var delivered: seq<RawEvent>
    var dropped: seq<RawEvent>

    constructor ()
      ensures items == [] && forwarded == [] && delivered == [] && dropped == []
    {
      items, forwarded, delivered, dropped := [], [], [], [];
    }

    /** `handle_event`: append a copy of the event at the back of the queue. */
    method Push(e: RawEvent)
      modifies this
      ensures items == old(items) + [e]
      ensures forwarded == old(forwarded) && delivered == old(delivered) && dropped == old(dropped)
    {
      items := items + [e];
    }

    /** `dispatch_proc`: queue the input events, ignore the hook notifications and unknown types. */
    method Dispatch(e: RawEvent)
      modifies this
      ensures items == if IsQueued(e.eventType) then old(items) + [e] else old(items)
      ensures forwarded == old(forwarded) && delivered == old(delivered) && dropped == old(dropped)
    {
      if IsQueued(e.eventType) {
        Push(e);
      }
    }

    /**
     * One pass of the forwarder loop once the wait has returned: forward the
     * front event, then pop it whatever the boundary answered.
     */
    method DrainStep(accepted: bool) returns (ev: RawEvent)
      requires items != []
      modifies this
      ensures ev == old(items)[0]
      ensures items == old(items)[1..]
      ensures forwarded == old(forwarded) + [ev]
      ensures delivered == old(delivered) + (if accepted then [ev] else [])
      ensures dropped == old(dropped) + (if accepted then [] else [ev])
    {
      ev := items[0];
      forwarded := forwarded + [ev];
      if accepted {
        delivered := delivered + [ev];
      } else {
        dropped := dropped + [ev];
      }
      items := items[1..];
    }

    /**
     * The forwarder loop `while (sIsRunning)`, run until the queue is empty
     * (where the real thread would block on the condition variable).
     * `verdicts[i]` is the boundary's answer for the i-th queued event.
     */
    method Drain(running: bool, verdicts: seq<bool>)
      requires |verdicts| == |items|
      modifies this
      ensures running ==> items == [] && forwarded == old(forwarded) + old(items)
      ensures running ==> delivered == old(delivered) + Accepted(old(items), verdicts)
      ensures running ==> dropped == old(dropped) + Dropped(old(items), verdicts)
      ensures !running ==> items == old(items) && forwarded == old(forwarded) && delivered == old(delivered) && dropped == old(dropped)
    {
      ghost var queued := items;
      var i := 0;
      while running && items != []
        invariant 0 <= i <= |queued|
        invariant !running ==> i == 0
        invariant items == queued[i..]
        invariant forwarded == old(forwarded) + queued[..i]
        invariant delivered == old(delivered) + Accepted(queued[..i], verdicts[..i])
        invariant dropped == old(dropped) + Dropped(queued[..i], verdicts[..i])
        decreases |items|
      {
        var ev := DrainStep(verdicts[i]);
        AcceptedAppend(queued[..i], verdicts[..i], [ev], [verdicts[i]]);
        assert queued[..i + 1] == queued[..i] + [ev];
        assert verdicts[..i + 1] == verdicts[..i] + [verdicts[i]];
        i := i + 1;
      }
      if running {
        assert queued[..i] == queued;
        assert verdicts[..i] == verdicts;
      }
    }
  }

  // ---------------------------------------------------------------------
  // The forwarder passes `&ev`, the address of ONE local variable that every
  // iteration overwrites, to `NonBlockingCall`; the boundary queues that
  // address and the host thread reads it later. Memory is a map from cell
  // addresses to events; the host thread reads each queued address after
  // the forwarder has run.

  datatype Submission = Submission(memory: map<nat, RawEvent>, pending: seq<nat>)

  /** As written: every event is stored in cell 0 and cell 0's address is queued. */
  function SubmitShared(events: seq<RawEvent>): (s: Submission)
    ensures |s.pending| == |events|
    ensures forall i :: 0 <= i < |s.pending| ==> s.pending[i] == 0
    ensures events != [] ==> s.memory == map[0 := events[|events| - 1]]
    decreases |events|
  {
    if events == [] then Submission(map[], [])
    else
      var prev := SubmitShared(events[..|events| - 1]);
      Submission(map[0 := events[|events| - 1]], prev.pending + [0])
  }

  /** Corrected: the i-th event is copied into its own cell i and that address is queued. */
  function SubmitCopied(events: seq<RawEvent>): (s: Submission)
    ensures |s.pending| == |events|
    ensures forall i :: 0 <= i < |events| ==> s.pending[i] == i && i in s.memory && s.memory[i] == events[i]
    decreases |events|
  {
    if events == [] then Submission(map[], [])
    else
      var n := |events| - 1;
      var prev := SubmitCopied(events[..n]);
      Submission(prev.memory[n := events[n]], prev.pending + [n])
  }

  /** What the host-thread callbacks read, one per queued address. */
  function HostReads(s: Submission): (r: seq<Option<RawEvent>>)
    ensures |r| == |s.pending|
    ensures forall i :: 0 <= i < |r| ==> (r[i].Some? <==> s.pending[i] in s.memory)
    ensures forall i :: 0 <= i < |r| && r[i].Some? ==> r[i].value == s.memory[s.pending[i]]
  {
    seq(|s.pending|, i requires 0 <= i < |s.pending| =>
      if s.pending[i] in s.memory then Some(s.memory[s.pending[i]]) else None)
  }

  /** Corrected forwarding: the host reads exactly the forwarded events, in order. */
  lemma CopiedDeliversEach(events: seq<RawEvent>)
    ensures HostReads(SubmitCopied(events)) == seq(|events|, i requires 0 <= i < |events| => Some(events[i]))
  {
  }

  /** As written: two different events forwarded back to back reach the host as the second one twice. */
  lemma SharedSlotLosesEvent(e1: RawEvent, e2: RawEvent)
    requires e1 != e2
    ensures HostReads(SubmitShared([e1, e2])) == [Some(e2), Some(e2)]
    ensures HostReads(SubmitShared([e1, e2])) != HostReads(SubmitCopied([e1, e2]))
  {
    assert [e1, e2][..1] == [e1];
    assert HostReads(SubmitCopied([e1, e2]))[0] == Some(e1);
  }
}
