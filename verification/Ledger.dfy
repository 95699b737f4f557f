/** The log of everything handed to the network, and the ledger that counts how often each
    control frame was sent. Chunks of stream data are counted by the book. */
module Ledger {
  import opened Wrappers
  import opened Bytes
  import opened Frames
  import opened TransportModel

  /** A packet handed to the network: its frame, the serial number of a queued control frame, and
      the window it had to fit in. */
  datatype Emission = Emission(
    packetNumber: u64, frame: Frame, serial: Option<nat>, length: nat, inFlight: nat, window: nat)

  function SerialOf(f: QueuedFrame): Option<nat>
  {
    if f.frame.StreamData? then None else Some(f.serial)
  }

  function EmissionOf(n: u64, queued: QueuedFrame, length: nat, c: Congestion): Emission
  {
    Emission(n, queued.frame, SerialOf(queued), length, c.bytesInFlight, c.cwnd)
  }

  /** How often the control frame with serial number `s` was put on the network. */
  ghost function SerialCount(emitted: seq<Emission>, s: nat): nat
  {
    if |emitted| == 0 then 0 else
    SerialCount(emitted[..|emitted| - 1], s) + if emitted[|emitted| - 1].serial == Some(s) then 1 else 0
  }

  lemma SerialNext(emitted: seq<Emission>, e: Emission, s: nat)
    ensures SerialCount(emitted + [e], s) == SerialCount(emitted, s) + if e.serial == Some(s) then 1 else 0
  {
    assert (emitted + [e])[..|emitted|] == emitted;
  }

  /** How often each control frame was sent, and the next serial number. */
  datatype Tries = Tries(counts: map<nat, nat>, next: nat)

  /** A waiting control frame was sent exactly as often as its saturating count says. */
  predicate WaitingTries(f: QueuedFrame, t: Tries, max: nat)
  {
    && !f.frame.StreamData? && f.serial in t.counts
    && Min(t.counts[f.serial], U32_MAX) == f.retransmitCount <= max
  }

  /** One on its way was sent once more than that. */
  predicate SentTries(f: QueuedFrame, t: Tries, max: nat)
  {
    f.frame.StreamData? ||
    (&& f.serial in t.counts && t.counts[f.serial] > 0
     && Min(t.counts[f.serial] - 1, U32_MAX) == f.retransmitCount <= max)
  }

  /** No two control frames that wait or are on their way share a serial number. */
  ghost predicate SerialsApart(waiting: seq<QueuedFrame>, sent: SentTable)
  {
    && (forall i, j :: 0 <= i < j < |waiting| ==> waiting[i].serial != waiting[j].serial)
    && (forall i, pn :: 0 <= i < |waiting| && pn in sent ==> SerialOf(sent[pn].queued) != Some(waiting[i].serial))
    && (forall pn, qn :: pn in sent && qn in sent && pn != qn && SerialOf(sent[pn].queued).Some? ==>
          SerialOf(sent[pn].queued) != SerialOf(sent[qn].queued))
  }

  ghost predicate CountsLogged(emitted: seq<Emission>, t: Tries)
  {
    forall s: nat :: SerialCount(emitted, s) == if s in t.counts then t.counts[s] else 0
  }

  ghost predicate LedgerOk(waiting: seq<QueuedFrame>, sent: SentTable, t: Tries, emitted: seq<Emission>, max: nat)
  {
    && (forall i :: 0 <= i < |waiting| ==> WaitingTries(waiting[i], t, max))
    && (forall pn :: pn in sent ==> SentTries(sent[pn].queued, t, max))
    && SerialsApart(waiting, sent) && CountsLogged(emitted, t)
    && (forall s :: s in t.counts ==> s < t.next && (max < U32_MAX ==> t.counts[s] <= max + 1))
  }

  /** What waits with `f` put back: a control frame to the front, a chunk to its own queue. */
  function With(f: QueuedFrame, pending: seq<QueuedFrame>): seq<QueuedFrame>
  {
    if f.frame.StreamData? then pending else [f] + pending
  }

  function Tried(t: Tries, f: QueuedFrame): Tries
  {
    if f.frame.StreamData? || f.serial !in t.counts then t
    else t.(counts := t.counts[f.serial := t.counts[f.serial] + 1])
  }

  /** The frame in hand goes out and is recorded. */
  lemma LedgerSent(f: QueuedFrame, pending: seq<QueuedFrame>, sent: SentTable, pn: u64, p: SentPacket, t: Tries,
          emitted: seq<Emission>, e: Emission, max: nat)
    requires LedgerOk(With(f, pending), sent, t, emitted, max) && pn !in sent
    requires p.queued == f && e.serial == SerialOf(f)
    ensures LedgerOk(pending, sent[pn := p], Tried(t, f), emitted + [e], max)
  {
    if !f.frame.StreamData? { HeadOut(f, pending, sent, t, emitted, max); }
    LedgerLogged(f, t, emitted, e);
    hide CountsLogged, SerialCount;
  }

  /** What follows of the rest once the first of the waiting frames is taken. */
  lemma HeadOut(f: QueuedFrame, pending: seq<QueuedFrame>, sent: SentTable, t: Tries, emitted: seq<Emission>, max: nat)
    requires LedgerOk([f] + pending, sent, t, emitted, max)
    ensures WaitingTries(f, t, max) && LedgerOk(pending, sent, t, emitted, max)
    ensures forall i :: 0 <= i < |pending| ==> pending[i].serial != f.serial
    ensures forall pn :: pn in sent ==> SerialOf(sent[pn].queued) != Some(f.serial)
  {
    hide CountsLogged, WaitingTries, SentTries;
    var waiting := [f] + pending;
    assert waiting[0] == f;
    assert forall i :: 0 <= i < |pending| ==> waiting[i + 1] == pending[i];
  }

  /** The frame in hand goes out and is forgotten. */
  lemma LedgerUsed(f: QueuedFrame, pending: seq<QueuedFrame>, sent: SentTable, t: Tries, emitted: seq<Emission>,
          e: Emission, max: nat)
    requires LedgerOk(With(f, pending), sent, t, emitted, max) && !f.frame.StreamData? && e.serial == SerialOf(f)
    ensures LedgerOk(pending, sent, Tried(t, f), emitted + [e], max)
  {
    HeadOut(f, pending, sent, t, emitted, max);
    LedgerLogged(f, t, emitted, e);
    hide CountsLogged, SerialCount;
  }

  lemma LedgerLogged(f: QueuedFrame, t: Tries, emitted: seq<Emission>, e: Emission)
    requires CountsLogged(emitted, t) && e.serial == SerialOf(f) && (f.frame.StreamData? || f.serial in t.counts)
    ensures CountsLogged(emitted + [e], Tried(t, f))
  {
    hide SerialCount;
    forall s: nat
      ensures SerialCount(emitted + [e], s) == if s in Tried(t, f).counts then Tried(t, f).counts[s] else 0
    {
      SerialNext(emitted, e, s);
    }
  }

  /** A packet without a queued control frame. */
  lemma LedgerOther(waiting: seq<QueuedFrame>, sent: SentTable, t: Tries, emitted: seq<Emission>, e: Emission, max: nat)
    requires LedgerOk(waiting, sent, t, emitted, max) && e.serial == None
    ensures LedgerOk(waiting, sent, t, emitted + [e], max)
  {
    hide SerialCount;
    forall s: nat ensures SerialCount(emitted + [e], s) == SerialCount(emitted, s) { SerialNext(emitted, e, s); }
  }

  /** A packet leaves the table; its frame may wait again, its count raised. */
  lemma LedgerGone(pending: seq<QueuedFrame>, sent: SentTable, pn: u64, t: Tries, emitted: seq<Emission>, max: nat)
    requires LedgerOk(pending, sent, t, emitted, max) && pn in sent
    ensures LedgerOk(pending, sent - {pn}, t, emitted, max)
    ensures Again(sent[pn].queued).retransmitCount <= max ==>
      LedgerOk(With(Again(sent[pn].queued), pending), sent - {pn}, t, emitted, max)
  {
    hide CountsLogged;
    var f := Again(sent[pn].queued);
    if f.retransmitCount <= max && !f.frame.StreamData? {
      var waiting := With(f, pending);
      assert forall i :: 0 < i < |waiting| ==> waiting[i] == pending[i - 1];
      assert SentTries(sent[pn].queued, t, max);
    }
  }

  /** A new control frame waits under a new number. */
  lemma LedgerQueued(pending: seq<QueuedFrame>, sent: SentTable, t: Tries, emitted: seq<Emission>, frame: Frame,
          max: nat)
    requires LedgerOk(pending, sent, t, emitted, max) && !frame.StreamData?
    ensures LedgerOk(pending + [QueuedFrame(frame, 0, t.next)], sent, Tries(t.counts[t.next := 0], t.next + 1),
        emitted, max)
  {
    hide SerialCount;
    var waiting := pending + [QueuedFrame(frame, 0, t.next)];
    assert forall i :: 0 <= i < |pending| ==> waiting[i] == pending[i] && pending[i].serial < t.next;
    assert forall pn :: pn in sent ==> SentTries(sent[pn].queued, t, max);
  }

  /** The log holds a control frame that waits as often as its saturating count says, and one that
      is on its way once more; and none more than once plus the allowed number of retransmissions. */
  ghost predicate ControlsCounted(waiting: seq<QueuedFrame>, sent: SentTable, emitted: seq<Emission>, max: nat)
  {
    && (forall i :: 0 <= i < |waiting| ==>
          Min(SerialCount(emitted, waiting[i].serial), U32_MAX) == waiting[i].retransmitCount)
    && (forall pn :: pn in sent && SerialOf(sent[pn].queued).Some? ==>
          var n := SerialCount(emitted, sent[pn].queued.serial);
          n > 0 && Min(n - 1, U32_MAX) == sent[pn].queued.retransmitCount)
    && (max < U32_MAX ==> forall s: nat :: SerialCount(emitted, s) <= max + 1)
  }

  lemma AllCounted(waiting: seq<QueuedFrame>, sent: SentTable, t: Tries, emitted: seq<Emission>, max: nat)
    requires LedgerOk(waiting, sent, t, emitted, max)
    ensures ControlsCounted(waiting, sent, emitted, max)
  {
    hide SerialCount, SerialsApart;
    forall i | 0 <= i < |waiting|
      ensures Min(SerialCount(emitted, waiting[i].serial), U32_MAX) == waiting[i].retransmitCount
    {
      assert WaitingTries(waiting[i], t, max);
    }
    forall pn | pn in sent && SerialOf(sent[pn].queued).Some?
      ensures SerialCount(emitted, sent[pn].queued.serial) > 0
      ensures Min(SerialCount(emitted, sent[pn].queued.serial) - 1, U32_MAX) == sent[pn].queued.retransmitCount
    {
      assert SentTries(sent[pn].queued, t, max);
    }
  }
}
