/**
 * Frame ingestion: the camera callback's drop policies and the fixed ring of
 * QueueSize slots it writes accepted frames into. The callback keeps a
 * static skip counter; the ring keeps the index of the next slot to write.
 */
module Ingest {
  import opened Common

  /** One ring slot: a frame header and the slot's pixel buffer of MaxImageSize bytes. */
  datatype Message = Message(meta: FrameMeta, pixels: seq<int>)

  /** Why the camera callback dropped a frame. */
  datatype DropReason = SkipWindow | Backlog | NoSubscribers | TooLarge

  /** The callback's decision for one frame and its new skip counter. */
  datatype Gate = Gate(drop: Option<DropReason>, nSkipped: int)

  /**
   * The tests the callback runs, in order: the skip window, a backlog on the
   * input pipe (which counts against the next skip window), no reader on
   * either output while debug and timing output are off, and an oversized
   * frame. `drop` is None when the frame is to be written to the ring.
   */
  function CallbackGate(nSkipped: int, skipN: int, bytesInPipe: int,
                        imageClients: int, detectionClients: int,
                        debug: bool, timing: bool, sizeBytes: int): Gate
  {
    if nSkipped < skipN then Gate(Some(SkipWindow), nSkipped + 1)
    else if bytesInPipe > 0 then Gate(Some(Backlog), 1)
    else if !debug && !timing && imageClients == 0 && detectionClients == 0 then Gate(Some(NoSubscribers), 0)
    else if sizeBytes > MaxImageSize then Gate(Some(TooLarge), 0)
    else Gate(None, 0)
  }

  /** The skip counter after `t` callbacks from a reset counter, no backlog ever seen. */
  function CounterAfter(skipN: int, t: nat): int
  {
    if t == 0 then 0
    else CallbackGate(CounterAfter(skipN, t - 1), skipN, 0, 1, 1, false, false, 0).nSkipped
  }

  /**
   * With skip_n_frames = N and no backlog, the counter climbs 0, 1, ..., N
   * over the first N + 1 callbacks after a reset; only the callback that
   * finds it at N gets past the skip window.
   */
  lemma {:induction false} SkipWindowClimbs(skipN: nat, i: nat)
    requires i <= skipN
    ensures CounterAfter(skipN, i) == i
  {
    if i > 0 {
      SkipWindowClimbs(skipN, i - 1);
    }
  }

  /**
   * The counter pattern repeats every N + 1 callbacks: every frame that gets
   * past the skip window is followed by N skipped ones.
   */
  lemma {:induction false} SkipWindowRepeats(skipN: nat, t: nat)
    ensures CounterAfter(skipN, t + skipN + 1) == CounterAfter(skipN, t)
  {
    if t == 0 {
      SkipWindowClimbs(skipN, skipN);
    } else {
      SkipWindowRepeats(skipN, t - 1);
      assert t + skipN + 1 - 1 == t - 1 + skipN + 1;
    }
  }

  /**
   * A frame that passes the skip window but meets a backlog leaves the
   * counter at 1, not 0: the next frame to pass comes after N - 1 more
   * callbacks instead of N.
   */
  lemma BacklogUsesOneSkipSlot(skipN: nat, bytesInPipe: int, ic: int, dc: int, debug: bool, timing: bool, size: int)
    requires bytesInPipe > 0
    ensures CallbackGate(skipN, skipN, bytesInPipe, ic, dc, debug, timing, size) == Gate(Some(Backlog), 1)
    ensures CallbackGate(1, skipN, 0, ic, dc, debug, timing, size).drop == Some(SkipWindow) <==> skipN > 1
  {
  }

  /** Two ring positions less than a lap apart land in different slots. */
  lemma SlotsDiffer(a: int, b: int)
    requires 0 <= b < a < b + QueueSize
    ensures a % QueueSize != b % QueueSize
  {
  }

  /**
   * The ring of camera frames. `Written` is every message stored so far, in
   * order; the ring holds the last min(|Written|, QueueSize) of them, each in
   * the slot its position selects, and `insertIdx` is where the next goes.
   */
  class CameraQueue {
    var slots: array<Message>
    var insertIdx: int
    ghost var Written: seq<Message>

    ghost predicate Valid()
      reads this, slots
    {
      slots.Length == QueueSize &&
      0 <= insertIdx < QueueSize && insertIdx == |Written| % QueueSize &&
      (forall s :: 0 <= s < QueueSize ==> |slots[s].pixels| == MaxImageSize) &&
      (forall j :: 0 <= j < |Written| && |Written| - QueueSize <= j ==> slots[j % QueueSize] == Written[j])
    }

    /** An empty ring whose slots hold `blank` headers and zeroed pixel buffers. */
    constructor (blank: FrameMeta)
      ensures Valid() && fresh(slots) && Written == [] && insertIdx == 0
    {
      slots := new Message[QueueSize](_ => Message(blank, seq(MaxImageSize, _ => 0)));
      insertIdx := 0;
      Written := [];
    }

    /**
     * Copy a frame into slot `insertIdx` (header, then sizeBytes bytes of
     * pixels over the slot's buffer) and advance the index modulo QueueSize.
     */
    method Store(meta: FrameMeta, frame: seq<int>) returns (slot: int)
      requires Valid()
      requires 0 <= meta.sizeBytes <= MaxImageSize && meta.sizeBytes <= |frame|
      modifies this, slots
      ensures Valid() && slots == old(slots)
      ensures slot == old(insertIdx) && insertIdx == (old(insertIdx) + 1) % QueueSize
      ensures slots[slot] == Message(meta, frame[..meta.sizeBytes] + old(slots[slot].pixels)[meta.sizeBytes..])
      ensures forall s :: 0 <= s < QueueSize && s != slot ==> slots[s] == old(slots[s])
      ensures Written == old(Written) + [slots[slot]]
    {
      slot := insertIdx;
      var m := Message(meta, frame[..meta.sizeBytes] + slots[slot].pixels[meta.sizeBytes..]);
      assert |m.pixels| == MaxImageSize;
      slots[slot] := m;
      insertIdx := (insertIdx + 1) % QueueSize;
      Written := Written + [m];
      forall j | 0 <= j < |Written| && |Written| - QueueSize <= j
        ensures slots[j % QueueSize] == Written[j]
      {
        if j < |Written| - 1 {
          SlotsDiffer(|Written| - 1, j);
        }
      }
      assert forall s :: 0 <= s < QueueSize ==> |slots[s].pixels| == MaxImageSize;
    }
  }

  /** The camera callback: its configuration, its static skip counter and the ring it fills. */
  class CameraCallback {
    const skipNFrames: int
    const debug: bool
    const timing: bool
    const queue: CameraQueue
    var nSkipped: int

    constructor (skipN: int, debug: bool, timing: bool, queue: CameraQueue)
      ensures skipNFrames == skipN && this.debug == debug && this.timing == timing
      ensures this.queue == queue && nSkipped == 0
    {
      skipNFrames := skipN;
      this.debug := debug;
      this.timing := timing;
      this.queue := queue;
      nSkipped := 0;
    }

    /**
     * Handle one delivered frame. A dropped frame leaves the ring alone; an
     * accepted one overwrites slot `insertIdx` only and advances the index.
     */
    method OnFrame(meta: FrameMeta, frame: seq<int>, bytesInPipe: int,
                   imageClients: int, detectionClients: int) returns (drop: Option<DropReason>)
      requires queue.Valid()
      requires 0 <= meta.sizeBytes <= |frame|
      modifies this, queue, queue.slots
      ensures queue.Valid() && queue.slots == old(queue.slots)
      ensures var g := CallbackGate(old(nSkipped), skipNFrames, bytesInPipe, imageClients,
                                    detectionClients, debug, timing, meta.sizeBytes);
              drop == g.drop && nSkipped == g.nSkipped
      ensures drop.Some? ==> queue.insertIdx == old(queue.insertIdx) && queue.Written == old(queue.Written) &&
                             queue.slots[..] == old(queue.slots[..])
      ensures drop.None? ==>
                queue.insertIdx == (old(queue.insertIdx) + 1) % QueueSize &&
                queue.slots[old(queue.insertIdx)] ==
                  Message(meta, frame[..meta.sizeBytes] + old(queue.slots[queue.insertIdx].pixels)[meta.sizeBytes..]) &&
                (forall s :: 0 <= s < QueueSize && s != old(queue.insertIdx) ==> queue.slots[s] == old(queue.slots[s])) &&
                queue.Written == old(queue.Written) + [queue.slots[old(queue.insertIdx)]]
    {
      if nSkipped < skipNFrames {
        nSkipped := nSkipped + 1;
        return Some(SkipWindow);
      }
      nSkipped := 0;
      if bytesInPipe > 0 {
        nSkipped := nSkipped + 1;
        return Some(Backlog);
      }
      if !debug && !timing && imageClients == 0 && detectionClients == 0 {
        return Some(NoSubscribers);
      }
      if meta.sizeBytes > MaxImageSize {
        return Some(TooLarge);
      }
      var _ := queue.Store(meta, frame);
      drop := None;
    }
  }
}
