/** The transfer stage of the resident pipeline: completed groups are committed first in, first
    out, to the previous partition's backfill and then to the current partition, and leave in
    batches, each sent to one partition and flagged when it completes that partition. */
module Transfer {
  import opened Common

  datatype Group = Group(key: int)

  // One batch put into the data system.
  datatype Delivery = Delivery(partition: int, groups: seq<Group>, last: bool)

  // ----- what a partition has received -----

  ghost function Sent(log: seq<Delivery>, p: int): seq<Group> {
    if log == [] then []
    else Sent(log[..|log| - 1], p) + (if log[|log| - 1].partition == p then log[|log| - 1].groups else [])
  }

  ghost function Marks(log: seq<Delivery>, p: int): nat {
    if log == [] then 0
    else Marks(log[..|log| - 1], p) + (if log[|log| - 1].partition == p && log[|log| - 1].last then 1 else 0)
  }

  // The completion flag is the last thing a partition receives.
  ghost predicate NothingAfterMark(log: seq<Delivery>) {
    forall i, j | 0 <= i < j < |log| :: log[i].last ==> log[j].partition != log[i].partition
  }

  lemma AppendSent(log: seq<Delivery>, d: Delivery, p: int)
    ensures Sent(log + [d], p) == Sent(log, p) + (if d.partition == p then d.groups else [])
    ensures Marks(log + [d], p) == Marks(log, p) + (if d.partition == p && d.last then 1 else 0)
  {
    assert (log + [d])[..|log + [d]| - 1] == log;
  }

  lemma {:induction false} UnmarkedHasNoMark(log: seq<Delivery>, p: int)
    requires Marks(log, p) == 0
    ensures forall i | 0 <= i < |log| :: log[i].last ==> log[i].partition != p
  {
    if log != [] {
      UnmarkedHasNoMark(log[..|log| - 1], p);
    }
  }

  lemma {:induction false} MarkedHasMark(log: seq<Delivery>, p: int)
    requires NothingAfterMark(log)
    ensures Marks(log, p) <= 1
    ensures Marks(log, p) == 1 ==> exists i :: MarksPartition(log, p, i)
  {
    if log != [] {
      var init := log[..|log| - 1];
      MarkedHasMark(init, p);
      if Marks(init, p) == 1 {
        var i :| MarksPartition(init, p, i);
        assert MarksPartition(log, p, i);
      } else if Marks(log, p) == 1 {
        assert MarksPartition(log, p, |log| - 1);
      }
    }
  }

  // Delivery i completes partition p: it is flagged and nothing is sent to p afterwards.
  ghost predicate MarksPartition(log: seq<Delivery>, p: int, i: int) {
    && 0 <= i < |log| && log[i].partition == p && log[i].last
    && forall j | i < j < |log| :: log[j].partition != p
  }

  // ----- the books of one step -----

  datatype Books = Books(
    id: int,                            // the rollout collecting; it backfills id - 1
    previousQuota: nat, currentQuota: nat,
    committedPrevious: nat, committedCurrent: nat, dispatchedPrevious: nat, dispatchedCurrent: nat,
    buffer: seq<Group>,
    committed: seq<Group>,              // what this step has committed, in order
    before: seq<Delivery>,              // what had been sent when it began
    sent: seq<Delivery>)

  ghost predicate Counts(b: Books) {
    && b.committedPrevious <= b.previousQuota && b.committedCurrent <= b.currentQuota
    && (b.committedCurrent > 0 ==> b.committedPrevious == b.previousQuota)
    && b.dispatchedPrevious <= b.committedPrevious && b.dispatchedCurrent <= b.committedCurrent
    && (b.dispatchedCurrent > 0 ==> b.dispatchedPrevious == b.committedPrevious)
  }

  ghost predicate Elsewhere(before: seq<Delivery>, sent: seq<Delivery>, id: int) {
    forall p | p != id - 1 && p != id :: Sent(sent, p) == Sent(before, p) && Marks(sent, p) == Marks(before, p)
  }

  /** What was committed is what was sent to the two partitions, in order, and then what still
      waits in the buffer; no other partition was touched. */
  ghost predicate Balanced(b: Books) {
    && Counts(b)
    && |b.committed| == b.committedPrevious + b.committedCurrent
    && b.buffer == b.committed[b.dispatchedPrevious + b.dispatchedCurrent..]
    && Sent(b.sent, b.id - 1) == Sent(b.before, b.id - 1) + b.committed[..b.dispatchedPrevious]
    && Sent(b.sent, b.id) ==
         Sent(b.before, b.id) + b.committed[b.committedPrevious..b.committedPrevious + b.dispatchedCurrent]
    && Elsewhere(b.before, b.sent, b.id)
  }

  // The partitions this step sends to had no flag when it began, and none had more after its own.
  ghost predicate Unflagged(b: Books) {
    && NothingAfterMark(b.before) && Marks(b.before, b.id) == 0
    && (b.previousQuota > 0 ==> Marks(b.before, b.id - 1) == 0)
  }

  /** A partition is flagged exactly when its quota has been dispatched, and then left alone unless it
      had been flagged before. */
  ghost predicate Flagged(b: Books) {
    && (Unflagged(b) ==> NothingAfterMark(b.sent))
    && Marks(b.sent, b.id - 1) ==
         Marks(b.before, b.id - 1) + (if 0 < b.previousQuota == b.dispatchedPrevious then 1 else 0)
    && Marks(b.sent, b.id) == Marks(b.before, b.id) + (if 0 < b.currentQuota == b.dispatchedCurrent then 1 else 0)
  }

  ghost predicate Good(b: Books) { Counts(b) && Balanced(b) && Flagged(b) }

  function Rebound(b: Books, id: int, previous: nat, current: nat): Books {
    Books(id, previous, current, 0, 0, 0, 0, [], [], b.sent, b.sent)
  }

  lemma ReboundIsGood(b: Books, id: int, previous: nat, current: nat)
    requires Good(b)
    ensures Good(Rebound(b, id, previous, current))
  {
    hide Sent, Marks, NothingAfterMark;
  }

  // A step that has committed nothing yet may change its quotas.
  lemma RequotaIsRebound(b: Books, previous: nat, current: nat)
    requires Good(b) && b.before == b.sent && b.committed == []
    ensures b.(previousQuota := previous, currentQuota := current) == Rebound(b, b.id, previous, current)
    ensures Good(Rebound(b, b.id, previous, current))
  {
    hide Sent, Marks, NothingAfterMark, Elsewhere;
    assert b.committedPrevious == b.committedCurrent == 0 && b.buffer == [];
    ReboundIsGood(b, b.id, previous, current);
  }

  function Buffered(b: Books, released: seq<Group>, previous: nat, current: nat): Books {
    b.(committedPrevious := b.committedPrevious + previous,
       committedCurrent := b.committedCurrent + current,
       buffer := b.buffer + released, committed := b.committed + released)
  }

  /** The counts after committing n ready groups: as many as the two quotas allow while the window
      is open, the backfill's share first. */
  ghost predicate Drained(b: Books, b': Books, closed: bool, ready: nat, n: nat) {
    && b'.id == b.id && b'.before == b.before
    && b'.previousQuota == b.previousQuota && b'.currentQuota == b.currentQuota && Counts(b')
    && n == (if closed then 0
             else Min(ready, b.previousQuota + b.currentQuota - b.committedPrevious - b.committedCurrent))
    && b'.committedPrevious == b.committedPrevious + Min(n, b.previousQuota - b.committedPrevious)
    && b'.committedCurrent == b.committedPrevious + b.committedCurrent + n - b'.committedPrevious
  }

  lemma SizedIsCounted(b: Books)
    requires Sized(b)
    ensures Counts(b)
  {}

  lemma CommittedIsDrained(b: Books, b': Books, closed: bool, ready: nat, n: nat)
    requires Counts(b) && Counts(b') && b'.id == b.id && b'.before == b.before
    requires b'.previousQuota == b.previousQuota && b'.currentQuota == b.currentQuota
    requires n == if closed then 0
                  else Min(ready, b.previousQuota + b.currentQuota - b.committedPrevious - b.committedCurrent)
    requires b'.committedPrevious == b.committedPrevious + Min(n, b.previousQuota - b.committedPrevious)
    requires b'.committedCurrent == b.committedPrevious + b.committedCurrent + n - b'.committedPrevious
    ensures Drained(b, b', closed, ready, n)
  {}

  lemma DispatchKeepsDrained(b: Books, b': Books, b'': Books, closed: bool, ready: nat, n: nat)
    requires Drained(b, b', closed, ready, n) && Counts(b'')
    requires b'' == b'.(buffer := b''.buffer, sent := b''.sent, dispatchedPrevious := b''.dispatchedPrevious,
                        dispatchedCurrent := b''.dispatchedCurrent)
    ensures Drained(b, b'', closed, ready, n)
  {}

  // Groups are sent to the current partition only once the backfill is complete.
  lemma BufferedKeepsCurrent(b: Books, released: seq<Group>, previous: nat, current: nat)
    requires Counts(b) && |b.committed| == b.committedPrevious + b.committedCurrent
    requires |released| == previous + current && b.committedPrevious + previous <= b.previousQuota
    ensures var b' := Buffered(b, released, previous, current);
            && b'.committed[b'.committedPrevious..b'.committedPrevious + b.dispatchedCurrent]
            == b.committed[b.committedPrevious..b.committedPrevious + b.dispatchedCurrent]
  {
    if b.dispatchedCurrent > 0 {
      assert previous == 0;
    }
  }

  lemma BufferedIsGood(b: Books, released: seq<Group>, previous: nat, current: nat)
    requires Good(b) && |released| == previous + current
    requires b.committedPrevious + previous <= b.previousQuota
    requires b.committedCurrent + current <= b.currentQuota
    requires current > 0 ==> b.committedPrevious + previous == b.previousQuota
    ensures Good(Buffered(b, released, previous, current))
  {
    hide Sent, Marks, NothingAfterMark, Elsewhere;
    BufferedIsBalanced(b, released, previous, current);
    assert Flagged(Buffered(b, released, previous, current)) by { hide Balanced; }
    hide Balanced, Flagged, Buffered;
  }

  lemma BufferedIsBalanced(b: Books, released: seq<Group>, previous: nat, current: nat)
    requires Balanced(b) && |released| == previous + current
    requires b.committedPrevious + previous <= b.previousQuota
    requires b.committedCurrent + current <= b.currentQuota
    requires current > 0 ==> b.committedPrevious + previous == b.previousQuota
    ensures Counts(Buffered(b, released, previous, current)) && Balanced(Buffered(b, released, previous, current))
  {
    hide Sent, Marks, Elsewhere;
    BufferedKeepsCurrent(b, released, previous, current);
    var b' := Buffered(b, released, previous, current);
    assert b'.committed[..b.dispatchedPrevious] == b.committed[..b.dispatchedPrevious];
    assert b'.buffer == b'.committed[b.dispatchedPrevious + b.dispatchedCurrent..];
  }

  ghost predicate Sized(b: Books) {
    && Counts(b)
    && |b.buffer| == b.committedPrevious + b.committedCurrent - b.dispatchedPrevious - b.dispatchedCurrent
  }

  // The next batch goes to the backfill while any of it is undispatched, then to the current one.
  ghost function BatchOf(b: Books): (d: Delivery)
    requires Sized(b)
  {
    if b.dispatchedPrevious < b.committedPrevious then
      Delivery(b.id - 1, b.buffer[..b.committedPrevious - b.dispatchedPrevious],
               b.committedPrevious == b.previousQuota)
    else Delivery(b.id, b.buffer, b.committedCurrent == b.currentQuota)
  }

  ghost function Dispatched(b: Books): Books
    requires Sized(b)
  {
    var d := BatchOf(b);
    var rest := b.(buffer := b.buffer[|d.groups|..], sent := b.sent + [d]);
    if b.dispatchedPrevious < b.committedPrevious then rest.(dispatchedPrevious := b.committedPrevious)
    else rest.(dispatchedCurrent := b.committedCurrent)
  }

  lemma GoodIsSized(b: Books)
    requires Good(b)
    ensures Sized(b)
  {}

  lemma DispatchedIsBalanced(b: Books)
    requires Good(b) && b.buffer != []
    ensures Counts(Dispatched(b)) && Balanced(Dispatched(b))
  {
    if b.dispatchedPrevious < b.committedPrevious {
      BackfillIsBalanced(b);
    } else {
      CurrentIsBalanced(b);
    }
    hide Good, Balanced, Counts, Dispatched;
  }

  // Nothing but the batch's own partition receives anything.
  lemma BatchElsewhere(b: Books, d: Delivery)
    requires Elsewhere(b.before, b.sent, b.id) && (d.partition == b.id || d.partition == b.id - 1)
    ensures Elsewhere(b.before, b.sent + [d], b.id)
  {
    forall p | p != b.id - 1 && p != b.id
      ensures Sent(b.sent + [d], p) == Sent(b.before, p) && Marks(b.sent + [d], p) == Marks(b.before, p)
    {
      AppendSent(b.sent, d, p);
    }
    hide Sent, Marks;
  }

  // A slice and the piece after it.
  lemma SliceGrows(prefix: seq<Group>, s: seq<Group>, start: nat, middle: nat, end: nat)
    requires start <= middle <= end <= |s|
    ensures prefix + s[start..middle] + s[middle..end] == prefix + s[start..end]
  {}

  // The batch is the next stretch of what was committed, and goes on where its partition stopped.
  lemma BatchContinues(b: Books, start: nat, middle: nat, end: nat)
    requires Sized(b) && start <= middle <= end <= |b.committed|
    requires BatchOf(b).groups == b.committed[middle..end]
    requires Sent(b.sent, BatchOf(b).partition) == Sent(b.before, BatchOf(b).partition) + b.committed[start..middle]
    ensures var d := BatchOf(b);
            Sent(b.sent + [d], d.partition) == Sent(b.before, d.partition) + b.committed[start..end]
  {
    var d := BatchOf(b);
    AppendSent(b.sent, d, d.partition);
    SliceGrows(Sent(b.before, d.partition), b.committed, start, middle, end);
    hide Sent, Sized, BatchOf;
  }

  lemma OtherUntouched(b: Books, p: int)
    requires Sized(b) && p != BatchOf(b).partition
    ensures Sent(b.sent + [BatchOf(b)], p) == Sent(b.sent, p)
  {
    AppendSent(b.sent, BatchOf(b), p);
    hide Sent;
  }

  lemma BackfillIsBalanced(b: Books)
    requires Good(b) && b.dispatchedPrevious < b.committedPrevious
    ensures Counts(Dispatched(b)) && Balanced(Dispatched(b))
  {
    hide Sent, Marks, NothingAfterMark, Elsewhere, Flagged;
    GoodIsSized(b);
    assert b.dispatchedCurrent == 0 && b.buffer == b.committed[b.dispatchedPrevious..];
    assert BatchOf(b).groups == b.committed[b.dispatchedPrevious..b.committedPrevious];
    BatchContinues(b, 0, b.dispatchedPrevious, b.committedPrevious);
    OtherUntouched(b, b.id);
    BatchElsewhere(b, BatchOf(b));
    assert Dispatched(b).buffer == b.committed[b.committedPrevious..];
  }

  lemma CurrentIsBalanced(b: Books)
    requires Good(b) && b.buffer != [] && b.dispatchedPrevious >= b.committedPrevious
    ensures Counts(Dispatched(b)) && Balanced(Dispatched(b))
  {
    hide Sent, Marks, NothingAfterMark, Elsewhere, Flagged;
    GoodIsSized(b);
    var mid := b.committedPrevious + b.dispatchedCurrent;
    assert BatchOf(b).groups == b.committed[mid..|b.committed|];
    BatchContinues(b, b.committedPrevious, mid, |b.committed|);
    OtherUntouched(b, b.id - 1);
    BatchElsewhere(b, BatchOf(b));
    assert Dispatched(b).buffer == [] == b.committed[|b.committed|..];
  }

  lemma AppendAfterNoMark(log: seq<Delivery>, d: Delivery)
    requires NothingAfterMark(log) && Marks(log, d.partition) == 0
    ensures NothingAfterMark(log + [d])
  {
    UnmarkedHasNoMark(log, d.partition);
    hide Marks;
  }

  lemma DispatchedIsFlagged(b: Books)
    requires Good(b) && b.buffer != []
    ensures Flagged(Dispatched(b))
  {
    var d := BatchOf(b);
    AppendSent(b.sent, d, b.id);
    AppendSent(b.sent, d, b.id - 1);
    hide Sent, Marks, Balanced, NothingAfterMark;
    assert Unflagged(Dispatched(b)) <==> Unflagged(b);
    if Unflagged(b) {
      AppendAfterNoMark(b.sent, d);
    }
  }

  lemma DispatchedIsGood(b: Books)
    requires Good(b) && b.buffer != []
    ensures Sized(b) && Good(Dispatched(b))
  {
    GoodIsSized(b);
    DispatchedIsBalanced(b);
    DispatchedIsFlagged(b);
    hide Balanced, Flagged, Dispatched, BatchOf;
  }

  class TransferDomain {
    const rolloutBatchSize: nat
    const transferBatchGroupCount: int
    var rolloutId: int
    var readyGroupBuffer: seq<Group>
    var transferBuffer: seq<Group>
    var stepOutputGroups: seq<Group>    // what this step has committed, in order
    var previousQuota: nat
    var currentQuota: nat
    var outputWindowClosed: bool
    var committedPrevious: nat
    var committedCurrent: nat
    var dispatchedPrevious: nat
    var dispatchedCurrent: nat
    var sent: seq<Delivery>             // the batches put so far, each by a task of its own
    ghost var before: seq<Delivery>

    ghost function View(): Books
      reads this
    {
      Books(rolloutId, previousQuota, currentQuota, committedPrevious, committedCurrent,
            dispatchedPrevious, dispatchedCurrent, transferBuffer, stepOutputGroups, before, sent)
    }

    ghost predicate Valid()
      reads this
    {
      Good(View())
    }

    // Fewer groups wait to be sent than one batch holds.
    predicate LessThanABatch()
      reads this
    {
      transferBuffer == [] || |transferBuffer| < transferBatchGroupCount
    }

    ghost predicate Counted()
      reads this
    {
      Counts(View())
    }

    constructor (rolloutBatchSize: nat, transferBatchGroupCount: int)
      ensures Valid() && View() == Books(-1, 0, rolloutBatchSize, 0, 0, 0, 0, [], [], [], [])
      ensures this.rolloutBatchSize == rolloutBatchSize
      ensures readyGroupBuffer == [] && !outputWindowClosed
    {
      this.rolloutBatchSize, this.transferBatchGroupCount := rolloutBatchSize, transferBatchGroupCount;
      rolloutId, readyGroupBuffer, transferBuffer, stepOutputGroups := -1, [], [], [];
      previousQuota, currentQuota, outputWindowClosed := 0, rolloutBatchSize, false;
      committedPrevious, committedCurrent, dispatchedPrevious, dispatchedCurrent := 0, 0, 0, 0;
      sent, before := [], [];
    }

    /** Rebinding to the next step is refused while transfers are pending. */
    method RebindStep(id: int) returns (ok: bool)
      requires Valid()
      modifies this
      ensures Valid() && readyGroupBuffer == old(readyGroupBuffer)
      ensures ok == (old(transferBuffer) == [])
      ensures View() == if ok then Rebound(old(View()), id, 0, rolloutBatchSize) else old(View())
      ensures ok ==> !outputWindowClosed && stepOutputGroups == [] && before == sent && rolloutId == id
    {
      hide Good, Marks, Sent;
      if transferBuffer != [] {
        return false;
      }
      ReboundIsGood(View(), id, 0, rolloutBatchSize);
      rolloutId := id;
      ResetStepPartitionState();
      return true;
    }

    method ResetStepPartitionState()
      modifies this`stepOutputGroups, this`previousQuota, this`currentQuota, this`outputWindowClosed,
               this`committedPrevious, this`committedCurrent, this`dispatchedPrevious,
               this`dispatchedCurrent, this`before
      ensures stepOutputGroups == [] && !outputWindowClosed && before == sent
      ensures previousQuota == 0 && currentQuota == rolloutBatchSize
      ensures committedPrevious == committedCurrent == dispatchedPrevious == dispatchedCurrent == 0
    {
      stepOutputGroups, previousQuota, currentQuota, outputWindowClosed := [], 0, rolloutBatchSize, false;
      committedPrevious, committedCurrent, dispatchedPrevious, dispatchedCurrent := 0, 0, 0, 0;
      before := sent;
    }

    /** Setting the quotas of a step that has committed nothing yet. */
    method ConfigureTransferQuota(previous: nat, current: nat)
      requires Valid() && before == sent && stepOutputGroups == []
      modifies this`previousQuota, this`currentQuota
      ensures Valid() && View() == Rebound(old(View()), rolloutId, previous, current)
    {
      RequotaIsRebound(View(), previous, current);
      hide Good, Rebound, Sent, Marks;
      previousQuota, currentQuota := previous, current;
    }

    function RemainingReadyCapacity(): (r: int)
      reads this
    {
      previousQuota + currentQuota - (committedPrevious + committedCurrent) - |readyGroupBuffer|
    }

    /** Commits the longest prefix of the ready buffer the two quotas allow, backfill first, and
        sends what makes full batches.  The two errors raised when a count exceeds its quota have
        no branch here: Valid() excludes them. */
    method DrainReadyGroupPayloads() returns (released: seq<Group>)
      requires Valid()
      modifies this`readyGroupBuffer, this`stepOutputGroups, this`committedPrevious,
               this`committedCurrent, this`transferBuffer, this`dispatchedPrevious, this`dispatchedCurrent,
               this`sent
      ensures Valid()
      ensures released + readyGroupBuffer == old(readyGroupBuffer)
      ensures stepOutputGroups == old(stepOutputGroups) + released
      ensures Drained(old(View()), View(), outputWindowClosed, |old(readyGroupBuffer)|, |released|)
      ensures released == [] ==> transferBuffer == old(transferBuffer)
      ensures released != [] ==> LessThanABatch()
    {
      hide Good, Sent, Marks, Drained;
      released := CommitReady();
      ghost var b, b' := old(View()), View();
      if released != [] {
        SpawnReadyTransfers();
      }
      GoodIsSized(View());
      DispatchKeepsDrained(b, b', View(), outputWindowClosed, |old(readyGroupBuffer)|, |released|);
    }

    method CommitReady() returns (released: seq<Group>)
      requires Valid()
      modifies this`readyGroupBuffer, this`stepOutputGroups, this`committedPrevious,
               this`committedCurrent, this`transferBuffer
      ensures Valid()
      ensures released + readyGroupBuffer == old(readyGroupBuffer)
      ensures stepOutputGroups == old(stepOutputGroups) + released
      ensures Drained(old(View()), View(), outputWindowClosed, |old(readyGroupBuffer)|, |released|)
      ensures released == [] ==> transferBuffer == old(transferBuffer)
    {
      GoodIsSized(View());
      SizedIsCounted(View());
      hide Good, Sent, Marks, Drained, Sized, Balanced, Counts, Min;
      released := CommitAllowed();
      GoodIsSized(View());
      SizedIsCounted(View());
      CommittedIsDrained(old(View()), View(), outputWindowClosed, |old(readyGroupBuffer)|, |released|);
    }

    // Commits what the quotas allow while the window is open.
    method CommitAllowed() returns (released: seq<Group>)
      requires Valid()
      modifies this`readyGroupBuffer, this`stepOutputGroups, this`committedPrevious,
               this`committedCurrent, this`transferBuffer
      ensures Valid()
      ensures released + readyGroupBuffer == old(readyGroupBuffer)
      ensures stepOutputGroups == old(stepOutputGroups) + released
      ensures |released| == if outputWindowClosed then 0 else
        Min(|old(readyGroupBuffer)|, previousQuota + currentQuota - old(committedPrevious) - old(committedCurrent))
      ensures committedPrevious == old(committedPrevious) + Min(|released|, previousQuota - old(committedPrevious))
      ensures committedCurrent == old(committedPrevious) + old(committedCurrent) + |released| - committedPrevious
      ensures released == [] ==> transferBuffer == old(transferBuffer)
    {
      GoodIsSized(View());
      SizedIsCounted(View());
      assert previousQuota >= committedPrevious && currentQuota >= committedCurrent;
      assert Counted();
      hide *;
      released := [];
      if !outputWindowClosed && readyGroupBuffer != [] {
        var nextPrevious, nextCurrent;
        released, nextPrevious, nextCurrent := SelectForCommit();
        if released != [] {
          BufferCommitted(released, nextPrevious, nextCurrent);
        }
      }
    }

    // Moves the committed prefix of the ready buffer to the transfer buffer and counts it.
    method BufferCommitted(released: seq<Group>, nextPrevious: nat, nextCurrent: nat)
      requires Valid() && released <= readyGroupBuffer
      requires committedPrevious <= nextPrevious <= previousQuota
      requires committedCurrent <= nextCurrent <= currentQuota
      requires |released| == nextPrevious - committedPrevious + nextCurrent - committedCurrent
      requires nextCurrent > committedCurrent ==> nextPrevious == previousQuota
      modifies this`readyGroupBuffer, this`stepOutputGroups, this`committedPrevious,
               this`committedCurrent, this`transferBuffer
      ensures Valid()
      ensures committedPrevious == nextPrevious && committedCurrent == nextCurrent
      ensures released + readyGroupBuffer == old(readyGroupBuffer)
      ensures stepOutputGroups == old(stepOutputGroups) + released
    {
      hide Good, Sent, Marks;
      BufferedIsGood(View(), released, nextPrevious - committedPrevious, nextCurrent - committedCurrent);
      readyGroupBuffer := readyGroupBuffer[|released|..];
      stepOutputGroups := stepOutputGroups + released;
      committedPrevious, committedCurrent := nextPrevious, nextCurrent;
      transferBuffer := transferBuffer + released;
    }

    // How far into the ready buffer the quotas reach, and the counts once that is committed.
    method SelectForCommit() returns (released: seq<Group>, nextPrevious: nat, nextCurrent: nat)
      requires Counted()
      ensures released <= readyGroupBuffer
      ensures |released| ==
        Min(|readyGroupBuffer|, previousQuota + currentQuota - committedPrevious - committedCurrent)
      ensures nextPrevious == committedPrevious + Min(|released|, previousQuota - committedPrevious)
      ensures nextCurrent == committedPrevious + committedCurrent + |released| - nextPrevious
      ensures nextPrevious <= previousQuota && committedCurrent <= nextCurrent <= currentQuota
      ensures nextCurrent > committedCurrent ==> nextPrevious == previousQuota
    {
      released, nextPrevious, nextCurrent := [], committedPrevious, committedCurrent;
      var i := 0;
      while i < |readyGroupBuffer| && (nextPrevious < previousQuota || nextCurrent < currentQuota)
        invariant 0 <= i <= |readyGroupBuffer| && released == readyGroupBuffer[..i]
        invariant nextPrevious == committedPrevious + Min(i, previousQuota - committedPrevious)
        invariant nextCurrent == committedCurrent + i - (nextPrevious - committedPrevious)
        invariant nextPrevious <= previousQuota && nextCurrent <= currentQuota
      {
        if nextPrevious < previousQuota {
          nextPrevious := nextPrevious + 1;
        } else {
          nextCurrent := nextCurrent + 1;
        }
        released := released + [readyGroupBuffer[i]];
        i := i + 1;
      }
    }

    /** Sends one batch, never mixing partitions.  Nothing is sent unless the buffer holds a full
        batch or force is set. */
    method SpawnTransfer(force: bool) returns (count: nat)
      requires Valid()
      modifies this`transferBuffer, this`dispatchedPrevious, this`dispatchedCurrent, this`sent
      ensures Valid()
      ensures count > 0 <==>
        old(transferBuffer) != [] && (force || |old(transferBuffer)| >= transferBatchGroupCount)
      ensures count + |transferBuffer| == |old(transferBuffer)|
      ensures old(Sized(View())) && View() == if count > 0 then Dispatched(old(View())) else old(View())
    {
      GoodIsSized(View());
      hide Good, Sent, Marks;
      count := 0;
      if transferBuffer != [] && (force || |transferBuffer| >= transferBatchGroupCount) {
        DispatchedIsGood(View());
        var partition, last;
        partition, count, last := NextBatch();
        sent := sent + [Delivery(partition, transferBuffer[..count], last)];
        transferBuffer := transferBuffer[count..];
      }
    }

    // What is left of the backfill first, then what is left of the current partition.
    method NextBatch() returns (partition: int, count: nat, last: bool)
      requires Sized(View()) && transferBuffer != []
      modifies this`dispatchedPrevious, this`dispatchedCurrent
      ensures 0 < count <= |transferBuffer|
      ensures Delivery(partition, transferBuffer[..count], last) == BatchOf(old(View()))
      ensures dispatchedPrevious == Dispatched(old(View())).dispatchedPrevious
      ensures dispatchedCurrent == Dispatched(old(View())).dispatchedCurrent
    {
      partition, count, last := rolloutId - 1, 0, false;
      if dispatchedPrevious < committedPrevious {
        count := Min(|transferBuffer|, committedPrevious - dispatchedPrevious);
        dispatchedPrevious := dispatchedPrevious + count;
        last := previousQuota > 0 && dispatchedPrevious >= previousQuota;
      } else if dispatchedCurrent < committedCurrent {
        partition := rolloutId;
        count := Min(|transferBuffer|, committedCurrent - dispatchedCurrent);
        dispatchedCurrent := dispatchedCurrent + count;
        last := currentQuota > 0 && committedCurrent >= currentQuota && dispatchedCurrent >= currentQuota;
        assert transferBuffer[..count] == transferBuffer;
      }
    }

    // Sends full batches while there are any: what is left would not fill one.
    method SpawnReadyTransfers()
      requires Valid()
      modifies this`transferBuffer, this`dispatchedPrevious, this`dispatchedCurrent, this`sent
      ensures Valid() && LessThanABatch()
      ensures |old(transferBuffer)| < transferBatchGroupCount ==>
        transferBuffer == old(transferBuffer) && sent == old(sent)
    {
      hide Good, Dispatched;
      var spawned := SpawnTransfer(false);
      while spawned > 0
        invariant Valid() && (spawned <= 0 ==> LessThanABatch())
        invariant |old(transferBuffer)| < transferBatchGroupCount ==>
          spawned == 0 && transferBuffer == old(transferBuffer) && sent == old(sent)
        decreases |transferBuffer| + spawned
      {
        spawned := SpawnTransfer(false);
      }
    }

    /** Draining always succeeds: whatever waits in the buffer is owed to one of the partitions. */
    method WaitForPendingTransfers() returns (ok: bool)
      requires Valid()
      modifies this`transferBuffer, this`dispatchedPrevious, this`dispatchedCurrent, this`sent
      ensures Valid() && ok
      ensures transferBuffer == []
      ensures dispatchedPrevious == committedPrevious && dispatchedCurrent == committedCurrent
    {
      while transferBuffer != []
        invariant Valid()
        decreases |transferBuffer|
      {
        var spawned := SpawnTransfer(true);
        if spawned == 0 {
          return false;
        }
      }
      return true;
    }

    method EnqueueReadyGroups(groups: seq<Group>)
      requires Valid()
      modifies this`readyGroupBuffer
      ensures Valid() && readyGroupBuffer == old(readyGroupBuffer) + groups
    {
      var i := 0;
      while i < |groups|
        invariant 0 <= i <= |groups| && readyGroupBuffer == old(readyGroupBuffer) + groups[..i]
      {
        readyGroupBuffer := readyGroupBuffer + [groups[i]];
        i := i + 1;
      }
    }

    method CloseOutputWindow()
      requires Valid()
      modifies this`outputWindowClosed
      ensures Valid() && outputWindowClosed
    {
      outputWindowClosed := true;
    }

    method DropReadyGroups() returns (dropped: nat)
      requires Valid()
      modifies this`readyGroupBuffer
      ensures Valid() && readyGroupBuffer == [] && dropped == |old(readyGroupBuffer)|
    {
      dropped := |readyGroupBuffer|;
      readyGroupBuffer := [];
    }
  }
}
