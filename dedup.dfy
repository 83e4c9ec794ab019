/**
 * The sequence-number filter of the sample listener (cmd/main.go): one
 * `seqno` cell, starting at 0, shared by every delivery. A reading is
 * processed (logged) only when its sequence differs from the cell, and the
 * cell then takes that sequence. Deliveries are taken one at a time, as the
 * mutex in the source guarantees.
 */
module SequenceDedup {
  import opened Payload

  /** What one delivery leads to: nothing, the structured log line for a
      reading that is a slog.LogValuer, or the "Unknown data type" error line. */
  datatype Outcome = Suppressed | LoggedInfo | LoggedError

  /** The value the cell holds after a run of deliveries, starting from `last`. */
  function LastSeen(last: Byte, seqs: seq<Byte>): Byte
  {
    if seqs == [] then last else seqs[|seqs| - 1]
  }

  /** Which deliveries of a run are processed, starting from a cell holding `last`. */
  function Processed(last: Byte, seqs: seq<Byte>): (flags: seq<bool>)
    ensures |flags| == |seqs|
    decreases |seqs|
  {
    if seqs == [] then [] else [seqs[0] != last] + Processed(seqs[0], seqs[1..])
  }

  /** One more delivery extends the run by one flag: processed exactly when
      it differs from what the cell holds. */
  lemma {:induction false} ProcessedAppend(last: Byte, seqs: seq<Byte>, s: Byte)
    ensures Processed(last, seqs + [s]) == Processed(last, seqs) + [s != LastSeen(last, seqs)]
    decreases |seqs|
  {
    if seqs != [] {
      assert (seqs + [s])[1..] == seqs[1..] + [s];
      ProcessedAppend(seqs[0], seqs[1..], s);
      assert LastSeen(seqs[0], seqs[1..]) == LastSeen(last, seqs);
    }
  }

  /** A delivery is processed exactly when its sequence differs from the one
      delivered just before it (from the initial cell value for the first). */
  lemma {:induction false} ProcessedIffChanged(last: Byte, seqs: seq<Byte>, i: nat)
    requires i < |seqs|
    ensures Processed(last, seqs)[i] <==> seqs[i] != (if i == 0 then last else seqs[i - 1])
    decreases i
  {
    if i > 0 {
      ProcessedIffChanged(seqs[0], seqs[1..], i - 1);
    }
  }

  /** Two consecutive deliveries with the same sequence are processed at most once. */
  lemma RepeatIsSuppressed(last: Byte, seqs: seq<Byte>, i: nat)
    requires i + 1 < |seqs| && seqs[i] == seqs[i + 1]
    ensures !Processed(last, seqs)[i + 1]
  {
    ProcessedIffChanged(last, seqs, i + 1);
  }

  /** The cell starts at 0: a first delivery with sequence 0 is not processed,
      any other first delivery is. */
  lemma FirstDelivery(seqs: seq<Byte>)
    requires seqs != []
    ensures Processed(0, seqs)[0] <==> seqs[0] != 0
  {
  }

  /** The wrap from 255 to 0 is a change like any other. */
  lemma WrapIsProcessed(last: Byte, seqs: seq<Byte>, i: nat)
    requires i + 1 < |seqs| && seqs[i] == 255 && seqs[i + 1] == 0
    ensures Processed(last, seqs)[i + 1]
  {
    ProcessedIffChanged(last, seqs, i + 1);
  }

  /** One cell serves every device: readings of two devices that alternate
      with different sequences are all processed, while a second device
      repeating the first one's sequence is suppressed. */
  lemma SharedAcrossDevices(a: Byte, b: Byte)
    requires a != 0 && a != b
    ensures Processed(0, [a, b, a, b]) == [true, true, true, true]
    ensures Processed(0, [a, a]) == [true, false]
  {
    var run := [a, b, a, b];
    forall i | 0 <= i < 4 ensures Processed(0, run)[i] {
      ProcessedIffChanged(0, run, i);
    }
    ProcessedIffChanged(0, [a, a], 1);
  }

  /** The `seqno` variable with its comparison and update. The ghost fields
      record every delivery so far and which of them were processed. */
  class SequenceCell {
    var seqno: Byte
    ghost var history: seq<Byte>
    ghost var processedLog: seq<bool>

    ghost predicate Valid()
      reads this
    {
      && seqno == LastSeen(0, history)
      && processedLog == Processed(0, history)
    }

    constructor ()
      ensures Valid() && seqno == 0 && history == []
    {
      seqno := 0;
      history := [];
      processedLog := [];
    }

    /** The deduplicating callback body: `isLogValuer` says whether the
        reading implements slog.LogValuer. Both logging branches update the cell. */
    method Deliver(sequence: Byte, isLogValuer: bool) returns (outcome: Outcome)
      requires Valid()
      modifies this
      ensures Valid()
      ensures outcome != Suppressed <==> old(seqno) != sequence
      ensures outcome != Suppressed ==> (outcome == LoggedInfo <==> isLogValuer)
      ensures seqno == sequence
      ensures history == old(history) + [sequence]
      ensures processedLog == old(processedLog) + [outcome != Suppressed]
    {
      ProcessedAppend(0, history, sequence);
      if seqno != sequence {
        if isLogValuer {
          outcome := LoggedInfo;
        } else {
          outcome := LoggedError;
        }
        seqno := sequence;
      } else {
        outcome := Suppressed;
      }
      history := history + [sequence];
      processedLog := processedLog + [outcome != Suppressed];
    }
  }
}
