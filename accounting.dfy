/** The push stage's progress accounting. Each push round drains a batch from
    the outtake queue, re-queues the records the store rejected, and adjusts
    the expected total and the pushed counter. `StepAsWritten` is what
    `PullUpdatePush._push` and `_handle_failed_documents` do; `Step` is the
    corrected accounting. */
module PushAccounting {

  /** The expected total (`ndocs`), the pushed counter and the number of
      records waiting in the outtake queue. */
  datatype Tally = Tally(total: int, pushed: int, queued: int)

  /** One push round: the batch drained, the failures the store reported and
      the records put back in the queue. */
  datatype Round = Round(batch: nat, reported: nat, requeued: nat)

  /** Work that is expected but is neither pushed nor waiting in the queue. */
  function Backlog(t: Tally): (b: int) {
    t.total - t.pushed - t.queued
  }

  /** As written: the total grows by the reported failures AND the pushed
      counter leaves the re-queued records out. */
  function StepAsWritten(t: Tally, r: Round): (after: Tally) {
    Tally(t.total + r.reported, t.pushed + r.batch - r.requeued, t.queued - r.batch + r.requeued)
  }

  /** Corrected: the total grows by the reported failures, as in the
      source, and the pushed counter counts every record sent; a re-queued
      record is counted again when its retry is sent. */
  function Step(t: Tally, r: Round): (after: Tally) {
    Tally(t.total + r.reported, t.pushed + r.batch, t.queued - r.batch + r.requeued)
  }

  /** Every round re-queued exactly the records it reported as failed. */
  predicate RequeuesReported(rounds: seq<Round>) {
    forall i :: 0 <= i < |rounds| ==> rounds[i].requeued == rounds[i].reported
  }

  function Reported(rounds: seq<Round>): (n: nat) {
    if rounds == [] then 0 else rounds[0].reported + Reported(rounds[1..])
  }

  function RunAsWritten(t: Tally, rounds: seq<Round>): (after: Tally)
    decreases rounds
  {
    if rounds == [] then t else RunAsWritten(StepAsWritten(t, rounds[0]), rounds[1..])
  }

  function Run(t: Tally, rounds: seq<Round>): (after: Tally)
    decreases rounds
  {
    if rounds == [] then t else Run(Step(t, rounds[0]), rounds[1..])
  }

  lemma {:induction false} RunAsWrittenBacklog(t: Tally, rounds: seq<Round>)
    ensures Backlog(RunAsWritten(t, rounds)) == Backlog(t) + Reported(rounds)
    decreases rounds
  {
    if rounds != [] {
      RunAsWrittenBacklog(StepAsWritten(t, rounds[0]), rounds[1..]);
    }
  }

  /** As written, once any failure has been reported, draining the queue
      leaves the pushed counter below the total: the push loop
      (`while push_bar.n < ndocs`) can never exit, since every later round
      finds the queue empty and changes nothing. */
  lemma AsWrittenNeverCompletes(t: Tally, rounds: seq<Round>)
    requires Backlog(t) == 0
    requires Reported(rounds) > 0
    requires RunAsWritten(t, rounds).queued == 0
    ensures RunAsWritten(t, rounds).pushed < RunAsWritten(t, rounds).total
  {
    RunAsWrittenBacklog(t, rounds);
  }

  /** Ten records pushed in one batch, two rejected, then retried
      successfully: everything is written, yet the pushed counter stops at 10
      against a total of 12. */
  lemma FailureExampleAsWritten()
    ensures RunAsWritten(Tally(10, 0, 10), [Round(10, 2, 2), Round(2, 0, 0)]) == Tally(12, 10, 0)
  {
    var rounds := [Round(10, 2, 2), Round(2, 0, 0)];
    assert rounds[1..] == [Round(2, 0, 0)];
    assert rounds[1..][1..] == [];
    assert StepAsWritten(Tally(10, 0, 10), rounds[0]) == Tally(12, 8, 2);
    assert StepAsWritten(Tally(12, 8, 2), rounds[1..][0]) == Tally(12, 10, 0);
  }

  /** The same rounds under the corrected accounting: the total becomes 12,
      the first round stops the counter at 10 with the two failed records
      queued again, and only their retry brings the counter to 12. */
  lemma FailureExampleCorrected()
    ensures Step(Tally(10, 0, 10), Round(10, 2, 2)) == Tally(12, 10, 2)
    ensures Run(Tally(10, 0, 10), [Round(10, 2, 2), Round(2, 0, 0)]) == Tally(12, 12, 0)
  {
    var rounds := [Round(10, 2, 2), Round(2, 0, 0)];
    assert rounds[1..] == [Round(2, 0, 0)];
    assert rounds[1..][1..] == [];
    assert Step(Tally(10, 0, 10), rounds[0]) == Tally(12, 10, 2);
    assert Step(Tally(12, 10, 2), rounds[1..][0]) == Tally(12, 12, 0);
  }

  /** Corrected: when every round re-queues what it reports, the unaccounted
      work never changes and the total grows by exactly the reported
      failures. */
  lemma {:induction false} RunKeepsBacklog(t: Tally, rounds: seq<Round>)
    requires RequeuesReported(rounds)
    ensures Backlog(Run(t, rounds)) == Backlog(t)
    ensures Run(t, rounds).total == t.total + Reported(rounds)
    decreases rounds
  {
    if rounds != [] {
      assert RequeuesReported(rounds[1..]) by {
        forall i | 0 <= i < |rounds[1..]|
          ensures rounds[1..][i].requeued == rounds[1..][i].reported
        {
          assert rounds[1..][i] == rounds[i + 1];
        }
      }
      RunKeepsBacklog(Step(t, rounds[0]), rounds[1..]);
    }
  }

  /** Corrected: starting with all expected work queued, the push loop ends
      exactly when the queue is drained, whatever failures were reported. */
  lemma CompletesWhenDrained(t: Tally, rounds: seq<Round>)
    requires Backlog(t) == 0
    requires RequeuesReported(rounds)
    ensures Run(t, rounds).queued == 0 <==> Run(t, rounds).pushed == Run(t, rounds).total
  {
    RunKeepsBacklog(t, rounds);
  }
}
