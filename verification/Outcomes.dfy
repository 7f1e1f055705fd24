/** What one dispatch, its steps taken without interruption, makes of a row: in the provider's own numbers, by
    the retry table's own entries, on the row's own columns. */
module Outcomes {
  import opened Model
  import opened Backoff
  import opened Dispatch

  /** The steps and the dispatch of the columns agree. */
  lemma StepsDispatchTheRow(c: Config, id: Id, n: Note, x: Input)
    ensures var (m, turn) := Run(c, id, Fetched, n, Copies(x, 6));
            turn.Done? && (m.row, turn.effect) == DispatchRow(c, id, n.row, x)
  {
    StepsMakeOneDispatch(c, id, n, x);
    HistoryOnlyRecords(c, id, n, x);
  }

  /** What the reply of a healthy provider decides. A refused send stores exactly the code of the number it
      was refused with (UNKNOWN for none and for 0); it is final, FAILED without a letter, exactly for 4 and 5;
      a number that is no code's raises and leaves the row QUEUED. */
  lemma ReplyDecides(c: Config, id: Id, n: Note, x: Input)
    requires n.row.channel in c.providers && x.up
    ensures var (m, turn) := Run(c, id, Fetched, n, Copies(x, 6));
            var row, number := m.row, if x.reply.errorCode.Some? then x.reply.errorCode.value else 0;
            turn.Done? &&
            if x.reply.success then
              && turn.effect == Nothing
              && row == n.row.(status := Sent, externalId := x.reply.externalId, stime := Some(x.now))
            else if number < 0 || number > 6 then
              turn.effect == Raise && row == n.row.(status := Queued)
            else
              && row.errorCode.Some? && NumberOf(row.errorCode.value) == (if number == 0 then 6 else number)
              && (row.errorCode.value == Timeout <==> number == 1)
              && (row.errorCode.value == ProviderDown <==> number == 2)
              && (row.errorCode.value == RateLimited <==> number == 3)
              && (row.errorCode.value == InvalidRecipient <==> number == 4)
              && (row.errorCode.value == InvalidToken <==> number == 5)
              && (row.errorCode.value == Unknown <==> number == 6 || number == 0)
              && (row.status == Failed && turn.effect == Nothing <==> number == 4 || number == 5)
              && (number == 4 || number == 5 ==> row == n.row.(status := Failed, errorCode := row.errorCode))
  {
    StepsDispatchTheRow(c, id, n, x);
  }

  /** What a retryable failure leads to: the provider is down, or it refuses with another number than 4 and 5.
      The table's entry for the row's event decides. As long as it has retries left the row is RETRYING one
      level up and the message's delay lies in the window of that level; past them, and only then, the row is
      FAILED and leaves a letter with its own columns. */
  lemma RetryOrBury(c: Config, id: Id, n: Note, x: Input)
    requires n.row.channel in c.providers
    requires x.up ==> !x.reply.success && (x.reply.errorCode.None? || x.reply.errorCode.value in {0, 1, 2, 3, 6})
    ensures var (m, turn) := Run(c, id, Fetched, n, Copies(x, 6));
            var p := if n.row.event in c.table then c.table[n.row.event] else c.fallback;
            && turn.Done? && m.row.errorCode.Some? && (!x.up ==> m.row.errorCode.value == ProviderDown)
            && if n.row.retryCount + 1 <= p.maxRetries then
                 && m.row ==
                    n.row.(status := Retrying, retryCount := n.row.retryCount + 1, errorCode := m.row.errorCode)
                 && turn.effect.Emit? && InWindow(p, n.row.retryCount + 1, turn.effect.delay)
               else
                 && m.row == n.row.(status := Failed, errorCode := m.row.errorCode)
                 && turn.effect == Bury(DeadLetter(id, n.row.key, n.row.event, n.row.channel, n.row.recipient,
                                                   m.row.errorCode.value, n.row.retryCount))
  {
    StepsDispatchTheRow(c, id, n, x);
    DispatchRowCases(c, id, n.row, x);
    var queued := n.row.(status := Queued);
    if x.up { RefusedForNow(c, id, queued, x); } else { RescheduledRow(c, id, queued, ProviderDown, x.draw); }
  }

  lemma RefusedForNow(c: Config, id: Id, row: Row, x: Input)
    requires !x.reply.success && (x.reply.errorCode.None? || x.reply.errorCode.value in {0, 1, 2, 3, 6})
    ensures SendRow(c, id, row, x).0.errorCode.Some?
    ensures Rescheduled(c, id, row, SendRow(c, id, row, x).0.errorCode.value, SendRow(c, id, row, x))
  {
    var code := Classify(x.reply).code;
    assert SendRow(c, id, row, x) == RescheduleRow(c, id, row, code, x.draw);
    RescheduledRow(c, id, row, code, x.draw);
  }

  ghost predicate Rescheduled(c: Config, id: Id, row: Row, code: ErrorCode, done: (Row, Effect)) {
    var p := if row.event in c.table then c.table[row.event] else c.fallback;
    if row.retryCount + 1 <= p.maxRetries then
      && done.0 == row.(status := Retrying, retryCount := row.retryCount + 1, errorCode := Some(code))
      && done.1.Emit? && InWindow(p, row.retryCount + 1, done.1.delay)
    else
      && done.0 == row.(status := Failed, errorCode := Some(code))
      && done.1 == Bury(DeadLetter(id, row.key, row.event, row.channel, row.recipient, code, row.retryCount))
  }

  lemma RescheduledRow(c: Config, id: Id, row: Row, code: ErrorCode, draw: nat)
    ensures Rescheduled(c, id, row, code, RescheduleRow(c, id, row, code, draw))
  {
    var p := if row.event in c.table then c.table[row.event] else c.fallback;
    if row.retryCount + 1 <= p.maxRetries {
      DrawsFillTheWindow(p, row.retryCount + 1, RetryDelay(p, row.retryCount + 1, draw));
    }
  }

  /** A channel without a provider fails for good, without a letter. */
  lemma NobodyToSend(c: Config, id: Id, n: Note, x: Input)
    requires n.row.channel !in c.providers
    ensures var (m, turn) := Run(c, id, Fetched, n, Copies(x, 6));
            turn == Done(Nothing) && m.row == n.row.(status := Failed, errorCode := Some(Unknown))
  {
    StepsDispatchTheRow(c, id, n, x);
  }

  /** With the table as shipped, a one-time password whose provider is down is tried again after 5, 10 and 20
      seconds, and the fourth failure is final. */
  lemma ShippedOneTimePassword(c: Config, id: Id, n: Note, x: Input)
    requires c.table == SHIPPED_TABLE && n.row.event == PaymentOtpRequested
    requires n.row.channel in c.providers && !x.up
    ensures var turn := Run(c, id, Fetched, n, Copies(x, 6)).1;
            && turn.Done?
            && (n.row.retryCount == 0 ==> turn.effect == Emit(5))
            && (n.row.retryCount == 1 ==> turn.effect == Emit(10))
            && (n.row.retryCount == 2 ==> turn.effect == Emit(20))
            && (n.row.retryCount >= 3 ==> turn.effect.Bury?)
  {
    RetryOrBury(c, id, n, x);
    if n.row.retryCount <= 2 {
      ShippedWindows(PaymentOtpRequested, n.row.retryCount + 1, Run(c, id, Fetched, n, Copies(x, 6)).1.effect.delay);
    }
  }
}
