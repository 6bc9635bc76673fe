/** The round-bounded confirmation loop of waitForConfirmation, as a function of the node
    and the history, and what it guarantees: bounded polling, one success exit, terminal
    failures that are never retried, and a timeout when the budget runs out. */
module Confirmation {
  import opened Wrappers
  import opened Ledger
  import opened Faults

  /** The number of rounds from `round` up to, not including, `maxRound`. */
  function Budget(round: int, maxRound: int): nat
  {
    if round < maxRound then maxRound - round else 0
  }

  /** The polling loop from `round` while `round < maxRound`: query the pending status; stop on a
      confirmed round, on a failed query or on a failed wait; otherwise wait for `round` and go on. */
  function PollRun(algod: Algod, txId: TxId, timeout: int, round: int, maxRound: int, h: seq<Exchange>)
    : (run: (Outcome<Fault>, seq<Exchange>))
    ensures h <= run.1
    decreases maxRound - round
  {
    if round >= maxRound then (Fail(NotConfirmed(timeout)), h)
    else
      var reply := algod.pending(h, txId);
      var h1 := h + [Pending(txId, reply)];
      match reply
      case Thrown => (Fail(ClientError), h1)
      case Unsuccessful => (Fail(TransactionRejected), h1)
      case Ok(Some(_)) => (Pass, h1)
      case Ok(None) =>
        var w := algod.waitForBlock(h1, round);
        var h2 := h1 + [WaitBlock(round, w)];
        match w
        case Thrown => (Fail(ClientError), h2)
        case Unsuccessful => (Fail(WaitForBlockFailed), h2)
        case Ok(_) => PollRun(algod, txId, timeout, round + 1, maxRound, h2)
  }

  /** waitForConfirmation(txId, timeout) from history `h`: read the last round, then poll
      from the round after it for `timeout` rounds. */
  function ConfirmationRun(algod: Algod, txId: TxId, timeout: int, h: seq<Exchange>)
    : (run: (Outcome<Fault>, seq<Exchange>))
    ensures h < run.1
  {
    var status := algod.status(h);
    var h1 := h + [Status(status)];
    match status
    case Thrown => (Fail(ClientError), h1)
    case Unsuccessful => (Fail(NodeStatusUnavailable), h1)
    case Ok(lastRound) => PollRun(algod, txId, timeout, lastRound + 1, lastRound + 1 + timeout, h1)
  }

  /** An exchange after which the loop goes on: a status read, a pending query answered
      without a confirmed round, or a wait that succeeded. */
  predicate Continues(e: Exchange)
  {
    match e
    case Status(r) => r.Ok?
    case Pending(_, r) => r.Ok? && r.value.None?
    case WaitBlock(_, r) => r.Ok?
    case _ => false
  }

  /** A pending query for `txId` that reports a confirmed round. */
  predicate Confirms(e: Exchange, txId: TxId)
  {
    e.Pending? && e.txId == txId && e.pendingReply.Ok? && e.pendingReply.value.Some?
  }

  /** How a run whose last exchange is `e` ends: the fault its reply stands for, success on a
      confirmed round, or the timeout when the last reply let the loop go on. */
  function Ending(e: Exchange, timeout: int): Outcome<Fault>
  {
    match e
    case Status(Thrown) => Fail(ClientError)
    case Status(Unsuccessful) => Fail(NodeStatusUnavailable)
    case Pending(_, Thrown) => Fail(ClientError)
    case Pending(_, Unsuccessful) => Fail(TransactionRejected)
    case Pending(_, Ok(Some(_))) => Pass
    case WaitBlock(_, Thrown) => Fail(ClientError)
    case WaitBlock(_, Unsuccessful) => Fail(WaitForBlockFailed)
    case _ => Fail(NotConfirmed(timeout))
  }

  /** A client call that threw. */
  predicate ReplyThrown(e: Exchange)
  {
    match e
    case Status(r) => r.Thrown?
    case Params(r) => r.Thrown?
    case Submit(_, r) => r.Thrown?
    case Pending(_, r) => r.Thrown?
    case WaitBlock(_, r) => r.Thrown?
    case Search(_, _, r) => r.Thrown?
  }

  /** The polling part of a run that starts at round `first`: pending queries for `txId` and
      waits alternate, and the k-th wait (counting from 0) is for round first + k. */
  predicate PollShape(ex: seq<Exchange>, txId: TxId, first: int)
  {
    forall i :: 0 <= i < |ex| ==>
      if i % 2 == 0 then ex[i].Pending? && ex[i].txId == txId
      else ex[i].WaitBlock? && ex[i].round == first + i / 2
  }

  /** The polling loop goes to the node only, and each exchange carries the node's reply. */
  lemma {:induction false} PollRunTalksToNode(algod: Algod, txId: TxId, timeout: int, round: int, maxRound: int, h: seq<Exchange>)
    ensures NodeTrace(algod, h, PollRun(algod, txId, timeout, round, maxRound, h).1)
    decreases maxRound - round
  {
    var run := PollRun(algod, txId, timeout, round, maxRound, h);
    if round < maxRound {
      var reply := algod.pending(h, txId);
      var h1 := h + [Pending(txId, reply)];
      assert run.1[..|h|] == h;
      if reply.Ok? && reply.value.None? {
        var w := algod.waitForBlock(h1, round);
        var h2 := h1 + [WaitBlock(round, w)];
        if w.Ok? {
          assert run == PollRun(algod, txId, timeout, round + 1, maxRound, h2);
          PollRunTalksToNode(algod, txId, timeout, round + 1, maxRound, h2);
          assert run.1[..|h1|] == h1;
          forall i | |h| <= i < |h2|
            ensures AnsweredBy(algod, run.1[..i], run.1[i])
          {
            if i == |h| {
              assert run.1[i] == Pending(txId, reply);
            } else {
              assert run.1[i] == WaitBlock(round, w);
            }
          }
        }
      }
    }
  }

  /** The polling loop alternates queries for `txId` and waits for consecutive rounds from
      `round` on, and makes at most two exchanges per round of the budget. */
  lemma {:induction false} PollRunShape(algod: Algod, txId: TxId, timeout: int, round: int, maxRound: int, h: seq<Exchange>)
    ensures var run := PollRun(algod, txId, timeout, round, maxRound, h);
      && PollShape(run.1[|h|..], txId, round)
      && |run.1| - |h| <= 2 * Budget(round, maxRound)
    decreases maxRound - round
  {
    var run := PollRun(algod, txId, timeout, round, maxRound, h);
    if round < maxRound {
      var reply := algod.pending(h, txId);
      var h1 := h + [Pending(txId, reply)];
      if reply.Ok? && reply.value.None? {
        var w := algod.waitForBlock(h1, round);
        var h2 := h1 + [WaitBlock(round, w)];
        if w.Ok? {
          assert run == PollRun(algod, txId, timeout, round + 1, maxRound, h2);
          PollRunShape(algod, txId, timeout, round + 1, maxRound, h2);
          var ex2 := run.1[|h2|..];
          var ex := run.1[|h|..];
          ExtendedHistory(h, [Pending(txId, reply), WaitBlock(round, w)], run.1);
          assert ex == [Pending(txId, reply), WaitBlock(round, w)] + ex2;
          forall i | 0 <= i < |ex|
            ensures if i % 2 == 0 then ex[i].Pending? && ex[i].txId == txId
                    else ex[i].WaitBlock? && ex[i].round == round + i / 2
          {
            if i >= 2 {
              assert ex[i] == ex2[i - 2];
            }
          }
        }
      }
    }
  }

  /** No exchange of the polling loop but the last stops it. */
  lemma {:induction false} PollRunStopsOnce(algod: Algod, txId: TxId, timeout: int, round: int, maxRound: int, h: seq<Exchange>)
    ensures var run := PollRun(algod, txId, timeout, round, maxRound, h);
      var ex := run.1[|h|..];
      forall i :: 0 <= i < |ex| - 1 ==> Continues(ex[i])
    decreases maxRound - round
  {
    var run := PollRun(algod, txId, timeout, round, maxRound, h);
    if round < maxRound {
      var reply := algod.pending(h, txId);
      var h1 := h + [Pending(txId, reply)];
      if reply.Ok? && reply.value.None? {
        var w := algod.waitForBlock(h1, round);
        var h2 := h1 + [WaitBlock(round, w)];
        if w.Ok? {
          assert run == PollRun(algod, txId, timeout, round + 1, maxRound, h2);
          PollRunStopsOnce(algod, txId, timeout, round + 1, maxRound, h2);
          var ex2 := run.1[|h2|..];
          var ex := run.1[|h|..];
          ExtendedHistory(h, [Pending(txId, reply), WaitBlock(round, w)], run.1);
          assert ex == [Pending(txId, reply), WaitBlock(round, w)] + ex2;
          forall i | 0 <= i < |ex| - 1
            ensures Continues(ex[i])
          {
            if i >= 2 {
              assert ex[i] == ex2[i - 2];
            }
          }
        }
      }
    }
  }

  /** The last exchange of the polling loop decides its outcome, and a timeout comes only after
      the whole budget was used. */
  lemma {:induction false} PollRunOutcome(algod: Algod, txId: TxId, timeout: int, round: int, maxRound: int, h: seq<Exchange>)
    ensures var run := PollRun(algod, txId, timeout, round, maxRound, h);
      var ex := run.1[|h|..];
      && run.0 == (if ex == [] then Fail(NotConfirmed(timeout)) else Ending(ex[|ex| - 1], timeout))
      && (run.0 == Fail(NotConfirmed(timeout)) ==> |ex| == 2 * Budget(round, maxRound))
    decreases maxRound - round
  {
    var run := PollRun(algod, txId, timeout, round, maxRound, h);
    var ex := run.1[|h|..];
    if round < maxRound {
      var reply := algod.pending(h, txId);
      var h1 := h + [Pending(txId, reply)];
      if reply.Ok? && reply.value.None? {
        var w := algod.waitForBlock(h1, round);
        var h2 := h1 + [WaitBlock(round, w)];
        if w.Ok? {
          assert run == PollRun(algod, txId, timeout, round + 1, maxRound, h2);
          PollRunOutcome(algod, txId, timeout, round + 1, maxRound, h2);
          var ex2 := run.1[|h2|..];
          ExtendedHistory(h, [Pending(txId, reply), WaitBlock(round, w)], run.1);
          assert ex == [Pending(txId, reply), WaitBlock(round, w)] + ex2;
          if ex2 != [] {
            assert ex[|ex| - 1] == ex2[|ex2| - 1];
          }
        } else {
          assert ex == [Pending(txId, reply), WaitBlock(round, w)];
        }
      } else {
        assert ex == [Pending(txId, reply)];
      }
    } else {
      assert ex == [];
    }
  }

  /** waitForConfirmation goes to the node only, starting with the status read, and when that
      read fails it makes no other request. */
  lemma ConfirmationTalksToNode(algod: Algod, txId: TxId, timeout: int, h: seq<Exchange>)
    ensures var run := ConfirmationRun(algod, txId, timeout, h);
      && NodeTrace(algod, h, run.1)
      && run.1[|h|] == Status(algod.status(h))
      && (!algod.status(h).Ok? ==> |run.1| == |h| + 1)
  {
    var status := algod.status(h);
    var h1 := h + [Status(status)];
    var run := ConfirmationRun(algod, txId, timeout, h);
    assert run.1[..|h1|] == h1;
    assert run.1[..|h|] == h;
    if status.Ok? {
      var first := status.value + 1;
      PollRunTalksToNode(algod, txId, timeout, first, first + timeout, h1);
    }
    assert AnsweredBy(algod, run.1[..|h|], run.1[|h|]);
  }

  /** After a successful status read, waitForConfirmation polls from the round after the last
      one, alternating queries for `txId` and waits for consecutive rounds, within the budget. */
  lemma ConfirmationShape(algod: Algod, txId: TxId, timeout: int, h: seq<Exchange>)
    ensures var run := ConfirmationRun(algod, txId, timeout, h);
      algod.status(h).Ok? ==>
        && PollShape(run.1[|h| + 1..], txId, algod.status(h).value + 1)
        && |run.1| - |h| <= 1 + 2 * Budget(0, timeout)
  {
    var status := algod.status(h);
    var h1 := h + [Status(status)];
    if status.Ok? {
      var first := status.value + 1;
      PollRunShape(algod, txId, timeout, first, first + timeout, h1);
    }
  }

  /** No exchange of waitForConfirmation but the last stops it, the last decides the outcome,
      and a timeout comes only after the whole budget was used. */
  lemma ConfirmationEnding(algod: Algod, txId: TxId, timeout: int, h: seq<Exchange>)
    ensures var run := ConfirmationRun(algod, txId, timeout, h);
      var ex := run.1[|h|..];
      && (forall i :: 0 <= i < |ex| - 1 ==> Continues(ex[i]))
      && run.0 == Ending(ex[|ex| - 1], timeout)
      && (run.0 == Fail(NotConfirmed(timeout)) ==> |ex| == 1 + 2 * Budget(0, timeout))
  {
    var status := algod.status(h);
    var h1 := h + [Status(status)];
    var run := ConfirmationRun(algod, txId, timeout, h);
    var ex := run.1[|h|..];
    if status.Ok? {
      var first := status.value + 1;
      PollRunStopsOnce(algod, txId, timeout, first, first + timeout, h1);
      PollRunOutcome(algod, txId, timeout, first, first + timeout, h1);
      var polls := run.1[|h1|..];
      ExtendedHistory(h, [Status(status)], run.1);
      assert ex == [Status(status)] + polls;
      forall i | 0 <= i < |ex| - 1
        ensures Continues(ex[i])
      {
        if i >= 1 {
          assert ex[i] == polls[i - 1];
        }
      }
      if polls != [] {
        assert ex[|ex| - 1] == polls[|polls| - 1];
      }
    } else {
      assert ex == [Status(status)];
    }
  }

  /** In the polling part of a run, every other exchange is a pending query. */
  lemma {:induction false} PollsInShape(ex: seq<Exchange>, txId: TxId, first: int)
    requires PollShape(ex, txId, first)
    ensures Polls(ex) == (|ex| + 1) / 2
    decreases |ex|
  {
    if |ex| >= 2 {
      var rest := ex[2..];
      assert ex[1..][1..] == rest;
      forall i | 0 <= i < |rest|
        ensures if i % 2 == 0 then rest[i].Pending? && rest[i].txId == txId
                else rest[i].WaitBlock? && rest[i].round == first + 1 + i / 2
      {
        assert rest[i] == ex[i + 2];
      }
      PollsInShape(rest, txId, first + 1);
    } else if |ex| == 1 {
      assert ex[1..] == [];
    }
  }

  /** Bounded polling: waitForConfirmation makes at most `timeout` pending-status queries, all
      for `txId`; every round it waits for lies in [last + 1, last + 1 + timeout); and with a
      failed status read or a budget of zero or less it makes no query at all. */
  lemma BoundedPolling(algod: Algod, txId: TxId, timeout: int, h: seq<Exchange>)
    ensures var run := ConfirmationRun(algod, txId, timeout, h);
      var ex := run.1[|h|..];
      var status := algod.status(h);
      && Polls(ex) <= Budget(0, timeout)
      && (forall i :: 0 <= i < |ex| && ex[i].Pending? ==> ex[i].txId == txId)
      && (forall i :: 0 <= i < |ex| && ex[i].WaitBlock? ==>
            status.Ok? && status.value + 1 <= ex[i].round < status.value + 1 + timeout)
      && (!status.Ok? || timeout <= 0 ==> ex == [Status(status)])
  {
    var run := ConfirmationRun(algod, txId, timeout, h);
    var ex := run.1[|h|..];
    var status := algod.status(h);
    ConfirmationTalksToNode(algod, txId, timeout, h);
    ConfirmationShape(algod, txId, timeout, h);
    assert ex[0] == Status(status);
    if status.Ok? {
      var polls := ex[1..];
      assert polls == run.1[|h| + 1..];
      PollsInShape(polls, txId, status.value + 1);
      assert Polls(ex) == Polls(polls);
      forall i | 1 <= i < |ex|
        ensures ex[i] == polls[i - 1]
      {
      }
    } else {
      assert ex == [Status(status)];
    }
  }

  /** The single success exit: waitForConfirmation returns normally exactly when one of its
      queries reports a confirmed round for `txId`, and that query is its last exchange. */
  lemma SingleSuccessExit(algod: Algod, txId: TxId, timeout: int, h: seq<Exchange>)
    ensures var run := ConfirmationRun(algod, txId, timeout, h);
      var ex := run.1[|h|..];
      && (run.0 == Pass <==> exists i :: 0 <= i < |ex| && Confirms(ex[i], txId))
      && (run.0 == Pass ==> Confirms(ex[|ex| - 1], txId))
  {
    var run := ConfirmationRun(algod, txId, timeout, h);
    var ex := run.1[|h|..];
    ConfirmationTalksToNode(algod, txId, timeout, h);
    ConfirmationShape(algod, txId, timeout, h);
    ConfirmationEnding(algod, txId, timeout, h);
    var last := |ex| - 1;
    if run.0 == Pass {
      assert ex[last].Pending?;
      assert last >= 1;
      assert ex[last] == run.1[|h| + 1..][last - 1];
    }
  }

  /** Terminal failures, never retried: a failed status read ends the run before any query,
      an unsuccessful query ends it as rejected, an unsuccessful wait ends it too, and a client
      call that throws ends it; each of these is the run's last exchange. */
  lemma TerminalFailures(algod: Algod, txId: TxId, timeout: int, h: seq<Exchange>)
    ensures var run := ConfirmationRun(algod, txId, timeout, h);
      var ex := run.1[|h|..];
      && (algod.status(h) == Unsuccessful ==> ex == [Status(Unsuccessful)] && run.0 == Fail(NodeStatusUnavailable))
      && (forall i :: 0 <= i < |ex| && ex[i] == Pending(txId, Unsuccessful) ==>
            i == |ex| - 1 && run.0 == Fail(TransactionRejected))
      && (forall i :: 0 <= i < |ex| && ex[i].WaitBlock? && ex[i].waitReply == Unsuccessful ==>
            i == |ex| - 1 && run.0 == Fail(WaitForBlockFailed))
      && (forall i :: 0 <= i < |ex| && ReplyThrown(ex[i]) ==> i == |ex| - 1 && run.0 == Fail(ClientError))
  {
    var run := ConfirmationRun(algod, txId, timeout, h);
    var ex := run.1[|h|..];
    ConfirmationTalksToNode(algod, txId, timeout, h);
    ConfirmationShape(algod, txId, timeout, h);
    ConfirmationEnding(algod, txId, timeout, h);
    var last := |ex| - 1;
    if last >= 1 {
      assert ex[last] == run.1[|h| + 1..][last - 1];
      assert ex[last].Pending? || ex[last].WaitBlock?;
    }
  }

  /** The timeout: waitForConfirmation fails with NotConfirmed(timeout) exactly when every reply
      let it go on, and then it has made exactly max(timeout, 0) queries. */
  lemma Timeout(algod: Algod, txId: TxId, timeout: int, h: seq<Exchange>)
    ensures var run := ConfirmationRun(algod, txId, timeout, h);
      var ex := run.1[|h|..];
      && (run.0 == Fail(NotConfirmed(timeout)) <==> forall i :: 0 <= i < |ex| ==> Continues(ex[i]))
      && (run.0 == Fail(NotConfirmed(timeout)) ==> Polls(ex) == Budget(0, timeout))
  {
    var run := ConfirmationRun(algod, txId, timeout, h);
    var ex := run.1[|h|..];
    var status := algod.status(h);
    ConfirmationTalksToNode(algod, txId, timeout, h);
    ConfirmationShape(algod, txId, timeout, h);
    ConfirmationEnding(algod, txId, timeout, h);
    BoundedPolling(algod, txId, timeout, h);
    var last := |ex| - 1;
    if last >= 1 {
      assert status.Ok?;
      assert ex[last] == run.1[|h| + 1..][last - 1];
      assert ex[last].Pending? || ex[last].WaitBlock?;
    }
    if run.0 == Fail(NotConfirmed(timeout)) {
      assert status.Ok?;
      var polls := ex[1..];
      PollsInShape(polls, txId, status.value + 1);
      assert polls == run.1[|h| + 1..];
      assert Polls(ex) == Polls(polls);
    }
  }

  /** A node that confirms the transaction on the first query: waitForConfirmation returns
      after that one query, without waiting for any block. */
  lemma ConfirmedOnFirstQuery(algod: Algod, txId: TxId, timeout: int, h: seq<Exchange>, last: int, confirmed: int)
    requires algod.status(h) == Ok(last) && timeout > 0
    requires algod.pending(h + [Status(Ok(last))], txId) == Ok(Some(confirmed))
    ensures ConfirmationRun(algod, txId, timeout, h)
      == (Pass, h + [Status(Ok(last)), Pending(txId, Ok(Some(confirmed)))])
  {
    var h1 := h + [Status(Ok(last))];
    assert PollRun(algod, txId, timeout, last + 1, last + 1 + timeout, h1) == (Pass, h1 + [Pending(txId, Ok(Some(confirmed)))]);
    assert h1 + [Pending(txId, Ok(Some(confirmed)))] == h + [Status(Ok(last)), Pending(txId, Ok(Some(confirmed)))];
  }

  /** A node that never confirms: waitForConfirmation makes exactly max(timeout, 0) queries and
      fails with the timeout. */
  lemma NeverConfirmedTimesOut(algod: Algod, txId: TxId, timeout: int, h: seq<Exchange>)
    requires algod.status(h).Ok?
    requires forall g :: algod.pending(g, txId) == Ok(None)
    requires forall g, r :: algod.waitForBlock(g, r).Ok?
    ensures var run := ConfirmationRun(algod, txId, timeout, h);
      && run.0 == Fail(NotConfirmed(timeout))
      && Polls(run.1[|h|..]) == Budget(0, timeout)
  {
    var run := ConfirmationRun(algod, txId, timeout, h);
    var ex := run.1[|h|..];
    ConfirmationTalksToNode(algod, txId, timeout, h);
    ConfirmationShape(algod, txId, timeout, h);
    forall i | 0 <= i < |ex|
      ensures Continues(ex[i])
    {
      assert ex[i] == run.1[|h| + i];
      assert AnsweredBy(algod, run.1[..|h| + i], run.1[|h| + i]);
      if i >= 1 {
        assert ex[i] == run.1[|h| + 1..][i - 1];
      }
    }
    Timeout(algod, txId, timeout, h);
  }
}
