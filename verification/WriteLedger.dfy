/**
 * The bookkeeping of writes, apart from the link: what was received, how each write was answered
 * and what still waits.  Every handler of the manager is a sequence of these four moves.
 */
module WriteLedger {
  import opened JkBmsTypes

  datatype Reply = Done(seqNo: nat) | Failed(seqNo: nat, cause: Cause)

  predicate Increasing(s: seq<nat>) {
    forall i, j | 0 <= i < j < |s| :: s[i] < s[j]
  }

  /** The answered sequence numbers, in answer order. */
  function Numbers(log: seq<Reply>): seq<nat> {
    if log == [] then [] else Numbers(log[..|log| - 1]) + [log[|log| - 1].seqNo]
  }

  /** The writes that left from the head of the queue or straight to the wire. */
  function Drained(log: seq<Reply>): seq<nat> {
    if log == [] then [] else
    var a := log[|log| - 1];
    Drained(log[..|log| - 1]) + if a.Done? || a.cause == Expired then [a.seqNo] else []
  }

  predicate Conserved(received: seq<nat>, log: seq<Reply>, pending: seq<nat>) {
    multiset(received) == multiset(Numbers(log)) + multiset(pending)
  }

  /** When `n` is confirmed, everything received below `n` has been answered already. */
  predicate AnsweredBelow(received: seq<nat>, log: seq<Reply>) {
    forall i, k | 0 <= i < |log| && log[i].Done? && k in received && k < log[i].seqNo :: k in Numbers(log[..i])
  }

  predicate InOrder(received: seq<nat>, log: seq<Reply>, pending: seq<nat>) {
    Increasing(Drained(log) + pending) && AnsweredBelow(received, log)
  }

  predicate Sound(received: seq<nat>, log: seq<Reply>, pending: seq<nat>) {
    Conserved(received, log, pending) && (Increasing(received) ==> InOrder(received, log, pending))
  }

  lemma {:induction false} IncreasingIsDistinct(s: seq<nat>, x: nat)
    requires Increasing(s)
    ensures multiset(s)[x] <= 1
  {
    if s != [] {
      var n := |s| - 1;
      assert s == s[..n] + [s[n]];
      IncreasingIsDistinct(s[..n], x);
    }
  }

  lemma {:induction false} DrainedIsAnswered(log: seq<Reply>, x: nat)
    requires x in Drained(log)
    ensures x in Numbers(log)
  {
    var n := |log| - 1;
    if x in Drained(log[..n]) {
      DrainedIsAnswered(log[..n], x);
    }
  }

  lemma KnownIsReceived(received: seq<nat>, log: seq<Reply>, pending: seq<nat>, x: nat)
    requires Conserved(received, log, pending)
    ensures x in received <==> x in Numbers(log) || x in pending
  {
    assert x in received <==> x in multiset(received);
    assert x in Numbers(log) <==> x in multiset(Numbers(log));
    assert x in pending <==> x in multiset(pending);
  }

  lemma IncreasingAppend(s: seq<nat>, n: nat)
    ensures Increasing(s + [n]) <==> Increasing(s) && forall x | x in s :: x < n
  {
    var r := s + [n];
    assert forall i {:trigger s[i]} {:trigger r[i]} | 0 <= i < |s| :: s[i] == r[i];
    assert r[|s|] == n;
    assert forall i | 0 <= i < |s| :: s[i] in s;
    if Increasing(r) {
      forall x | x in s ensures x < n {
        var i :| 0 <= i < |s| && s[i] == x;
        assert r[i] < r[|s|];
      }
    }
  }

  lemma HeadIsLeast(before: seq<nat>, pending: seq<nat>, k: nat)
    requires Increasing(before + pending) && k in pending
    ensures pending[0] <= k
  {
    var all := before + pending;
    var i :| 0 <= i < |pending| && pending[i] == k;
    assert all[|before| + i] == k && all[|before|] == pending[0];
  }

  lemma NewestIsLargest(received: seq<nat>, log: seq<Reply>, pending: seq<nat>, n: nat)
    requires Conserved(received, log, pending) && Increasing(received + [n])
    ensures Increasing(received)
    ensures forall x :: x in received || x in Drained(log) || x in pending ==> x < n
  {
    IncreasingAppend(received, n);
    forall x | x in Drained(log) || x in pending ensures x in received {
      if x in Drained(log) {
        DrainedIsAnswered(log, x);
      }
      KnownIsReceived(received, log, pending, x);
    }
  }

  lemma AppendedAnswer(received: seq<nat>, log: seq<Reply>, a: Reply)
    requires AnsweredBelow(received, log)
    requires a.Done? ==> forall k | k in received && k < a.seqNo :: k in Numbers(log)
    ensures AnsweredBelow(received, log + [a])
  {
    var l := log + [a];
    forall i, k | 0 <= i < |l| && l[i].Done? && k in received && k < l[i].seqNo ensures k in Numbers(l[..i]) {
      assert l[..i] == log[..i];
      assert i == |log| ==> log[..i] == log;
    }
  }

  lemma AppendedNumber(received: seq<nat>, log: seq<Reply>, pending: seq<nat>, n: nat)
    requires Conserved(received, log, pending) && Increasing(received + [n]) && AnsweredBelow(received, log)
    ensures AnsweredBelow(received + [n], log)
  {
    NewestIsLargest(received, log, pending, n);
    forall i | 0 <= i < |log| ensures log[i].seqNo in Numbers(log) {
      NumberAt(log, i);
    }
    forall x ensures x in Numbers(log) ==> x in received {
      KnownIsReceived(received, log, pending, x);
    }
  }

  lemma {:induction false} NumberAt(log: seq<Reply>, i: nat)
    requires i < |log|
    ensures |Numbers(log)| == |log| && Numbers(log)[i] == log[i].seqNo
  {
    if i < |log| - 1 {
      NumberAt(log[..|log| - 1], i);
    } else if |log| > 1 {
      NumberAt(log[..|log| - 1], 0);
    }
  }

  // ---- The four moves ----

  lemma Queue(received: seq<nat>, log: seq<Reply>, pending: seq<nat>, n: nat)
    requires Sound(received, log, pending)
    ensures Sound(received + [n], log, pending + [n])
  {
    if Increasing(received + [n]) {
      NewestIsLargest(received, log, pending, n);
      AppendedNumber(received, log, pending, n);
      IncreasingAppend(Drained(log) + pending, n);
      assert Drained(log) + (pending + [n]) == (Drained(log) + pending) + [n];
    }
  }

  lemma Reject(received: seq<nat>, log: seq<Reply>, pending: seq<nat>, n: nat, cause: Cause)
    requires Sound(received, log, pending) && cause != Expired
    ensures Sound(received + [n], log + [Failed(n, cause)], pending)
  {
    if Increasing(received + [n]) {
      NewestIsLargest(received, log, pending, n);
      AppendedNumber(received, log, pending, n);
      AppendedAnswer(received + [n], log, Failed(n, cause));
      assert Drained(log + [Failed(n, cause)]) == Drained(log);
    }
  }

  lemma Confirm(received: seq<nat>, log: seq<Reply>, n: nat)
    requires Sound(received, log, [])
    ensures Sound(received + [n], log + [Done(n)], [])
  {
    if Increasing(received + [n]) {
      NewestIsLargest(received, log, [], n);
      AppendedNumber(received, log, [], n);
      forall k | k in received + [n] && k < n ensures k in Numbers(log) {
        KnownIsReceived(received, log, [], k);
      }
      AppendedAnswer(received + [n], log, Done(n));
      IncreasingAppend(Drained(log) + [], n);
      assert Drained(log + [Done(n)]) + [] == (Drained(log) + []) + [n];
    }
  }

  lemma LeaveConserves(received: seq<nat>, log: seq<Reply>, pending: seq<nat>, a: Reply)
    requires Conserved(received, log, pending) && pending != [] && a.seqNo == pending[0]
    ensures Conserved(received, log + [a], pending[1..])
  {
    assert pending == [pending[0]] + pending[1..];
  }

  /** The head of the queue leaves, confirmed or expired. */
  lemma Leave(received: seq<nat>, log: seq<Reply>, pending: seq<nat>, a: Reply)
    requires Sound(received, log, pending) && pending != []
    requires a.seqNo == pending[0] && (a.Failed? ==> a.cause == Expired)
    ensures Sound(received, log + [a], pending[1..])
  {
    hide Increasing, Conserved;
    var n := pending[0];
    LeaveConserves(received, log, pending, a);
    if Increasing(received) {
      forall k | k in received && k < n ensures k in Numbers(log) {
        KnownIsReceived(received, log, pending, k);
        if k in pending {
          HeadIsLeast(Drained(log), pending, k);
        }
      }
      AppendedAnswer(received, log, a);
      assert Drained(log + [a]) == Drained(log) + [n];
      assert Drained(log) + [n] + pending[1..] == Drained(log) + pending;
    }
  }
}
