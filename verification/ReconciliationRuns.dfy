/**
 Whole reconciliations: what holds after any number of rounds, against a leader whose log
 keeps growing between its answers, on every exit.
 */
module ReconciliationRuns {
  import opened Batches
  import opened EpochCache
  import opened EpochMirror
  import opened Reconciliation

  const MAX_ATTEMPTS: nat := 32

  datatype Exit = Agreed | UnknownEpoch | Error | NotConverged

  /** The log, how and after how many rounds it ended, and the epoch asked for last (-1 if none). */
  datatype RunResult = RunResult(log: ReplicaLog, exit: Exit, rounds: nat, asked: int)

  /** What round `i` makes of a follower log when it asks for epoch `e`. */
  type RoundFn = (ReplicaLog, int, nat) -> RoundResult

  /** `ask(i, e)` is what the leader answers in round `i` when asked for epoch `e`. */
  type Oracle = (nat, int) -> Answer

  function RoundWith(ask: Oracle): RoundFn {
    (f: ReplicaLog, e: int, i: nat) => Round(f, ask(i, e))
  }

  function ExitOf(o: Outcome): Exit
    requires !o.Continue?
  {
    match o
    case Rejected => Error
    case Settled => Agreed
    case Unknown => UnknownEpoch
  }

  /** Rounds from `attempt` on, until one of them ends the reconciliation. */
  function Rounds(round: RoundFn, f: ReplicaLog, epoch: int, attempt: nat): RunResult
    decreases MAX_ATTEMPTS - attempt
  {
    if attempt >= MAX_ATTEMPTS then RunResult(f, NotConverged, attempt, epoch)
    else
      var r := round(f, epoch, attempt);
      if r.outcome.Continue? then Rounds(round, r.log, r.outcome.epoch, attempt + 1)
      else RunResult(r.log, ExitOf(r.outcome), attempt + 1, epoch)
  }

  function Reconcile(f: ReplicaLog, ask: Oracle): RunResult {
    match Latest(f.cache)
    case None => RunResult(f, Agreed, 0, -1)
    case Some(e) => Rounds(RoundWith(ask), f, e, 0)
  }

  /** A property of follower, epoch and attempt that a continued round hands on. */
  ghost predicate Inductive(round: RoundFn, inv: (ReplicaLog, int, nat) -> bool) {
    forall g: ReplicaLog, e: int, i: nat ::
      i < MAX_ATTEMPTS && inv(g, e, i) && round(g, e, i).outcome.Continue? ==>
        inv(round(g, e, i).log, round(g, e, i).outcome.epoch, i + 1)
  }

  /** Every run ends with one last round, and an inductive property holds just before it. */
  lemma {:induction false} LastRound(round: RoundFn, inv: (ReplicaLog, int, nat) -> bool,
                                     f: ReplicaLog, epoch: int, attempt: nat)
    returns (g: ReplicaLog, e: int, i: nat)
    requires inv(f, epoch, attempt) && Inductive(round, inv)
    ensures inv(g, e, i)
    ensures var r := Rounds(round, f, epoch, attempt);
            if i >= MAX_ATTEMPTS then r == RunResult(g, NotConverged, i, e)
            else
              !round(g, e, i).outcome.Continue?
              && r == RunResult(round(g, e, i).log, ExitOf(round(g, e, i).outcome), i + 1, e)
    decreases MAX_ATTEMPTS - attempt
  {
    if attempt < MAX_ATTEMPTS && round(f, epoch, attempt).outcome.Continue? {
      var r := round(f, epoch, attempt);
      g, e, i := LastRound(round, inv, r.log, r.outcome.epoch, attempt + 1);
    } else {
      g, e, i := f, epoch, attempt;
    }
  }

  /** The leader's states at the successive rounds: its log only grows. */
  ghost predicate Leading(leaders: seq<ReplicaLog>) {
    && |leaders| == MAX_ATTEMPTS
    && (forall i :: 0 <= i < |leaders| ==> leaders[i].Coherent())
    && (forall i :: 0 <= i < |leaders| ==> leaders[0].batches <= leaders[i].batches)
  }

  /** Every answer comes from the leader's state at that round, unless the call failed. */
  ghost predicate AnsweredBy(ask: Oracle, leaders: seq<ReplicaLog>) {
    forall i: nat, e: int :: i < |leaders| ==>
                               ask(i, e) == Failed || ask(i, e) == AnswerOf(leaders[i], e)
  }

  // ----- Agreement ends in a prefix -----

  /** Reconciliation keeps a follower coherent and grounded. */
  lemma {:induction false} ReconcileKeepsState(f: ReplicaLog, ask: Oracle, hist: Histories)
    returns (g: ReplicaLog, e: int, i: nat)
    requires f.Coherent() && Grounded(f, hist) && |f.cache| > 0
    ensures g.Coherent() && Grounded(g, hist)
    ensures var r := Reconcile(f, ask);
            && r.log.Coherent() && Grounded(r.log, hist)
            && (if i >= MAX_ATTEMPTS then r.exit == NotConverged
                else
                  r == RunResult(Round(g, ask(i, e)).log, r.exit, i + 1, e)
                  && (r.exit == Agreed <==> Round(g, ask(i, e)).outcome == Settled))
  {
    var inv := (g: ReplicaLog, e: int, i: nat) => g.Coherent() && Grounded(g, hist);
    var round := RoundWith(ask);
    forall g: ReplicaLog, e: int, i: nat | inv(g, e, i)
      ensures inv(round(g, e, i).log, e, i)
    {
      RoundKeepsState(g, ask(i, e), hist);
    }
    g, e, i := LastRound(round, inv, f, f.cache[|f.cache| - 1].epoch, 0);
    assert inv(g, e, i);
    assert i < MAX_ATTEMPTS ==> inv(round(g, e, i).log, e, i);
  }

  /**
   Whenever reconciliation ends by agreeing on an epoch, the follower's log is a prefix of
   the leader's log at that round.
   */
  lemma {:induction false} ReconciledIsPrefix(f: ReplicaLog, ask: Oracle, leaders: seq<ReplicaLog>, hist: Histories)
    requires Leading(leaders) && AnsweredBy(ask, leaders)
    requires f.Coherent() && Grounded(f, hist)
    requires forall i :: 0 <= i < |leaders| ==> Grounded(leaders[i], hist)
    ensures var r := Reconcile(f, ask);
            && r.log.Coherent() && Grounded(r.log, hist)
            && (r.exit == Agreed && r.rounds == 0 ==> r.log.batches == [])
            && (r.exit == Agreed && r.rounds > 0 ==>
                  r.rounds <= MAX_ATTEMPTS && r.log.batches <= leaders[r.rounds - 1].batches)
  {
    if |f.cache| == 0 {
      MirrorFirst(f.cache, f.batches);
    } else {
      var r := Reconcile(f, ask);
      var g, e, i := ReconcileKeepsState(f, ask, hist);
      if r.exit == Agreed {
        SettledRoundIsPrefix(g, leaders[i], e, hist);
      }
    }
  }

  // ----- The unknown-epoch exit -----

  /** A leader assigns its epoch when it is elected; while it leads, only its batches grow. */
  ghost predicate OneEpoch(leaders: seq<ReplicaLog>, cache: seq<Entry>) {
    forall i :: 0 <= i < |leaders| ==> leaders[i].cache == cache
  }

  /** Where a leader with later epochs than `e` says that `e` ends. */
  ghost function EndBefore(cache: seq<Entry>, e: int): nat
    requires |cache| > 0 && e < cache[|cache| - 1].epoch
  {
    cache[EpochsUpTo(cache, e)].start
  }

  /** The follower still has the epoch it asks for, or the leader's answer lies within its log. */
  ghost predicate Answerable(g: ReplicaLog, e: int, cache: seq<Entry>) {
    && g.Coherent()
    && ((|g.cache| > 0 && e <= g.cache[|g.cache| - 1].epoch)
        || (|cache| > 0 && e < cache[|cache| - 1].epoch && EndBefore(cache, e) <= g.End()))
  }

  /** An earlier epoch ends no later. */
  lemma {:induction false} EndsEarlier(l: ReplicaLog, e: int, e': int)
    requires l.Coherent() && AnswerOf(l, e).epoch >= 0 && e' < AnswerOf(l, e).epoch
    ensures |l.cache| > 0 && e' < l.cache[|l.cache| - 1].epoch
    ensures EndBefore(l.cache, e') <= AnswerOf(l, e).end
  {
    var k, k' := EpochsUpTo(l.cache, e), EpochsUpTo(l.cache, e');
    if k > 0 {
      IncreasingAt(l.cache, k - 1, |l.cache| - 1);
      IncreasingAt(l.cache, k', k - 1);
      MirrorStarts(l.cache, l.batches);
      if k < |l.cache| { IncreasingAt(l.cache, k - 1, k); }
    }
  }

  /** A cut before the end of entry `j` keeps the entry, or is where the leader's answer ends. */
  lemma {:induction false} CutAnswerable(g: ReplicaLog, j: nat, end: nat, t: nat, cache: seq<Entry>)
    requires g.Coherent() && j < |g.cache| && Truncate(g, t).Some?
    requires t == Min(Min(EntryEnd(g.cache, j, g.End()), end), g.End())
    requires |cache| > 0 && g.cache[j].epoch < cache[|cache| - 1].epoch && EndBefore(cache, g.cache[j].epoch) <= end
    ensures Answerable(Truncate(g, t).value, g.cache[j].epoch, cache)
  {
    TruncateIs(g, t);
    IncreasingAt(g.cache, j, |g.cache| - 1);
    if j + 1 < |g.cache| { IncreasingAt(g.cache, j, j + 1); }
    if t < g.End() && g.cache[j].start < t { CutKeepsEntry(g.cache, t, j); }
  }

  /** The epoch to ask for next is cut off only where the leader's answer ends. */
  lemma {:induction false} RoundAnswerable(g: ReplicaLog, l: ReplicaLog, e: int)
    requires g.Coherent() && l.Coherent() && Round(g, AnswerOf(l, e)).outcome.Continue?
    ensures Answerable(Round(g, AnswerOf(l, e)).log, Round(g, AnswerOf(l, e)).outcome.epoch, l.cache)
  {
    var a := AnswerOf(l, e);
    var j := EpochsUpTo(g.cache, a.epoch) - 1;
    EndsEarlier(l, e, g.cache[j].epoch);
    CutAnswerable(g, j, a.end, TruncationOffset(g, EndOffsetFor(g.cache, a.epoch, g.End()), a.end), l.cache);
  }

  lemma {:induction false} CutKeepsEntry(es: seq<Entry>, t: nat, j: nat)
    requires Increasing(es) && j < |es| && es[j].start < t
    ensures var p := StartsBelow(es, t); j < |p| && es[j].epoch <= p[|p| - 1].epoch
  {
    var p := StartsBelow(es, t);
    if |p| <= j { IncreasingAt(es, |p|, j); }
    assert p[|p| - 1] == es[|p| - 1];
    IncreasingAt(es, j, |p| - 1);
  }

  /** An answerable round that ends on an unknown epoch was answered by a leader with later epochs. */
  lemma {:induction false} UnknownAnswer(g: ReplicaLog, l: ReplicaLog, e: int)
    requires l.Coherent() && Answerable(g, e, l.cache) && Round(g, AnswerOf(l, e)).outcome == Unknown
    ensures Written(l, e) && AnswerOf(l, e).end <= g.End()
  {
    var a := AnswerOf(l, e);
    var t := RoundCuts(g, a);
    var k := EpochsUpTo(l.cache, e);
    assert k > 0 ==> a.epoch == l.cache[k - 1].epoch;
    assert EndOffsetFor(g.cache, a.epoch, g.End()).None?;
  }

  ghost function AnswerableInv(cache: seq<Entry>): (ReplicaLog, int, nat) -> bool {
    (g: ReplicaLog, e: int, i: nat) => Answerable(g, e, cache)
  }

  lemma {:induction false} AnswerableInductive(ask: Oracle, leaders: seq<ReplicaLog>, cache: seq<Entry>)
    requires Leading(leaders) && AnsweredBy(ask, leaders) && OneEpoch(leaders, cache)
    ensures Inductive(RoundWith(ask), AnswerableInv(cache))
  {
    var inv, round := AnswerableInv(cache), RoundWith(ask);
    forall g: ReplicaLog, e: int, i: nat
      | i < MAX_ATTEMPTS && inv(g, e, i) && round(g, e, i).outcome.Continue?
      ensures inv(round(g, e, i).log, round(g, e, i).outcome.epoch, i + 1)
    {
      assert ask(i, e) == AnswerOf(leaders[i], e);
      RoundAnswerable(g, leaders[i], e);
    }
  }

  /**
   Reconciliation that ends on an epoch the follower no longer knows leaves a prefix of the
   leader if and only if the leader's last answer ended at offset 0, which leaves nothing.
   */
  lemma {:induction false} UnknownExitIsPrefix(f: ReplicaLog, ask: Oracle, leaders: seq<ReplicaLog>, cache: seq<Entry>)
    requires Leading(leaders) && AnsweredBy(ask, leaders) && OneEpoch(leaders, cache) && f.Coherent()
    requires Reconcile(f, ask).exit == UnknownEpoch
    ensures var r := Reconcile(f, ask);
            && 0 < r.rounds <= MAX_ATTEMPTS
            && var a := ask(r.rounds - 1, r.asked);
            && a.Reply? && r.log.End() == a.end
            && (r.log.batches <= leaders[r.rounds - 1].batches <==> a.end == 0)
            && (r.log.batches == [] <==> a.end == 0)
  {
    AnswerableInductive(ask, leaders, cache);
    var g, e, i := LastRound(RoundWith(ask), AnswerableInv(cache), f, f.cache[|f.cache| - 1].epoch, 0);
    assert Answerable(g, e, cache);
    assert ask(i, e) == AnswerOf(leaders[i], e);
    UnknownAnswer(g, leaders[i], e);
    UnknownCut(g, leaders[i], e, leaders[i].batches);
  }

  // ----- No over-truncation -----

  /** A round that keeps every batch keeps the cache too. */
  lemma {:induction false} RoundShrinks(f: ReplicaLog, a: Answer)
    requires f.Coherent()
    ensures Round(f, a).log.Coherent() && Round(f, a).log.batches <= f.batches
    ensures Round(f, a).log.batches == f.batches ==> Round(f, a).log == f
  {
    if Round(f, a).outcome != Rejected {
      var t := TruncationOffset(f, EndOffsetFor(f.cache, a.epoch, f.End()), a.end);
      TruncateIs(f, t);
    }
  }

  /** The follower still has the batches `p` and none that it did not have in `f`. */
  ghost predicate Keeps(f: ReplicaLog, p: seq<Batch>, g: ReplicaLog) {
    && p <= g.batches <= f.batches
    && (g.batches == f.batches ==> g == f)
    && g.Coherent()
  }

  lemma {:induction false} RoundKeeps(f: ReplicaLog, p: seq<Batch>, g: ReplicaLog, e: int, a: Answer, l: ReplicaLog)
    requires Keeps(f, p, g) && EpochsAtMost(g.batches, e)
    requires l.Coherent() && p <= l.batches && (a == Failed || a == AnswerOf(l, e))
    ensures Keeps(f, p, Round(g, a).log)
    ensures Round(g, a).outcome.Continue? ==>
              EpochsAtMost(Round(g, a).log.batches, Round(g, a).outcome.epoch)
  {
    RoundShrinks(g, a);
    if a != Failed { RoundKeepsCommon(g, l, e, p); }
    if Round(g, a).outcome.Continue? { var j := RoundContinues(g, a); }
  }

  ghost function KeepsInv(f: ReplicaLog, p: seq<Batch>): (ReplicaLog, int, nat) -> bool {
    (g: ReplicaLog, e: int, i: nat) => Keeps(f, p, g) && EpochsAtMost(g.batches, e)
  }

  lemma {:induction false} RoundsKeep(f: ReplicaLog, p: seq<Batch>, ask: Oracle, leaders: seq<ReplicaLog>, epoch: int)
    requires Leading(leaders) && AnsweredBy(ask, leaders) && p <= leaders[0].batches
    requires KeepsInv(f, p)(f, epoch, 0)
    ensures Keeps(f, p, Rounds(RoundWith(ask), f, epoch, 0).log)
  {
    var inv, round := KeepsInv(f, p), RoundWith(ask);
    forall g: ReplicaLog, e: int, i: nat | i < MAX_ATTEMPTS && inv(g, e, i)
      ensures Keeps(f, p, round(g, e, i).log)
      ensures round(g, e, i).outcome.Continue? ==>
                inv(round(g, e, i).log, round(g, e, i).outcome.epoch, i + 1)
    {
      assert leaders[i].Coherent() && p <= leaders[i].batches;
      RoundKeeps(f, p, g, e, ask(i, e), leaders[i]);
    }
    var g, e, i := LastRound(round, inv, f, epoch, 0);
  }

  /**
   On every exit, errors included, the follower keeps the longest sequence of batches it
   shared with the leader when reconciliation began; so a follower that already was a
   prefix is unchanged.
   */
  lemma {:induction false} NoOverTruncation(f: ReplicaLog, ask: Oracle, leaders: seq<ReplicaLog>)
    requires Leading(leaders) && AnsweredBy(ask, leaders) && f.Coherent()
    ensures var r := Reconcile(f, ask);
            && CommonPrefix(f.batches, leaders[0].batches) <= r.log.batches <= f.batches
            && (f.batches <= leaders[0].batches ==> r.log == f)
  {
    if |f.cache| > 0 {
      EpochsAtMostLatest(f);
      RoundsKeep(f, CommonPrefix(f.batches, leaders[0].batches), ask, leaders, f.cache[|f.cache| - 1].epoch);
    }
  }

  lemma {:induction false} EpochsAtMostLatest(f: ReplicaLog)
    requires f.Coherent() && |f.cache| > 0
    ensures EpochsAtMost(f.batches, f.cache[|f.cache| - 1].epoch)
  {
    forall i | 0 <= i < |f.batches| ensures f.batches[i].epoch <= f.cache[|f.cache| - 1].epoch {
      MirrorLatest(f.cache, f.batches, i);
    }
  }

  // ----- Termination -----

  /** Round `i` asks for an epoch that was cached at the start, with `i` later ones behind it. */
  ghost predicate Descends(start: seq<Entry>, g: ReplicaLog, e: int, i: nat) {
    && g.Coherent() && g.cache <= start
    && i < |start| && (exists j :: 0 <= j < |start| - i && start[j].epoch == e)
  }

  lemma {:induction false} RoundDescends(start: seq<Entry>, g: ReplicaLog, e: int, i: nat, a: Answer)
    requires Increasing(start) && Descends(start, g, e, i)
    requires a == Failed || a.epoch <= e
    requires Round(g, a).outcome.Continue?
    ensures Descends(start, Round(g, a).log, Round(g, a).outcome.epoch, i + 1)
    ensures Round(g, a).outcome.epoch < e
  {
    var j :| 0 <= j < |start| - i && start[j].epoch == e;
    var k := RoundContinues(g, a);
    RoundKeepsCache(g, a);
    assert start[k] == g.cache[k];
    if j <= k { IncreasingAt(start, j, k); }
  }

  lemma {:induction false} RoundKeepsCache(g: ReplicaLog, a: Answer)
    requires g.Coherent()
    ensures Round(g, a).log.Coherent() && Round(g, a).log.cache <= g.cache
  {
    RoundKeepsState(g, a, map[]);
  }

  /**
   Each continued round moves to a strictly smaller epoch among those cached at the start.
   So there are at most as many rounds as cached epochs, and with at most 32 of them the
   "did not converge" error cannot happen. Only that the leader never answers with a later
   epoch than it was asked for is needed.
   */
  lemma {:induction false} ReconcileConverges(f: ReplicaLog, ask: Oracle)
    requires f.Coherent()
    requires forall i: nat, e: int :: i < MAX_ATTEMPTS && e >= 0 ==> ask(i, e) == Failed || ask(i, e).epoch <= e
    ensures Reconcile(f, ask).rounds <= |f.cache|
    ensures |f.cache| <= MAX_ATTEMPTS ==> Reconcile(f, ask).exit != NotConverged
  {
    if |f.cache| > 0 {
      var n := |f.cache| - 1;
      assert f.cache[n].epoch == Latest(f.cache).value;
      RoundsDescend(f.cache, f, ask, f.cache[n].epoch);
    }
  }

  ghost function DescendsInv(start: seq<Entry>): (ReplicaLog, int, nat) -> bool {
    (g: ReplicaLog, e: int, i: nat) => Descends(start, g, e, i)
  }

  lemma {:induction false} DescendsNonNegative(start: seq<Entry>, g: ReplicaLog, e: int, i: nat)
    requires Increasing(start) && Descends(start, g, e, i)
    ensures e >= 0
  {
    var j :| 0 <= j < |start| - i && start[j].epoch == e;
    IncreasingAt(start, j, j);
  }

  lemma {:induction false} DescendsInductive(start: seq<Entry>, ask: Oracle)
    requires Increasing(start)
    requires forall i: nat, e: int :: i < MAX_ATTEMPTS && e >= 0 ==> ask(i, e) == Failed || ask(i, e).epoch <= e
    ensures Inductive(RoundWith(ask), DescendsInv(start))
  {
    var inv, round := DescendsInv(start), RoundWith(ask);
    forall g: ReplicaLog, e: int, i: nat
      | i < MAX_ATTEMPTS && inv(g, e, i) && round(g, e, i).outcome.Continue?
      ensures inv(round(g, e, i).log, round(g, e, i).outcome.epoch, i + 1)
    {
      DescendsNonNegative(start, g, e, i);
      RoundDescends(start, g, e, i, ask(i, e));
    }
  }

  /** Rounds that an inductive property bounds by `n` stop within `n` rounds. */
  lemma {:induction false} RoundsBounded(round: RoundFn, inv: (ReplicaLog, int, nat) -> bool, n: nat, f: ReplicaLog,
                                         epoch: int)
    requires inv(f, epoch, 0) && Inductive(round, inv) && forall g, e, i: nat :: inv(g, e, i) ==> i < n
    ensures Rounds(round, f, epoch, 0).rounds <= n
    ensures n <= MAX_ATTEMPTS ==> Rounds(round, f, epoch, 0).exit != NotConverged
  {
    var g, e, i := LastRound(round, inv, f, epoch, 0);
  }

  lemma {:induction false} RoundsDescend(start: seq<Entry>, f: ReplicaLog, ask: Oracle, epoch: int)
    requires Increasing(start) && Descends(start, f, epoch, 0)
    requires forall i: nat, e: int :: i < MAX_ATTEMPTS && e >= 0 ==> ask(i, e) == Failed || ask(i, e).epoch <= e
    ensures Rounds(RoundWith(ask), f, epoch, 0).rounds <= |start|
    ensures |start| <= MAX_ATTEMPTS ==> Rounds(RoundWith(ask), f, epoch, 0).exit != NotConverged
  {
    DescendsInductive(start, ask);
    RoundsBounded(RoundWith(ask), DescendsInv(start), |start|, f, epoch);
  }

  lemma {:induction false} AnswerNotLater(l: ReplicaLog, epoch: int)
    requires epoch >= 0
    ensures AnswerOf(l, epoch).epoch <= epoch
  {
  }

  /** Against any leader, whatever its log and cache are at each round, a follower with few epochs converges. */
  lemma {:induction false} ConvergesWithLeader(f: ReplicaLog, ask: Oracle, leaders: seq<ReplicaLog>)
    requires f.Coherent() && |leaders| == MAX_ATTEMPTS && AnsweredBy(ask, leaders)
    ensures Reconcile(f, ask).rounds <= |f.cache|
    ensures |f.cache| <= MAX_ATTEMPTS ==> Reconcile(f, ask).exit != NotConverged
  {
    forall i: nat, e: int | i < MAX_ATTEMPTS && e >= 0 ensures ask(i, e) == Failed || ask(i, e).epoch <= e {
      AnswerNotLater(leaders[i], e);
    }
    ReconcileConverges(f, ask);
  }
}
