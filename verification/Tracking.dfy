/**
 One reservation of a repetition, posted and then polled by posting the same id again,
 until it is peered, ends, is refused for good or runs out of time.
 */
module Tracking {
  import opened Views
  import opened ChoiceDecision

  /** `Ended` stands for Failed, Released and Expired, `Other` for every other phase. */
  datatype Phase = Peered | Ended(name: string) | Other(name: string)

  datatype PostAnswer = Accepted(phase: Phase) | Refused(retryable: bool)

  const MAX_TRANSIENT_RETRIES := 10

  /** What the environment does: the answer to the k-th POST, whether the time is up right
      after it, and whether the sleep after it runs to its end. */
  datatype Env = Env(answer: nat -> PostAnswer, expired: nat -> bool, wakes: nat -> bool)

  datatype Track = Track(
    posts: nat,
    transitions: seq<Phase>,
    last: Option<Phase>,
    peered: bool,
    failure: Option<Failure>)

  /** The phases the first `n` POSTs showed. */
  function Observed(e: Env, n: nat): seq<Phase> {
    if n == 0 then []
    else Observed(e, n - 1) + if e.answer(n - 1).Accepted? then [e.answer(n - 1).phase] else []
  }

  function Refusals(e: Env, n: nat): nat {
    if n == 0 then 0 else Refusals(e, n - 1) + if e.answer(n - 1).Refused? then 1 else 0
  }

  /** Runs of the same phase, shrunk to one entry. */
  function Collapse(s: seq<Phase>): (r: seq<Phase>)
    ensures s == [] <==> r == []
    ensures s != [] ==> r[|r| - 1] == s[|s| - 1]
  {
    if s == [] then []
    else
      var before := Collapse(s[..|s| - 1]);
      if before != [] && before[|before| - 1] == s[|s| - 1] then before else before + [s[|s| - 1]]
  }

  /** The log holds exactly the phases seen and never the same one twice in a row. */
  lemma {:induction false} CollapseFacts(s: seq<Phase>)
    ensures forall p :: p in Collapse(s) <==> p in s
    ensures forall i :: 0 <= i < |Collapse(s)| - 1 ==> Collapse(s)[i] != Collapse(s)[i + 1]
    ensures s != [] ==> Collapse(s)[0] == s[0]
    ensures |Collapse(s)| <= |s|
  {
    if s != [] {
      CollapseFacts(s[..|s| - 1]);
      assert s == s[..|s| - 1] + [s[|s| - 1]];
    }
  }

  /** Every POST but the last showed a phase worth waiting on, or was a refusal that could
      be retried. */
  ghost predicate Patient(e: Env, n: nat) {
    forall k: nat :: k < n ==> e.wakes(k) && match e.answer(k)
      case Accepted(p) => p.Other?
      case Refused(retryable) => retryable && !e.expired(k)
  }

  /** After the k-th POST there is nothing to wait for: it showed Peered or an end, or the
      sleep after it did not run to its end, or it was a refusal not worth another try. */
  predicate LastPost(e: Env, k: nat) {
    match e.answer(k)
    case Accepted(p) => !p.Other? || !e.wakes(k)
    case Refused(retryable) => !retryable || Refusals(e, k) >= MAX_TRANSIENT_RETRIES || e.expired(k) || !e.wakes(k)
  }

  /** The time was up when the k-th POST was refused, or ran out in the sleep before the
      next try. */
  predicate OutOfTime(e: Env, k: nat) {
    e.expired(k) ||
    (e.answer(k) == Refused(true) && Refusals(e, k) < MAX_TRANSIENT_RETRIES && !e.wakes(k))
  }

  function Logged(transitions: seq<Phase>, p: Phase): seq<Phase> {
    if |transitions| == 0 || transitions[|transitions| - 1] != p then transitions + [p] else transitions
  }

  /** The log after `n` POSTs, and the newest phase they showed. */
  function Log(e: Env, n: nat): seq<Phase> {
    if n == 0 then []
    else if e.answer(n - 1).Accepted? then Logged(Log(e, n - 1), e.answer(n - 1).phase)
    else Log(e, n - 1)
  }

  function LastSeen(e: Env, n: nat): Option<Phase> {
    if n == 0 then None
    else if e.answer(n - 1).Accepted? then Some(e.answer(n - 1).phase)
    else LastSeen(e, n - 1)
  }

  /** The log is what the POSTs showed, shrunk, and `last` the newest of it. */
  lemma {:induction false} LogShowsAll(e: Env, n: nat)
    ensures Log(e, n) == Collapse(Observed(e, n))
    ensures LastSeen(e, n).None? <==> Observed(e, n) == []
    ensures LastSeen(e, n).Some? ==> LastSeen(e, n).value == Observed(e, n)[|Observed(e, n)| - 1]
  {
    if n > 0 {
      LogShowsAll(e, n - 1);
      var before := Observed(e, n - 1);
      if e.answer(n - 1).Accepted? {
        assert Observed(e, n) == before + [e.answer(n - 1).phase];
        assert Observed(e, n)[..|before|] == before;
      } else {
        assert Observed(e, n) == before;
      }
    }
  }

  predicate IsReservationFailure(f: Failure) {
    f.ReservationRejected? || f.ReservationTimeout? || f.ReservationBadPhase?
  }

  ghost predicate TrackOk(e: Env, t: Track) {
    && t.posts > 0
    && Patient(e, t.posts - 1) && LastPost(e, t.posts - 1)
    && t.transitions == Log(e, t.posts)
    && t.last == LastSeen(e, t.posts)
    && Refusals(e, t.posts) <= MAX_TRANSIENT_RETRIES + 1
    && (t.peered <==> e.answer(t.posts - 1) == Accepted(Peered))
    && (t.failure.None? <==> t.peered)
    && (t.failure.Some? ==> IsReservationFailure(t.failure.value))
    && (t.failure == Some(ReservationBadPhase) <==>
          e.answer(t.posts - 1).Accepted? && e.answer(t.posts - 1).phase.Ended?)
    && (t.failure == Some(ReservationRejected) <==> e.answer(t.posts - 1).Refused? && !OutOfTime(e, t.posts - 1))
  }

  /** Whether to try again after a refusal (`None`), or how it counts. */
  method AfterRefusal(e: Env, k: nat, retries: nat) returns (why: Option<Failure>)
    requires e.answer(k).Refused? && retries == Refusals(e, k)
    ensures why.None? <==> e.answer(k).retryable && retries < MAX_TRANSIENT_RETRIES && !e.expired(k) && e.wakes(k)
    ensures why.Some? ==> why.value == if OutOfTime(e, k) then ReservationTimeout else ReservationRejected
  {
    var timedOut := e.expired(k);
    if e.answer(k).retryable && retries < MAX_TRANSIENT_RETRIES && !timedOut {
      if e.wakes(k) {
        return None;
      }
      timedOut := true;
    }
    return Some(if timedOut then ReservationTimeout else ReservationRejected);
  }

  method ReserveAndTrack(e: Env, deadline: nat) returns (t: Track)
    requires forall k: nat :: k >= deadline ==> !e.wakes(k)
    ensures TrackOk(e, t)
    ensures t.posts <= deadline + 1
  {
    var transitions: seq<Phase>, last: Option<Phase>, retries, k: nat := [], None, 0, 0;
    while true
      invariant k <= deadline && Patient(e, k)
      invariant transitions == Log(e, k) && last == LastSeen(e, k)
      invariant retries == Refusals(e, k) <= MAX_TRANSIENT_RETRIES
      decreases deadline - k
    {
      var a := e.answer(k);
      if a.Refused? {
        var why := AfterRefusal(e, k, retries);
        if why.Some? {
          return Track(k + 1, transitions, last, false, why);
        }
        retries, k := retries + 1, k + 1;
        continue;
      }
      last, transitions := Some(a.phase), Logged(transitions, a.phase);
      if a.phase.Peered? {
        return Track(k + 1, transitions, last, true, None);
      }
      if a.phase.Ended? {
        return Track(k + 1, transitions, last, false, Some(ReservationBadPhase));
      }
      if !e.wakes(k) {
        return Track(k + 1, transitions, last, false, Some(ReservationTimeout));
      }
      k := k + 1;
    }
  }

  lemma {:induction false} NoPeeredYet(e: Env, n: nat)
    requires Patient(e, n)
    ensures forall p :: p in Observed(e, n) ==> p.Other?
  {
    if n > 0 {
      NoPeeredYet(e, n - 1);
    }
  }

  /** A reservation is peered exactly when its log ends with Peered, and Peered occurs
      nowhere else in the log. */
  lemma PeeredEndsTheLog(e: Env, t: Track)
    requires TrackOk(e, t)
    ensures t.peered <==> t.transitions != [] && t.transitions[|t.transitions| - 1] == Peered
    ensures forall i :: 0 <= i < |t.transitions| - 1 ==> t.transitions[i] != Peered
    ensures t.peered ==> t.last == Some(Peered)
  {
    var n := t.posts - 1;
    EarlierIsOther(e, n);
    assert Log(e, n + 1) == if e.answer(n).Accepted? then Logged(Log(e, n), e.answer(n).phase) else Log(e, n);
  }

  /** Before the last POST nothing but other phases is in the log. */
  lemma EarlierIsOther(e: Env, n: nat)
    requires Patient(e, n)
    ensures forall i :: 0 <= i < |Log(e, n)| ==> Log(e, n)[i].Other?
  {
    NoPeeredYet(e, n);
    LogShowsAll(e, n);
    CollapseFacts(Observed(e, n));
    forall i | 0 <= i < |Log(e, n)|
      ensures Log(e, n)[i].Other?
    {
      assert Log(e, n)[i] in Collapse(Observed(e, n));
    }
  }

  /** A reservation is rejected for good only by a refusal that cannot be retried or by the
      eleventh refusal; and it never takes more. */
  lemma RejectedOnlyAfter(e: Env, t: Track)
    requires TrackOk(e, t)
    ensures Refusals(e, t.posts) <= 11
    ensures t.failure == Some(ReservationRejected) ==>
      e.answer(t.posts - 1) == Refused(false) || Refusals(e, t.posts) == 11
    ensures t.failure == Some(ReservationTimeout) ==> e.expired(t.posts - 1) || !e.wakes(t.posts - 1)
  {
  }

  // ---------------------------------------------------------------------------
  // Waiting for one phase
  // ---------------------------------------------------------------------------

  datatype Waited = Reached | EndedElsewhere(name: string) | PollFailed | RanOut

  /** The k-th poll shows neither the phase waited for nor an end. */
  predicate StillWaiting(poll: nat -> Option<Phase>, target: Phase, k: nat) {
    poll(k).Some? && poll(k).value != target && !poll(k).value.Ended?
  }

  /** `poll(k)` is the answer to the k-th re-submission, `ticks(k)` whether the time after
      it is not up yet. */
  method WaitForPhase(poll: nat -> Option<Phase>, ticks: nat -> bool, deadline: nat, target: Phase)
    returns (r: Waited, k: nat)
    requires !ticks(deadline)
    ensures k <= deadline && forall i: nat :: i < k ==> StillWaiting(poll, target, i) && ticks(i)
    ensures r.Reached? <==> poll(k) == Some(target)
    ensures r.PollFailed? <==> poll(k).None?
    ensures r.EndedElsewhere? <==> poll(k).Some? && poll(k).value != target && poll(k).value.Ended?
    ensures r.RanOut? <==> StillWaiting(poll, target, k) && !ticks(k)
  {
    k := 0;
    while true
      invariant k <= deadline
      invariant forall i: nat :: i < k ==> StillWaiting(poll, target, i) && ticks(i)
      decreases deadline - k
    {
      if poll(k).None? {
        return PollFailed, k;
      }
      if poll(k).value == target {
        return Reached, k;
      }
      if poll(k).value.Ended? {
        return EndedElsewhere(poll(k).value.name), k;
      }
      if !ticks(k) {
        return RanOut, k;
      }
      k := k + 1;
    }
  }

  const RELEASED := Ended("Released")

  /** The k-th poll is the first that is not still waiting, and it shows the release. */
  ghost predicate ReleasedAt(poll: nat -> Option<Phase>, ticks: nat -> bool, k: nat) {
    poll(k) == Some(RELEASED) && forall i: nat :: i < k ==> StillWaiting(poll, RELEASED, i) && ticks(i)
  }

  /** `del` is the phase the DELETE answers, if it succeeds. */
  method ReleaseAndWait(del: Option<Phase>, poll: nat -> Option<Phase>, ticks: nat -> bool, deadline: nat)
    returns (ok: bool)
    requires !ticks(deadline)
    ensures ok <==> del.Some? && (del.value == RELEASED || exists k: nat :: k <= deadline && ReleasedAt(poll, ticks, k))
  {
    if del.None? {
      return false;
    }
    if del.value == RELEASED {
      return true;
    }
    var r, k := WaitForPhase(poll, ticks, deadline, RELEASED);
    ok := r.Reached?;
    if ok {
      assert ReleasedAt(poll, ticks, k);
    } else {
      forall i: nat | i <= deadline
        ensures !ReleasedAt(poll, ticks, i)
      {
        assert i < k ==> StillWaiting(poll, RELEASED, i);
        assert k < i && ticks(k) ==> !StillWaiting(poll, RELEASED, k);
      }
    }
  }
}
