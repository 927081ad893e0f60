/** The two throttles of the agent: the daily self-check (internal/agent/update.go)
    and the recovery cool-down (internal/agent/agent.go). Times are seconds on a
    clock that does not run backwards. */
module Throttle {
  import opened Common

  const UPDATE_CHECK_INTERVAL := 24 * 3600
  const RECOVER_COOLDOWN := 30

  /** Each time comes at least a gap after the one before. */
  ghost predicate Spaced(times: seq<int>, gap: int) {
    forall i :: 0 <= i < |times| - 1 ==> times[i + 1] - times[i] >= gap
  }

  /** How many of the times lie in the window of the given length from a. */
  function InWindow(times: seq<int>, a: int, length: nat): nat {
    if times == [] then 0
    else InWindow(times[..|times| - 1], a, length) + (if a <= times[|times| - 1] <= a + length then 1 else 0)
  }

  lemma {:induction false} NoneBefore(times: seq<int>, gap: nat, a: int, length: nat)
    requires Spaced(times, gap) && (times != [] ==> times[|times| - 1] < a)
    ensures InWindow(times, a, length) == 0
  {
    if |times| > 0 {
      var init := times[..|times| - 1];
      assert init != [] ==> init[|init| - 1] == times[|times| - 2];
      NoneBefore(init, gap, a, length);
    }
  }

  lemma {:induction false} UpToLast(times: seq<int>, gap: nat, a: int, length: nat)
    requires Spaced(times, gap) && times != [] && a <= times[|times| - 1] <= a + length
    ensures (InWindow(times, a, length) - 1) * gap <= times[|times| - 1] - a
  {
    var last, init := times[|times| - 1], times[..|times| - 1];
    if init != [] {
      assert init[|init| - 1] == times[|times| - 2];
      if init[|init| - 1] < a {
        NoneBefore(init, gap, a, length);
      } else {
        UpToLast(init, gap, a, length);
        var n := InWindow(init, a, length);
        assert n * gap == (n - 1) * gap + gap;
      }
    }
  }

  /** Spaced times come at most once per gap, plus one. */
  lemma {:induction false} RateBound(times: seq<int>, gap: nat, a: int, length: nat)
    requires Spaced(times, gap)
    ensures (InWindow(times, a, length) - 1) * gap <= length
  {
    if times != [] {
      var last, init := times[|times| - 1], times[..|times| - 1];
      if a <= last <= a + length {
        UpToLast(times, gap, a, length);
      } else {
        RateBound(init, gap, a, length);
      }
    }
  }

  // ---- the daily self-check -----------------------------------------------

  /** A connect asks whether a check is due; a tick or a resumed update only stamps. */
  datatype Visit = Ask(now: int) | Stamp(now: int)

  predicate Elapsed(last: Option<int>, now: int) {
    last.None? || now - last.value >= UPDATE_CHECK_INTERVAL
  }

  function LastAfter(last: Option<int>, v: Visit): Option<int> {
    if v.Stamp? || Elapsed(last, v.now) then Some(v.now) else last
  }

  /** The times at which a check was found due. */
  function DueTimes(last: Option<int>, visits: seq<Visit>): seq<int>
    decreases |visits|
  {
    if visits == [] then []
    else
      (if visits[0].Ask? && Elapsed(last, visits[0].now) then [visits[0].now] else [])
        + DueTimes(LastAfter(last, visits[0]), visits[1..])
  }

  class AutoCheck {
    var lastAutoCheck: Option<int>
    ghost var due: seq<int>

    constructor ()
      ensures lastAutoCheck == None && due == []
    {
      lastAutoCheck := None;
      due := [];
    }

    method AutoCheckDue(now: int) returns (r: bool)
      modifies this
      ensures r == Elapsed(old(lastAutoCheck), now)
      ensures lastAutoCheck == LastAfter(old(lastAutoCheck), Ask(now))
      ensures due == old(due) + if r then [now] else []
    {
      if lastAutoCheck.Some? && now - lastAutoCheck.value < UPDATE_CHECK_INTERVAL {
        return false;
      }
      lastAutoCheck := Some(now);
      due := due + [now];
      return true;
    }

    method MarkAutoChecked(now: int)
      modifies this`lastAutoCheck
      ensures lastAutoCheck == LastAfter(old(lastAutoCheck), Stamp(now))
    {
      lastAutoCheck := Some(now);
    }

    /** Any run of visits finds a check due at the times that DueTimes says. */
    method Run(visits: seq<Visit>)
      modifies this
      ensures due == old(due) + DueTimes(old(lastAutoCheck), visits)
    {
      for i := 0 to |visits|
        invariant due + DueTimes(lastAutoCheck, visits[i..]) == old(due) + DueTimes(old(lastAutoCheck), visits)
      {
        assert visits[i..][1..] == visits[i + 1..];
        match visits[i] {
          case Ask(now) => var _ := AutoCheckDue(now);
          case Stamp(now) => MarkAutoChecked(now);
        }
      }
    }
  }

  lemma {:induction false} DueTimesSpaced(last: Option<int>, visits: seq<Visit>)
    requires InTimeFrom(last, visits)
    ensures Spaced(DueTimes(last, visits), UPDATE_CHECK_INTERVAL)
    ensures last.Some? && DueTimes(last, visits) != [] ==>
              DueTimes(last, visits)[0] - last.value >= UPDATE_CHECK_INTERVAL
    decreases |visits|
  {
    if visits != [] {
      DueTimesSpaced(LastAfter(last, visits[0]), visits[1..]);
    }
  }

  /** Successive visits come in time order, none before the stamp. */
  ghost predicate InTimeFrom(last: Option<int>, visits: seq<Visit>) {
    && (forall i, j :: 0 <= i < j < |visits| ==> visits[i].now <= visits[j].now)
    && (last.Some? ==> forall i :: 0 <= i < |visits| ==> last.value <= visits[i].now)
  }

  /** In any window of time a self-check is found due at most once a day, plus one,
      whatever stamps come between. */
  lemma SelfCheckRate(last: Option<int>, visits: seq<Visit>, a: int, length: nat)
    requires InTimeFrom(last, visits)
    ensures InWindow(DueTimes(last, visits), a, length) <= length / UPDATE_CHECK_INTERVAL + 1
  {
    DueTimesSpaced(last, visits);
    RateBound(DueTimes(last, visits), UPDATE_CHECK_INTERVAL, a, length);
  }

  /** The visits at which a check was found due, by their place. */
  ghost predicate DueAt(last: Option<int>, visits: seq<Visit>, k: nat)
    requires k < |visits|
  {
    var before, upTo := DueTimes(last, visits[..k]), DueTimes(last, visits[..k + 1]);
    upTo == before + [visits[k].now]
  }

  function StampAfter(last: Option<int>, visits: seq<Visit>): Option<int> {
    if visits == [] then last else LastAfter(StampAfter(last, visits[..|visits| - 1]), visits[|visits| - 1])
  }

  lemma {:induction false} OneMoreVisit(last: Option<int>, visits: seq<Visit>, v: Visit)
    ensures var stamp := StampAfter(last, visits);
      DueTimes(last, visits + [v]) ==
        DueTimes(last, visits) + if v.Ask? && Elapsed(stamp, v.now) then [v.now] else []
    decreases |visits|
  {
    hide Elapsed;
    if visits == [] {
      assert [v][1..] == [] && [] + [v] == [v];
    } else {
      var first, rest := visits[0], visits[1..];
      assert (visits + [v])[1..] == rest + [v];
      OneMoreVisit(LastAfter(last, first), rest, v);
      StampSplit(last, visits);
    }
  }

  lemma {:induction false} StampSplit(last: Option<int>, visits: seq<Visit>)
    requires visits != []
    ensures StampAfter(last, visits) == StampAfter(LastAfter(last, visits[0]), visits[1..])
    decreases |visits|
  {
    hide LastAfter;
    if |visits| > 1 {
      var init := visits[..|visits| - 1];
      assert visits[1..][..|visits[1..]| - 1] == init[1..];
      StampSplit(last, init);
    } else {
      assert visits[..0] == [];
    }
  }

  /** An earlier visit stamped the time less than a day before: a stamp, a check that
      was due, or, before the first visit, the last stamp. */
  ghost predicate StampedWithin(last: Option<int>, visits: seq<Visit>, k: nat, now: int)
    requires k <= |visits|
  {
    || (last.Some? && now - last.value < 86400)
    || exists j :: 0 <= j < k && (visits[j].Stamp? || DueAt(last, visits, j)) && now - visits[j].now < 86400
  }

  /** A connect finds a check due exactly if nothing was stamped in the day before it:
      none is missed, and none comes early. */
  lemma DueExactly(last: Option<int>, visits: seq<Visit>, k: nat)
    requires k < |visits| && InTimeFrom(last, visits)
    ensures DueAt(last, visits, k) <==> visits[k].Ask? && !StampedWithin(last, visits, k, visits[k].now)
  {
    hide InTimeFrom, StampedWithin;
    LatestStamp(last, visits, k, visits[k].now);
    DueByStamp(last, visits, k);
  }

  lemma DueByStamp(last: Option<int>, visits: seq<Visit>, k: nat)
    requires k < |visits|
    ensures DueAt(last, visits, k) <==> visits[k].Ask? && Elapsed(StampAfter(last, visits[..k]), visits[k].now)
  {
    hide Elapsed;
    assert visits[..k + 1] == visits[..k] + [visits[k]];
    OneMoreVisit(last, visits[..k], visits[k]);
    assert DueTimes(last, visits[..k]) + [] == DueTimes(last, visits[..k]);
  }

  lemma WithinOneMore(last: Option<int>, visits: seq<Visit>, k: nat, now: int)
    requires k < |visits|
    ensures StampedWithin(last, visits, k + 1, now) <==>
            StampedWithin(last, visits, k, now)
            || ((visits[k].Stamp? || DueAt(last, visits, k)) && now - visits[k].now < 86400)
  {
    hide DueAt;
  }

  /** The stamp is the latest of the times that were stamped. */
  lemma {:induction false} LatestStamp(last: Option<int>, visits: seq<Visit>, k: nat, now: int)
    requires k <= |visits| && InTimeFrom(last, visits)
    ensures Elapsed(StampAfter(last, visits[..k]), now) <==> !StampedWithin(last, visits, k, now)
  {
    if k > 0 {
      hide StampedWithin, DueAt;
      var v := visits[k - 1];
      assert visits[..k][..k - 1] == visits[..k - 1] && visits[..k][k - 1] == v;
      LatestStamp(last, visits, k - 1, now);
      WithinOneMore(last, visits, k - 1, now);
      DueByStamp(last, visits, k - 1);
      StampIsOld(last, visits[..k - 1], v.now);
    }
  }

  /** What was stamped so far is not later than what comes after. */
  lemma {:induction false} StampIsOld(last: Option<int>, visits: seq<Visit>, now: int)
    requires (last.Some? ==> last.value <= now) && forall j :: 0 <= j < |visits| ==> visits[j].now <= now
    ensures var stamp := StampAfter(last, visits); stamp.Some? ==> stamp.value <= now
  {
    if visits != [] {
      StampIsOld(last, visits[..|visits| - 1], now);
    }
  }

  // ---- the recovery cool-down -----------------------------------------------

  /** Someone asks for a recovery at `now`: the broker rejected the credentials or
      a user re-provisions. The context may be cancelled during the wait;
      otherwise the clock reads `woken` when the wait is over. */
  datatype Request = Request(now: int, cancelled: bool, woken: int)

  function Wait(last: Option<int>, now: int): int {
    if last.None? then 0 else RECOVER_COOLDOWN - (now - last.value)
  }

  /** A wait that is not cut takes at least as long as was asked for. */
  predicate Plausible(last: Option<int>, q: Request) {
    q.woken >= q.now && (Wait(last, q.now) > 0 && !q.cancelled ==> q.woken >= q.now + Wait(last, q.now))
  }

  predicate Goes(last: Option<int>, q: Request) {
    Wait(last, q.now) <= 0 || !q.cancelled
  }

  /** Requests are served one after the other under the lock. */
  ghost predicate Served(last: Option<int>, asks: seq<Request>)
    decreases |asks|
  {
    asks != [] ==>
      && (last.Some? ==> last.value <= asks[0].now)
      && Plausible(last, asks[0])
      && Served(if Goes(last, asks[0]) then Some(asks[0].woken) else last, asks[1..])
  }

  /** The times of the attempts that reach the cloud. */
  function AttemptTimes(last: Option<int>, asks: seq<Request>): seq<int>
    decreases |asks|
  {
    if asks == [] then []
    else if Goes(last, asks[0]) then [asks[0].woken] + AttemptTimes(Some(asks[0].woken), asks[1..])
    else AttemptTimes(last, asks[1..])
  }

  class Recovery {
    var lastRecover: Option<int>
    ghost var attempts: seq<int>

    constructor ()
      ensures lastRecover == None && attempts == []
    {
      lastRecover := None;
      attempts := [];
    }

    /** Whether an attempt was made. */
    method RecoverCredentials(q: Request) returns (attempted: bool)
      modifies this
      ensures attempted == Goes(old(lastRecover), q)
      ensures lastRecover == (if attempted then Some(q.woken) else old(lastRecover))
      ensures attempts == old(attempts) + if attempted then [q.woken] else []
    {
      if lastRecover.Some? {
        var wait := RECOVER_COOLDOWN - (q.now - lastRecover.value);
        if wait > 0 && q.cancelled {
          return false;
        }
      }
      lastRecover := Some(q.woken);
      attempts := attempts + [q.woken];
      return true;
    }

    method Serve(asks: seq<Request>)
      modifies this
      ensures attempts == old(attempts) + AttemptTimes(old(lastRecover), asks)
    {
      for i := 0 to |asks|
        invariant attempts + AttemptTimes(lastRecover, asks[i..])
               == old(attempts) + AttemptTimes(old(lastRecover), asks)
      {
        assert asks[i..][1..] == asks[i + 1..];
        var _ := RecoverCredentials(asks[i]);
      }
    }
  }

  lemma {:induction false} AttemptsSpaced(last: Option<int>, asks: seq<Request>)
    requires Served(last, asks)
    ensures Spaced(AttemptTimes(last, asks), RECOVER_COOLDOWN)
    ensures last.Some? && AttemptTimes(last, asks) != [] ==>
              AttemptTimes(last, asks)[0] - last.value >= RECOVER_COOLDOWN
    decreases |asks|
  {
    if asks != [] {
      AttemptsSpaced(if Goes(last, asks[0]) then Some(asks[0].woken) else last, asks[1..]);
    }
  }

  /** In any window of time the cloud sees at most one recovery attempt per
      cool-down, plus one, whoever asks for them. */
  lemma RecoveryRate(last: Option<int>, asks: seq<Request>, a: int, length: nat)
    requires Served(last, asks)
    ensures InWindow(AttemptTimes(last, asks), a, length) <= length / RECOVER_COOLDOWN + 1
  {
    AttemptsSpaced(last, asks);
    RateBound(AttemptTimes(last, asks), RECOVER_COOLDOWN, a, length);
  }

  // ---- an attempt that is asked for is made --------------------------------------------

  function LastAttempt(last: Option<int>, asks: seq<Request>): Option<int> {
    if asks == [] then last
    else
      var before, q := LastAttempt(last, asks[..|asks| - 1]), asks[|asks| - 1];
      if Goes(before, q) then Some(q.woken) else before
  }

  lemma {:induction false} OneMoreAsk(last: Option<int>, asks: seq<Request>, q: Request)
    ensures AttemptTimes(last, asks + [q]) ==
            AttemptTimes(last, asks) + if Goes(LastAttempt(last, asks), q) then [q.woken] else []
    decreases |asks|
  {
    hide Goes;
    if asks == [] {
      assert [q][1..] == [] && [] + [q] == [q];
    } else {
      assert (asks + [q])[1..] == asks[1..] + [q];
      OneMoreAsk(if Goes(last, asks[0]) then Some(asks[0].woken) else last, asks[1..], q);
      AttemptSplit(last, asks);
    }
  }

  lemma {:induction false} AttemptSplit(last: Option<int>, asks: seq<Request>)
    requires asks != []
    ensures LastAttempt(last, asks) ==
            LastAttempt(if Goes(last, asks[0]) then Some(asks[0].woken) else last, asks[1..])
    decreases |asks|
  {
    hide Goes;
    if |asks| > 1 {
      var init := asks[..|asks| - 1];
      assert asks[1..][..|asks[1..]| - 1] == init[1..];
      AttemptSplit(last, init);
    } else {
      assert asks[..0] == [];
    }
  }

  /** The cloud is asked by the k-th request. */
  ghost predicate AttemptAt(last: Option<int>, asks: seq<Request>, k: nat)
    requires k < |asks|
  {
    AttemptTimes(last, asks[..k + 1]) == AttemptTimes(last, asks[..k]) + [asks[k].woken]
  }

  lemma AttemptByLast(last: Option<int>, asks: seq<Request>, k: nat)
    requires k < |asks|
    ensures AttemptAt(last, asks, k) <==> Goes(LastAttempt(last, asks[..k]), asks[k])
  {
    hide Goes;
    assert asks[..k + 1] == asks[..k] + [asks[k]];
    OneMoreAsk(last, asks[..k], asks[k]);
    assert AttemptTimes(last, asks[..k]) + [] == AttemptTimes(last, asks[..k]);
  }

  /** An attempt was made less than the cool-down before. */
  ghost predicate AttemptedWithin(last: Option<int>, asks: seq<Request>, k: nat, now: int)
    requires k <= |asks|
  {
    || (last.Some? && now - last.value < 30)
    || exists j :: 0 <= j < k && AttemptAt(last, asks, j) && now - asks[j].woken < 30
  }

  /** Requests one after the other: none is made before an earlier attempt was. */
  ghost predicate InOrder(last: Option<int>, asks: seq<Request>) {
    && (forall j, k :: 0 <= j < k < |asks| ==> asks[j].woken <= asks[k].now)
    && (forall k :: 0 <= k < |asks| ==> asks[k].now <= asks[k].woken)
    && (last.Some? ==> forall k :: 0 <= k < |asks| ==> last.value <= asks[k].now)
  }

  /** Every request leads to an attempt, but for one that is cancelled while the cool-down
      of an earlier attempt runs. */
  lemma AttemptExactly(last: Option<int>, asks: seq<Request>, k: nat)
    requires k < |asks| && InOrder(last, asks)
    ensures AttemptAt(last, asks, k) <==> !(asks[k].cancelled && AttemptedWithin(last, asks, k, asks[k].now))
  {
    hide InOrder, AttemptedWithin, AttemptAt;
    LatestAttempt(last, asks, k, asks[k].now);
    AttemptByLast(last, asks, k);
  }

  lemma AttemptedOneMore(last: Option<int>, asks: seq<Request>, k: nat, now: int)
    requires k < |asks|
    ensures AttemptedWithin(last, asks, k + 1, now) <==>
            AttemptedWithin(last, asks, k, now) || (AttemptAt(last, asks, k) && now - asks[k].woken < 30)
  {
    hide AttemptAt;
  }

  lemma {:induction false} LatestAttempt(last: Option<int>, asks: seq<Request>, k: nat, now: int)
    requires k <= |asks| && InOrder(last, asks)
    ensures var latest := LastAttempt(last, asks[..k]);
      (latest.Some? && now - latest.value < 30) <==> AttemptedWithin(last, asks, k, now)
  {
    if k > 0 {
      hide AttemptedWithin, AttemptAt, Goes;
      var q := asks[k - 1];
      assert asks[..k][..k - 1] == asks[..k - 1] && asks[..k][k - 1] == q;
      LatestAttempt(last, asks, k - 1, now);
      AttemptedOneMore(last, asks, k - 1, now);
      AttemptByLast(last, asks, k - 1);
      AttemptIsOld(last, asks[..k - 1], q.now);
    }
  }

  lemma {:induction false} AttemptIsOld(last: Option<int>, asks: seq<Request>, now: int)
    requires (last.Some? ==> last.value <= now) && forall j :: 0 <= j < |asks| ==> asks[j].woken <= now
    ensures var latest := LastAttempt(last, asks); latest.Some? ==> latest.value <= now
  {
    hide Goes;
    if asks != [] {
      AttemptIsOld(last, asks[..|asks| - 1], now);
    }
  }
}
