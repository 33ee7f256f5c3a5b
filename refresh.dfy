/** One refresh pass (`fetchAllData`): reset every entry, then visit the
    entries in index order, dispatching each to its platform's helper,
    applying the resulting update to that entry alone, and pausing between
    consecutive entries. The pauses are recorded in an event log. */
module Refresh {
  import opened Registry
  import opened Fetchers

  /** `Visit(i)`: entry `i` was fetched and its update applied.
      `Delay(i)`: the pause taken after entry `i`. */
  datatype Event = Visit(index: nat) | Delay(after: nat)

  /** The update for entry `i`, chosen from the list as it was when the pass
      began (the loop reads the list its closure captured). */
  function StepPatch(snap: seq<Profile>, attempts: seq<Attempt>, i: nat): Patch
    requires i < |snap| && |attempts| == |snap|
  {
    PatchFor(Dispatch(snap[i].platform, attempts[i]))
  }

  /** The list after the reset and the first `k` iterations of the loop. */
  function Steps(snap: seq<Profile>, attempts: seq<Attempt>, k: nat): seq<Profile>
    requires k <= |snap| && |attempts| == |snap|
  {
    if k == 0 then ResetAll(snap)
    else UpdateAt(Steps(snap, attempts, k - 1), k - 1, StepPatch(snap, attempts, k - 1))
  }

  /** The list after a whole pass over `snap`. */
  function PassResult(snap: seq<Profile>, attempts: seq<Attempt>): seq<Profile>
    requires |attempts| == |snap|
  {
    Steps(snap, attempts, |snap|)
  }

  /** What one iteration logs: the visit, then a pause unless it was the last. */
  function StepLog(n: nat, i: nat): seq<Event>
  {
    [Visit(i)] + (if i < n - 1 then [Delay(i)] else [])
  }

  /** The log of the first `k` iterations of a pass over `n` entries. */
  function LogPrefix(n: nat, k: nat): seq<Event>
  {
    if k == 0 then [] else LogPrefix(n, k - 1) + StepLog(n, k - 1)
  }

  function PassLog(n: nat): seq<Event>
  {
    LogPrefix(n, n)
  }

  /** The number of pauses in a log. */
  function DelayCount(log: seq<Event>): nat
  {
    if log == [] then 0 else (if log[0].Delay? then 1 else 0) + DelayCount(log[1..])
  }

  // ---------------------------------------------------------------------
  // The list during and after a pass
  // ---------------------------------------------------------------------

  /** After `k` iterations, each entry already visited holds the reset entry
      with its own update applied, and each entry not yet visited holds the
      reset entry: every update touches its own entry only, once. */
  lemma {:induction false} StepsAt(snap: seq<Profile>, attempts: seq<Attempt>, k: nat, j: int)
    requires k <= |snap| && |attempts| == |snap|
    requires 0 <= j < |snap|
    ensures |Steps(snap, attempts, k)| == |snap|
    ensures Steps(snap, attempts, k)[j] ==
              if j < k then Merge(ResetAll(snap)[j], StepPatch(snap, attempts, j))
              else ResetAll(snap)[j]
  {
    if k > 0 {
      StepsAt(snap, attempts, k - 1, j);
    }
  }

  /** What a pass leaves in entry `j`, by the outcome of its fetch: never
      loading; the fetched count and no error on data; the count from before
      the pass and the matching message on `null` or an exception; the card
      fields as they were. */
  lemma PassEntry(snap: seq<Profile>, attempts: seq<Attempt>, j: int)
    requires |attempts| == |snap| && 0 <= j < |snap|
    ensures |PassResult(snap, attempts)| == |snap|
    ensures !PassResult(snap, attempts)[j].loading
    ensures SameCard(PassResult(snap, attempts)[j], snap[j])
    ensures Dispatch(snap[j].platform, attempts[j]).Got? ==>
              && PassResult(snap, attempts)[j].solved == Dispatch(snap[j].platform, attempts[j]).solved
              && PassResult(snap, attempts)[j].error.None?
    ensures Dispatch(snap[j].platform, attempts[j]).Null? ==>
              && PassResult(snap, attempts)[j].solved == snap[j].solved
              && PassResult(snap, attempts)[j].error == Some(FailedMessage)
    ensures Dispatch(snap[j].platform, attempts[j]).Thrown? ==>
              && PassResult(snap, attempts)[j].solved == snap[j].solved
              && PassResult(snap, attempts)[j].error == Some(ThrownMessage)
  {
    StepsAt(snap, attempts, |snap|, j);
  }

  /** After a full pass no entry is loading, the list has its old length and
      every card keeps its platform, handle, logo, rating, scale and link. */
  lemma PassSettlesAll(snap: seq<Profile>, attempts: seq<Attempt>)
    requires |attempts| == |snap|
    ensures |PassResult(snap, attempts)| == |snap|
    ensures forall j :: 0 <= j < |snap| ==>
              !PassResult(snap, attempts)[j].loading && SameCard(PassResult(snap, attempts)[j], snap[j])
  {
    forall j | 0 <= j < |snap|
      ensures |PassResult(snap, attempts)| == |snap|
      ensures !PassResult(snap, attempts)[j].loading && SameCard(PassResult(snap, attempts)[j], snap[j])
    {
      PassEntry(snap, attempts, j);
    }
    if |snap| == 0 {
      assert PassResult(snap, attempts) == ResetAll(snap);
    }
  }

  /** A card whose platform names no helper ends the pass with the
      "Failed to fetch data" message, whatever its attempt was. */
  lemma UnknownPlatformFails(snap: seq<Profile>, attempts: seq<Attempt>, j: int)
    requires |attempts| == |snap| && 0 <= j < |snap|
    requires !Known(snap[j].platform)
    ensures |PassResult(snap, attempts)| == |snap|
    ensures PassResult(snap, attempts)[j].error == Some(FailedMessage)
    ensures PassResult(snap, attempts)[j].solved == snap[j].solved
  {
    PassEntry(snap, attempts, j);
  }

  /** Failures are isolated: entry `j` ends the pass the same way whatever
      happened to the other entries. */
  lemma Isolation(snap: seq<Profile>, a: seq<Attempt>, b: seq<Attempt>, j: int)
    requires |a| == |snap| && |b| == |snap| && 0 <= j < |snap|
    requires a[j] == b[j]
    ensures |PassResult(snap, a)| == |PassResult(snap, b)| == |snap|
    ensures PassResult(snap, a)[j] == PassResult(snap, b)[j]
  {
    StepsAt(snap, a, |snap|, j);
    StepsAt(snap, b, |snap|, j);
  }

  /** A second pass whose fetches behave as in the first leaves the list as
      the first pass left it. */
  lemma PassIdempotent(snap: seq<Profile>, attempts: seq<Attempt>)
    requires |attempts| == |snap|
    ensures |PassResult(snap, attempts)| == |snap|
    ensures PassResult(PassResult(snap, attempts), attempts) == PassResult(snap, attempts)
  {
    var once := PassResult(snap, attempts);
    PassSettlesAll(snap, attempts);
    var twice := PassResult(once, attempts);
    PassSettlesAll(once, attempts);
    forall j | 0 <= j < |snap|
      ensures twice[j] == once[j]
    {
      PassEntry(snap, attempts, j);
      PassEntry(once, attempts, j);
      StepsAt(snap, attempts, |snap|, j);
      StepsAt(once, attempts, |snap|, j);
    }
  }

  /** The three cards of the section, with LeetCode answering
      `totalSolved: 42`: they end at 42, 150 and 200, without errors. */
  lemma ScenarioAllSucceed()
    ensures var r := PassResult(Initial(), [Completed(Response(true, Json(Some(42)))),
                                            StubSettled, StubSettled]);
            && |r| == 3
            && r[0].solved == 42 && r[1].solved == 150 && r[2].solved == 200
            && forall j :: 0 <= j < 3 ==> !r[j].loading && r[j].error.None?
  {
    var attempts := [Completed(Response(true, Json(Some(42)))), StubSettled, StubSettled];
    PassEntry(Initial(), attempts, 0);
    PassEntry(Initial(), attempts, 1);
    PassEntry(Initial(), attempts, 2);
  }

  /** LeetCode's call rejects: that card shows the exception message and
      keeps 0, the two others still resolve. */
  lemma ScenarioLeetCodeThrows()
    ensures var r := PassResult(Initial(), [Threw, StubSettled, StubSettled]);
            && |r| == 3
            && r[0].solved == 0 && r[0].error == Some(ThrownMessage)
            && r[1].solved == 150 && r[1].error.None?
            && r[2].solved == 200 && r[2].error.None?
  {
    var attempts := [Threw, StubSettled, StubSettled];
    PassEntry(Initial(), attempts, 0);
    PassEntry(Initial(), attempts, 1);
    PassEntry(Initial(), attempts, 2);
  }

  /** The LeetCode endpoint cannot be reached: the helper answers `null`,
      so that card shows "Failed to fetch data" and keeps 0, and the two
      others still resolve. */
  lemma ScenarioLeetCodeUnreachable()
    ensures var r := PassResult(Initial(), [Completed(NetworkFailure), StubSettled, StubSettled]);
            && |r| == 3
            && !r[0].loading && r[0].solved == 0 && r[0].error == Some(FailedMessage)
            && r[1].solved == 150 && r[1].error.None?
            && r[2].solved == 200 && r[2].error.None?
  {
    var attempts := [Completed(NetworkFailure), StubSettled, StubSettled];
    PassEntry(Initial(), attempts, 0);
    PassEntry(Initial(), attempts, 1);
    PassEntry(Initial(), attempts, 2);
  }

  /** When every helper call settles, which is all the helpers as written
      can do, no card ends a pass with the "Error fetching data" message. */
  lemma SettledNeverThrown(snap: seq<Profile>, attempts: seq<Attempt>)
    requires |attempts| == |snap|
    requires forall k :: 0 <= k < |attempts| ==> attempts[k].Completed?
    ensures |PassResult(snap, attempts)| == |snap|
    ensures forall j :: 0 <= j < |snap| ==> PassResult(snap, attempts)[j].error != Some(ThrownMessage)
  {
    PassSettlesAll(snap, attempts);
    forall j | 0 <= j < |snap|
      ensures PassResult(snap, attempts)[j].error != Some(ThrownMessage)
    {
      PassEntry(snap, attempts, j);
    }
  }

  // ---------------------------------------------------------------------
  // Visiting order and pacing
  // ---------------------------------------------------------------------

  /** The log of the first `k` iterations alternates visits and pauses:
      position `2i` is the visit of entry `i`, position `2i+1` the pause
      after it; only the last entry of the pass has no pause. */
  lemma {:induction false} LogPrefixShape(n: nat, k: nat)
    requires k <= n
    ensures |LogPrefix(n, k)| == if k == n && n > 0 then 2 * k - 1 else 2 * k
    ensures forall p :: 0 <= p < |LogPrefix(n, k)| ==>
              LogPrefix(n, k)[p] == if p % 2 == 0 then Visit(p / 2) else Delay(p / 2)
  {
    if k > 0 {
      LogPrefixShape(n, k - 1);
      var prev := LogPrefix(n, k - 1);
      var log := LogPrefix(n, k);
      assert log == prev + StepLog(n, k - 1);
      forall p | 0 <= p < |log|
        ensures log[p] == if p % 2 == 0 then Visit(p / 2) else Delay(p / 2)
      {
        if p >= |prev| {
          assert p == 2 * (k - 1) || p == 2 * (k - 1) + 1;
        }
      }
    }
  }

  /** A pass over `n` entries visits `0, 1, ..., n-1` in that order and pauses
      between consecutive visits only. */
  lemma PassLogShape(n: nat)
    ensures |PassLog(n)| == if n == 0 then 0 else 2 * n - 1
    ensures forall i :: 0 <= i < n ==> PassLog(n)[2 * i] == Visit(i)
    ensures forall i :: 0 <= i < n - 1 ==> PassLog(n)[2 * i + 1] == Delay(i)
  {
    LogPrefixShape(n, n);
    var log := PassLog(n);
    forall i | 0 <= i < n
      ensures log[2 * i] == Visit(i)
    {
      var p := 2 * i;
      assert p % 2 == 0 && p / 2 == i;
    }
    forall i | 0 <= i < n - 1
      ensures log[2 * i + 1] == Delay(i)
    {
      var p := 2 * i + 1;
      assert p % 2 == 1 && p / 2 == i;
    }
  }

  /** Each entry is visited exactly once, and each event of a pass occurs once. */
  lemma PassLogOnce(n: nat)
    ensures forall i: nat :: Visit(i) in PassLog(n) <==> i < n
    ensures forall i: nat :: Delay(i) in PassLog(n) <==> i + 1 < n
    ensures forall p, q :: 0 <= p < q < |PassLog(n)| ==> PassLog(n)[p] != PassLog(n)[q]
  {
    LogPrefixShape(n, n);
    PassLogShape(n);
    var log := PassLog(n);
    forall i: nat | i < n ensures Visit(i) in log { assert log[2 * i] == Visit(i); }
    forall i: nat | i + 1 < n ensures Delay(i) in log { assert log[2 * i + 1] == Delay(i); }
    forall p, q | 0 <= p < q < |log|
      ensures log[p] != log[q]
    {
      assert p == 2 * (p / 2) + p % 2 && q == 2 * (q / 2) + q % 2;
    }
  }

  lemma {:induction false} DelayCountAppend(a: seq<Event>, b: seq<Event>)
    ensures DelayCount(a + b) == DelayCount(a) + DelayCount(b)
  {
    if a == [] {
      assert a + b == b;
    } else {
      assert (a + b)[0] == a[0];
      assert (a + b)[1..] == a[1..] + b;
      DelayCountAppend(a[1..], b);
    }
  }

  lemma {:induction false} LogPrefixDelays(n: nat, k: nat)
    requires k <= n
    ensures DelayCount(LogPrefix(n, k)) == if k == n && n > 0 then k - 1 else k
  {
    if k > 0 {
      LogPrefixDelays(n, k - 1);
      DelayCountAppend(LogPrefix(n, k - 1), StepLog(n, k - 1));
      var step := StepLog(n, k - 1);
      if k - 1 < n - 1 {
        assert step[1..] == [Delay(k - 1)];
        assert DelayCount([Delay(k - 1)]) == 1 + DelayCount([]);
      } else {
        assert step[1..] == [];
      }
    }
  }

  /** A pass over `n` entries pauses `n - 1` times, and never over none. */
  lemma PassDelays(n: nat)
    ensures DelayCount(PassLog(n)) == if n == 0 then 0 else n - 1
  {
    LogPrefixDelays(n, n);
  }

  // ---------------------------------------------------------------------
  // The section's state
  // ---------------------------------------------------------------------

  /** The state of the coding-profiles section: the profile list and the log
      of the pass steps taken so far. */
  class CodingProfilesSection {
    var profiles: seq<Profile>
    var log: seq<Event>

    constructor ()
      ensures profiles == Initial() && log == []
    {
      profiles := Initial();
      log := [];
    }

    /** `updateProfile(index, updates)` */
    method UpdateProfile(index: int, updates: Patch)
      modifies this
      ensures profiles == UpdateAt(old(profiles), index, updates)
      ensures log == old(log)
    {
      profiles := UpdateAt(profiles, index, updates);
    }

    /** `fetchAllData()`, with `attempts[i]` what awaiting entry `i`'s helper
        does. */
    method FetchAllData(attempts: seq<Attempt>)
      requires |attempts| == |profiles|
      modifies this
      ensures profiles == PassResult(old(profiles), attempts)
      ensures log == old(log) + PassLog(|old(profiles)|)
    {
      var snapshot := profiles;
      profiles := ResetAll(profiles);
      var i := 0;
      while i < |snapshot|
        invariant 0 <= i <= |snapshot|
        invariant profiles == Steps(snapshot, attempts, i)
        invariant log == old(log) + LogPrefix(|snapshot|, i)
      {
        VisitEntry(snapshot, attempts, i);
        i := i + 1;
      }
    }

    /** One iteration of the loop in `fetchAllData`: dispatch entry `i` of
        the list the pass started from, apply the resulting update to entry
        `i`, and pause unless `i` is the last entry. */
    method VisitEntry(snapshot: seq<Profile>, attempts: seq<Attempt>, i: nat)
      requires |attempts| == |snapshot| && i < |snapshot|
      modifies this
      ensures profiles == UpdateAt(old(profiles), i, StepPatch(snapshot, attempts, i))
      ensures log == old(log) + StepLog(|snapshot|, i)
    {
      var profile := snapshot[i];
      var data := Dispatch(profile.platform, attempts[i]);
      UpdateProfile(i, PatchFor(data));
      log := log + [Visit(i)];
      if i < |snapshot| - 1 {
        log := log + [Delay(i)];
      }
    }
  }

  /** Mounting the section: the initial list, then the one pass the mount
      effect starts. Afterwards no card is loading and the log holds the
      three visits with a pause between each two. */
  method Mount(attempts: seq<Attempt>) returns (section: CodingProfilesSection)
    requires |attempts| == 3
    ensures fresh(section)
    ensures section.profiles == PassResult(Initial(), attempts)
    ensures |section.profiles| == 3
    ensures forall j :: 0 <= j < 3 ==> !section.profiles[j].loading
    ensures section.log == [Visit(0), Delay(0), Visit(1), Delay(1), Visit(2)]
  {
    section := new CodingProfilesSection();
    section.FetchAllData(attempts);
    PassSettlesAll(Initial(), attempts);
    PassLogShape(3);
  }
}
