/**
 The scheduler's own test cases, run with the test worker, stated for every
 arrival order: whenever the loop stops, the list holds exactly the expected
 paths, each once, all done. The general tool is `HaltedKeys`: a set of
 paths that contains the seeds, is closed under the worker and is reached
 from the seeds in one report is exactly what a stopped run lists.
 */
module Scenarios {
  import opened Tasks
  import opened Text
  import opened Scheduler
  import opened SchedulerProofs
  import opened Worker

  /** Every task whose path is in `allowed` reports only paths in `allowed`. */
  ghost predicate ClosedUnder(w: Task -> seq<Task>, allowed: set<string>)
  {
    forall t: Task :: t.subDomain in allowed ==> CandidateKeys(w(t)) <= allowed
  }

  lemma {:induction false} KeyWithin(w: Task -> seq<Task>, seeds: seq<Task>, tasks: seq<Task>,
                                     allowed: set<string>, j: nat)
    requires StartsWith(tasks, seeds) && Grounded(w, seeds, tasks)
    requires Keys(seeds) <= allowed && ClosedUnder(w, allowed)
    requires j < |tasks|
    ensures tasks[j].subDomain in allowed
    decreases j
  {
    if j < |seeds| {
      assert seeds[j].subDomain in Keys(seeds);
    } else {
      assert ReportedBefore(w, tasks, j);
      var i :| 0 <= i < j && Copy(tasks[j]) in w(Copy(tasks[i]));
      KeyWithin(w, seeds, tasks, allowed, i);
      var c := Copy(tasks[i]);
      var k :| 0 <= k < |w(c)| && w(c)[k] == Copy(tasks[j]);
      assert Copy(tasks[j]).subDomain in CandidateKeys(w(c));
    }
  }

  /** A grounded list lists nothing outside a closed set that holds the seeds. */
  lemma KeysWithin(w: Task -> seq<Task>, seeds: seq<Task>, tasks: seq<Task>, allowed: set<string>)
    requires StartsWith(tasks, seeds) && Grounded(w, seeds, tasks)
    requires Keys(seeds) <= allowed && ClosedUnder(w, allowed)
    ensures Keys(tasks) <= allowed
  {
    forall k | k in Keys(tasks)
      ensures k in allowed
    {
      var j :| 0 <= j < |tasks| && tasks[j].subDomain == k;
      KeyWithin(w, seeds, tasks, allowed, j);
    }
  }

  /** With no path listed twice, there are as many tasks as paths. */
  lemma {:induction false} DistinctKeysCount(tasks: seq<Task>)
    requires DistinctKeys(tasks)
    ensures |Keys(tasks)| == |tasks|
    decreases |tasks|
  {
    if |tasks| > 0 {
      var rest := tasks[1..];
      assert tasks == [tasks[0]] + rest;
      KeysAppend([tasks[0]], rest);
      assert Keys([tasks[0]]) == {tasks[0].subDomain} by {
        assert [tasks[0]][0] == tasks[0];
      }
      assert DistinctKeys(rest) by {
        assert forall i :: 0 <= i < |rest| ==> rest[i] == tasks[i + 1];
      }
      assert tasks[0].subDomain !in Keys(rest) by {
        forall i | 0 <= i < |rest|
          ensures rest[i].subDomain != tasks[0].subDomain
        {
          assert rest[i] == tasks[i + 1];
        }
      }
      DistinctKeysCount(rest);
    }
  }

  /**
   A stopped run lists exactly `allowed`, once each and all done, when
   `allowed` holds the seeds, is closed under the worker, and every other
   path in it is reported by some seed.
   */
  lemma HaltedKeys(rule: MergeRule, w: Task -> seq<Task>, seeds: seq<Task>, allowed: set<string>,
                   schedule: seq<seq<nat>>, s: State)
    requires ReportsPending(w) && KeepsDistinct(rule, w) && SeedsOk(seeds)
    requires Run(rule, w, Init(seeds), schedule) == Halted(s)
    requires Keys(seeds) <= allowed && ClosedUnder(w, allowed)
    requires forall e :: e in allowed ==>
               e in Keys(seeds) || exists i :: 0 <= i < |seeds| && e in CandidateKeys(w(Copy(seeds[i])))
    ensures Keys(s.tasks) == allowed
    ensures |s.tasks| == |allowed|
    ensures AllDone(s.tasks)
  {
    HaltedRunIsClosed(rule, w, seeds, schedule, s);
    KeysWithin(w, seeds, s.tasks, allowed);
    ReachedListed(w, seeds, allowed, s.tasks);
    DistinctKeysCount(s.tasks);
  }

  /** A list closed under reporting that starts with the seeds lists every path the seeds report. */
  lemma ReachedListed(w: Task -> seq<Task>, seeds: seq<Task>, allowed: set<string>, tasks: seq<Task>)
    requires StartsWith(tasks, seeds)
    requires forall i :: 0 <= i < |tasks| ==> CandidateKeys(w(Copy(tasks[i]))) <= Keys(tasks)
    requires forall e :: e in allowed ==>
               e in Keys(seeds) || exists i :: 0 <= i < |seeds| && e in CandidateKeys(w(Copy(seeds[i])))
    ensures allowed <= Keys(tasks)
  {
    forall e | e in allowed
      ensures e in Keys(tasks)
    {
      if e in Keys(seeds) {
        var i :| 0 <= i < |seeds| && seeds[i].subDomain == e;
        assert tasks[i].subDomain == e;
      } else {
        var i :| 0 <= i < |seeds| && e in CandidateKeys(w(Copy(seeds[i])));
        assert Copy(tasks[i]) == Copy(seeds[i]);
        assert CandidateKeys(w(Copy(tasks[i]))) <= Keys(tasks);
      }
    }
  }

  // ---------------------------------------------------------------------------
  // The test worker in the loop
  // ---------------------------------------------------------------------------

  lemma TestWorkerReportsPending()
    ensures ReportsPending(TestWorker)
  {
    forall t: Task, u: Task | u in TestWorker(t)
      ensures u.status == PENDING
    {
    }
  }

  /** The test worker reports at most one task, so the source's merge keeps paths distinct with it. */
  lemma TestWorkerReportsDistinct()
    ensures ReportsDistinct(TestWorker)
    ensures KeepsDistinct(AsWritten, TestWorker)
  {
    forall t: Task
      ensures DistinctCandidates(TestWorker(t))
    {
    }
  }

  /** The path the test worker reports for an ASCII path, if any. */
  lemma TestReport(t: Task)
    requires IsAscii(t.subDomain)
    ensures CandidateKeys(TestWorker(t))
         == if (|t.subDomain| + 1) % 2 == 0 then {Repeat(t.subDomain[0], |t.subDomain| + 1)} else {}
  {
    Utf8LenAscii(t.subDomain);
    if (|t.subDomain| + 1) % 2 == 0 {
      assert TestWorker(t)[0].subDomain == Repeat(t.subDomain[0], |t.subDomain| + 1);
    }
  }

  /** A one-character path doubles. */
  lemma ReportOne(t: Task)
    requires IsAscii(t.subDomain) && |t.subDomain| == 1
    ensures CandidateKeys(TestWorker(t)) == {t.subDomain + t.subDomain}
  {
    TestReport(t);
    assert Repeat(t.subDomain[0], 2) == t.subDomain + t.subDomain;
  }

  /** A three-character path of one repeated character gains a fourth. */
  lemma ReportThree(t: Task)
    requires IsAscii(t.subDomain) && |t.subDomain| == 3
    requires t.subDomain[1] == t.subDomain[0] && t.subDomain[2] == t.subDomain[0]
    ensures CandidateKeys(TestWorker(t)) == {t.subDomain + [t.subDomain[0]]}
  {
    TestReport(t);
    assert Repeat(t.subDomain[0], 4) == t.subDomain + [t.subDomain[0]];
  }

  /** An even-length path reports nothing. */
  lemma ReportEven(t: Task)
    requires IsAscii(t.subDomain) && |t.subDomain| % 2 == 0
    ensures CandidateKeys(TestWorker(t)) == {}
  {
    TestReport(t);
  }

  /** Distinct paths make a set of their number. */
  lemma {:induction false} CountPaths(ps: seq<string>)
    requires forall i, j :: 0 <= i < j < |ps| ==> ps[i] != ps[j]
    ensures |set i | 0 <= i < |ps| :: ps[i]| == |ps|
    decreases |ps|
  {
    if |ps| > 0 {
      var init := ps[..|ps| - 1];
      var last := ps[|ps| - 1];
      CountPaths(init);
      var a := set i | 0 <= i < |init| :: init[i];
      var b := set i | 0 <= i < |ps| :: ps[i];
      assert b == a + {last} by {
        forall x | x in b
          ensures x in a + {last}
        {
          var i :| 0 <= i < |ps| && ps[i] == x;
          if i < |ps| - 1 {
            assert init[i] == x;
          }
        }
        forall x | x in a
          ensures x in b
        {
          var i :| 0 <= i < |init| && init[i] == x;
          assert ps[i] == x;
        }
        assert ps[|ps| - 1] == last;
      }
      assert last !in a by {
        forall i | 0 <= i < |init|
          ensures init[i] != last
        {
          assert init[i] == ps[i];
        }
      }
    }
  }

  function Seed(path: string): Task
  {
    NewTask("domain", path)
  }

  /** The facts `HaltedKeys` needs, for one list of seeds and one expected set of paths. */
  ghost predicate Expect(seeds: seq<Task>, allowed: set<string>)
  {
    && SeedsOk(seeds)
    && Keys(seeds) <= allowed
    && ClosedUnder(TestWorker, allowed)
    && forall e :: e in allowed ==>
         e in Keys(seeds) || exists i :: 0 <= i < |seeds| && e in CandidateKeys(TestWorker(Copy(seeds[i])))
  }

  lemma HaltedAsExpected(seeds: seq<Task>, allowed: set<string>, schedule: seq<seq<nat>>, s: State)
    requires Expect(seeds, allowed)
    requires Run(AsWritten, TestWorker, Init(seeds), schedule) == Halted(s)
    ensures Keys(s.tasks) == allowed
    ensures |s.tasks| == |allowed|
    ensures AllDone(s.tasks)
  {
    TestWorkerReportsPending();
    TestWorkerReportsDistinct();
    HaltedKeys(AsWritten, TestWorker, seeds, allowed, schedule, s);
  }

  /** The set of paths in a list. */
  function PathSet(ps: seq<string>): set<string>
  {
    set i | 0 <= i < |ps| :: ps[i]
  }

  /**
   `Expect` from per-index facts: the seeds are the first paths, and each
   further path is reported by some seed.
   */
  ghost predicate ReportedBySeed(seeds: seq<Task>, path: string)
  {
    exists i :: 0 <= i < |seeds| && path in CandidateKeys(TestWorker(Copy(seeds[i])))
  }

  ghost predicate Reached(seeds: seq<Task>, ps: seq<string>)
  {
    forall j :: |seeds| <= j < |ps| ==> ReportedBySeed(seeds, ps[j])
  }

  /** The seeds are fresh, with distinct paths, and are the first paths of `ps`. */
  predicate SeedsFirst(seeds: seq<Task>, ps: seq<string>)
  {
    && SeedsOk(seeds)
    && |seeds| <= |ps|
    && forall i :: 0 <= i < |seeds| ==> seeds[i].subDomain == ps[i]
  }

  lemma ExpectFrom(seeds: seq<Task>, ps: seq<string>)
    requires SeedsFirst(seeds, ps)
    requires ClosedUnder(TestWorker, PathSet(ps))
    requires Reached(seeds, ps)
    ensures Expect(seeds, PathSet(ps))
  {
    forall e | e in PathSet(ps)
      ensures e in Keys(seeds) || exists i :: 0 <= i < |seeds| && e in CandidateKeys(TestWorker(Copy(seeds[i])))
    {
      var j :| 0 <= j < |ps| && ps[j] == e;
      if j < |seeds| {
        assert seeds[j].subDomain == e;
      } else {
        assert ReportedBySeed(seeds, ps[j]);
      }
    }
    forall k | k in Keys(seeds)
      ensures k in PathSet(ps)
    {
      var i :| 0 <= i < |seeds| && seeds[i].subDomain == k;
      assert ps[i] == k;
    }
  }

  const MIXED_SEEDS := [Seed("a"), Seed("bb"), Seed("ccc"), Seed("dddd")]
  const MIXED_PATHS := ["a", "bb", "ccc", "dddd", "aa", "cccc"]

  lemma MixedClosed()
    ensures ClosedUnder(TestWorker, PathSet(MIXED_PATHS))
  {
    var ps := MIXED_PATHS;
    forall t: Task | t.subDomain in PathSet(ps)
      ensures CandidateKeys(TestWorker(t)) <= PathSet(ps)
    {
      var i :| 0 <= i < |ps| && ps[i] == t.subDomain;
      if i == 0 {
        ReportOne(t);
        assert t.subDomain + t.subDomain == ps[4];
      } else if i == 2 {
        ReportThree(t);
        assert t.subDomain + [t.subDomain[0]] == ps[5];
      } else {
        ReportEven(t);
      }
    }
  }

  lemma MixedReached()
    ensures Reached(MIXED_SEEDS, MIXED_PATHS)
  {
    var seeds := MIXED_SEEDS;
    var ps := MIXED_PATHS;
    ReportOne(Copy(seeds[0]));
    assert Copy(seeds[0]).subDomain + Copy(seeds[0]).subDomain == ps[4];
    assert ReportedBySeed(seeds, ps[4]);
    ReportThree(Copy(seeds[2]));
    assert Copy(seeds[2]).subDomain + [Copy(seeds[2]).subDomain[0]] == ps[5];
    assert ReportedBySeed(seeds, ps[5]);
  }

  lemma MixedSeeds()
    ensures SeedsFirst(MIXED_SEEDS, MIXED_PATHS)
  {
    var seeds := MIXED_SEEDS;
    assert forall i :: 0 <= i < |seeds| ==> seeds[i].subDomain == MIXED_PATHS[i];
  }

  lemma MixedExpect()
    ensures Expect(MIXED_SEEDS, PathSet(MIXED_PATHS))
    ensures |PathSet(MIXED_PATHS)| == 6
  {
    MixedSeeds();
    MixedClosed();
    MixedReached();
    ExpectFrom(MIXED_SEEDS, MIXED_PATHS);
    MixedCount();
  }

  lemma MixedCount()
    ensures |PathSet(MIXED_PATHS)| == 6
  {
    CountPaths(MIXED_PATHS);
  }

  /** `test_no_dups`, first list: "a" and "ccc" each add one path, six in all. */
  lemma MixedLengths(schedule: seq<seq<nat>>, s: State)
    requires Run(AsWritten, TestWorker, Init(MIXED_SEEDS), schedule) == Halted(s)
    ensures Keys(s.tasks) == PathSet(MIXED_PATHS)
    ensures |s.tasks| == 6 && AllDone(s.tasks)
  {
    MixedExpect();
    HaltedAsExpected(MIXED_SEEDS, PathSet(MIXED_PATHS), schedule, s);
  }

  const DUP_SEEDS := [Seed("a"), Seed("aa")]
  const DUP_PATHS := ["a", "aa"]

  lemma DupSeeds()
    ensures SeedsFirst(DUP_SEEDS, DUP_PATHS)
  {
    var seeds := DUP_SEEDS;
    assert forall i :: 0 <= i < |seeds| ==> seeds[i].subDomain == DUP_PATHS[i];
  }

  lemma DupExpect()
    ensures Expect(DUP_SEEDS, PathSet(DUP_PATHS))
    ensures |PathSet(DUP_PATHS)| == 2
  {
    var seeds := DUP_SEEDS;
    var ps := DUP_PATHS;
    forall t: Task | t.subDomain in PathSet(ps)
      ensures CandidateKeys(TestWorker(t)) <= PathSet(ps)
    {
      var i :| 0 <= i < |ps| && ps[i] == t.subDomain;
      if i == 0 {
        ReportOne(t);
        assert t.subDomain + t.subDomain == ps[1];
      } else {
        ReportEven(t);
      }
    }
    DupSeeds();
    ExpectFrom(seeds, ps);
    CountPaths(ps);
  }

  /** `test_dup_tasks`: "a" reports "aa", which is already listed, so two tasks remain. */
  lemma ReportedPathAlreadyListed(schedule: seq<seq<nat>>, s: State)
    requires Run(AsWritten, TestWorker, Init(DUP_SEEDS), schedule) == Halted(s)
    ensures Keys(s.tasks) == PathSet(DUP_PATHS)
    ensures |s.tasks| == 2 && AllDone(s.tasks)
  {
    DupExpect();
    HaltedAsExpected(DUP_SEEDS, PathSet(DUP_PATHS), schedule, s);
  }

  const ODD_SEEDS := [Seed("a"), Seed("b"), Seed("c"), Seed("d")]
  const ODD_PATHS := ["a", "b", "c", "d", "aa", "bb", "cc", "dd"]

  lemma OddClosed()
    ensures ClosedUnder(TestWorker, PathSet(ODD_PATHS))
  {
    var ps := ODD_PATHS;
    forall t: Task | t.subDomain in PathSet(ps)
      ensures CandidateKeys(TestWorker(t)) <= PathSet(ps)
    {
      var i :| 0 <= i < |ps| && ps[i] == t.subDomain;
      if i < 4 {
        ReportOne(t);
        assert t.subDomain + t.subDomain == ps[i + 4];
      } else {
        ReportEven(t);
      }
    }
  }

  lemma OddReached()
    ensures Reached(ODD_SEEDS, ODD_PATHS)
  {
    var seeds := ODD_SEEDS;
    var ps := ODD_PATHS;
    forall j | |seeds| <= j < |ps|
      ensures ReportedBySeed(seeds, ps[j])
    {
      var i := j - 4;
      ReportOne(Copy(seeds[i]));
      assert Copy(seeds[i]).subDomain + Copy(seeds[i]).subDomain == ps[j];
      assert 0 <= i < |seeds| && ps[j] in CandidateKeys(TestWorker(Copy(seeds[i])));
    }
  }

  lemma OddSeeds()
    ensures SeedsFirst(ODD_SEEDS, ODD_PATHS)
  {
    var seeds := ODD_SEEDS;
    assert forall i :: 0 <= i < |seeds| ==> seeds[i].subDomain == ODD_PATHS[i];
  }

  lemma OddExpect()
    ensures Expect(ODD_SEEDS, PathSet(ODD_PATHS))
    ensures |PathSet(ODD_PATHS)| == 8
  {
    OddSeeds();
    OddClosed();
    OddReached();
    ExpectFrom(ODD_SEEDS, ODD_PATHS);
    OddCount();
  }

  lemma OddCount()
    ensures |PathSet(ODD_PATHS)| == 8
  {
    CountPaths(ODD_PATHS);
  }

  /** `test_no_dups`, second list: every one-character path doubles, eight in all. */
  lemma AllOddLengths(schedule: seq<seq<nat>>, s: State)
    requires Run(AsWritten, TestWorker, Init(ODD_SEEDS), schedule) == Halted(s)
    ensures Keys(s.tasks) == PathSet(ODD_PATHS)
    ensures |s.tasks| == 8 && AllDone(s.tasks)
  {
    OddExpect();
    HaltedAsExpected(ODD_SEEDS, PathSet(ODD_PATHS), schedule, s);
  }

  const EVEN_SEEDS := [Seed("aa"), Seed("bb"), Seed("cc"), Seed("dd")]
  const EVEN_PATHS := ["aa", "bb", "cc", "dd"]

  lemma EvenSeeds()
    ensures SeedsFirst(EVEN_SEEDS, EVEN_PATHS)
  {
    var seeds := EVEN_SEEDS;
    assert forall i :: 0 <= i < |seeds| ==> seeds[i].subDomain == EVEN_PATHS[i];
  }

  lemma EvenExpect()
    ensures Expect(EVEN_SEEDS, PathSet(EVEN_PATHS))
    ensures |PathSet(EVEN_PATHS)| == 4
  {
    var ps := EVEN_PATHS;
    forall t: Task | t.subDomain in PathSet(ps)
      ensures CandidateKeys(TestWorker(t)) <= PathSet(ps)
    {
      ReportEven(t);
    }
    EvenSeeds();
    ExpectFrom(EVEN_SEEDS, ps);
    CountPaths(ps);
  }
  /**
   `test_no_dups`, third list, and `test_no_loop_delay`: two-character paths
   report nothing, so the four seeds are all. The polling delay only changes
   which schedules occur, and this holds for every schedule.
   */
  lemma AllEvenLengths(schedule: seq<seq<nat>>, s: State)
    requires Run(AsWritten, TestWorker, Init(EVEN_SEEDS), schedule) == Halted(s)
    ensures Keys(s.tasks) == PathSet(EVEN_PATHS)
    ensures |s.tasks| == 4 && AllDone(s.tasks)
  {
    EvenExpect();
    HaltedAsExpected(EVEN_SEEDS, PathSet(EVEN_PATHS), schedule, s);
  }

  /** `test_empty_task`: the empty path reports nothing. */
  lemma EmptyPathAlone(schedule: seq<seq<nat>>, s: State)
    requires Run(AsWritten, TestWorker, Init([Seed("")]), schedule) == Halted(s)
    ensures Keys(s.tasks) == {""}
    ensures |s.tasks| == 1 && AllDone(s.tasks)
  {
    EmptyExpect();
    HaltedAsExpected([Seed("")], {""}, schedule, s);
  }

  lemma EmptyExpect()
    ensures Expect([Seed("")], {""})
  {
    var seeds := [Seed("")];
    assert Keys(seeds) == {""} by {
      assert seeds[0].subDomain == "";
    }
    forall t: Task | t.subDomain in {""}
      ensures CandidateKeys(TestWorker(t)) <= {""}
    {
      ReportEven(t);
    }
  }

  /** The loop does stop for `test_empty_task`: one dispatch, then one delivery. */
  lemma EmptyPathHalts()
    ensures Run(AsWritten, TestWorker, Init([Seed("")]), [[], [0]]).Halted?
  {
    var seed := Seed("");
    var s0 := Init([seed]);
    assert HasPending(s0.tasks) by {
      assert s0.tasks[0].status == PENDING;
    }
    assert Drain(AsWritten, s0, []) == s0;
    var s1 := Launch(TestWorker, s0);
    assert Iterate(AsWritten, TestWorker, s0, []) == Running(s1);
    assert Spawned(s0.tasks) == [seed];
    var started := Task("domain", "", IN_FLIGHT);
    assert StartAll(s0.tasks) == [started];
    TestWorkerEmptyPath("domain");
    var reply := Reply(seed, []);
    assert s1 == State([started], [reply]);
    var done := Task("domain", "", DONE);
    assert MarkDone([started], "") == [done];
    assert HandleReceivedData([started], reply) == [done];
    var s2 := Deliver(AsWritten, s1, 0);
    assert s2 == State([done], []);
    assert Drain(AsWritten, s1, [0]) == Drain(AsWritten, s2, []);
    assert !HasPending(s2.tasks) && AllDone(s2.tasks);
    assert Iterate(AsWritten, TestWorker, s1, [0]) == Halted(s2);
    assert [[], [0]][1..] == [[0]];
  }

  /** The states of `test_dup_tasks`: both seeds in flight, then "a" done, then both done. */
  const DUP_LAUNCHED := State([Task("domain", "a", IN_FLIGHT), Task("domain", "aa", IN_FLIGHT)],
                              [Reply(Seed("a"), [Seed("aa")]), Reply(Seed("aa"), [])])
  const DUP_HALF := State([Task("domain", "a", DONE), Task("domain", "aa", IN_FLIGHT)], [Reply(Seed("aa"), [])])
  const DUP_DONE := State([Task("domain", "a", DONE), Task("domain", "aa", DONE)], [])

  /** "a" reports "aa"; "aa" reports nothing. */
  lemma DupReplies()
    ensures Replies(TestWorker, DUP_SEEDS) == DUP_LAUNCHED.flight
  {
    var a := Seed("a");
    var aa := Seed("aa");
    ReportOne(a);
    assert TestWorker(a) == [aa] by {
      assert TestWorker(a)[0].subDomain == "aa";
    }
    ReportEven(aa);
    assert DUP_SEEDS[1..] == [aa];
    assert Replies(TestWorker, [aa]) == [Reply(aa, [])] by {
      assert [aa][1..] == [];
    }
  }

  /** Both seeds are pending: both are copied for workers and set in flight. */
  lemma DupStart()
    ensures Spawned(DUP_SEEDS) == DUP_SEEDS
    ensures StartAll(DUP_SEEDS) == DUP_LAUNCHED.tasks
  {
    var seeds := DUP_SEEDS;
    assert seeds[1..] == [Seed("aa")];
    assert [Seed("aa")][1..] == [];
  }

  /** First pass of `test_dup_tasks`: both seeds are started; "a" will report "aa". */
  lemma DupDispatch()
    ensures Iterate(AsWritten, TestWorker, Init(DUP_SEEDS), []) == Running(DUP_LAUNCHED)
  {
    var s0 := Init(DUP_SEEDS);
    assert HasPending(s0.tasks) by {
      assert s0.tasks[0].status == PENDING;
    }
    assert Drain(AsWritten, s0, []) == s0;
    DupStart();
    DupReplies();
    assert Launch(TestWorker, s0) == DUP_LAUNCHED;
  }

  /** "a"'s reply lists only "aa", which is listed already: "a" is marked done and nothing is added. */
  lemma DupFirstReply()
    ensures Deliver(AsWritten, DUP_LAUNCHED, 0) == DUP_HALF
  {
    var a1 := Task("domain", "a", IN_FLIGHT);
    var aa1 := Task("domain", "aa", IN_FLIGHT);
    var r0 := Reply(Seed("a"), [Seed("aa")]);
    assert DUP_LAUNCHED == State([a1, aa1], [r0, Reply(Seed("aa"), [])]);
    assert MarkDone([a1, aa1], "a") == DUP_HALF.tasks;
    assert CandidateKeys(r0.found) <= Keys([a1, aa1]) by {
      assert [a1, aa1][1].subDomain == "aa";
      assert r0.found[0].subDomain == "aa";
    }
    MergeOfListedIsMarkOnly([a1, aa1], r0);
  }

  /** "aa"'s reply lists nothing: "aa" is marked done. */
  lemma DupSecondReply()
    ensures Deliver(AsWritten, DUP_HALF, 0) == DUP_DONE
  {
    var tasks := DUP_HALF.tasks;
    assert MarkDone(tasks, "aa") == DUP_DONE.tasks;
    assert HandleReceivedData(tasks, Reply(Seed("aa"), [])) == DUP_DONE.tasks;
  }

  /** Both replies arrive, "a"'s first. */
  lemma DupDrainState()
    ensures ValidPicks(2, [0, 0])
    ensures Drain(AsWritten, DUP_LAUNCHED, [0, 0]) == DUP_DONE
  {
    assert ValidPicks(2, [0, 0]);
    DupFirstReply();
    DupSecondReply();
    assert [0, 0][1..] == [0];
    assert [0][1..] == [];
    assert Drain(AsWritten, DUP_HALF, [0]) == Drain(AsWritten, DUP_DONE, []);
  }

  /** Second pass: "a"'s reply marks it done and adds nothing, then "aa"'s reply; the loop stops. */
  lemma DupDrain()
    ensures Iterate(AsWritten, TestWorker, DUP_LAUNCHED, [0, 0]) == Halted(DUP_DONE)
  {
    DupDrainState();
    DupAllDone();
  }

  lemma DupAllDone()
    ensures !HasPending(DUP_DONE.tasks) && AllDone(DUP_DONE.tasks)
  {
    var tasks := DUP_DONE.tasks;
    assert tasks[0].status == DONE && tasks[1].status == DONE;
  }

  /** The loop does stop for `test_dup_tasks`. */
  lemma DupHalts()
    ensures Run(AsWritten, TestWorker, Init(DUP_SEEDS), [[], [0, 0]]).Halted?
  {
    DupDispatch();
    DupDrain();
    assert [[], [0, 0]][1..] == [[0, 0]];
  }
}
