/**
 Schedules under which the scheduler's test lists do stop, traced pass by
 pass, so the statements about every stopped run are not about an empty
 set of runs; and a run of the source's loop with a worker that links one
 path twice, which stops with a reply still in flight.
 */
module ScenarioRuns {
  import opened Tasks
  import opened Text
  import opened Seqs
  import opened Scheduler
  import opened SchedulerProofs
  import opened Worker
  import opened Scenarios

  /** A task of the test domain. */
  function At(path: string, status: nat): Task
  {
    Task("domain", path, status)
  }

  // ---------------------------------------------------------------------------
  // Stepping a run
  // ---------------------------------------------------------------------------

  lemma RunGoesOn(rule: MergeRule, w: Task -> seq<Task>, s: State, schedule: seq<seq<nat>>, s': State)
    requires |schedule| > 0 && Iterate(rule, w, s, schedule[0]) == Running(s')
    ensures Run(rule, w, s, schedule) == Run(rule, w, s', schedule[1..])
  {
  }

  lemma RunStops(rule: MergeRule, w: Task -> seq<Task>, s: State, schedule: seq<seq<nat>>, s': State)
    requires |schedule| > 0 && Iterate(rule, w, s, schedule[0]) == Halted(s')
    ensures Run(rule, w, s, schedule) == Halted(s')
  {
  }

  /** A drain that leaves every task done ends the run. */
  lemma StopsWhenAllDone(rule: MergeRule, w: Task -> seq<Task>, s: State, picks: seq<nat>, d: State)
    requires ValidPicks(|s.flight|, picks) && Drain(rule, s, picks) == d
    requires forall i :: 0 <= i < |d.tasks| ==> d.tasks[i].status == DONE
    ensures Iterate(rule, w, s, picks) == Halted(d)
  {
    assert !HasPending(d.tasks);
  }

  /** The dispatch from `d`, where a task is pending, starts workers on `next` and leaves `launched`. */
  lemma Relaunched(w: Task -> seq<Task>, d: State, k: nat, next: seq<Task>, launched: State)
    requires k < |d.tasks| && d.tasks[k].status == PENDING
    requires StartAll(d.tasks) == launched.tasks
    requires Spawned(d.tasks) == next && d.flight + Replies(w, next) == launched.flight
    ensures HasPending(d.tasks) && Launch(w, d) == launched
  {
  }

  /** The first pass over seeds, all pending, starts a worker on each of them. */
  lemma FirstPass(rule: MergeRule, w: Task -> seq<Task>, seeds: seq<Task>, launched: State)
    requires |seeds| > 0 && forall i :: 0 <= i < |seeds| ==> seeds[i].status == PENDING
    requires StartAll(seeds) == launched.tasks && Replies(w, seeds) == launched.flight
    ensures Iterate(rule, w, Init(seeds), []) == Running(launched)
  {
    assert Drain(rule, Init(seeds), []) == Init(seeds);
    SpawnedAllPending(seeds);
    assert [] + Replies(w, seeds) == Replies(w, seeds);
    Relaunched(w, Init(seeds), 0, seeds, launched);
  }

  lemma DrainFirst(rule: MergeRule, s: State, picks: seq<nat>, s': State)
    requires |picks| > 0 && ValidPicks(|s.flight|, picks)
    requires picks[0] < |s.flight| && Deliver(rule, s, picks[0]) == s'
    ensures ValidPicks(|s'.flight|, picks[1..])
    ensures Drain(rule, s, picks) == Drain(rule, s', picks[1..])
  {
    forall j | 0 <= j < |picks| - 1
      ensures picks[1..][j] + j < |s'.flight|
    {
      assert picks[1..][j] == picks[j + 1];
    }
  }

  /** The picks that always take the reply at the front of the channel. */
  function FrontPicks(n: nat): (r: seq<nat>)
    ensures |r| == n && forall j :: 0 <= j < n ==> r[j] == 0
  {
    seq(n, _ => 0)
  }

  /** `s'` is `s` after the reply at the front of the channel is merged. */
  predicate FrontStep(rule: MergeRule, s: State, s': State)
  {
    |s.flight| > 0 && Deliver(rule, s, 0) == s'
  }

  /** Taking `n` replies from the front of the channel of `s` leaves `d`. */
  predicate FrontDrain(rule: MergeRule, s: State, n: nat, d: State)
  {
    ValidPicks(|s.flight|, FrontPicks(n)) && Drain(rule, s, FrontPicks(n)) == d
  }

  lemma FrontNone(rule: MergeRule, s: State)
    ensures FrontDrain(rule, s, 0, s)
  {
  }

  /** Taking the front reply, then `n` more from the front. */
  lemma FrontFirst(rule: MergeRule, s: State, s': State, n: nat, d: State)
    requires FrontStep(rule, s, s') && FrontDrain(rule, s', n, d)
    ensures FrontDrain(rule, s, n + 1, d)
  {
    var picks := FrontPicks(n + 1);
    assert picks[1..] == FrontPicks(n);
    assert ValidPicks(|s.flight|, picks) by {
      forall j | 0 <= j < |picks|
        ensures picks[j] + j < |s.flight|
      {
        if j > 0 {
          assert picks[j] == FrontPicks(n)[j - 1];
        }
      }
    }
    DrainFirst(rule, s, picks, s');
  }

  /** A run of a dispatch, a pass that goes on and a pass that stops. */
  lemma ThreePasses(rule: MergeRule, w: Task -> seq<Task>, s0: State, s1: State, s2: State, s3: State, p1: seq<nat>, p2: seq<nat>)
    requires Iterate(rule, w, s0, []) == Running(s1)
    requires Iterate(rule, w, s1, p1) == Running(s2)
    requires Iterate(rule, w, s2, p2) == Halted(s3)
    ensures Run(rule, w, s0, [[], p1, p2]) == Halted(s3)
  {
    var schedule: seq<seq<nat>> := [[], p1, p2];
    RunGoesOn(rule, w, s0, schedule, s1);
    assert schedule[1..] == [p1, p2] && [p1, p2][1..] == [p2];
    RunGoesOn(rule, w, s1, [p1, p2], s2);
    RunStops(rule, w, s2, [p2], s3);
  }

  /** A run of a dispatch and a pass that stops. */
  lemma TwoPasses(rule: MergeRule, w: Task -> seq<Task>, s0: State, s1: State, s2: State, p1: seq<nat>)
    requires Iterate(rule, w, s0, []) == Running(s1)
    requires Iterate(rule, w, s1, p1) == Halted(s2)
    ensures Run(rule, w, s0, [[], p1]) == Halted(s2)
  {
    var schedule: seq<seq<nat>> := [[], p1];
    RunGoesOn(rule, w, s0, schedule, s1);
    assert schedule[1..] == [p1];
    RunStops(rule, w, s1, [p1], s2);
  }

  /** The source's merge of a reply that reports nothing only marks its path done. */
  lemma DeliverLeaf(s: State)
    requires |s.flight| > 0 && s.flight[0].found == []
    ensures Deliver(AsWritten, s, 0) == State(MarkDone(s.tasks, s.flight[0].done.subDomain), s.flight[1..])
  {
    assert RemoveAt(s.flight, 0) == s.flight[1..];
  }

  /** The source's merge of a reply with one unlisted candidate marks its path done and appends it. */
  lemma DeliverOneNew(s: State)
    requires |s.flight| > 0 && |s.flight[0].found| == 1
    requires s.flight[0].found[0].subDomain !in Keys(s.tasks)
    ensures Deliver(AsWritten, s, 0)
         == State(MarkDone(s.tasks, s.flight[0].done.subDomain) + s.flight[0].found, s.flight[1..])
  {
    var c := s.flight[0].found;
    assert c[1..] == [];
    assert Fresh(s.tasks, c) == [c[0]] + Fresh(s.tasks, []);
    assert RemoveAt(s.flight, 0) == s.flight[1..];
  }

  lemma NotListed(tasks: seq<Task>, key: string)
    requires forall i :: 0 <= i < |tasks| ==> tasks[i].subDomain != key
    ensures key !in Keys(tasks)
  {
  }

  lemma MarkedAs(tasks: seq<Task>, key: string, marked: seq<Task>)
    requires |marked| == |tasks|
    requires forall i :: 0 <= i < |tasks| ==> marked[i] == Marked(tasks[i], key)
    ensures MarkDone(tasks, key) == marked
  {
  }

  lemma StartedAs(tasks: seq<Task>, started: seq<Task>)
    requires |started| == |tasks|
    requires forall i :: 0 <= i < |tasks| ==> started[i] == Started(tasks[i])
    ensures StartAll(tasks) == started
  {
  }

  lemma {:induction false} SpawnedAllPending(tasks: seq<Task>)
    requires forall i :: 0 <= i < |tasks| ==> tasks[i].status == PENDING
    ensures Spawned(tasks) == tasks
    decreases |tasks|
  {
    if |tasks| > 0 {
      SpawnedAllPending(tasks[1..]);
    }
  }

  lemma {:induction false} SpawnedNonePending(tasks: seq<Task>)
    requires forall i :: 0 <= i < |tasks| ==> tasks[i].status != PENDING
    ensures Spawned(tasks) == []
    decreases |tasks|
  {
    if |tasks| > 0 {
      SpawnedNonePending(tasks[1..]);
    }
  }

  lemma {:induction false} SpawnedAppend(a: seq<Task>, b: seq<Task>)
    ensures Spawned(a + b) == Spawned(a) + Spawned(b)
    decreases |a|
  {
    if |a| == 0 {
      assert a + b == b;
    } else {
      assert (a + b)[0] == a[0];
      assert (a + b)[1..] == a[1..] + b;
      SpawnedAppend(a[1..], b);
    }
  }

  /** Tasks past `k` are the pending ones, and they keep their order. */
  lemma SpawnedSplit(tasks: seq<Task>, k: nat)
    requires k <= |tasks|
    requires forall i :: 0 <= i < k ==> tasks[i].status != PENDING
    requires forall i :: k <= i < |tasks| ==> tasks[i].status == PENDING
    ensures Spawned(tasks) == tasks[k..]
  {
    var done, pending := tasks[..k], tasks[k..];
    assert tasks == done + pending;
    forall i | 0 <= i < |done|
      ensures done[i].status != PENDING
    {
      assert done[i] == tasks[i];
    }
    forall i | 0 <= i < |pending|
      ensures pending[i].status == PENDING
    {
      assert pending[i] == tasks[k + i];
    }
    SpawnedAppend(done, pending);
    SpawnedNonePending(done);
    SpawnedAllPending(pending);
  }

  lemma RepliesOf(w: Task -> seq<Task>, copies: seq<Task>, rs: seq<Reply>)
    requires |rs| == |copies|
    requires forall m :: 0 <= m < |copies| ==> rs[m] == Reply(copies[m], w(copies[m]))
    ensures Replies(w, copies) == rs
  {
    forall m | 0 <= m < |copies|
      ensures Replies(w, copies)[m] == rs[m]
    {
      RepliesAt(w, copies, m);
    }
  }

  /** The test worker on an odd-length ASCII path reports its first character once more than the length. */
  lemma TestOdd(path: string)
    requires IsAscii(path) && |path| % 2 == 1
    ensures TestWorker(Seed(path)) == [Seed(Repeat(path[0], |path| + 1))]
  {
    Utf8LenAscii(path);
  }

  lemma TestEven(path: string)
    requires IsAscii(path) && |path| % 2 == 0
    ensures TestWorker(Seed(path)) == []
  {
    Utf8LenAscii(path);
  }

  // ---------------------------------------------------------------------------
  // `test_no_dups`, third list: "aa", "bb", "cc", "dd"
  // ---------------------------------------------------------------------------

  const EVEN_LAUNCHED := State([At("aa", IN_FLIGHT), At("bb", IN_FLIGHT), At("cc", IN_FLIGHT), At("dd", IN_FLIGHT)],
                               [Reply(Seed("aa"), []), Reply(Seed("bb"), []), Reply(Seed("cc"), []), Reply(Seed("dd"), [])])
  const EVEN_1 := State([At("aa", DONE), At("bb", IN_FLIGHT), At("cc", IN_FLIGHT), At("dd", IN_FLIGHT)],
                        EVEN_LAUNCHED.flight[1..])
  const EVEN_2 := State([At("aa", DONE), At("bb", DONE), At("cc", IN_FLIGHT), At("dd", IN_FLIGHT)],
                        EVEN_LAUNCHED.flight[2..])
  const EVEN_3 := State([At("aa", DONE), At("bb", DONE), At("cc", DONE), At("dd", IN_FLIGHT)],
                        EVEN_LAUNCHED.flight[3..])
  const EVEN_DONE := State([At("aa", DONE), At("bb", DONE), At("cc", DONE), At("dd", DONE)], [])

  lemma EvenReplies()
    ensures Replies(TestWorker, EVEN_SEEDS) == EVEN_LAUNCHED.flight
  {
    TestEven("aa");
    TestEven("bb");
    TestEven("cc");
    TestEven("dd");
    RepliesOf(TestWorker, EVEN_SEEDS, EVEN_LAUNCHED.flight);
  }

  lemma EvenDispatch()
    ensures Iterate(AsWritten, TestWorker, Init(EVEN_SEEDS), []) == Running(EVEN_LAUNCHED)
  {
    StartedAs(EVEN_SEEDS, EVEN_LAUNCHED.tasks);
    EvenReplies();
    FirstPass(AsWritten, TestWorker, EVEN_SEEDS, EVEN_LAUNCHED);
  }

  lemma EvenDeliver0()
    ensures FrontStep(AsWritten, EVEN_LAUNCHED, EVEN_1)
  {
    DeliverLeaf(EVEN_LAUNCHED);
    MarkedAs(EVEN_LAUNCHED.tasks, "aa", EVEN_1.tasks);
  }

  lemma EvenDeliver1()
    ensures FrontStep(AsWritten, EVEN_1, EVEN_2)
  {
    DeliverLeaf(EVEN_1);
    MarkedAs(EVEN_1.tasks, "bb", EVEN_2.tasks);
  }

  lemma EvenDeliver2()
    ensures FrontStep(AsWritten, EVEN_2, EVEN_3)
  {
    DeliverLeaf(EVEN_2);
    MarkedAs(EVEN_2.tasks, "cc", EVEN_3.tasks);
  }

  lemma EvenDeliver3()
    ensures FrontStep(AsWritten, EVEN_3, EVEN_DONE)
  {
    DeliverLeaf(EVEN_3);
    MarkedAs(EVEN_3.tasks, "dd", EVEN_DONE.tasks);
  }

  lemma EvenDrainFrom2()
    ensures FrontDrain(AsWritten, EVEN_2, 2, EVEN_DONE)
  {
    EvenDeliver2();
    EvenDeliver3();
    FrontNone(AsWritten, EVEN_DONE);
    FrontFirst(AsWritten, EVEN_3, EVEN_DONE, 0, EVEN_DONE);
    FrontFirst(AsWritten, EVEN_2, EVEN_3, 1, EVEN_DONE);
  }

  lemma EvenDrain()
    ensures FrontDrain(AsWritten, EVEN_LAUNCHED, 4, EVEN_DONE)
  {
    EvenDeliver0();
    EvenDeliver1();
    EvenDrainFrom2();
    FrontFirst(AsWritten, EVEN_1, EVEN_2, 2, EVEN_DONE);
    FrontFirst(AsWritten, EVEN_LAUNCHED, EVEN_1, 3, EVEN_DONE);
  }

  lemma EvenAllDone()
    ensures forall i :: 0 <= i < |EVEN_DONE.tasks| ==> EVEN_DONE.tasks[i].status == DONE
  {
  }

  lemma EvenLastPass()
    ensures Iterate(AsWritten, TestWorker, EVEN_LAUNCHED, FrontPicks(4)) == Halted(EVEN_DONE)
  {
    EvenDrain();
    EvenAllDone();
    StopsWhenAllDone(AsWritten, TestWorker, EVEN_LAUNCHED, FrontPicks(4), EVEN_DONE);
  }

  /** The loop does stop for the third list: one dispatch, then all four replies in one drain. */
  lemma EvenHalts()
    ensures Run(AsWritten, TestWorker, Init(EVEN_SEEDS), [[], FrontPicks(4)]) == Halted(EVEN_DONE)
  {
    EvenDispatch();
    EvenLastPass();
    TwoPasses(AsWritten, TestWorker, Init(EVEN_SEEDS), EVEN_LAUNCHED, EVEN_DONE, FrontPicks(4));
  }

  // ---------------------------------------------------------------------------
  // `test_no_dups`, second list: "a", "b", "c", "d"
  // ---------------------------------------------------------------------------

  const ODD_LAUNCHED := State([At("a", IN_FLIGHT), At("b", IN_FLIGHT), At("c", IN_FLIGHT), At("d", IN_FLIGHT)],
                              [Reply(Seed("a"), [Seed("aa")]), Reply(Seed("b"), [Seed("bb")]),
                               Reply(Seed("c"), [Seed("cc")]), Reply(Seed("d"), [Seed("dd")])])
  const ODD_1 := State([At("a", DONE), At("b", IN_FLIGHT), At("c", IN_FLIGHT), At("d", IN_FLIGHT),
                        Seed("aa")],
                       ODD_LAUNCHED.flight[1..])
  const ODD_2 := State([At("a", DONE), At("b", DONE), At("c", IN_FLIGHT), At("d", IN_FLIGHT),
                        Seed("aa"), Seed("bb")],
                       ODD_LAUNCHED.flight[2..])
  const ODD_3 := State([At("a", DONE), At("b", DONE), At("c", DONE), At("d", IN_FLIGHT),
                        Seed("aa"), Seed("bb"), Seed("cc")],
                       ODD_LAUNCHED.flight[3..])
  const ODD_4 := State([At("a", DONE), At("b", DONE), At("c", DONE), At("d", DONE),
                        Seed("aa"), Seed("bb"), Seed("cc"), Seed("dd")],
                       [])
  /** The paths the first drain of the second list adds. */
  const ODD_NEXT := [Seed("aa"), Seed("bb"), Seed("cc"), Seed("dd")]
  const ODD_RELAUNCHED := State([At("a", DONE), At("b", DONE), At("c", DONE), At("d", DONE),
                                 At("aa", IN_FLIGHT), At("bb", IN_FLIGHT), At("cc", IN_FLIGHT), At("dd", IN_FLIGHT)],
                                [Reply(Seed("aa"), []), Reply(Seed("bb"), []), Reply(Seed("cc"), []), Reply(Seed("dd"), [])])
  const ODD_5 := State([At("a", DONE), At("b", DONE), At("c", DONE), At("d", DONE),
                        At("aa", DONE), At("bb", IN_FLIGHT), At("cc", IN_FLIGHT), At("dd", IN_FLIGHT)],
                       ODD_RELAUNCHED.flight[1..])
  const ODD_6 := State([At("a", DONE), At("b", DONE), At("c", DONE), At("d", DONE),
                        At("aa", DONE), At("bb", DONE), At("cc", IN_FLIGHT), At("dd", IN_FLIGHT)],
                       ODD_RELAUNCHED.flight[2..])
  const ODD_7 := State([At("a", DONE), At("b", DONE), At("c", DONE), At("d", DONE),
                        At("aa", DONE), At("bb", DONE), At("cc", DONE), At("dd", IN_FLIGHT)],
                       ODD_RELAUNCHED.flight[3..])
  const ODD_DONE := State([At("a", DONE), At("b", DONE), At("c", DONE), At("d", DONE),
                           At("aa", DONE), At("bb", DONE), At("cc", DONE), At("dd", DONE)],
                          [])

  lemma OddReplies()
    ensures Replies(TestWorker, ODD_SEEDS) == ODD_LAUNCHED.flight
  {
    TestOdd("a");
    TestOdd("b");
    TestOdd("c");
    TestOdd("d");
    assert Repeat('a', 2) == "aa" && Repeat('b', 2) == "bb" && Repeat('c', 2) == "cc" && Repeat('d', 2) == "dd";
    RepliesOf(TestWorker, ODD_SEEDS, ODD_LAUNCHED.flight);
  }

  lemma OddDispatch()
    ensures Iterate(AsWritten, TestWorker, Init(ODD_SEEDS), []) == Running(ODD_LAUNCHED)
  {
    StartedAs(ODD_SEEDS, ODD_LAUNCHED.tasks);
    OddReplies();
    FirstPass(AsWritten, TestWorker, ODD_SEEDS, ODD_LAUNCHED);
  }

  lemma OddDeliver0()
    ensures FrontStep(AsWritten, ODD_LAUNCHED, ODD_1)
  {
    NotListed(ODD_LAUNCHED.tasks, "aa");
    DeliverOneNew(ODD_LAUNCHED);
    MarkedAs(ODD_LAUNCHED.tasks, "a", ODD_1.tasks[..4]);
    assert ODD_1.tasks == ODD_1.tasks[..4] + [Seed("aa")];
  }

  lemma OddDeliver1()
    ensures FrontStep(AsWritten, ODD_1, ODD_2)
  {
    NotListed(ODD_1.tasks, "bb");
    DeliverOneNew(ODD_1);
    MarkedAs(ODD_1.tasks, "b", ODD_2.tasks[..5]);
    assert ODD_2.tasks == ODD_2.tasks[..5] + [Seed("bb")];
  }

  lemma OddDeliver2()
    ensures FrontStep(AsWritten, ODD_2, ODD_3)
  {
    NotListed(ODD_2.tasks, "cc");
    DeliverOneNew(ODD_2);
    MarkedAs(ODD_2.tasks, "c", ODD_3.tasks[..6]);
    assert ODD_3.tasks == ODD_3.tasks[..6] + [Seed("cc")];
  }

  lemma OddDeliver3()
    ensures FrontStep(AsWritten, ODD_3, ODD_4)
  {
    NotListed(ODD_3.tasks, "dd");
    DeliverOneNew(ODD_3);
    MarkedAs(ODD_3.tasks, "d", ODD_4.tasks[..7]);
    assert ODD_4.tasks == ODD_4.tasks[..7] + [Seed("dd")];
  }

  lemma OddDrainFrom2()
    ensures FrontDrain(AsWritten, ODD_2, 2, ODD_4)
  {
    OddDeliver2();
    OddDeliver3();
    FrontNone(AsWritten, ODD_4);
    FrontFirst(AsWritten, ODD_3, ODD_4, 0, ODD_4);
    FrontFirst(AsWritten, ODD_2, ODD_3, 1, ODD_4);
  }

  lemma OddFirstDrain()
    ensures FrontDrain(AsWritten, ODD_LAUNCHED, 4, ODD_4)
  {
    OddDeliver0();
    OddDeliver1();
    OddDrainFrom2();
    FrontFirst(AsWritten, ODD_1, ODD_2, 2, ODD_4);
    FrontFirst(AsWritten, ODD_LAUNCHED, ODD_1, 3, ODD_4);
  }

  lemma OddSpawned()
    ensures Spawned(ODD_4.tasks) == ODD_NEXT
  {
    SpawnedSplit(ODD_4.tasks, 4);
    assert ODD_4.tasks[4..] == ODD_NEXT;
  }

  /** The test worker reports nothing for the doubled one-letter paths. */
  lemma OddNextReplies()
    ensures Replies(TestWorker, ODD_NEXT) == ODD_RELAUNCHED.flight
  {
    TestEven("aa");
    TestEven("bb");
    TestEven("cc");
    TestEven("dd");
    RepliesOf(TestWorker, ODD_NEXT, ODD_RELAUNCHED.flight);
  }

  lemma OddStarted()
    ensures StartAll(ODD_4.tasks) == ODD_RELAUNCHED.tasks
  {
    StartedAs(ODD_4.tasks, ODD_RELAUNCHED.tasks);
  }

  lemma OddRelaunchFlight()
    ensures ODD_4.flight + Replies(TestWorker, ODD_NEXT) == ODD_RELAUNCHED.flight
  {
    OddNextReplies();
    assert ODD_4.flight + ODD_RELAUNCHED.flight == ODD_RELAUNCHED.flight;
  }

  lemma OddRelaunch()
    ensures HasPending(ODD_4.tasks) && Launch(TestWorker, ODD_4) == ODD_RELAUNCHED
  {
    OddStarted();
    OddSpawned();
    OddRelaunchFlight();
    Relaunched(TestWorker, ODD_4, 4, ODD_NEXT, ODD_RELAUNCHED);
  }

  lemma OddSecondPass()
    ensures Iterate(AsWritten, TestWorker, ODD_LAUNCHED, FrontPicks(4)) == Running(ODD_RELAUNCHED)
  {
    OddFirstDrain();
    OddRelaunch();
  }

  lemma OddDeliver4()
    ensures FrontStep(AsWritten, ODD_RELAUNCHED, ODD_5)
  {
    DeliverLeaf(ODD_RELAUNCHED);
    MarkedAs(ODD_RELAUNCHED.tasks, "aa", ODD_5.tasks);
  }

  lemma OddDeliver5()
    ensures FrontStep(AsWritten, ODD_5, ODD_6)
  {
    DeliverLeaf(ODD_5);
    MarkedAs(ODD_5.tasks, "bb", ODD_6.tasks);
  }

  lemma OddDeliver6()
    ensures FrontStep(AsWritten, ODD_6, ODD_7)
  {
    DeliverLeaf(ODD_6);
    MarkedAs(ODD_6.tasks, "cc", ODD_7.tasks);
  }

  lemma OddDeliver7()
    ensures FrontStep(AsWritten, ODD_7, ODD_DONE)
  {
    DeliverLeaf(ODD_7);
    MarkedAs(ODD_7.tasks, "dd", ODD_DONE.tasks);
  }

  lemma OddDrainFrom6()
    ensures FrontDrain(AsWritten, ODD_6, 2, ODD_DONE)
  {
    OddDeliver6();
    OddDeliver7();
    FrontNone(AsWritten, ODD_DONE);
    FrontFirst(AsWritten, ODD_7, ODD_DONE, 0, ODD_DONE);
    FrontFirst(AsWritten, ODD_6, ODD_7, 1, ODD_DONE);
  }

  lemma OddSecondDrain()
    ensures FrontDrain(AsWritten, ODD_RELAUNCHED, 4, ODD_DONE)
  {
    OddDeliver4();
    OddDeliver5();
    OddDrainFrom6();
    FrontFirst(AsWritten, ODD_5, ODD_6, 2, ODD_DONE);
    FrontFirst(AsWritten, ODD_RELAUNCHED, ODD_5, 3, ODD_DONE);
  }

  lemma OddAllDone()
    ensures forall i :: 0 <= i < |ODD_DONE.tasks| ==> ODD_DONE.tasks[i].status == DONE
  {
  }

  lemma OddLastPass()
    ensures Iterate(AsWritten, TestWorker, ODD_RELAUNCHED, FrontPicks(4)) == Halted(ODD_DONE)
  {
    OddSecondDrain();
    OddAllDone();
    StopsWhenAllDone(AsWritten, TestWorker, ODD_RELAUNCHED, FrontPicks(4), ODD_DONE);
  }

  /**
   The loop does stop for the second list: one dispatch, a drain that lists
   the four doubled paths, their dispatch, and a drain of their replies.
   */
  lemma OddHalts()
    ensures Run(AsWritten, TestWorker, Init(ODD_SEEDS), [[], FrontPicks(4), FrontPicks(4)]) == Halted(ODD_DONE)
  {
    OddDispatch();
    OddSecondPass();
    OddLastPass();
    ThreePasses(AsWritten, TestWorker, Init(ODD_SEEDS), ODD_LAUNCHED, ODD_RELAUNCHED, ODD_DONE, FrontPicks(4), FrontPicks(4));
  }

  // ---------------------------------------------------------------------------
  // `test_no_dups`, first list: "a", "bb", "ccc", "dddd"
  // ---------------------------------------------------------------------------

  const MIXED_LAUNCHED := State([At("a", IN_FLIGHT), At("bb", IN_FLIGHT), At("ccc", IN_FLIGHT), At("dddd", IN_FLIGHT)],
                                [Reply(Seed("a"), [Seed("aa")]), Reply(Seed("bb"), []),
                                 Reply(Seed("ccc"), [Seed("cccc")]), Reply(Seed("dddd"), [])])
  const MIXED_1 := State([At("a", DONE), At("bb", IN_FLIGHT), At("ccc", IN_FLIGHT), At("dddd", IN_FLIGHT),
                          Seed("aa")],
                         MIXED_LAUNCHED.flight[1..])
  const MIXED_2 := State([At("a", DONE), At("bb", DONE), At("ccc", IN_FLIGHT), At("dddd", IN_FLIGHT),
                          Seed("aa")],
                         MIXED_LAUNCHED.flight[2..])
  const MIXED_3 := State([At("a", DONE), At("bb", DONE), At("ccc", DONE), At("dddd", IN_FLIGHT),
                          Seed("aa"), Seed("cccc")],
                         MIXED_LAUNCHED.flight[3..])
  const MIXED_4 := State([At("a", DONE), At("bb", DONE), At("ccc", DONE), At("dddd", DONE),
                          Seed("aa"), Seed("cccc")],
                         [])
  /** The paths the first drain of the first list adds. */
  const MIXED_NEXT := [Seed("aa"), Seed("cccc")]
  const MIXED_RELAUNCHED := State([At("a", DONE), At("bb", DONE), At("ccc", DONE), At("dddd", DONE),
                                   At("aa", IN_FLIGHT), At("cccc", IN_FLIGHT)],
                                  [Reply(Seed("aa"), []), Reply(Seed("cccc"), [])])
  const MIXED_5 := State([At("a", DONE), At("bb", DONE), At("ccc", DONE), At("dddd", DONE),
                          At("aa", DONE), At("cccc", IN_FLIGHT)],
                         MIXED_RELAUNCHED.flight[1..])
  const MIXED_DONE := State([At("a", DONE), At("bb", DONE), At("ccc", DONE), At("dddd", DONE),
                             At("aa", DONE), At("cccc", DONE)],
                            [])

  lemma MixedReplies()
    ensures Replies(TestWorker, MIXED_SEEDS) == MIXED_LAUNCHED.flight
  {
    TestOdd("a");
    TestEven("bb");
    TestOdd("ccc");
    TestEven("dddd");
    assert Repeat('a', 2) == "aa" && Repeat('c', 4) == "cccc";
    RepliesOf(TestWorker, MIXED_SEEDS, MIXED_LAUNCHED.flight);
  }

  lemma MixedDispatch()
    ensures Iterate(AsWritten, TestWorker, Init(MIXED_SEEDS), []) == Running(MIXED_LAUNCHED)
  {
    StartedAs(MIXED_SEEDS, MIXED_LAUNCHED.tasks);
    MixedReplies();
    FirstPass(AsWritten, TestWorker, MIXED_SEEDS, MIXED_LAUNCHED);
  }

  lemma MixedDeliver0()
    ensures FrontStep(AsWritten, MIXED_LAUNCHED, MIXED_1)
  {
    NotListed(MIXED_LAUNCHED.tasks, "aa");
    DeliverOneNew(MIXED_LAUNCHED);
    MarkedAs(MIXED_LAUNCHED.tasks, "a", MIXED_1.tasks[..4]);
    assert MIXED_1.tasks == MIXED_1.tasks[..4] + [Seed("aa")];
  }

  lemma MixedDeliver1()
    ensures FrontStep(AsWritten, MIXED_1, MIXED_2)
  {
    DeliverLeaf(MIXED_1);
    MarkedAs(MIXED_1.tasks, "bb", MIXED_2.tasks);
  }

  lemma MixedDeliver2()
    ensures FrontStep(AsWritten, MIXED_2, MIXED_3)
  {
    NotListed(MIXED_2.tasks, "cccc");
    DeliverOneNew(MIXED_2);
    MarkedAs(MIXED_2.tasks, "ccc", MIXED_3.tasks[..5]);
    assert MIXED_3.tasks == MIXED_3.tasks[..5] + [Seed("cccc")];
  }

  lemma MixedDeliver3()
    ensures FrontStep(AsWritten, MIXED_3, MIXED_4)
  {
    DeliverLeaf(MIXED_3);
    MarkedAs(MIXED_3.tasks, "dddd", MIXED_4.tasks);
  }

  lemma MixedDrainFrom2()
    ensures FrontDrain(AsWritten, MIXED_2, 2, MIXED_4)
  {
    MixedDeliver2();
    MixedDeliver3();
    FrontNone(AsWritten, MIXED_4);
    FrontFirst(AsWritten, MIXED_3, MIXED_4, 0, MIXED_4);
    FrontFirst(AsWritten, MIXED_2, MIXED_3, 1, MIXED_4);
  }

  lemma MixedFirstDrain()
    ensures FrontDrain(AsWritten, MIXED_LAUNCHED, 4, MIXED_4)
  {
    MixedDeliver0();
    MixedDeliver1();
    MixedDrainFrom2();
    FrontFirst(AsWritten, MIXED_1, MIXED_2, 2, MIXED_4);
    FrontFirst(AsWritten, MIXED_LAUNCHED, MIXED_1, 3, MIXED_4);
  }

  lemma MixedSpawned()
    ensures Spawned(MIXED_4.tasks) == MIXED_NEXT
  {
    SpawnedSplit(MIXED_4.tasks, 4);
    assert MIXED_4.tasks[4..] == MIXED_NEXT;
  }

  lemma MixedNextReplies()
    ensures Replies(TestWorker, MIXED_NEXT) == MIXED_RELAUNCHED.flight
  {
    TestEven("aa");
    TestEven("cccc");
    RepliesOf(TestWorker, MIXED_NEXT, MIXED_RELAUNCHED.flight);
  }

  lemma MixedStarted()
    ensures StartAll(MIXED_4.tasks) == MIXED_RELAUNCHED.tasks
  {
    StartedAs(MIXED_4.tasks, MIXED_RELAUNCHED.tasks);
  }

  lemma MixedRelaunchFlight()
    ensures MIXED_4.flight + Replies(TestWorker, MIXED_NEXT) == MIXED_RELAUNCHED.flight
  {
    MixedNextReplies();
    assert MIXED_4.flight + MIXED_RELAUNCHED.flight == MIXED_RELAUNCHED.flight;
  }

  lemma MixedRelaunch()
    ensures HasPending(MIXED_4.tasks) && Launch(TestWorker, MIXED_4) == MIXED_RELAUNCHED
  {
    MixedStarted();
    MixedSpawned();
    MixedRelaunchFlight();
    Relaunched(TestWorker, MIXED_4, 4, MIXED_NEXT, MIXED_RELAUNCHED);
  }

  lemma MixedSecondPass()
    ensures Iterate(AsWritten, TestWorker, MIXED_LAUNCHED, FrontPicks(4)) == Running(MIXED_RELAUNCHED)
  {
    MixedFirstDrain();
    MixedRelaunch();
  }

  lemma MixedDeliver4()
    ensures FrontStep(AsWritten, MIXED_RELAUNCHED, MIXED_5)
  {
    DeliverLeaf(MIXED_RELAUNCHED);
    MarkedAs(MIXED_RELAUNCHED.tasks, "aa", MIXED_5.tasks);
  }

  lemma MixedDeliver5()
    ensures FrontStep(AsWritten, MIXED_5, MIXED_DONE)
  {
    DeliverLeaf(MIXED_5);
    MarkedAs(MIXED_5.tasks, "cccc", MIXED_DONE.tasks);
  }

  lemma MixedSecondDrain()
    ensures FrontDrain(AsWritten, MIXED_RELAUNCHED, 2, MIXED_DONE)
  {
    MixedDeliver4();
    MixedDeliver5();
    FrontNone(AsWritten, MIXED_DONE);
    FrontFirst(AsWritten, MIXED_5, MIXED_DONE, 0, MIXED_DONE);
    FrontFirst(AsWritten, MIXED_RELAUNCHED, MIXED_5, 1, MIXED_DONE);
  }

  lemma MixedAllDone()
    ensures forall i :: 0 <= i < |MIXED_DONE.tasks| ==> MIXED_DONE.tasks[i].status == DONE
  {
  }

  lemma MixedLastPass()
    ensures Iterate(AsWritten, TestWorker, MIXED_RELAUNCHED, FrontPicks(2)) == Halted(MIXED_DONE)
  {
    MixedSecondDrain();
    MixedAllDone();
    StopsWhenAllDone(AsWritten, TestWorker, MIXED_RELAUNCHED, FrontPicks(2), MIXED_DONE);
  }

  /**
   The loop does stop for the first list: one dispatch, a drain that lists
   "aa" and "cccc", their dispatch, and a drain of their two replies.
   */
  lemma MixedHalts()
    ensures Run(AsWritten, TestWorker, Init(MIXED_SEEDS), [[], FrontPicks(4), FrontPicks(2)]) == Halted(MIXED_DONE)
  {
    MixedDispatch();
    MixedSecondPass();
    MixedLastPass();
    ThreePasses(AsWritten, TestWorker, Init(MIXED_SEEDS), MIXED_LAUNCHED, MIXED_RELAUNCHED, MIXED_DONE, FrontPicks(4), FrontPicks(2));
  }

  // ---------------------------------------------------------------------------
  // A reply that lists one path twice
  // ---------------------------------------------------------------------------

  /** A worker whose reply for "x" lists "y" twice, and whose other replies list nothing. */
  function TwiceWorker(t: Task): seq<Task>
  {
    if t.subDomain == "x" then [Seed("y"), Seed("y")] else []
  }

  lemma TwiceReportsTwice()
    ensures !DistinctCandidates(TwiceWorker(Seed("x")))
    ensures !ReportsDistinct(TwiceWorker) && !KeepsDistinct(AsWritten, TwiceWorker)
  {
    assert TwiceWorker(Seed("x"))[0].subDomain == TwiceWorker(Seed("x"))[1].subDomain;
  }

  const TWICE_SEEDS := [Seed("x")]
  const TWICE_LAUNCHED := State([At("x", IN_FLIGHT)], [Reply(Seed("x"), [Seed("y"), Seed("y")])])

  lemma TwiceDispatch(rule: MergeRule)
    ensures Iterate(rule, TwiceWorker, Init(TWICE_SEEDS), []) == Running(TWICE_LAUNCHED)
  {
    StartedAs(TWICE_SEEDS, TWICE_LAUNCHED.tasks);
    RepliesOf(TwiceWorker, TWICE_SEEDS, TWICE_LAUNCHED.flight);
    FirstPass(rule, TwiceWorker, TWICE_SEEDS, TWICE_LAUNCHED);
  }

  // The source's merge lists "y" twice; the reply for one "y" then marks both done.

  const TWICE_LISTED := State([At("x", DONE), Seed("y"), Seed("y")], [])
  const TWICE_NEXT := [Seed("y"), Seed("y")]
  const TWICE_RELAUNCHED := State([At("x", DONE), At("y", IN_FLIGHT), At("y", IN_FLIGHT)],
                                  [Reply(Seed("y"), []), Reply(Seed("y"), [])])
  const TWICE_HALTED := State([At("x", DONE), At("y", DONE), At("y", DONE)], [Reply(Seed("y"), [])])

  lemma TwiceMerged()
    ensures FrontStep(AsWritten, TWICE_LAUNCHED, TWICE_LISTED)
  {
    var s := TWICE_LAUNCHED;
    var found := s.flight[0].found;
    NotListed(s.tasks, "y");
    assert found[1..][1..] == [];
    assert Fresh(s.tasks, found) == found;
    MarkedAs(s.tasks, "x", TWICE_LISTED.tasks[..1]);
    assert RemoveAt(s.flight, 0) == [];
    assert TWICE_LISTED.tasks == TWICE_LISTED.tasks[..1] + found;
  }

  lemma TwiceStarted()
    ensures StartAll(TWICE_LISTED.tasks) == TWICE_RELAUNCHED.tasks
  {
    StartedAs(TWICE_LISTED.tasks, TWICE_RELAUNCHED.tasks);
  }

  lemma TwiceRelaunchFlight()
    ensures TWICE_LISTED.flight + Replies(TwiceWorker, TWICE_NEXT) == TWICE_RELAUNCHED.flight
  {
    RepliesOf(TwiceWorker, TWICE_NEXT, TWICE_RELAUNCHED.flight);
    assert TWICE_LISTED.flight + TWICE_RELAUNCHED.flight == TWICE_RELAUNCHED.flight;
  }

  lemma TwiceRelaunch()
    ensures HasPending(TWICE_LISTED.tasks) && Launch(TwiceWorker, TWICE_LISTED) == TWICE_RELAUNCHED
  {
    TwiceStarted();
    SpawnedSplit(TWICE_LISTED.tasks, 1);
    assert TWICE_LISTED.tasks[1..] == TWICE_NEXT;
    TwiceRelaunchFlight();
    Relaunched(TwiceWorker, TWICE_LISTED, 1, TWICE_NEXT, TWICE_RELAUNCHED);
  }

  lemma TwiceFirstDrain()
    ensures FrontDrain(AsWritten, TWICE_LAUNCHED, 1, TWICE_LISTED)
  {
    TwiceMerged();
    FrontNone(AsWritten, TWICE_LISTED);
    FrontFirst(AsWritten, TWICE_LAUNCHED, TWICE_LISTED, 0, TWICE_LISTED);
  }

  lemma TwiceSecondPass()
    ensures Iterate(AsWritten, TwiceWorker, TWICE_LAUNCHED, FrontPicks(1)) == Running(TWICE_RELAUNCHED)
  {
    TwiceFirstDrain();
    TwiceRelaunch();
  }

  lemma TwiceMarkedBoth()
    ensures FrontStep(AsWritten, TWICE_RELAUNCHED, TWICE_HALTED)
  {
    DeliverLeaf(TWICE_RELAUNCHED);
    MarkedAs(TWICE_RELAUNCHED.tasks, "y", TWICE_HALTED.tasks);
  }

  lemma TwiceHaltedShape()
    ensures forall i :: 0 <= i < |TWICE_HALTED.tasks| ==> TWICE_HALTED.tasks[i].status == DONE
    ensures AllDone(TWICE_HALTED.tasks) && |TWICE_HALTED.flight| == 1
    ensures !DistinctKeys(TWICE_HALTED.tasks)
  {
    assert TWICE_HALTED.tasks[1].subDomain == TWICE_HALTED.tasks[2].subDomain;
  }

  lemma TwiceLastPass()
    ensures Iterate(AsWritten, TwiceWorker, TWICE_RELAUNCHED, FrontPicks(1)) == Halted(TWICE_HALTED)
  {
    TwiceMarkedBoth();
    FrontNone(AsWritten, TWICE_HALTED);
    FrontFirst(AsWritten, TWICE_RELAUNCHED, TWICE_HALTED, 0, TWICE_HALTED);
    TwiceHaltedShape();
    StopsWhenAllDone(AsWritten, TwiceWorker, TWICE_RELAUNCHED, FrontPicks(1), TWICE_HALTED);
  }

  /**
   The source's loop stops while a reply is still in flight: the first "y"
   reply marks both copies of "y" done, so every task is done although the
   second "y" worker has not been drained.
   */
  lemma SourceHaltsInFlight()
    ensures var r := Run(AsWritten, TwiceWorker, Init(TWICE_SEEDS), [[], FrontPicks(1), FrontPicks(1)]);
            && r == Halted(TWICE_HALTED)
            && AllDone(r.state.tasks) && |r.state.flight| == 1
            && !DistinctKeys(r.state.tasks)
  {
    TwiceDispatch(AsWritten);
    TwiceSecondPass();
    TwiceLastPass();
    ThreePasses(AsWritten, TwiceWorker, Init(TWICE_SEEDS), TWICE_LAUNCHED, TWICE_RELAUNCHED, TWICE_HALTED, FrontPicks(1), FrontPicks(1));
    TwiceHaltedShape();
  }

  // The corrected merge lists "y" once; its one reply ends the run.

  const ONCE_LISTED := State([At("x", DONE), Seed("y")], [])
  const ONCE_NEXT := [Seed("y")]
  const ONCE_RELAUNCHED := State([At("x", DONE), At("y", IN_FLIGHT)], [Reply(Seed("y"), [])])
  const ONCE_HALTED := State([At("x", DONE), At("y", DONE)], [])

  lemma OnceMerged()
    ensures FrontStep(Corrected, TWICE_LAUNCHED, ONCE_LISTED)
  {
    var s := TWICE_LAUNCHED;
    var found := s.flight[0].found;
    var m := MarkDone(s.tasks, "x");
    MarkedAs(s.tasks, "x", ONCE_LISTED.tasks[..1]);
    NotListed(m, "y");
    assert found[1..][1..] == [];
    assert Absorb(m, found) == Absorb(m + [found[0]], found[1..]);
    assert (m + [found[0]])[|m|] == found[0] && found[1..][0] == found[0];
    assert found[0].subDomain in Keys(m + [found[0]]);
    assert Absorb(m + [found[0]], found[1..]) == Absorb(m + [found[0]], []);
    assert RemoveAt(s.flight, 0) == [];
  }

  lemma OnceStarted()
    ensures StartAll(ONCE_LISTED.tasks) == ONCE_RELAUNCHED.tasks
  {
    StartedAs(ONCE_LISTED.tasks, ONCE_RELAUNCHED.tasks);
  }

  lemma OnceRelaunchFlight()
    ensures ONCE_LISTED.flight + Replies(TwiceWorker, ONCE_NEXT) == ONCE_RELAUNCHED.flight
  {
    RepliesOf(TwiceWorker, ONCE_NEXT, ONCE_RELAUNCHED.flight);
    assert ONCE_LISTED.flight + ONCE_RELAUNCHED.flight == ONCE_RELAUNCHED.flight;
  }

  lemma OnceRelaunch()
    ensures HasPending(ONCE_LISTED.tasks) && Launch(TwiceWorker, ONCE_LISTED) == ONCE_RELAUNCHED
  {
    OnceStarted();
    SpawnedSplit(ONCE_LISTED.tasks, 1);
    assert ONCE_LISTED.tasks[1..] == ONCE_NEXT;
    OnceRelaunchFlight();
    Relaunched(TwiceWorker, ONCE_LISTED, 1, ONCE_NEXT, ONCE_RELAUNCHED);
  }

  lemma OnceFirstDrain()
    ensures FrontDrain(Corrected, TWICE_LAUNCHED, 1, ONCE_LISTED)
  {
    OnceMerged();
    FrontNone(Corrected, ONCE_LISTED);
    FrontFirst(Corrected, TWICE_LAUNCHED, ONCE_LISTED, 0, ONCE_LISTED);
  }

  lemma OnceSecondPass()
    ensures Iterate(Corrected, TwiceWorker, TWICE_LAUNCHED, FrontPicks(1)) == Running(ONCE_RELAUNCHED)
  {
    OnceFirstDrain();
    OnceRelaunch();
  }

  lemma OnceMarked()
    ensures FrontStep(Corrected, ONCE_RELAUNCHED, ONCE_HALTED)
  {
    var s := ONCE_RELAUNCHED;
    MarkedAs(s.tasks, "y", ONCE_HALTED.tasks);
    assert Absorb(ONCE_HALTED.tasks, []) == ONCE_HALTED.tasks;
    assert RemoveAt(s.flight, 0) == [];
  }

  lemma OnceHaltedShape()
    ensures forall i :: 0 <= i < |ONCE_HALTED.tasks| ==> ONCE_HALTED.tasks[i].status == DONE
    ensures AllDone(ONCE_HALTED.tasks) && ONCE_HALTED.flight == []
    ensures DistinctKeys(ONCE_HALTED.tasks)
  {
  }

  lemma OnceLastPass()
    ensures Iterate(Corrected, TwiceWorker, ONCE_RELAUNCHED, FrontPicks(1)) == Halted(ONCE_HALTED)
  {
    OnceMarked();
    FrontNone(Corrected, ONCE_HALTED);
    FrontFirst(Corrected, ONCE_RELAUNCHED, ONCE_HALTED, 0, ONCE_HALTED);
    OnceHaltedShape();
    StopsWhenAllDone(Corrected, TwiceWorker, ONCE_RELAUNCHED, FrontPicks(1), ONCE_HALTED);
  }

  /** With the corrected merge the same schedule stops with nothing in flight and "y" listed once. */
  lemma CorrectedHaltsDrained()
    ensures var r := Run(Corrected, TwiceWorker, Init(TWICE_SEEDS), [[], FrontPicks(1), FrontPicks(1)]);
            && r == Halted(ONCE_HALTED)
            && AllDone(r.state.tasks) && r.state.flight == []
            && DistinctKeys(r.state.tasks)
  {
    TwiceDispatch(Corrected);
    OnceSecondPass();
    OnceLastPass();
    ThreePasses(Corrected, TwiceWorker, Init(TWICE_SEEDS), TWICE_LAUNCHED, ONCE_RELAUNCHED, ONCE_HALTED, FrontPicks(1), FrontPicks(1));
    OnceHaltedShape();
  }

  // ---------------------------------------------------------------------------
  // Seeds that list one path twice
  // ---------------------------------------------------------------------------

  // Both merges mark every task with the completed path done, so the first
  // reply for "y" ends the run while the second is still in flight.

  const TWIN_SEEDS := [Seed("y"), Seed("y")]
  const TWIN_LAUNCHED := State([At("y", IN_FLIGHT), At("y", IN_FLIGHT)],
                               [Reply(Seed("y"), []), Reply(Seed("y"), [])])
  const TWIN_HALTED := State([At("y", DONE), At("y", DONE)], [Reply(Seed("y"), [])])

  lemma TwinDispatch()
    ensures Iterate(Corrected, TwiceWorker, Init(TWIN_SEEDS), []) == Running(TWIN_LAUNCHED)
  {
    StartedAs(TWIN_SEEDS, TWIN_LAUNCHED.tasks);
    RepliesOf(TwiceWorker, TWIN_SEEDS, TWIN_LAUNCHED.flight);
    FirstPass(Corrected, TwiceWorker, TWIN_SEEDS, TWIN_LAUNCHED);
  }

  lemma TwinMarked()
    ensures FrontStep(Corrected, TWIN_LAUNCHED, TWIN_HALTED)
  {
    var s := TWIN_LAUNCHED;
    MarkedAs(s.tasks, "y", TWIN_HALTED.tasks);
    assert Absorb(TWIN_HALTED.tasks, []) == TWIN_HALTED.tasks;
    assert RemoveAt(s.flight, 0) == TWIN_HALTED.flight;
  }

  lemma TwinHaltedShape()
    ensures forall i :: 0 <= i < |TWIN_HALTED.tasks| ==> TWIN_HALTED.tasks[i].status == DONE
    ensures AllDone(TWIN_HALTED.tasks) && |TWIN_HALTED.flight| == 1
  {
  }

  lemma TwinLastPass()
    ensures Iterate(Corrected, TwiceWorker, TWIN_LAUNCHED, FrontPicks(1)) == Halted(TWIN_HALTED)
  {
    TwinMarked();
    FrontNone(Corrected, TWIN_HALTED);
    FrontFirst(Corrected, TWIN_LAUNCHED, TWIN_HALTED, 0, TWIN_HALTED);
    TwinHaltedShape();
    StopsWhenAllDone(Corrected, TwiceWorker, TWIN_LAUNCHED, FrontPicks(1), TWIN_HALTED);
  }

  /**
   Seeds with one path twice fall outside `SeedsOk`, and even the corrected
   merge then stops with a reply in flight: the seeds' workers report
   nothing, and the first reply for "y" marks both seeds done.
   */
  lemma TwinSeedsHaltInFlight()
    ensures !SeedsOk(TWIN_SEEDS)
    ensures var r := Run(Corrected, TwiceWorker, Init(TWIN_SEEDS), [[], FrontPicks(1)]);
            && r == Halted(TWIN_HALTED)
            && AllDone(r.state.tasks) && |r.state.flight| == 1
  {
    assert TWIN_SEEDS[0].subDomain == TWIN_SEEDS[1].subDomain;
    TwinDispatch();
    TwinLastPass();
    TwoPasses(Corrected, TwiceWorker, Init(TWIN_SEEDS), TWIN_LAUNCHED, TWIN_HALTED, FrontPicks(1));
    TwinHaltedShape();
  }
}
