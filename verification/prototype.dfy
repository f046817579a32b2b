/**
 The prototype scheduler of the binary's entry point: three lists of
 integers (tasks to start, tasks awaiting a reply, completed tasks) and a
 worker that answers task `i` with the pair `(i, i + 1)`. Each loop pass
 reads at most one reply, then starts the last task of the list or, when
 nothing is left to start and nothing is awaited, stops.

 As in the scheduler model, the channel is an explicit list of replies that
 have been sent or will be; each pass either reads none (`None`: nothing has
 arrived yet) or the one at a chosen position.
 */
module Prototype {
  import opened Optional
  import opened Seqs

  /** A worker's answer: the task it completed and the follow-up it proposes. */
  datatype Answer = Answer(complete: nat, todo: nat)

  datatype Proto = Proto(tasks: seq<nat>, awaiting: seq<nat>, completed: seq<nat>, flight: seq<Answer>)

  datatype Loop = Running(p: Proto) | Halted(p: Proto) | Stuck

  const SEEDS: seq<nat> := [1, 2, 3, 4]

  /** The starting state: four tasks, nothing started. */
  function Init(): (p: Proto)
    ensures p.awaiting == [] && p.completed == [] && p.flight == []
    ensures |p.tasks| == 4 && forall i :: 0 <= i < 4 ==> p.tasks[i] == i + 1
  {
    Proto(SEEDS, [], [], [])
  }

  /** The worker for task `i`: it completes `i` and proposes `i + 1`. */
  function Work(i: nat): (a: Answer)
    ensures a.complete == i && a.todo > i
    ensures a.todo % 2 == 0 <==> i % 2 == 1
  {
    Answer(i, i + 1)
  }

  /**
   The worker for `i` answers `(i, i + 1)`, and reading that answer appends
   the follow-up `i + 1` to the tasks exactly when `i` is odd and records
   `i` as completed.
   */
  lemma FollowUpIffOdd(p: Proto, i: nat)
    ensures Work(i) == Answer(i, i + 1)
    ensures Receive(p, Work(i)).tasks == (if i % 2 == 1 then p.tasks + [i + 1] else p.tasks)
    ensures Receive(p, Work(i)).completed == p.completed + [i]
  {
  }

  /** `retain(|x| x != c)`: every copy of `c` goes, the rest keep their order. */
  function RemoveAll(xs: seq<nat>, c: nat): (r: seq<nat>)
    ensures c !in r
    ensures forall y :: y != c ==> multiset(r)[y] == multiset(xs)[y]
    ensures |r| == |xs| - multiset(xs)[c]
  {
    if |xs| == 0 then []
    else
      assert xs == [xs[0]] + xs[1..];
      if xs[0] == c then RemoveAll(xs[1..], c) else [xs[0]] + RemoveAll(xs[1..], c)
  }

  /** Removal works element by element: it distributes over concatenation. */
  lemma {:induction false} RemoveAllAppend(xs: seq<nat>, ys: seq<nat>, c: nat)
    ensures RemoveAll(xs + ys, c) == RemoveAll(xs, c) + RemoveAll(ys, c)
    decreases |xs|
  {
    if |xs| == 0 {
      assert xs + ys == ys;
    } else {
      assert (xs + ys)[0] == xs[0];
      assert (xs + ys)[1..] == xs[1..] + ys;
      RemoveAllAppend(xs[1..], ys, c);
    }
  }

  /** Removing a value that is absent changes nothing. */
  lemma {:induction false} RemoveAllAbsent(xs: seq<nat>, c: nat)
    requires c !in xs
    ensures RemoveAll(xs, c) == xs
    decreases |xs|
  {
    if |xs| > 0 {
      RemoveAllAbsent(xs[1..], c);
    }
  }

  /** Handling one received answer. */
  function Receive(p: Proto, a: Answer): (r: Proto)
    ensures r.completed == p.completed + [a.complete]
    ensures a.complete !in r.awaiting
    ensures forall y :: y != a.complete ==> multiset(r.awaiting)[y] == multiset(p.awaiting)[y]
    ensures a.todo % 2 == 0 ==> r.tasks == p.tasks + [a.todo]
    ensures a.todo % 2 != 0 ==> r.tasks == p.tasks
    ensures r.flight == p.flight
  {
    Proto(if a.todo % 2 == 0 then p.tasks + [a.todo] else p.tasks,
          RemoveAll(p.awaiting, a.complete),
          p.completed + [a.complete],
          p.flight)
  }

  /** Starting the last task of the list: it moves to the awaited list and its worker's answer is on its way. */
  function Dispatch(p: Proto): (r: Proto)
    requires |p.tasks| > 0
    ensures |r.tasks| + |r.awaiting| == |p.tasks| + |p.awaiting|
    ensures r.tasks + [p.tasks[|p.tasks| - 1]] == p.tasks
    ensures r.awaiting == p.awaiting + [p.tasks[|p.tasks| - 1]]
    ensures r.flight == p.flight + [Work(p.tasks[|p.tasks| - 1])]
    ensures r.completed == p.completed
  {
    var t := p.tasks[|p.tasks| - 1];
    Proto(p.tasks[..|p.tasks| - 1], p.awaiting + [t], p.completed, p.flight + [Work(t)])
  }

  /**
   One pass: read nothing or the answer at `pick`, then start a task if
   one is left, or stop if nothing is awaited.
   */
  function Step(p: Proto, pick: Option<nat>): (r: Loop)
    ensures r.Stuck? <==> pick.Some? && pick.value >= |p.flight|
    ensures r.Halted? ==> r.p.tasks == [] && r.p.awaiting == []
  {
    if pick.Some? && pick.value >= |p.flight| then Stuck
    else
      var q := if pick.Some? then Receive(p.(flight := RemoveAt(p.flight, pick.value)), p.flight[pick.value]) else p;
      if |q.tasks| != 0 then Running(Dispatch(q))
      else if |q.awaiting| == 0 then Halted(q)
      else Running(q)
  }

  function Run(p: Proto, schedule: seq<Option<nat>>): (r: Loop)
    ensures |schedule| == 0 ==> r == Running(p)
    ensures r.Halted? ==> r.p.tasks == [] && r.p.awaiting == []
    decreases |schedule|
  {
    if |schedule| == 0 then Running(p)
    else
      match Step(p, schedule[0])
      case Running(q) => Run(q, schedule[1..])
      case other => other
  }

  /** The loop only stops with nothing left to start and nothing awaited. */
  lemma StepHaltsOnlyWhenIdle(p: Proto, pick: Option<nat>)
    ensures Step(p, pick).Halted? ==> Step(p, pick).p.tasks == [] && Step(p, pick).p.awaiting == []
    ensures Step(p, pick).Halted? <==>
              && (pick.None? || pick.value < |p.flight|)
              && var q := if pick.Some? then Receive(p.(flight := RemoveAt(p.flight, pick.value)), p.flight[pick.value]) else p;
                 |q.tasks| == 0 && |q.awaiting| == 0
  {
  }

  /** A pass records the answer it reads, and only that, as completed. */
  lemma StepRecordsRead(p: Proto, pick: Option<nat>)
    requires !Step(p, pick).Stuck?
    ensures pick.None? ==> Step(p, pick).p.completed == p.completed
    ensures pick.Some? ==> Step(p, pick).p.completed == p.completed + [p.flight[pick.value].complete]
  {
  }

  /** Over a run the completed list only grows, by at most one entry per pass. */
  lemma {:induction false} RunCompletedGrows(p: Proto, schedule: seq<Option<nat>>)
    requires !Run(p, schedule).Stuck?
    ensures |Run(p, schedule).p.completed| <= |p.completed| + |schedule|
    ensures p.completed <= Run(p, schedule).p.completed
    decreases |schedule|
  {
    if |schedule| > 0 {
      StepRecordsRead(p, schedule[0]);
      var r := Step(p, schedule[0]);
      if r.Running? {
        RunCompletedGrows(r.p, schedule[1..]);
        assert p.completed <= r.p.completed;
      }
    }
  }

  // ---------------------------------------------------------------------------
  // What every run keeps
  // ---------------------------------------------------------------------------

  function Completes(flight: seq<Answer>): (cs: seq<nat>)
    ensures |cs| == |flight|
    ensures forall k :: 0 <= k < |flight| ==> cs[k] == flight[k].complete
  {
    seq(|flight|, k requires 0 <= k < |flight| => flight[k].complete)
  }

  /**
   Every answer in flight is a worker's answer; every awaited copy of a task
   has its own answer in flight; and an answer in flight is for a task that
   is awaited or already completed.
   */
  predicate Inv(p: Proto)
  {
    && (forall k :: 0 <= k < |p.flight| ==> p.flight[k] == Work(p.flight[k].complete))
    && multiset(p.awaiting) <= multiset(Completes(p.flight))
    && (forall k :: 0 <= k < |p.flight| ==> p.flight[k].complete in p.awaiting || p.flight[k].complete in p.completed)
  }

  lemma InitInv()
    ensures Inv(Init())
  {
  }

  lemma CompletesRemoveAt(flight: seq<Answer>, i: nat)
    requires i < |flight|
    ensures multiset(Completes(RemoveAt(flight, i))) == multiset(Completes(flight)) - multiset{flight[i].complete}
  {
    var cs := Completes(flight);
    assert cs == cs[..i] + [cs[i]] + cs[i + 1..];
    assert Completes(RemoveAt(flight, i)) == cs[..i] + cs[i + 1..];
  }

  lemma ReceiveInv(p: Proto, i: nat)
    requires Inv(p) && i < |p.flight|
    ensures Inv(Receive(p.(flight := RemoveAt(p.flight, i)), p.flight[i]))
  {
    var a := p.flight[i];
    var f := RemoveAt(p.flight, i);
    var r := Receive(p.(flight := f), a);
    CompletesRemoveAt(p.flight, i);
    forall y
      ensures multiset(r.awaiting)[y] <= multiset(Completes(f))[y]
    {
      if y != a.complete {
        assert multiset(r.awaiting)[y] == multiset(p.awaiting)[y];
      }
    }
    assert multiset(r.awaiting) <= multiset(Completes(f));
    forall k | 0 <= k < |f|
      ensures f[k] == Work(f[k].complete)
      ensures f[k].complete in r.awaiting || f[k].complete in r.completed
    {
      var k0 := if k < i then k else k + 1;
      assert f[k] == p.flight[k0];
      var y := f[k].complete;
      if y != a.complete && y in p.awaiting {
        assert multiset(r.awaiting)[y] == multiset(p.awaiting)[y];
      }
    }
  }

  lemma DispatchInv(p: Proto)
    requires Inv(p) && |p.tasks| > 0
    ensures Inv(Dispatch(p))
  {
    var t := p.tasks[|p.tasks| - 1];
    var r := Dispatch(p);
    assert Completes(r.flight) == Completes(p.flight) + [t];
  }

  lemma StepInv(p: Proto, pick: Option<nat>)
    requires Inv(p)
    ensures !Step(p, pick).Stuck? ==> Inv(Step(p, pick).p)
  {
    if !(pick.Some? && pick.value >= |p.flight|) {
      var q := if pick.Some? then Receive(p.(flight := RemoveAt(p.flight, pick.value)), p.flight[pick.value]) else p;
      if pick.Some? {
        ReceiveInv(p, pick.value);
      }
      if |q.tasks| != 0 {
        DispatchInv(q);
      }
    }
  }

  lemma {:induction false} RunInv(p: Proto, schedule: seq<Option<nat>>)
    requires Inv(p)
    ensures !Run(p, schedule).Stuck? ==> Inv(Run(p, schedule).p)
    ensures Run(p, schedule).Halted? ==> Run(p, schedule).p.tasks == [] && Run(p, schedule).p.awaiting == []
    decreases |schedule|
  {
    if |schedule| > 0 {
      StepInv(p, schedule[0]);
      StepHaltsOnlyWhenIdle(p, schedule[0]);
      if Step(p, schedule[0]).Running? {
        RunInv(Step(p, schedule[0]).p, schedule[1..]);
      }
    }
  }

  /**
   When the prototype stops, nothing is left to start or awaited, and any
   answer still unread is for a task that is already listed as completed.
   */
  lemma HaltedLeavesOnlyRepeats(schedule: seq<Option<nat>>, p: Proto)
    requires Run(Init(), schedule) == Halted(p)
    ensures p.tasks == [] && p.awaiting == []
    ensures forall k :: 0 <= k < |p.flight| ==> p.flight[k].complete in p.completed
  {
    InitInv();
    RunInv(Init(), schedule);
  }

  // ---------------------------------------------------------------------------
  // An answer left unread
  // ---------------------------------------------------------------------------

  /**
   Task 3 proposes 4 while the seed 4 is still awaited, so 4 is started a
   second time; the first answer for 4 removes both awaited copies, and the
   loop can stop while the second answer for 4 is still unread. Task 4 is
   then started twice and listed as completed once.
   */
  lemma UnreadAnswerAtHalt()
    ensures Run(Init(), [None, None, Some(1), Some(0), Some(1), Some(1), Some(1)])
         == Halted(Proto([], [], [3, 4, 2, 1, 2], [Answer(4, 5)]))
  {
    var sched: seq<Option<nat>> := [None, None, Some(1), Some(0), Some(1), Some(1), Some(1)];
    LastAnswersRead();
    RunHalts(P6, sched[6..], P7);
    RunContinues(P5, sched[5..], P6);
    RunContinues(P4, sched[4..], P5);
    AnswerForFour();
    RunContinues(P3, sched[3..], P4);
    AnswerForThree();
    RunContinues(P2, sched[2..], P3);
    StartTwoTasks();
    RunContinues(P1, sched[1..], P2);
    RunContinues(Init(), sched, P1);
  }

  lemma RunContinues(p: Proto, schedule: seq<Option<nat>>, q: Proto)
    requires |schedule| > 0 && Step(p, schedule[0]) == Running(q)
    ensures Run(p, schedule) == Run(q, schedule[1..])
  {
  }

  lemma RunHalts(p: Proto, schedule: seq<Option<nat>>, q: Proto)
    requires |schedule| > 0 && Step(p, schedule[0]) == Halted(q)
    ensures Run(p, schedule) == Halted(q)
  {
  }

  const P1 := Proto([1, 2, 3], [4], [], [Answer(4, 5)])
  const P2 := Proto([1, 2], [4, 3], [], [Answer(4, 5), Answer(3, 4)])
  const P3 := Proto([1, 2], [4, 4], [3], [Answer(4, 5), Answer(4, 5)])
  const P4 := Proto([1], [2], [3, 4], [Answer(4, 5), Answer(2, 3)])
  const P5 := Proto([], [1], [3, 4, 2], [Answer(4, 5), Answer(1, 2)])
  const P6 := Proto([], [2], [3, 4, 2, 1], [Answer(4, 5), Answer(2, 3)])
  const P7 := Proto([], [], [3, 4, 2, 1, 2], [Answer(4, 5)])

  /** Two passes with nothing read start 4, then 3. */
  lemma StartTwoTasks()
    ensures Step(Init(), None) == Running(P1)
    ensures Step(P1, None) == Running(P2)
  {
    StartFour();
    StartThree();
  }

  lemma StartFour()
    ensures Step(Init(), None) == Running(P1)
  {
    assert Init().tasks == [1, 2, 3, 4];
    assert [1, 2, 3, 4][..3] == [1, 2, 3];
  }

  lemma StartThree()
    ensures Step(P1, None) == Running(P2)
  {
    assert [1, 2, 3][..2] == [1, 2];
  }

  /** 3's answer proposes 4 while 4 is awaited, so 4 is started a second time. */
  lemma AnswerForThree()
    ensures Step(P2, Some(1)) == Running(P3)
  {
    assert RemoveAll([4, 3], 3) == [4];
  }

  /** The first answer for 4 clears both awaited copies. */
  lemma AnswerForFour()
    ensures Step(P3, Some(0)) == Running(P4)
  {
    assert RemoveAt(P3.flight, 0) == [Answer(4, 5)];
    assert RemoveAll([4, 4], 4) == [];
    assert [1, 2][..1] == [1];
  }

  /** The answers for 2, 1 and 2 again are read; the loop stops with one answer for 4 unread. */
  lemma LastAnswersRead()
    ensures Step(P4, Some(1)) == Running(P5)
    ensures Step(P5, Some(1)) == Running(P6)
    ensures Step(P6, Some(1)) == Halted(P7)
  {
    assert RemoveAll([2], 2) == [];
    assert RemoveAll([1], 1) == [];
  }
}
