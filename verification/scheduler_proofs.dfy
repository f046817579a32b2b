/**
 What holds of every run of the scheduler loop, whatever replies arrive
 when: the list only grows, statuses only go up, no path is listed twice,
 and when the loop stops every task is done, no reply is left undelivered,
 and the list is exactly the seeds plus what the workers reported, closed
 under reporting.
 */
module SchedulerProofs {
  import opened Tasks
  import opened Scheduler
  import opened Seqs

  /** Workers report new tasks only: every candidate is pending. */
  ghost predicate ReportsPending(w: Task -> seq<Task>)
  {
    forall t: Task, u: Task :: u in w(t) ==> u.status == PENDING
  }

  /** Every report lists each path at most once. */
  ghost predicate ReportsDistinct(w: Task -> seq<Task>)
  {
    forall t: Task :: DistinctCandidates(w(t))
  }

  /**
   The merge keeps paths distinct for this worker: the corrected merge
   always, the source's merge when no report lists a path twice.
   */
  ghost predicate KeepsDistinct(rule: MergeRule, w: Task -> seq<Task>)
  {
    rule == Corrected || ReportsDistinct(w)
  }

  /** The seeds are freshly created tasks with distinct paths. */
  predicate SeedsOk(seeds: seq<Task>)
  {
    && DistinctKeys(seeds)
    && forall i :: 0 <= i < |seeds| ==> seeds[i].status == PENDING
  }

  /** The list still begins with the seeds' targets. */
  predicate StartsWith(tasks: seq<Task>, seeds: seq<Task>)
  {
    && |seeds| <= |tasks|
    && forall i :: 0 <= i < |seeds| ==>
         tasks[i].domain == seeds[i].domain && tasks[i].subDomain == seeds[i].subDomain
  }

  /** Task `j` was reported by the worker of a task listed before it. */
  ghost predicate ReportedBefore(w: Task -> seq<Task>, tasks: seq<Task>, j: nat)
    requires j < |tasks|
  {
    exists i :: 0 <= i < j && Copy(tasks[j]) in w(Copy(tasks[i]))
  }

  /** Every task after the seeds was reported by the worker of a task listed before it. */
  ghost predicate Grounded(w: Task -> seq<Task>, seeds: seq<Task>, tasks: seq<Task>)
  {
    forall j :: |seeds| <= j < |tasks| ==> ReportedBefore(w, tasks, j)
  }

  /** `r` is the report of a listed task that is in flight. */
  ghost predicate OwnedReply(w: Task -> seq<Task>, tasks: seq<Task>, r: Reply)
  {
    exists p :: 0 <= p < |tasks| && tasks[p].status == IN_FLIGHT
                && r == Reply(Copy(tasks[p]), w(Copy(tasks[p])))
  }

  /** Every reply in flight is the report of a listed task that is in flight. */
  ghost predicate FlightMatches(w: Task -> seq<Task>, s: State)
  {
    forall k :: 0 <= k < |s.flight| ==> OwnedReply(w, s.tasks, s.flight[k])
  }

  /** No two replies in flight are for the same path. */
  predicate FlightDistinct(flight: seq<Reply>)
  {
    forall k, l :: 0 <= k < l < |flight| ==> flight[k].done.subDomain != flight[l].done.subDomain
  }

  /** Everything a done task's worker reported is listed. */
  ghost predicate DoneClosed(w: Task -> seq<Task>, tasks: seq<Task>)
  {
    forall i :: 0 <= i < |tasks| && tasks[i].status == DONE ==>
      CandidateKeys(w(Copy(tasks[i]))) <= Keys(tasks)
  }

  ghost predicate Inv(w: Task -> seq<Task>, seeds: seq<Task>, s: State)
  {
    && StartsWith(s.tasks, seeds)
    && DistinctKeys(s.tasks)
    && KnownStatuses(s.tasks)
    && Grounded(w, seeds, s.tasks)
    && FlightMatches(w, s)
    && FlightDistinct(s.flight)
    && DoneClosed(w, s.tasks)
  }

  /** The listed task a reply in flight belongs to. */
  lemma ReplyOwner(w: Task -> seq<Task>, tasks: seq<Task>, r: Reply) returns (p: nat)
    requires OwnedReply(w, tasks, r)
    ensures p < |tasks| && tasks[p].status == IN_FLIGHT
    ensures r == Reply(Copy(tasks[p]), w(Copy(tasks[p])))
  {
    p :| 0 <= p < |tasks| && tasks[p].status == IN_FLIGHT
         && r == Reply(Copy(tasks[p]), w(Copy(tasks[p])));
  }

  lemma InitInv(w: Task -> seq<Task>, seeds: seq<Task>)
    requires SeedsOk(seeds)
    ensures Inv(w, seeds, Init(seeds))
  {
  }

  // ---------------------------------------------------------------------------
  // One delivery
  // ---------------------------------------------------------------------------

  /** After a step that keeps the listed targets: the lists' copies agree on the old part. */
  predicate SameTargets(tasks: seq<Task>, tasks': seq<Task>)
  {
    && |tasks| <= |tasks'|
    && forall i :: 0 <= i < |tasks| ==> Copy(tasks'[i]) == Copy(tasks[i])
  }

  lemma GroundedStep(w: Task -> seq<Task>, seeds: seq<Task>, tasks: seq<Task>, tasks': seq<Task>, p: nat)
    requires Grounded(w, seeds, tasks)
    requires |seeds| <= |tasks| && p < |tasks|
    requires SameTargets(tasks, tasks')
    requires forall j :: |tasks| <= j < |tasks'| ==> Copy(tasks'[j]) in w(Copy(tasks[p]))
    ensures Grounded(w, seeds, tasks')
  {
    forall j | |seeds| <= j < |tasks'|
      ensures ReportedBefore(w, tasks', j)
    {
      if j < |tasks| {
        assert ReportedBefore(w, tasks, j);
        var i :| 0 <= i < j && Copy(tasks[j]) in w(Copy(tasks[i]));
        assert Copy(tasks'[j]) == Copy(tasks[j]);
        assert Copy(tasks'[i]) == Copy(tasks[i]);
      } else {
        assert Copy(tasks'[p]) == Copy(tasks[p]);
        assert 0 <= p < j && Copy(tasks'[j]) in w(Copy(tasks'[p]));
      }
    }
  }

  lemma FlightAfterDeliver(w: Task -> seq<Task>, s: State, k: nat, tasks': seq<Task>)
    requires FlightMatches(w, s) && FlightDistinct(s.flight)
    requires k < |s.flight|
    requires SameTargets(s.tasks, tasks')
    requires forall i :: 0 <= i < |s.tasks| && s.tasks[i].subDomain != s.flight[k].done.subDomain ==>
               tasks'[i].status == s.tasks[i].status
    ensures FlightMatches(w, State(tasks', RemoveAt(s.flight, k)))
    ensures FlightDistinct(RemoveAt(s.flight, k))
  {
    var flight' := RemoveAt(s.flight, k);
    var key := s.flight[k].done.subDomain;
    forall l | 0 <= l < |flight'|
      ensures OwnedReply(w, tasks', flight'[l])
    {
      var l0 := if l < k then l else l + 1;
      assert flight'[l] == s.flight[l0];
      var q := ReplyOwner(w, s.tasks, s.flight[l0]);
      assert s.tasks[q].subDomain != key by {
        if l0 < k {
          assert s.flight[l0].done.subDomain != s.flight[k].done.subDomain;
        } else {
          assert s.flight[k].done.subDomain != s.flight[l0].done.subDomain;
        }
      }
      assert Copy(tasks'[q]) == Copy(s.tasks[q]);
      assert tasks'[q].status == IN_FLIGHT;
    }
    forall a, b | 0 <= a < b < |flight'|
      ensures flight'[a].done.subDomain != flight'[b].done.subDomain
    {
      var a0 := if a < k then a else a + 1;
      var b0 := if b < k then b else b + 1;
      assert flight'[a] == s.flight[a0] && flight'[b] == s.flight[b0];
    }
  }

  lemma DoneClosedStep(w: Task -> seq<Task>, tasks: seq<Task>, tasks': seq<Task>, p: nat)
    requires DoneClosed(w, tasks)
    requires p < |tasks|
    requires SameTargets(tasks, tasks')
    requires Keys(tasks) <= Keys(tasks')
    requires CandidateKeys(w(Copy(tasks[p]))) <= Keys(tasks')
    requires forall i :: 0 <= i < |tasks'| && tasks'[i].status == DONE ==>
               i < |tasks| && (i == p || tasks[i].status == DONE)
    ensures DoneClosed(w, tasks')
  {
    forall i | 0 <= i < |tasks'| && tasks'[i].status == DONE
      ensures CandidateKeys(w(Copy(tasks'[i]))) <= Keys(tasks')
    {
      assert Copy(tasks'[i]) == Copy(tasks[i]);
    }
  }

  /** What one merge does to the list, in the terms the invariant needs. */
  lemma MergeShape(rule: MergeRule, w: Task -> seq<Task>, tasks: seq<Task>, p: nat)
    requires ReportsPending(w) && KeepsDistinct(rule, w)
    requires DistinctKeys(tasks) && KnownStatuses(tasks)
    requires p < |tasks| && tasks[p].status == IN_FLIGHT
    ensures SameTargets(tasks, MergeBy(rule, tasks, Reply(Copy(tasks[p]), w(Copy(tasks[p])))))
    ensures Grows(tasks, MergeBy(rule, tasks, Reply(Copy(tasks[p]), w(Copy(tasks[p])))))
    ensures KnownStatuses(MergeBy(rule, tasks, Reply(Copy(tasks[p]), w(Copy(tasks[p])))))
    ensures DistinctKeys(MergeBy(rule, tasks, Reply(Copy(tasks[p]), w(Copy(tasks[p])))))
    ensures Keys(tasks) <= Keys(MergeBy(rule, tasks, Reply(Copy(tasks[p]), w(Copy(tasks[p])))))
    ensures CandidateKeys(w(Copy(tasks[p]))) <= Keys(MergeBy(rule, tasks, Reply(Copy(tasks[p]), w(Copy(tasks[p])))))
    ensures forall i :: 0 <= i < |tasks| && tasks[i].subDomain != tasks[p].subDomain ==>
              MergeBy(rule, tasks, Reply(Copy(tasks[p]), w(Copy(tasks[p]))))[i].status == tasks[i].status
    ensures forall i :: 0 <= i < |MergeBy(rule, tasks, Reply(Copy(tasks[p]), w(Copy(tasks[p]))))| &&
                        MergeBy(rule, tasks, Reply(Copy(tasks[p]), w(Copy(tasks[p]))))[i].status == DONE ==>
              i < |tasks| && (i == p || tasks[i].status == DONE)
    ensures forall j :: |tasks| <= j < |MergeBy(rule, tasks, Reply(Copy(tasks[p]), w(Copy(tasks[p]))))| ==>
              Copy(MergeBy(rule, tasks, Reply(Copy(tasks[p]), w(Copy(tasks[p]))))[j]) in w(Copy(tasks[p]))
  {
    var reply := Reply(Copy(tasks[p]), w(Copy(tasks[p])));
    var key := reply.done.subDomain;
    MergeByAgrees(rule, tasks, reply);
    var m := Merge(tasks, reply);
    MergeMarksCompleted(Corrected, tasks, reply);
    MergeAppendsUnlisted(Corrected, tasks, reply);
    MergeKeepsKeysDistinct(tasks, reply);
    forall i | 0 <= i < |tasks| && tasks[i].subDomain == key
      ensures i == p
    {
    }
    forall j | |tasks| <= j < |m|
      ensures m[j].status == PENDING && Copy(m[j]) == m[j]
    {
    }
  }

  lemma DeliverInv(rule: MergeRule, w: Task -> seq<Task>, seeds: seq<Task>, s: State, k: nat)
    requires ReportsPending(w) && KeepsDistinct(rule, w)
    requires Inv(w, seeds, s)
    requires k < |s.flight|
    ensures Inv(w, seeds, Deliver(rule, s, k))
    ensures Grows(s.tasks, Deliver(rule, s, k).tasks)
  {
    var p := ReplyOwner(w, s.tasks, s.flight[k]);
    var tasks' := MergeBy(rule, s.tasks, s.flight[k]);
    assert Deliver(rule, s, k) == State(tasks', RemoveAt(s.flight, k));
    MergeShape(rule, w, s.tasks, p);
    GroundedStep(w, seeds, s.tasks, tasks', p);
    FlightAfterDeliver(w, s, k, tasks');
    DoneClosedStep(w, s.tasks, tasks', p);
  }

  lemma {:induction false} DrainInv(rule: MergeRule, w: Task -> seq<Task>, seeds: seq<Task>, s: State, picks: seq<nat>)
    requires ReportsPending(w) && KeepsDistinct(rule, w)
    requires Inv(w, seeds, s)
    requires ValidPicks(|s.flight|, picks)
    ensures Inv(w, seeds, Drain(rule, s, picks))
    ensures Grows(s.tasks, Drain(rule, s, picks).tasks)
    decreases |picks|
  {
    if |picks| > 0 {
      assert picks[0] + 0 < |s.flight|;
      var s1 := Deliver(rule, s, picks[0]);
      DeliverInv(rule, w, seeds, s, picks[0]);
      assert ValidPicks(|s1.flight|, picks[1..]) by {
        forall j | 0 <= j < |picks| - 1
          ensures picks[1..][j] + j < |s1.flight|
        {
          assert picks[1..][j] == picks[j + 1];
        }
      }
      DrainInv(rule, w, seeds, s1, picks[1..]);
    }
  }

  // ---------------------------------------------------------------------------
  // One dispatch
  // ---------------------------------------------------------------------------

  lemma {:induction false} SpawnedDistinct(tasks: seq<Task>)
    requires DistinctKeys(tasks)
    ensures DistinctCandidates(Spawned(tasks))
    decreases |tasks|
  {
    if |tasks| > 0 {
      var rest := tasks[1..];
      assert DistinctKeys(rest) by {
        assert forall i :: 0 <= i < |rest| ==> rest[i] == tasks[i + 1];
      }
      SpawnedDistinct(rest);
      if tasks[0].status == PENDING {
        var r := Spawned(tasks);
        assert r == [tasks[0]] + Spawned(rest);
        forall i | 0 < i < |r|
          ensures r[i].subDomain != tasks[0].subDomain
        {
          assert r[i] in Spawned(rest);
          assert r[i] in rest;
          var m :| 0 <= m < |rest| && rest[m] == r[i];
          assert rest[m] == tasks[m + 1];
        }
      }
    }
  }

  /** The pending task a newly started reply belongs to. */
  lemma NewReplyOwner(w: Task -> seq<Task>, tasks: seq<Task>, m: nat) returns (q: nat)
    requires m < |Spawned(tasks)|
    ensures q < |tasks| && tasks[q].status == PENDING
    ensures Replies(w, Spawned(tasks))[m] == Reply(Copy(tasks[q]), w(Copy(tasks[q])))
  {
    var c := Spawned(tasks)[m];
    assert c in Spawned(tasks);
    RepliesAt(w, Spawned(tasks), m);
    q :| 0 <= q < |tasks| && tasks[q] == c;
    assert Copy(tasks[q]) == tasks[q];
  }

  lemma FlightMatchesAfterLaunch(w: Task -> seq<Task>, s: State)
    requires FlightMatches(w, s)
    ensures FlightMatches(w, Launch(w, s))
  {
    var tasks := s.tasks;
    var tasks' := StartAll(tasks);
    var added := Replies(w, Spawned(tasks));
    var flight' := Launch(w, s).flight;
    assert flight' == s.flight + added;
    forall l | 0 <= l < |flight'|
      ensures OwnedReply(w, tasks', flight'[l])
    {
      var q;
      if l < |s.flight| {
        assert flight'[l] == s.flight[l];
        q := ReplyOwner(w, tasks, s.flight[l]);
      } else {
        assert flight'[l] == added[l - |s.flight|];
        q := NewReplyOwner(w, tasks, l - |s.flight|);
      }
      assert Copy(tasks'[q]) == Copy(tasks[q]);
      assert tasks'[q].status == IN_FLIGHT;
    }
  }

  lemma FlightDistinctAfterLaunch(w: Task -> seq<Task>, s: State)
    requires FlightMatches(w, s) && FlightDistinct(s.flight) && DistinctKeys(s.tasks)
    ensures FlightDistinct(Launch(w, s).flight)
  {
    var tasks := s.tasks;
    var added := Replies(w, Spawned(tasks));
    var flight' := Launch(w, s).flight;
    assert flight' == s.flight + added;
    SpawnedDistinct(tasks);
    forall a, b | 0 <= a < b < |flight'|
      ensures flight'[a].done.subDomain != flight'[b].done.subDomain
    {
      if b < |s.flight| {
        assert flight'[a] == s.flight[a] && flight'[b] == s.flight[b];
      } else if a >= |s.flight| {
        assert flight'[a] == added[a - |s.flight|] && flight'[b] == added[b - |s.flight|];
        RepliesAt(w, Spawned(tasks), a - |s.flight|);
        RepliesAt(w, Spawned(tasks), b - |s.flight|);
      } else {
        assert flight'[a] == s.flight[a];
        var q := ReplyOwner(w, tasks, s.flight[a]);
        assert flight'[b] == added[b - |s.flight|];
        var q' := NewReplyOwner(w, tasks, b - |s.flight|);
        assert q != q';
      }
    }
  }

  lemma LaunchInv(w: Task -> seq<Task>, seeds: seq<Task>, s: State)
    requires Inv(w, seeds, s)
    ensures Inv(w, seeds, Launch(w, s))
    ensures Grows(s.tasks, Launch(w, s).tasks)
  {
    var tasks := s.tasks;
    var tasks' := StartAll(tasks);
    assert Launch(w, s).tasks == tasks';
    assert SameTargets(tasks, tasks');
    assert Keys(tasks') == Keys(tasks) by {
      assert forall i :: 0 <= i < |tasks| ==> tasks'[i].subDomain == tasks[i].subDomain;
    }
    if |tasks| > 0 {
      GroundedStep(w, seeds, tasks, tasks', 0);
    }
    FlightMatchesAfterLaunch(w, s);
    FlightDistinctAfterLaunch(w, s);
    forall i | 0 <= i < |tasks'| && tasks'[i].status == DONE
      ensures CandidateKeys(w(Copy(tasks'[i]))) <= Keys(tasks')
    {
      assert tasks[i].status == DONE;
      assert Copy(tasks'[i]) == Copy(tasks[i]);
    }
  }

  // ---------------------------------------------------------------------------
  // Whole iterations and runs
  // ---------------------------------------------------------------------------

  lemma IterateInv(rule: MergeRule, w: Task -> seq<Task>, seeds: seq<Task>, s: State, picks: seq<nat>)
    requires ReportsPending(w) && KeepsDistinct(rule, w)
    requires Inv(w, seeds, s)
    ensures !Iterate(rule, w, s, picks).Stuck? ==>
              && Inv(w, seeds, Iterate(rule, w, s, picks).state)
              && Grows(s.tasks, Iterate(rule, w, s, picks).state.tasks)
  {
    if ValidPicks(|s.flight|, picks) {
      var d := Drain(rule, s, picks);
      DrainInv(rule, w, seeds, s, picks);
      if HasPending(d.tasks) {
        LaunchInv(w, seeds, d);
        GrowsTransitive(s.tasks, d.tasks, Launch(w, d).tasks);
        assert Iterate(rule, w, s, picks) == Running(Launch(w, d));
      } else {
        assert Iterate(rule, w, s, picks).state == d;
      }
    }
  }

  lemma GrowsTransitive(a: seq<Task>, b: seq<Task>, c: seq<Task>)
    requires Grows(a, b) && Grows(b, c)
    ensures Grows(a, c)
  {
  }

  /**
   Over any run: the invariant holds, the seeds' prefix only grows with
   statuses going up, and a stopped loop has every task done.
   */
  lemma {:induction false} RunInv(rule: MergeRule, w: Task -> seq<Task>, seeds: seq<Task>, s: State,
                                   schedule: seq<seq<nat>>)
    requires ReportsPending(w) && KeepsDistinct(rule, w)
    requires Inv(w, seeds, s)
    ensures !Run(rule, w, s, schedule).Stuck? ==>
              && Inv(w, seeds, Run(rule, w, s, schedule).state)
              && Grows(s.tasks, Run(rule, w, s, schedule).state.tasks)
    decreases |schedule|
  {
    if |schedule| > 0 {
      IterateInv(rule, w, seeds, s, schedule[0]);
      var it := Iterate(rule, w, s, schedule[0]);
      if it.Running? {
        RunInv(rule, w, seeds, it.state, schedule[1..]);
        if !Run(rule, w, it.state, schedule[1..]).Stuck? {
          GrowsTransitive(s.tasks, it.state.tasks, Run(rule, w, it.state, schedule[1..]).state.tasks);
        }
      }
    }
  }

  /** A reply still in flight belongs to a task that is not done. */
  lemma InFlightBlocksHalt(w: Task -> seq<Task>, s: State)
    requires FlightMatches(w, s)
    requires |s.flight| > 0
    ensures !AllDone(s.tasks)
  {
    var p := ReplyOwner(w, s.tasks, s.flight[0]);
    assert s.tasks[p].status != DONE;
  }

  /**
   When the loop stops, whatever the timing: every task is done, no reply
   is left in flight, no path is listed twice, the seeds come first, every
   other task was reported by an earlier task's worker, and everything any
   task's worker reported is listed.
   */
  lemma HaltedRunIsClosed(rule: MergeRule, w: Task -> seq<Task>, seeds: seq<Task>, schedule: seq<seq<nat>>, s: State)
    requires ReportsPending(w) && KeepsDistinct(rule, w)
    requires SeedsOk(seeds)
    requires Run(rule, w, Init(seeds), schedule) == Halted(s)
    ensures AllDone(s.tasks) && s.flight == []
    ensures DistinctKeys(s.tasks)
    ensures StartsWith(s.tasks, seeds)
    ensures Grounded(w, seeds, s.tasks)
    ensures forall i :: 0 <= i < |s.tasks| ==> CandidateKeys(w(Copy(s.tasks[i]))) <= Keys(s.tasks)
  {
    InitInv(w, seeds);
    RunInv(rule, w, seeds, Init(seeds), schedule);
    assert Inv(w, seeds, s) && AllDone(s.tasks);
    if |s.flight| > 0 {
      InFlightBlocksHalt(w, s);
    }
  }
}
