/**
 The scheduler's bookkeeping. It owns the task list; each loop iteration
 merges the replies that have arrived, then either hands every pending task
 to a new worker or, when every task is done, stops.

 Threads and the channel are replaced by an explicit list of replies in
 flight. A worker is a pure function from its task copy to the candidates it
 reports, so its reply is known when it is started; which replies have
 arrived by the time of a drain, and in which order, is a parameter of each
 iteration (a list of picks), so a property proved for every list of picks
 holds whatever the polling delay and the workers' timing.

 Tasks are matched on `subDomain` alone, both when a reply marks its task
 done and when candidates are compared with the list.
 */
module Scheduler {
  import opened Tasks
  import opened Seqs

  /** The paths present in a task list. */
  function Keys(tasks: seq<Task>): set<string>
  {
    set i | 0 <= i < |tasks| :: tasks[i].subDomain
  }

  lemma KeysAppend(a: seq<Task>, b: seq<Task>)
    ensures Keys(a + b) == Keys(a) + Keys(b)
  {
    var ab := a + b;
    forall k | k in Keys(ab)
      ensures k in Keys(a) + Keys(b)
    {
      var i :| 0 <= i < |ab| && ab[i].subDomain == k;
      if i >= |a| {
        assert b[i - |a|].subDomain == k;
      }
    }
    forall k | k in Keys(a) + Keys(b)
      ensures k in Keys(ab)
    {
      if k in Keys(a) {
        var i :| 0 <= i < |a| && a[i].subDomain == k;
        assert ab[i].subDomain == k;
      } else {
        var i :| 0 <= i < |b| && b[i].subDomain == k;
        assert ab[|a| + i].subDomain == k;
      }
    }
  }

  predicate HasPending(tasks: seq<Task>)
  {
    exists i :: 0 <= i < |tasks| && tasks[i].status == PENDING
  }

  predicate AllDone(tasks: seq<Task>)
  {
    forall i :: 0 <= i < |tasks| ==> tasks[i].status == DONE
  }

  /** No path occurs twice. */
  predicate DistinctKeys(tasks: seq<Task>)
  {
    forall i, j :: 0 <= i < j < |tasks| ==> tasks[i].subDomain != tasks[j].subDomain
  }

  /** Every status is one the crawler writes. */
  predicate KnownStatuses(tasks: seq<Task>)
  {
    forall i :: 0 <= i < |tasks| ==> tasks[i].status <= DONE
  }

  /** `tasks'` extends `tasks` on the same targets, and no status went down. */
  predicate Grows(tasks: seq<Task>, tasks': seq<Task>)
  {
    && |tasks| <= |tasks'|
    && forall i :: 0 <= i < |tasks| ==>
         && tasks'[i].domain == tasks[i].domain
         && tasks'[i].subDomain == tasks[i].subDomain
         && tasks[i].status <= tasks'[i].status
  }

  // ---------------------------------------------------------------------------
  // Merging one reply
  // ---------------------------------------------------------------------------

  /** One task as a reply for `key` leaves it. */
  function Marked(t: Task, key: string): Task
  {
    if t.subDomain == key then t.(status := DONE) else t
  }

  /** Every task with the given path is marked done; nothing else changes. */
  function MarkDone(tasks: seq<Task>, key: string): (r: seq<Task>)
    ensures |r| == |tasks|
    ensures forall i :: 0 <= i < |r| ==>
              && r[i].domain == tasks[i].domain
              && r[i].subDomain == tasks[i].subDomain
              && r[i].status == (if tasks[i].subDomain == key then DONE else tasks[i].status)
    ensures Keys(r) == Keys(tasks)
  {
    var r := seq(|tasks|, i requires 0 <= i < |tasks| => Marked(tasks[i], key));
    assert forall i :: 0 <= i < |r| ==> r[i].subDomain == tasks[i].subDomain;
    r
  }

  lemma MarkDoneIsPointwise(tasks: seq<Task>, key: string, marked: seq<Task>)
    requires |marked| == |tasks|
    requires forall j :: 0 <= j < |tasks| ==> marked[j] == Marked(tasks[j], key)
    ensures marked == MarkDone(tasks, key)
  {
  }

  /**
   The candidates whose path is not in `tasks`, in their order: each such
   candidate is kept as often as it occurs, every other one is dropped.
   */
  function Fresh(tasks: seq<Task>, cands: seq<Task>): (r: seq<Task>)
    ensures |r| <= |cands|
    ensures forall c :: c in r <==> c in cands && c.subDomain !in Keys(tasks)
  {
    if |cands| == 0 then []
    else if cands[0].subDomain in Keys(tasks) then Fresh(tasks, cands[1..])
    else [cands[0]] + Fresh(tasks, cands[1..])
  }

  /** Each unlisted candidate survives as often as it occurs; every listed one is dropped. */
  lemma {:induction false} FreshCounts(tasks: seq<Task>, cands: seq<Task>, c: Task)
    ensures multiset(Fresh(tasks, cands))[c] == if c.subDomain in Keys(tasks) then 0 else multiset(cands)[c]
    decreases |cands|
  {
    if |cands| > 0 {
      assert cands == [cands[0]] + cands[1..];
      FreshCounts(tasks, cands[1..], c);
    }
  }

  /** `retain`: the candidates whose path differs from `key`, each kept as often as it occurs, in order. */
  function Retain(cands: seq<Task>, key: string): (r: seq<Task>)
    ensures forall c :: c in r <==> c in cands && c.subDomain != key
  {
    if |cands| == 0 then []
    else if cands[0].subDomain == key then Retain(cands[1..], key)
    else [cands[0]] + Retain(cands[1..], key)
  }

  /** `retain` keeps each candidate with another path as often as it occurs. */
  lemma {:induction false} RetainCounts(cands: seq<Task>, key: string, c: Task)
    ensures multiset(Retain(cands, key))[c] == if c.subDomain == key then 0 else multiset(cands)[c]
    decreases |cands|
  {
    if |cands| > 0 {
      assert cands == [cands[0]] + cands[1..];
      RetainCounts(cands[1..], key, c);
    }
  }

  /** Filtering works candidate by candidate: it distributes over concatenation, so order is kept. */
  lemma {:induction false} FreshAppend(tasks: seq<Task>, a: seq<Task>, b: seq<Task>)
    ensures Fresh(tasks, a + b) == Fresh(tasks, a) + Fresh(tasks, b)
    decreases |a|
  {
    if |a| == 0 {
      assert a + b == b;
    } else {
      assert (a + b)[0] == a[0];
      assert (a + b)[1..] == a[1..] + b;
      FreshAppend(tasks, a[1..], b);
    }
  }

  lemma {:induction false} RetainAppend(a: seq<Task>, b: seq<Task>, key: string)
    ensures Retain(a + b, key) == Retain(a, key) + Retain(b, key)
    decreases |a|
  {
    if |a| == 0 {
      assert a + b == b;
    } else {
      assert (a + b)[0] == a[0];
      assert (a + b)[1..] == a[1..] + b;
      RetainAppend(a[1..], b, key);
    }
  }

  /** The paths of some candidates. */
  function CandidateKeys(cands: seq<Task>): set<string>
  {
    set i | 0 <= i < |cands| :: cands[i].subDomain
  }

  lemma FreshKeys(tasks: seq<Task>, cands: seq<Task>)
    ensures Keys(Fresh(tasks, cands)) == CandidateKeys(cands) - Keys(tasks)
  {
    var f := Fresh(tasks, cands);
    forall k | k in Keys(f)
      ensures k in CandidateKeys(cands) - Keys(tasks)
    {
      var i :| 0 <= i < |f| && f[i].subDomain == k;
      assert f[i] in cands;
      var j :| 0 <= j < |cands| && cands[j] == f[i];
    }
    forall k | k in CandidateKeys(cands) - Keys(tasks)
      ensures k in Keys(f)
    {
      var j :| 0 <= j < |cands| && cands[j].subDomain == k;
      assert cands[j] in f;
      var i :| 0 <= i < |f| && f[i] == cands[j];
    }
  }

  /**
   `handle_received_data` as written: mark the completed path done, drop
   every candidate whose path is already listed, append the rest. The
   candidates are compared with the list only, not with each other, so an
   unlisted candidate is appended as often as the reply holds it.
   */
  function HandleReceivedData(tasks: seq<Task>, reply: Reply): (r: seq<Task>)
    ensures |tasks| <= |r|
    ensures forall i :: 0 <= i < |tasks| ==> r[i] == Marked(tasks[i], reply.done.subDomain)
    ensures Keys(r) == Keys(tasks) + CandidateKeys(reply.found)
    ensures forall j :: |tasks| <= j < |r| ==> r[j] in reply.found && r[j].subDomain !in Keys(tasks)
  {
    var m := MarkDone(tasks, reply.done.subDomain);
    var f := Fresh(tasks, reply.found);
    MarkThenAppend(tasks, reply, m, f);
    m + f
  }

  lemma MarkThenAppend(tasks: seq<Task>, reply: Reply, m: seq<Task>, f: seq<Task>)
    requires m == MarkDone(tasks, reply.done.subDomain)
    requires f == Fresh(tasks, reply.found)
    ensures forall i :: 0 <= i < |tasks| ==> (m + f)[i] == Marked(tasks[i], reply.done.subDomain)
    ensures Keys(m + f) == Keys(tasks) + CandidateKeys(reply.found)
    ensures forall j :: |tasks| <= j < |m + f| ==> (m + f)[j] in reply.found && (m + f)[j].subDomain !in Keys(tasks)
  {
    MarkThenAppendKeys(tasks, reply, m, f);
    forall j | |tasks| <= j < |m + f|
      ensures (m + f)[j] in reply.found && (m + f)[j].subDomain !in Keys(tasks)
    {
      assert (m + f)[j] == f[j - |tasks|];
    }
  }

  lemma MarkThenAppendKeys(tasks: seq<Task>, reply: Reply, m: seq<Task>, f: seq<Task>)
    requires Keys(m) == Keys(tasks)
    requires f == Fresh(tasks, reply.found)
    ensures Keys(m + f) == Keys(tasks) + CandidateKeys(reply.found)
  {
    KeysAppend(m, f);
    FreshKeys(tasks, reply.found);
  }

  /**
   What the source's merge appends: each unlisted candidate as often as the
   reply holds it, in the reply's order, and nothing for a listed one.
   */
  lemma HandleReceivedDataAppends(tasks: seq<Task>, reply: Reply, c: Task)
    ensures multiset(HandleReceivedData(tasks, reply)[|tasks|..])[c]
         == if c.subDomain in Keys(tasks) then 0 else multiset(reply.found)[c]
    ensures HandleReceivedData(tasks, reply)[|tasks|..] == Fresh(tasks, reply.found)
  {
    var m := MarkDone(tasks, reply.done.subDomain);
    assert (m + Fresh(tasks, reply.found))[|tasks|..] == Fresh(tasks, reply.found);
    FreshCounts(tasks, reply.found, c);
  }

  /** Appends the candidates one at a time, each checked against the list as it grows. */
  function Absorb(tasks: seq<Task>, cands: seq<Task>): (r: seq<Task>)
    ensures |tasks| <= |r| && r[..|tasks|] == tasks
    ensures Keys(r) == Keys(tasks) + CandidateKeys(cands)
    ensures forall j :: |tasks| <= j < |r| ==> r[j] in cands && r[j].subDomain !in Keys(tasks)
    ensures DistinctKeys(tasks) ==> DistinctKeys(r)
    decreases |cands|
  {
    if |cands| == 0 then tasks
    else
      var c := cands[0];
      var next := if c.subDomain in Keys(tasks) then tasks else tasks + [c];
      KeysAppend(tasks, [c]);
      assert Keys([c]) == {c.subDomain} by {
        assert [c][0] == c;
      }
      CandidateKeysTail(cands);
      var r := Absorb(next, cands[1..]);
      assert r[..|tasks|] == r[..|next|][..|tasks|];
      AbsorbStep(tasks, cands, next, r);
      r
  }

  /** What one step of `Absorb` adds to what the rest of the candidates add. */
  lemma AbsorbStep(tasks: seq<Task>, cands: seq<Task>, next: seq<Task>, r: seq<Task>)
    requires |cands| > 0
    requires next == if cands[0].subDomain in Keys(tasks) then tasks else tasks + [cands[0]]
    requires |next| <= |r| && r[..|next|] == next
    requires forall j :: |next| <= j < |r| ==> r[j] in cands[1..] && r[j].subDomain !in Keys(next)
    requires DistinctKeys(next) ==> DistinctKeys(r)
    ensures forall j :: |tasks| <= j < |r| ==> r[j] in cands && r[j].subDomain !in Keys(tasks)
    ensures DistinctKeys(tasks) ==> DistinctKeys(r)
  {
    var c := cands[0];
    KeysAppend(tasks, [c]);
    forall j | |tasks| <= j < |r|
      ensures r[j] in cands && r[j].subDomain !in Keys(tasks)
    {
      if j < |next| {
        assert r[j] == next[j] == c;
      } else {
        assert r[j] in cands[1..];
      }
    }
    if DistinctKeys(tasks) && next != tasks {
      forall i, j | 0 <= i < j < |next|
        ensures next[i].subDomain != next[j].subDomain
      {
        if j == |tasks| {
          assert next[i] == tasks[i];
        }
      }
    }
  }

  /** Absorbing a concatenation absorbs its parts in order. */
  lemma {:induction false} AbsorbAppend(tasks: seq<Task>, a: seq<Task>, b: seq<Task>)
    ensures Absorb(tasks, a + b) == Absorb(Absorb(tasks, a), b)
    decreases |a|
  {
    if |a| == 0 {
      assert a + b == b;
    } else {
      var c := a[0];
      var next := if c.subDomain in Keys(tasks) then tasks else tasks + [c];
      assert (a + b)[0] == c;
      assert (a + b)[1..] == a[1..] + b;
      assert Absorb(tasks, a + b) == Absorb(next, a[1..] + b);
      assert Absorb(tasks, a) == Absorb(next, a[1..]);
      AbsorbAppend(next, a[1..], b);
    }
  }

  /**
   The corrected merge step: the completed path is marked done, then each
   candidate whose path is not yet listed, neither in the list nor among
   the candidates appended before it, is appended.
   */
  function Merge(tasks: seq<Task>, reply: Reply): (r: seq<Task>)
    ensures |tasks| <= |r|
    ensures forall i :: 0 <= i < |tasks| ==> r[i] == Marked(tasks[i], reply.done.subDomain)
    ensures Keys(r) == Keys(tasks) + CandidateKeys(reply.found)
    ensures forall j :: |tasks| <= j < |r| ==> r[j] in reply.found && r[j].subDomain !in Keys(tasks)
    ensures DistinctKeys(tasks) ==> DistinctKeys(r)
  {
    var m := MarkDone(tasks, reply.done.subDomain);
    var r := Absorb(m, reply.found);
    assert forall i :: 0 <= i < |tasks| ==> r[i] == r[..|m|][i];
    assert DistinctKeys(tasks) ==> DistinctKeys(m);
    r
  }

  /** Which merge a loop applies to each reply: the source's as written, or the corrected one. */
  datatype MergeRule = AsWritten | Corrected

  function MergeBy(rule: MergeRule, tasks: seq<Task>, reply: Reply): (r: seq<Task>)
    ensures |tasks| <= |r|
    ensures forall i :: 0 <= i < |tasks| ==> r[i] == Marked(tasks[i], reply.done.subDomain)
    ensures Keys(r) == Keys(tasks) + CandidateKeys(reply.found)
    ensures forall j :: |tasks| <= j < |r| ==> r[j] in reply.found && r[j].subDomain !in Keys(tasks)
    ensures rule == Corrected && DistinctKeys(tasks) ==> DistinctKeys(r)
  {
    match rule
    case AsWritten => HandleReceivedData(tasks, reply)
    case Corrected => Merge(tasks, reply)
  }

  /** No two candidates share a path. */
  predicate DistinctCandidates(cands: seq<Task>)
  {
    forall i, j :: 0 <= i < j < |cands| ==> cands[i].subDomain != cands[j].subDomain
  }

  // ---------------------------------------------------------------------------
  // Starting workers
  // ---------------------------------------------------------------------------

  /** The pending tasks, in list order: the copies handed to new workers. */
  function Spawned(tasks: seq<Task>): (r: seq<Task>)
    ensures |r| <= |tasks|
    ensures forall t :: t in r <==> t in tasks && t.status == PENDING
  {
    if |tasks| == 0 then []
    else if tasks[0].status == PENDING then [tasks[0]] + Spawned(tasks[1..])
    else Spawned(tasks[1..])
  }

  /** One task as dispatch leaves it. */
  function Started(t: Task): Task
  {
    if t.status == PENDING then t.(status := IN_FLIGHT) else t
  }

  /** Every pending task becomes in flight; other tasks are untouched. */
  function StartAll(tasks: seq<Task>): (r: seq<Task>)
    ensures |r| == |tasks|
    ensures forall i :: 0 <= i < |r| ==>
              && r[i].domain == tasks[i].domain
              && r[i].subDomain == tasks[i].subDomain
              && r[i].status == (if tasks[i].status == PENDING then IN_FLIGHT else tasks[i].status)
    ensures !HasPending(r)
  {
    seq(|tasks|, i requires 0 <= i < |tasks| => Started(tasks[i]))
  }

  // ---------------------------------------------------------------------------
  // The loop
  // ---------------------------------------------------------------------------

  /** The task list and the replies of the workers started and not yet drained. */
  datatype State = State(tasks: seq<Task>, flight: seq<Reply>)

  /** What one iteration leaves: the loop goes on, or it has stopped, or a pick was invalid. */
  datatype Loop = Running(state: State) | Halted(state: State) | Stuck

  function Init(seeds: seq<Task>): State
  {
    State(seeds, [])
  }

  /** The replies of workers started on `copies`. */
  function Replies(w: Task -> seq<Task>, copies: seq<Task>): (rs: seq<Reply>)
    ensures |rs| == |copies|
    decreases |copies|
  {
    if |copies| == 0 then [] else [Reply(copies[0], w(copies[0]))] + Replies(w, copies[1..])
  }

  /**
   The reply at position `i` arrives and is merged: it leaves the channel,
   the other replies stay, its task's path is marked done and its
   candidates' paths are listed.
   */
  function Deliver(rule: MergeRule, s: State, i: nat): (r: State)
    requires i < |s.flight|
    ensures |r.flight| + 1 == |s.flight|
    ensures |s.tasks| <= |r.tasks|
    ensures forall j :: 0 <= j < |s.tasks| ==> r.tasks[j] == Marked(s.tasks[j], s.flight[i].done.subDomain)
    ensures Keys(r.tasks) == Keys(s.tasks) + CandidateKeys(s.flight[i].found)
  {
    assert s.flight == s.flight[..i] + [s.flight[i]] + s.flight[i + 1..];
    State(MergeBy(rule, s.tasks, s.flight[i]), RemoveAt(s.flight, i))
  }

  /** Picks that name a reply still in flight at each step of a drain. */
  predicate ValidPicks(n: nat, picks: seq<nat>)
  {
    forall j :: 0 <= j < |picks| ==> picks[j] + j < n
  }

  /**
   The drain: the picked replies arrive in pick order and are merged one by
   one. Each takes one reply off the channel; the list only grows.
   */
  function Drain(rule: MergeRule, s: State, picks: seq<nat>): (r: State)
    requires ValidPicks(|s.flight|, picks)
    ensures |r.flight| + |picks| == |s.flight|
    ensures |s.tasks| <= |r.tasks| && Keys(s.tasks) <= Keys(r.tasks)
    decreases |picks|
  {
    if |picks| == 0 then s
    else
      assert picks[0] + 0 < |s.flight|;
      assert ValidPicks(|s.flight| - 1, picks[1..]) by {
        forall j | 0 <= j < |picks| - 1
          ensures picks[1..][j] + j < |s.flight| - 1
        {
          assert picks[1..][j] == picks[j + 1];
        }
      }
      Drain(rule, Deliver(rule, s, picks[0]), picks[1..])
  }

  /** A delivery takes exactly the delivered reply off the channel. */
  lemma DeliverTakesOne(rule: MergeRule, s: State, i: nat)
    requires i < |s.flight|
    ensures multiset(Deliver(rule, s, i).flight) + multiset{s.flight[i]} == multiset(s.flight)
  {
    assert s.flight == s.flight[..i] + [s.flight[i]] + s.flight[i + 1..];
  }

  /** A drain only takes replies off the channel. */
  lemma {:induction false} DrainTakesFromFlight(rule: MergeRule, s: State, picks: seq<nat>)
    requires ValidPicks(|s.flight|, picks)
    ensures multiset(Drain(rule, s, picks).flight) <= multiset(s.flight)
    decreases |picks|
  {
    if |picks| > 0 {
      assert picks[0] + 0 < |s.flight|;
      var s' := Deliver(rule, s, picks[0]);
      DeliverTakesOne(rule, s, picks[0]);
      assert ValidPicks(|s'.flight|, picks[1..]) by {
        forall j | 0 <= j < |picks| - 1
          ensures picks[1..][j] + j < |s'.flight|
        {
          assert picks[1..][j] == picks[j + 1];
        }
      }
      DrainTakesFromFlight(rule, s', picks[1..]);
    }
  }

  /**
   Dispatch: one worker per pending task, started on a copy taken before
   the status change. The replies already in flight stay; the paths listed
   do not change and nothing is left pending.
   */
  function Launch(w: Task -> seq<Task>, s: State): (r: State)
    ensures |r.tasks| == |s.tasks| && Keys(r.tasks) == Keys(s.tasks)
    ensures !HasPending(r.tasks)
    ensures |r.flight| == |s.flight| + |Spawned(s.tasks)|
    ensures r.flight[..|s.flight|] == s.flight
  {
    var tasks := StartAll(s.tasks);
    assert forall i :: 0 <= i < |tasks| ==> tasks[i].subDomain == s.tasks[i].subDomain;
    assert Keys(tasks) == Keys(s.tasks);
    State(tasks, s.flight + Replies(w, Spawned(s.tasks)))
  }

  /**
   One pass of the loop: drain, then dispatch if anything is pending, else
   stop once all are done. A pass that goes on leaves nothing pending, and
   one that stops leaves every task done.
   */
  function Iterate(rule: MergeRule, w: Task -> seq<Task>, s: State, picks: seq<nat>): (r: Loop)
    ensures r.Stuck? <==> !ValidPicks(|s.flight|, picks)
    ensures r.Halted? ==> AllDone(r.state.tasks)
    ensures r.Running? ==> !HasPending(r.state.tasks)
    ensures !r.Stuck? ==> |s.tasks| <= |r.state.tasks| && Keys(s.tasks) <= Keys(r.state.tasks)
  {
    if !ValidPicks(|s.flight|, picks) then Stuck
    else
      var d := Drain(rule, s, picks);
      if HasPending(d.tasks) then Running(Launch(w, d))
      else if AllDone(d.tasks) then Halted(d)
      else Running(d)
  }

  /**
   Iterations with the given drains, until the loop stops or the schedule
   ends. A stopped run has every task done; the list only grows.
   */
  function Run(rule: MergeRule, w: Task -> seq<Task>, s: State, schedule: seq<seq<nat>>): (r: Loop)
    ensures |schedule| == 0 ==> r == Running(s)
    ensures r.Halted? ==> AllDone(r.state.tasks)
    ensures r.Running? && |schedule| > 0 ==> !HasPending(r.state.tasks)
    ensures !r.Stuck? ==> |s.tasks| <= |r.state.tasks| && Keys(s.tasks) <= Keys(r.state.tasks)
    decreases |schedule|
  {
    if |schedule| == 0 then Running(s)
    else
      match Iterate(rule, w, s, schedule[0])
      case Running(s') => Run(rule, w, s', schedule[1..])
      case other => other
  }

  // ---------------------------------------------------------------------------
  // The source's loops, statement by statement
  // ---------------------------------------------------------------------------

  lemma {:induction false} FreshOfEmpty(cands: seq<Task>)
    ensures Fresh([], cands) == cands
    decreases |cands|
  {
    if |cands| > 0 {
      FreshOfEmpty(cands[1..]);
    }
  }

  lemma {:induction false} RetainFresh(tasks: seq<Task>, t: Task, cands: seq<Task>)
    ensures Retain(Fresh(tasks, cands), t.subDomain) == Fresh(tasks + [t], cands)
    decreases |cands|
  {
    KeysAppend(tasks, [t]);
    assert Keys([t]) == {t.subDomain} by {
      assert [t][0] == t;
    }
    if |cands| > 0 {
      RetainFresh(tasks, t, cands[1..]);
    }
  }

  lemma RetainStep(tasks: seq<Task>, i: nat, cands: seq<Task>)
    requires i < |tasks|
    ensures Retain(Fresh(tasks[..i], cands), tasks[i].subDomain) == Fresh(tasks[..i + 1], cands)
  {
    RetainFresh(tasks[..i], tasks[i], cands);
    assert tasks[..i + 1] == tasks[..i] + [tasks[i]];
  }

  /**
   The body of `handle_received_data` as the source writes it: one pass over
   the list that marks the completed path and, for every listed task,
   retains the candidates with a different path; then the append.
   */
  method HandleReceivedDataLoop(tasks: seq<Task>, reply: Reply) returns (r: seq<Task>)
    ensures r == HandleReceivedData(tasks, reply)
  {
    var key := reply.done.subDomain;
    var marked := tasks;
    var todo := reply.found;
    var i := 0;
    FreshOfEmpty(reply.found);
    assert tasks[..0] == [];
    while i < |tasks|
      invariant 0 <= i <= |tasks|
      invariant |marked| == |tasks|
      invariant forall j :: 0 <= j < i ==> marked[j] == Marked(tasks[j], key)
      invariant forall j :: i <= j < |tasks| ==> marked[j] == tasks[j]
      invariant todo == Fresh(tasks[..i], reply.found)
    {
      if marked[i].subDomain == key {
        marked := marked[i := marked[i].(status := DONE)];
      }
      RetainStep(tasks, i, reply.found);
      todo := Retain(todo, marked[i].subDomain);
      i := i + 1;
    }
    assert tasks[..i] == tasks;
    MarkDoneIsPointwise(tasks, key, marked);
    r := marked + todo;
  }

  lemma SpawnedStep(tasks: seq<Task>, i: nat)
    requires i < |tasks|
    ensures Spawned(tasks[i..]) == (if tasks[i].status == PENDING then [tasks[i]] else []) + Spawned(tasks[i + 1..])
  {
    assert tasks[i..][0] == tasks[i];
    assert tasks[i..][1..] == tasks[i + 1..];
  }

  /**
   The body of `start_new_tasks`: one pass over the list; each pending task
   is copied for a worker and then set in flight.
   */
  method StartNewTasks(tasks: seq<Task>) returns (started: seq<Task>, copies: seq<Task>)
    ensures started == StartAll(tasks)
    ensures copies == Spawned(tasks)
  {
    started := tasks;
    copies := [];
    var i := 0;
    while i < |tasks|
      invariant 0 <= i <= |tasks|
      invariant |started| == |tasks|
      invariant forall j :: 0 <= j < i ==> started[j] == Started(tasks[j])
      invariant forall j :: i <= j < |tasks| ==> started[j] == tasks[j]
      invariant copies + Spawned(tasks[i..]) == Spawned(tasks)
    {
      SpawnedStep(tasks, i);
      ConcatAssoc(copies, if tasks[i].status == PENDING then [tasks[i]] else [], Spawned(tasks[i + 1..]));
      if started[i].status == PENDING {
        copies := copies + [started[i]];
        started := started[i := started[i].(status := IN_FLIGHT)];
      }
      i := i + 1;
    }
    assert forall j :: 0 <= j < |tasks| ==> StartAll(tasks)[j] == Started(tasks[j]);
  }

  // ---------------------------------------------------------------------------
  // Properties of one merge and one dispatch
  // ---------------------------------------------------------------------------

  /**
   Merging, by either rule, marks done exactly the listed tasks whose path
   is the completed one and changes no other field of the existing tasks;
   with no listed match nothing is marked.
   */
  lemma MergeMarksCompleted(rule: MergeRule, tasks: seq<Task>, reply: Reply)
    ensures |MergeBy(rule, tasks, reply)| >= |tasks|
    ensures forall i :: 0 <= i < |tasks| ==>
              && MergeBy(rule, tasks, reply)[i].domain == tasks[i].domain
              && MergeBy(rule, tasks, reply)[i].subDomain == tasks[i].subDomain
              && MergeBy(rule, tasks, reply)[i].status
                 == (if tasks[i].subDomain == reply.done.subDomain then DONE else tasks[i].status)
    ensures reply.done.subDomain !in Keys(tasks) ==> MergeBy(rule, tasks, reply)[..|tasks|] == tasks
  {
    var r := MergeBy(rule, tasks, reply);
    if reply.done.subDomain !in Keys(tasks) {
      forall i | 0 <= i < |tasks|
        ensures r[..|tasks|][i] == tasks[i]
      {
        assert tasks[i].subDomain in Keys(tasks);
      }
    }
  }

  /**
   What merging appends, by either rule: candidates only, none whose path
   was listed before (whatever its status), and after the merge every
   candidate's path is listed; no other path appears.
   */
  lemma MergeAppendsUnlisted(rule: MergeRule, tasks: seq<Task>, reply: Reply)
    ensures forall j :: |tasks| <= j < |MergeBy(rule, tasks, reply)| ==>
              MergeBy(rule, tasks, reply)[j] in reply.found && MergeBy(rule, tasks, reply)[j].subDomain !in Keys(tasks)
    ensures Keys(MergeBy(rule, tasks, reply)) == Keys(tasks) + CandidateKeys(reply.found)
  {
  }

  /** With no two listed tasks sharing a path before, none share one after. */
  lemma MergeKeepsKeysDistinct(tasks: seq<Task>, reply: Reply)
    requires DistinctKeys(tasks)
    ensures DistinctKeys(Merge(tasks, reply))
  {
    var m := MarkDone(tasks, reply.done.subDomain);
    assert DistinctKeys(m);
  }

  lemma {:induction false} CandidateKeysTail(cands: seq<Task>)
    requires |cands| > 0
    ensures CandidateKeys(cands) == {cands[0].subDomain} + CandidateKeys(cands[1..])
  {
    assert forall i :: 0 < i < |cands| ==> cands[i] == cands[1..][i - 1];
    assert forall i :: 0 <= i < |cands| - 1 ==> cands[1..][i] == cands[i + 1];
  }

  lemma {:induction false} AbsorbAllListed(tasks: seq<Task>, cands: seq<Task>)
    requires CandidateKeys(cands) <= Keys(tasks)
    ensures Absorb(tasks, cands) == tasks
    decreases |cands|
  {
    if |cands| > 0 {
      CandidateKeysTail(cands);
      AbsorbAllListed(tasks, cands[1..]);
    }
  }

  lemma {:induction false} FreshAllListed(tasks: seq<Task>, cands: seq<Task>)
    requires CandidateKeys(cands) <= Keys(tasks)
    ensures Fresh(tasks, cands) == []
    decreases |cands|
  {
    if |cands| > 0 {
      CandidateKeysTail(cands);
      FreshAllListed(tasks, cands[1..]);
    }
  }

  /** Dedup idempotence: candidates that are all listed already add nothing. */
  lemma MergeOfListedIsMarkOnly(tasks: seq<Task>, reply: Reply)
    requires CandidateKeys(reply.found) <= Keys(tasks)
    ensures Merge(tasks, reply) == MarkDone(tasks, reply.done.subDomain)
    ensures |Merge(tasks, reply)| == |tasks|
    ensures HandleReceivedData(tasks, reply) == Merge(tasks, reply)
  {
    var m := MarkDone(tasks, reply.done.subDomain);
    var r := Merge(tasks, reply);
    AbsorbAllListed(m, reply.found);
    FreshAllListed(tasks, reply.found);
    assert HandleReceivedData(tasks, reply) == m + [];
  }

  /**
   Replies drained in one batch are merged in order, by either rule, so a
   path appended for an earlier reply keeps the same path of a later reply
   out, and so does a path listed before the batch.
   */
  lemma EarlierReplySuppressesLater(rule: MergeRule, tasks: seq<Task>, first: Reply, second: Reply)
    ensures forall j :: |MergeBy(rule, tasks, first)| <= j < |MergeBy(rule, MergeBy(rule, tasks, first), second)| ==>
              && MergeBy(rule, MergeBy(rule, tasks, first), second)[j].subDomain !in CandidateKeys(first.found)
              && MergeBy(rule, MergeBy(rule, tasks, first), second)[j].subDomain !in Keys(tasks)
  {
    var m := MergeBy(rule, tasks, first);
    MergeAppendsUnlisted(rule, tasks, first);
    MergeAppendsUnlisted(rule, m, second);
  }

  lemma {:induction false} FreshSameKeys(a: seq<Task>, b: seq<Task>, cands: seq<Task>)
    requires Keys(a) == Keys(b)
    ensures Fresh(a, cands) == Fresh(b, cands)
    decreases |cands|
  {
    if |cands| > 0 {
      FreshSameKeys(a, b, cands[1..]);
    }
  }

  lemma {:induction false} FreshIgnoresOtherKey(a: seq<Task>, t: Task, cands: seq<Task>)
    requires forall i :: 0 <= i < |cands| ==> cands[i].subDomain != t.subDomain
    ensures Fresh(a + [t], cands) == Fresh(a, cands)
    decreases |cands|
  {
    KeysAppend(a, [t]);
    assert Keys([t]) == {t.subDomain} by {
      assert [t][0] == t;
    }
    if |cands| > 0 {
      FreshIgnoresOtherKey(a, t, cands[1..]);
    }
  }

  lemma ConcatAssoc<T>(a: seq<T>, b: seq<T>, c: seq<T>)
    ensures a + b + c == a + (b + c)
  {
  }

  lemma {:induction false} AbsorbDistinct(tasks: seq<Task>, cands: seq<Task>)
    requires DistinctCandidates(cands)
    ensures Absorb(tasks, cands) == tasks + Fresh(tasks, cands)
    decreases |cands|
  {
    if |cands| > 0 {
      var c := cands[0];
      var rest := cands[1..];
      assert DistinctCandidates(rest) by {
        assert forall i :: 0 <= i < |rest| ==> rest[i] == cands[i + 1];
      }
      if c.subDomain in Keys(tasks) {
        assert Absorb(tasks, cands) == Absorb(tasks, rest);
        assert Fresh(tasks, cands) == Fresh(tasks, rest);
        AbsorbDistinct(tasks, rest);
      } else {
        assert Absorb(tasks, cands) == Absorb(tasks + [c], rest);
        assert Fresh(tasks, cands) == [c] + Fresh(tasks, rest);
        AbsorbDistinct(tasks + [c], rest);
        assert forall i :: 0 <= i < |rest| ==> rest[i].subDomain != c.subDomain by {
          assert forall i :: 0 <= i < |rest| ==> rest[i] == cands[i + 1];
        }
        FreshIgnoresOtherKey(tasks, c, rest);
        ConcatAssoc(tasks, [c], Fresh(tasks, rest));
      }
    }
  }

  /** When a reply's candidates have distinct paths, the merge is the source's, step for step. */
  lemma MergeAgreesWithSource(tasks: seq<Task>, reply: Reply)
    requires DistinctCandidates(reply.found)
    ensures Merge(tasks, reply) == HandleReceivedData(tasks, reply)
  {
    var m := MarkDone(tasks, reply.done.subDomain);
    AbsorbDistinct(m, reply.found);
    FreshSameKeys(m, tasks, reply.found);
  }

  /** The two rules agree on a reply whose candidates have distinct paths. */
  lemma MergeByAgrees(rule: MergeRule, tasks: seq<Task>, reply: Reply)
    requires rule == Corrected || DistinctCandidates(reply.found)
    ensures MergeBy(rule, tasks, reply) == Merge(tasks, reply)
  {
    if rule == AsWritten {
      MergeAgreesWithSource(tasks, reply);
    }
  }

  /**
   The source's merge lets two candidates with one path in: a page that
   links the same path twice yields two tasks for it, and both will be
   fetched. The corrected merge keeps one.
   */
  lemma SourceMergeDuplicates()
    ensures DistinctKeys([Task("d", "x", IN_FLIGHT)])
    ensures !DistinctKeys(HandleReceivedData([Task("d", "x", IN_FLIGHT)],
                                             Reply(NewTask("d", "x"), [NewTask("d", "y"), NewTask("d", "y")])))
    ensures Merge([Task("d", "x", IN_FLIGHT)], Reply(NewTask("d", "x"), [NewTask("d", "y"), NewTask("d", "y")]))
         == [Task("d", "x", DONE), NewTask("d", "y")]
  {
    var tasks := [Task("d", "x", IN_FLIGHT)];
    var reply := Reply(NewTask("d", "x"), [NewTask("d", "y"), NewTask("d", "y")]);
    assert Keys(tasks) == {"x"} by {
      assert tasks[0].subDomain == "x";
    }
    var m := MarkDone(tasks, "x");
    assert m == [Task("d", "x", DONE)];
    assert Fresh(tasks, reply.found) == reply.found;
    var r := HandleReceivedData(tasks, reply);
    assert r[1] == r[2];
    var m1 := m + [NewTask("d", "y")];
    KeysAppend(m, [NewTask("d", "y")]);
    assert Keys([NewTask("d", "y")]) == {"y"} by {
      assert [NewTask("d", "y")][0].subDomain == "y";
    }
    assert Absorb(m, reply.found) == Absorb(m1, [NewTask("d", "y")]);
    assert Absorb(m1, [NewTask("d", "y")]) == Absorb(m1, []);
  }

  /** Every pending occurrence is copied for a worker exactly once, and nothing else is. */
  lemma {:induction false} SpawnedCounts(tasks: seq<Task>, t: Task)
    ensures multiset(Spawned(tasks))[t] == if t.status == PENDING then multiset(tasks)[t] else 0
    decreases |tasks|
  {
    if |tasks| > 0 {
      SpawnedCounts(tasks[1..], t);
      assert tasks == [tasks[0]] + tasks[1..];
    }
  }

  /**
   Dispatch sets every pending task in flight and leaves the others alone,
   starts one worker per pending task on a copy taken while it was still
   pending, and leaves nothing pending, so no task is started twice.
   */
  lemma LaunchStartsEachPendingOnce(w: Task -> seq<Task>, s: State)
    ensures |Launch(w, s).tasks| == |s.tasks|
    ensures forall i :: 0 <= i < |s.tasks| ==>
              Launch(w, s).tasks[i].status == (if s.tasks[i].status == PENDING then IN_FLIGHT else s.tasks[i].status)
    ensures Launch(w, s).flight[..|s.flight|] == s.flight
    ensures forall t :: multiset(Launch(w, s).flight[|s.flight|..])[Reply(t, w(t))]
                        == if t.status == PENDING then multiset(s.tasks)[t] else 0
    ensures !HasPending(Launch(w, s).tasks)
  {
    var copies := Spawned(s.tasks);
    var added := Launch(w, s).flight[|s.flight|..];
    assert added == Replies(w, copies);
    forall t
      ensures multiset(added)[Reply(t, w(t))] == if t.status == PENDING then multiset(s.tasks)[t] else 0
    {
      SpawnedCounts(s.tasks, t);
      RepliesCount(w, copies, t);
    }
  }

  /** The reply at position `m` is the worker's answer for the copy at position `m`. */
  lemma {:induction false} RepliesAt(w: Task -> seq<Task>, copies: seq<Task>, m: nat)
    requires m < |copies|
    ensures Replies(w, copies)[m] == Reply(copies[m], w(copies[m]))
    decreases m
  {
    if m > 0 {
      RepliesAt(w, copies[1..], m - 1);
    }
  }

  lemma RepliesHead(w: Task -> seq<Task>, copies: seq<Task>)
    requires |copies| > 0
    ensures multiset(Replies(w, copies))
         == multiset{Reply(copies[0], w(copies[0]))} + multiset(Replies(w, copies[1..]))
  {
    assert Replies(w, copies) == [Reply(copies[0], w(copies[0]))] + Replies(w, copies[1..]);
  }

  lemma {:induction false} RepliesCount(w: Task -> seq<Task>, copies: seq<Task>, t: Task)
    ensures multiset(Replies(w, copies))[Reply(t, w(t))] == multiset(copies)[t]
    decreases |copies|
  {
    if |copies| > 0 {
      RepliesCount(w, copies[1..], t);
      RepliesHead(w, copies);
      assert copies == [copies[0]] + copies[1..];
      assert multiset(copies) == multiset{copies[0]} + multiset(copies[1..]);
      assert Reply(copies[0], w(copies[0])) == Reply(t, w(t)) <==> copies[0] == t;
    }
  }
}
