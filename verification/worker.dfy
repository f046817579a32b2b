/**
 One worker: it owns a copy of one task, builds the link pattern from it,
 and reports exactly one reply for it. The page fetch is an input (`None`
 when the fetch failed); the deterministic test mode replaces fetch and
 extraction by a rule on the length of the task's path.

 The worker reads a task field the task record does not define (`item`);
 here it is the task's `subDomain`, both as the string spliced into the
 pattern and as the string the test rule measures. A one-argument task
 constructor in the worker becomes `NewTask` with the worker task's domain.
 */
module Worker {
  import opened Optional
  import opened Tasks
  import opened Text
  import Link

  datatype Worker = Worker(task: Task, pattern: string, test: bool)

  /** The string a worker splices into its pattern. */
  function PatternKey(t: Task): string
  {
    t.subDomain
  }

  /** A worker for `task`, with the pattern built from the task. */
  function NewWorker(task: Task, test: bool): (w: Worker)
    ensures w.task == task && w.test == test
    ensures w.pattern == "^(?:https?://)?(?:w{3}.)?" + PatternKey(task) + "/?(.*)$"
  {
    Worker(task, Link.Pattern(PatternKey(task)), test)
  }

  /**
   One new pending task per token the pattern matches, holding the whole
   token. The worker's `pattern` is `Link.Pattern(PatternKey(w.task))` for
   every worker `NewWorker` builds, and `Link.IsLink` on that key is the
   matcher for exactly that pattern, so the scan consults the key rather
   than the pattern text.
   */
  function LinksIn(w: Worker, tokens: seq<string>): (r: seq<Task>)
    requires Link.PlainDomain(PatternKey(w.task))
    ensures |r| <= |tokens|
    ensures forall i :: 0 <= i < |r| ==>
              && r[i].status == PENDING
              && r[i].domain == w.task.domain
              && r[i].subDomain in tokens
              && Link.IsLink(PatternKey(w.task), r[i].subDomain).Some?
  {
    if |tokens| == 0 then []
    else
      var rest := LinksIn(w, tokens[1..]);
      if Link.IsLink(PatternKey(w.task), tokens[0]).Some? then [NewTask(w.task.domain, tokens[0])] + rest
      else rest
  }

  /**
   `search_for_links`: scan the whitespace-separated tokens of a page body
   with the worker's pattern, matched as `LinksIn` describes.
   */
  function SearchForLinks(w: Worker, html: string): (r: seq<Task>)
    requires Link.PlainDomain(PatternKey(w.task))
    ensures forall i :: 0 <= i < |r| ==>
              && r[i].status == PENDING
              && r[i].domain == w.task.domain
              && IsWord(r[i].subDomain)
              && Link.IsLink(PatternKey(w.task), r[i].subDomain).Some?
  {
    LinksIn(w, Tokens(html))
  }

  /** Scanning distributes over concatenation of token lists: token order is kept. */
  lemma {:induction false} LinksInAppend(w: Worker, a: seq<string>, b: seq<string>)
    requires Link.PlainDomain(PatternKey(w.task))
    ensures LinksIn(w, a + b) == LinksIn(w, a) + LinksIn(w, b)
    decreases |a|
  {
    if |a| == 0 {
      assert a + b == b;
    } else {
      assert (a + b)[1..] == a[1..] + b;
      LinksInAppend(w, a[1..], b);
    }
  }

  /** One token yields one task holding the whole token when it matches, and nothing otherwise. */
  lemma LinksInSingle(w: Worker, token: string)
    requires Link.PlainDomain(PatternKey(w.task))
    ensures LinksIn(w, [token])
         == if Link.IsLink(PatternKey(w.task), token).Some? then [NewTask(w.task.domain, token)] else []
  {
    assert [token][1..] == [];
  }

  /** Every matching token is kept. */
  lemma {:induction false} LinksInComplete(w: Worker, tokens: seq<string>, k: nat)
    requires Link.PlainDomain(PatternKey(w.task))
    requires k < |tokens| && Link.IsLink(PatternKey(w.task), tokens[k]).Some?
    ensures NewTask(w.task.domain, tokens[k]) in LinksIn(w, tokens)
    decreases k
  {
    if k > 0 {
      assert tokens[k] == tokens[1..][k - 1];
      LinksInComplete(w, tokens[1..], k - 1);
    }
  }

  /** A page body's token matches the pattern exactly when the scan reports a task for it. */
  lemma SearchForLinksExact(w: Worker, html: string, token: string)
    requires Link.PlainDomain(PatternKey(w.task))
    ensures (token in Tokens(html) && Link.IsLink(PatternKey(w.task), token).Some?)
        <==> NewTask(w.task.domain, token) in SearchForLinks(w, html)
  {
    var toks := Tokens(html);
    if token in toks && Link.IsLink(PatternKey(w.task), token).Some? {
      var k :| 0 <= k < |toks| && toks[k] == token;
      LinksInComplete(w, toks, k);
    }
  }

  /**
   The test rule. With n the byte length of the path plus one, an even n
   discovers one task whose path is the path's first character n times; an
   odd n discovers nothing.
   */
  function TestWorker(t: Task): (found: seq<Task>)
    ensures |found| <= 1
    ensures |found| == 1 <==> (Utf8Len(t.subDomain) + 1) % 2 == 0
    ensures |found| == 1 ==>
              && |t.subDomain| > 0
              && found[0].status == PENDING
              && found[0].domain == t.domain
              && |found[0].subDomain| == Utf8Len(t.subDomain) + 1
              && forall i :: 0 <= i < |found[0].subDomain| ==> found[0].subDomain[i] == t.subDomain[0]
  {
    var n := Utf8Len(t.subDomain) + 1;
    if n % 2 == 0 then [NewTask(t.domain, Repeat(t.subDomain[0], n))] else []
  }

  /** `run_task`: one reply carrying the worker's own task; a failed fetch finds nothing. */
  function RunTask(w: Worker, fetched: Option<string>): (r: Reply)
    requires !w.test ==> Link.PlainDomain(PatternKey(w.task))
    ensures r.done == w.task
    ensures forall i :: 0 <= i < |r.found| ==> r.found[i].status == PENDING && r.found[i].domain == w.task.domain
    ensures w.test ==> r.found == TestWorker(w.task)
    ensures !w.test && fetched.None? ==> r.found == []
    ensures !w.test && fetched.Some? ==> r.found == SearchForLinks(w, fetched.value)
  {
    if w.test then Reply(w.task, TestWorker(w.task))
    else
      match fetched
      case Some(html) => Reply(w.task, SearchForLinks(w, html))
      case None => Reply(w.task, [])
  }

  /** An empty path gives n = 1: nothing is discovered, and no first character is needed. */
  lemma TestWorkerEmptyPath(domain: string)
    ensures TestWorker(NewTask(domain, "")) == []
  {
  }

  /** On an ASCII path the rule counts characters: |path| + 1 even discovers one task. */
  lemma TestWorkerAscii(t: Task)
    requires IsAscii(t.subDomain)
    ensures |TestWorker(t)| == 1 <==> (|t.subDomain| + 1) % 2 == 0
    ensures |TestWorker(t)| == 1 ==> |TestWorker(t)[0].subDomain| == |t.subDomain| + 1
  {
    Utf8LenAscii(t.subDomain);
  }

  lemma {:induction false} Utf8LenRepeat(c: char, n: nat)
    ensures Utf8Len(Repeat(c, n)) == n * Utf8Width(c)
    decreases n
  {
    if n > 0 {
      var r := Repeat(c, n);
      assert r[1..] == Repeat(c, n - 1);
      Utf8LenRepeat(c, n - 1);
    }
  }

  /** An even number of copies of one character has an even byte length. */
  lemma {:induction false} Utf8LenRepeatEven(c: char, n: nat)
    requires n % 2 == 0
    ensures Utf8Len(Repeat(c, n)) % 2 == 0
    decreases n
  {
    if n > 0 {
      var r := Repeat(c, n);
      var r1 := Repeat(c, n - 1);
      assert r[1..] == r1;
      assert r1[1..] == Repeat(c, n - 2);
      Utf8LenRepeatEven(c, n - 2);
    }
  }

  /** A discovered task discovers nothing in turn: test chains have length one. */
  lemma TestWorkerChainStops(t: Task, u: Task)
    requires u in TestWorker(t)
    ensures TestWorker(Copy(u)) == []
  {
    var n := Utf8Len(t.subDomain) + 1;
    var c := t.subDomain[0];
    assert u == NewTask(t.domain, Repeat(c, n));
    Utf8LenRepeatEven(c, n);
  }
}
