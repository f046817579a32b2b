/**
 The crawl's unit of work: a domain, a path below it (`sub_domain`) and a
 lifecycle status, plus the reply message a worker sends back for one task.
 */
module Tasks {

  /** Status values as the crawler writes them into its `usize` field. */
  const PENDING: nat := 0
  const IN_FLIGHT: nat := 1
  const DONE: nat := 2

  /** One crawl target. Equality is structural over all three fields. */
  datatype Task = Task(domain: string, subDomain: string, status: nat)

  /** What a worker reports: the task it was given and the candidates it found. */
  datatype Reply = Reply(done: Task, found: seq<Task>)

  /** A freshly created task is pending and keeps both strings as given. */
  function NewTask(domain: string, subDomain: string): (t: Task)
    ensures t.status == PENDING
    ensures t.domain == domain && t.subDomain == subDomain
  {
    Task(domain, subDomain, PENDING)
  }

  /** The task as it was when created: the same target with the status reset. */
  function Copy(t: Task): (c: Task)
    ensures c.domain == t.domain && c.subDomain == t.subDomain && c.status == PENDING
  {
    NewTask(t.domain, t.subDomain)
  }

  /** The URL to fetch: the domain, one slash, then the path. */
  function Url(t: Task): (u: string)
    ensures |u| == |t.domain| + 1 + |t.subDomain|
    ensures u[..|t.domain|] == t.domain
    ensures u[|t.domain|] == '/'
    ensures u[|t.domain| + 1..] == t.subDomain
  {
    t.domain + "/" + t.subDomain
  }

  /** Recovers the path from a URL, given the length of its domain part. */
  function PathOf(url: string, domainLength: nat): (path: string)
    requires domainLength < |url|
    ensures |path| == |url| - domainLength - 1
  {
    url[domainLength + 1..]
  }

  /** Dropping the domain and the slash from a task's URL gives back its path. */
  lemma UrlPathRoundTrip(t: Task)
    ensures PathOf(Url(t), |t.domain|) == t.subDomain
  {
  }

  /** Two URLs of the same domain are equal exactly when the paths are. */
  lemma UrlInjectiveOnPath(t: Task, u: Task)
    requires t.domain == u.domain
    ensures Url(t) == Url(u) <==> t.subDomain == u.subDomain
  {
    if Url(t) == Url(u) {
      UrlPathRoundTrip(t);
      UrlPathRoundTrip(u);
    }
  }

  /** The unit test case: domain "domain" and path "a". */
  lemma UrlExample()
    ensures Url(NewTask("domain", "a")) == "domain/a"
  {
  }

  /** An empty path leaves a trailing slash; the URL is never the bare domain. */
  lemma UrlEmptyPathKeepsSlash(domain: string)
    ensures Url(NewTask(domain, "")) == domain + "/"
    ensures Url(NewTask(domain, "")) != domain
  {
    assert |Url(NewTask(domain, ""))| == |domain| + 1;
  }

  /**
   Derived equality compares the status too, so two tasks for the same
   target in different states are different values. The scheduler therefore
   compares paths, not tasks.
   */
  lemma EqualityIncludesStatus(t: Task, u: Task)
    ensures t == u <==> t.domain == u.domain && t.subDomain == u.subDomain && t.status == u.status
    ensures t.domain == u.domain && t.subDomain == u.subDomain && t.status != u.status ==> t != u
  {
  }
}
