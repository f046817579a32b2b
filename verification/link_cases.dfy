/**
 The matcher's unit-test cases for the domain "monzo.com", plus the edge
 cases the pattern implies: exactly one separator slash is consumed, the
 slash itself is optional, and a near-miss of the host or domain matches
 nothing.
 */
module LinkCases {
  import opened Optional
  import opened Link

  const MONZO: string := "monzo.com"

  /** A newline-free domain matches its own text. */
  lemma DomainMatchesItself(domain: string, s: string)
    requires NoNewline(domain)
    requires HasPrefix(s, domain)
    ensures DomainAt(domain, s)
  {
    assert forall i :: 0 <= i < |domain| ==> s[i] == s[..|domain|][i];
  }

  /** The domain, a slash, and a newline-free path: the path is captured. */
  lemma RestCapturesPath(domain: string, path: string)
    requires NoNewline(domain) && NoNewline(path)
    ensures MatchRest(domain, domain + "/" + path) == Some(path)
  {
    var s := domain + "/" + path;
    assert s[..|domain|] == domain;
    DomainMatchesItself(domain, s);
    assert s[|domain|..] == "/" + path;
    assert ("/" + path)[1..] == path;
  }

  /** With `www.` in front, the `w{3}.` group is taken. */
  lemma HostWithWww(domain: string, path: string)
    requires NoNewline(domain) && NoNewline(path)
    ensures MatchHost(domain, "www." + domain + "/" + path) == Some(path)
  {
    var s := "www." + domain + "/" + path;
    assert s[..3] == "www" && s[3] == '.';
    assert s[4..] == domain + "/" + path;
    RestCapturesPath(domain, path);
  }

  /** Without `www` in front, only the bare reading is left. */
  lemma HostWithoutWww(domain: string, path: string)
    requires NoNewline(domain) && NoNewline(path)
    requires |domain| >= 3 && domain[..3] != "www"
    ensures MatchHost(domain, domain + "/" + path) == Some(path)
  {
    var s := domain + "/" + path;
    assert s[..3] == domain[..3];
    RestCapturesPath(domain, path);
  }

  /** A successful host match behind a scheme is what the whole pattern reports. */
  lemma SchemeTaken(domain: string, scheme: string, u: string)
    requires PlainDomain(domain)
    requires scheme == "https://" || scheme == "http://"
    requires MatchHost(domain, u).Some?
    ensures IsLink(domain, scheme + u) == MatchHost(domain, u)
  {
    var s := scheme + u;
    assert s[..|scheme|] == scheme;
    assert s[|scheme|..] == u;
    if scheme == "http://" {
      assert s[4] == ':';
    }
  }

  /** Input that does not start with "http" is read without a scheme. */
  lemma NoSchemeRead(domain: string, s: string)
    requires PlainDomain(domain)
    requires |s| >= 4 && s[..4] != "http"
    ensures IsLink(domain, s) == MatchHost(domain, s)
  {
    if |s| >= 7 {
      assert s[..7][..4] == s[..4];
    }
    if |s| >= 8 {
      assert s[..8][..4] == s[..4];
    }
  }

  lemma MonzoFacts()
    ensures PlainDomain(MONZO) && NoNewline(MONZO)
    ensures |MONZO| >= 3 && MONZO[..3] != "www"
  {
    assert MONZO[..3][0] == 'm';
  }

  /** The unit-test inputs that capture "path". */
  lemma CapturesPathBare()
    ensures PlainDomain(MONZO)
    ensures IsLink(MONZO, "monzo.com/path") == Some("path")
  {
    assert "monzo.com/path" == MONZO + "/" + "path";
    MonzoFacts();
    HostWithoutWww(MONZO, "path");
    NoSchemeRead(MONZO, "monzo.com/path");
  }

  lemma CapturesPathWww()
    ensures PlainDomain(MONZO)
    ensures IsLink(MONZO, "www.monzo.com/path") == Some("path")
  {
    assert "www.monzo.com/path" == "www." + MONZO + "/" + "path";
    MonzoFacts();
    HostWithWww(MONZO, "path");
    NoSchemeRead(MONZO, "www.monzo.com/path");
  }

  lemma CapturesPathHttpWww()
    ensures PlainDomain(MONZO)
    ensures IsLink(MONZO, "http://www.monzo.com/path") == Some("path")
  {
    var u := "www." + MONZO + "/" + "path";
    assert u == "www.monzo.com/path";
    assert "http://www.monzo.com/path" == "http://" + u;
    MonzoFacts();
    HostWithWww(MONZO, "path");
    SchemeTaken(MONZO, "http://", u);
  }

  lemma CapturesPathHttpsWww()
    ensures PlainDomain(MONZO)
    ensures IsLink(MONZO, "https://www.monzo.com/path") == Some("path")
  {
    var u := "www." + MONZO + "/" + "path";
    assert u == "www.monzo.com/path";
    assert "https://www.monzo.com/path" == "https://" + u;
    MonzoFacts();
    HostWithWww(MONZO, "path");
    SchemeTaken(MONZO, "https://", u);
  }

  lemma CapturesPathHttp()
    ensures PlainDomain(MONZO)
    ensures IsLink(MONZO, "http://monzo.com/path") == Some("path")
  {
    assert "monzo.com/path" == MONZO + "/" + "path";
    assert "http://monzo.com/path" == "http://" + "monzo.com/path";
    MonzoFacts();
    HostWithoutWww(MONZO, "path");
    SchemeTaken(MONZO, "http://", "monzo.com/path");
  }

  lemma CapturesPathHttps()
    ensures PlainDomain(MONZO)
    ensures IsLink(MONZO, "https://monzo.com/path") == Some("path")
  {
    assert "monzo.com/path" == MONZO + "/" + "path";
    assert "https://monzo.com/path" == "https://" + "monzo.com/path";
    MonzoFacts();
    HostWithoutWww(MONZO, "path");
    SchemeTaken(MONZO, "https://", "monzo.com/path");
  }

  /** Only the first slash is the separator; whatever follows is captured whole. */
  lemma DoubleSlashKeepsOne()
    ensures PlainDomain(MONZO)
    ensures IsLink(MONZO, "monzo.com//path") == Some("/path")
  {
    assert "monzo.com//path" == MONZO + "/" + "/path";
    MonzoFacts();
    HostWithoutWww(MONZO, "/path");
    NoSchemeRead(MONZO, "monzo.com//path");
  }

  lemma DomainAfterSlashIsPath()
    ensures PlainDomain(MONZO)
    ensures IsLink(MONZO, "monzo.com/monzo.com") == Some("monzo.com")
  {
    assert "monzo.com/monzo.com" == MONZO + "/" + "monzo.com";
    MonzoFacts();
    HostWithoutWww(MONZO, "monzo.com");
    NoSchemeRead(MONZO, "monzo.com/monzo.com");
  }

  /** The slash is optional in the pattern: the bare domain matches with an empty capture. */
  lemma BareDomainCapturesEmpty()
    ensures PlainDomain(MONZO)
    ensures IsLink(MONZO, "monzo.com") == Some("")
  {
    MonzoFacts();
    var s := "monzo.com";
    DomainMatchesItself(MONZO, s);
    assert s[|MONZO|..] == "";
    assert s[..3] == MONZO[..3];
    NoSchemeRead(MONZO, s);
  }

  lemma TrailingSlashCapturesEmpty()
    ensures PlainDomain(MONZO)
    ensures IsLink(MONZO, "monzo.com/") == Some("")
  {
    assert "monzo.com/" == MONZO + "/" + "";
    MonzoFacts();
    HostWithoutWww(MONZO, "");
    NoSchemeRead(MONZO, "monzo.com/");
  }

  /** Text glued to the domain without a slash is captured too. */
  lemma GluedTextIsCaptured()
    ensures PlainDomain(MONZO)
    ensures IsLink(MONZO, "monzo.company") == Some("pany")
  {
    MonzoFacts();
    var s := "monzo.company";
    assert s[..|MONZO|] == MONZO;
    DomainMatchesItself(MONZO, s);
    assert s[|MONZO|..] == "pany";
    assert s[..3] == MONZO[..3];
    NoSchemeRead(MONZO, s);
  }

  /** The dot of the domain is a wildcard: any character but a newline stands in for it. */
  lemma DomainDotIsWildcard()
    ensures PlainDomain(MONZO)
    ensures IsLink(MONZO, "monzoXcom/path") == Some("path")
  {
    MonzoFacts();
    var s := "monzoXcom/path";
    assert DomainAt(MONZO, s) by {
      forall i | 0 <= i < |MONZO|
        ensures AtomMatches(MONZO[i], s[i])
      {
        if i != 5 {
          assert s[i] == MONZO[i];
        }
      }
    }
    assert s[|MONZO|..] == "/path";
    assert "/path"[1..] == "path";
    assert s[..3] == MONZO[..3];
    NoSchemeRead(MONZO, s);
  }

  /** A newline anywhere after the domain defeats `(.*)$`. */
  lemma NewlineDefeatsMatch()
    ensures PlainDomain(MONZO)
    ensures IsLink(MONZO, "monzo.com/pa\nth") == None
  {
    MonzoFacts();
    var s := "monzo.com/pa\nth";
    var t := s[|MONZO|..];
    assert t == "/pa\nth";
    assert t[3] == '\n' && t[1..][2] == '\n';
    assert s[..3] == MONZO[..3];
    NoSchemeRead(MONZO, s);
  }

  /** Input the domain does not match at the start, and that offers neither a scheme nor `www`. */
  lemma NoDomainNoLink(domain: string, s: string)
    requires PlainDomain(domain)
    requires |s| >= 4 && s[..4] != "http" && s[..3] != "www"
    requires !DomainAt(domain, s)
    ensures IsLink(domain, s) == None
  {
    NoSchemeRead(domain, s);
  }

  /** Near misses of the host label or of the domain match nothing. */
  lemma TwoLetterHostFails()
    ensures PlainDomain(MONZO)
    ensures IsLink(MONZO, "ww.monzo.com/path") == None
  {
    MonzoFacts();
    var s := "ww.monzo.com/path";
    assert s[2] == '.' && s[0] == 'w';
    assert MONZO[0] == 'm';
    NoDomainNoLink(MONZO, s);
  }

  lemma DotHostFails()
    ensures PlainDomain(MONZO)
    ensures IsLink(MONZO, ".monzo.com/path") == None
  {
    MonzoFacts();
    var s := ".monzo.com/path";
    assert s[0] == '.';
    assert MONZO[0] == 'm';
    NoDomainNoLink(MONZO, s);
  }

  lemma WwwWithoutDotFails()
    ensures PlainDomain(MONZO)
    ensures IsLink(MONZO, "wwwmonzo.com/path") == None
  {
    MonzoFacts();
    var s := "wwwmonzo.com/path";
    assert s[0] == 'w' && s[4] == 'o' && s[..4] == "wwwm";
    assert MONZO[0] == 'm';
    assert !DomainAt(MONZO, s[4..]) by {
      assert s[4..][0] == 'o';
    }
    NoSchemeRead(MONZO, s);
  }

  lemma MisspeltDomainFails()
    ensures PlainDomain(MONZO)
    ensures IsLink(MONZO, "monzo.cm/path") == None
    ensures IsLink(MONZO, "monzo.cpm//path") == None
  {
    MonzoFacts();
    var s := "monzo.cm/path";
    assert s[7] == 'm' && MONZO[7] == 'o';
    assert s[..3] == MONZO[..3];
    NoDomainNoLink(MONZO, s);
    var u := "monzo.cpm//path";
    assert u[7] == 'p';
    assert u[..3] == MONZO[..3];
    NoDomainNoLink(MONZO, u);
  }
}
