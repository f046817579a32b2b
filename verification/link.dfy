/**
 The link matcher. The worker builds the pattern
   ^(?:https?://)?(?:w{3}.)?<domain>/?(.*)$
 by splicing the domain into a fixed template, and reports capture group 1
 of the first match. The pattern is anchored at both ends and the regex
 engine picks the leftmost-first match, so the reported capture is the one
 of the first way of reading the input, in the engine's priority order, that
 fits: optional groups present before absent, `s?` and `/?` consuming before
 not. A `.` matches any character except a newline, both in `w{3}.` and in
 the (unescaped) domain.
 */
module Link {
  import opened Optional

  /** The template, with the domain still missing. */
  const TEMPLATE: string := "^(?:https?://)?(?:w{3}.)?/?(.*)$"

  /** Where the domain goes: right after the optional `w{3}.` group. */
  const SPLICE_AT: nat := 25

  /** `ins` inserted into `s` before position `at`. */
  function InsertAt(s: string, at: nat, ins: string): (r: string)
    requires at <= |s|
    ensures |r| == |s| + |ins|
    ensures r[..at] == s[..at]
    ensures r[at..at + |ins|] == ins
    ensures r[at + |ins|..] == s[at..]
  {
    s[..at] + ins + s[at..]
  }

  /** The pattern of one worker: the template with the domain spliced in. */
  function Pattern(domain: string): (p: string)
    ensures p == "^(?:https?://)?(?:w{3}.)?" + domain + "/?(.*)$"
  {
    var p := InsertAt(TEMPLATE, SPLICE_AT, domain);
    assert TEMPLATE[..SPLICE_AT] == "^(?:https?://)?(?:w{3}.)?";
    assert TEMPLATE[SPLICE_AT..] == "/?(.*)$";
    assert p == p[..SPLICE_AT] + p[SPLICE_AT..SPLICE_AT + |domain|] + p[SPLICE_AT + |domain|..];
    p
  }

  /** The unit test of the pattern text, for the domain "domain.com". */
  lemma PatternExample()
    ensures Pattern("domain.com") == "^(?:https?://)?(?:w{3}.)?domain.com/?(.*)$"
  {
  }

  /** Characters with a meaning of their own in the pattern language. */
  predicate IsMeta(c: char)
  {
    c in "\\.+*?()|[]{}^$"
  }

  /**
   A domain the matcher below describes faithfully: apart from `.`, which
   stays a wildcard, it holds no character the pattern language would read
   as syntax.
   */
  predicate PlainDomain(domain: string)
  {
    forall i :: 0 <= i < |domain| ==> domain[i] == '.' || !IsMeta(domain[i])
  }

  /** What a single pattern character matches. */
  predicate AtomMatches(p: char, c: char)
  {
    if p == '.' then c != '\n' else c == p
  }

  /** The domain, read as a pattern, matches the first |domain| characters of `s`. */
  predicate DomainAt(domain: string, s: string)
  {
    |domain| <= |s| && forall i :: 0 <= i < |domain| ==> AtomMatches(domain[i], s[i])
  }

  /** What `(.*)$` accepts: the rest of the input, which must hold no newline. */
  predicate NoNewline(s: string)
  {
    forall i :: 0 <= i < |s| ==> s[i] != '\n'
  }

  predicate HasPrefix(s: string, prefix: string)
  {
    |prefix| <= |s| && s[..|prefix|] == prefix
  }

  /** `c` can be the capture for `s`: a newline-free tail of `s` that leaves room for the domain before it. */
  predicate TailCapture(domain: string, s: string, c: string)
  {
    NoNewline(c) && |domain| + |c| <= |s| && s[|s| - |c|..] == c
  }

  /** `<domain>/?(.*)$`: the slash is consumed when present. */
  function MatchRest(domain: string, s: string): (r: Option<string>)
    ensures r.Some? ==> TailCapture(domain, s, r.value)
  {
    if !DomainAt(domain, s) then None
    else
      var t := s[|domain|..];
      if |t| > 0 && t[0] == '/' && NoNewline(t[1..]) then Some(t[1..])
      else if NoNewline(t) then Some(t)
      else None
  }

  /** `(?:w{3}.)?` followed by the rest: the group is tried first. */
  function MatchHost(domain: string, s: string): (r: Option<string>)
    ensures r.Some? ==> TailCapture(domain, s, r.value)
  {
    if |s| >= 4 && s[..3] == "www" && s[3] != '\n' && MatchRest(domain, s[4..]).Some? then
      MatchRest(domain, s[4..])
    else
      MatchRest(domain, s)
  }

  /**
   `is_link_regex`: the capture of the first match of the whole pattern, if
   any. `(?:https?://)?` is tried with the scheme present first, `https`
   before `http`.
   */
  function IsLink(domain: string, s: string): (r: Option<string>)
    requires PlainDomain(domain)
    ensures r.Some? ==> TailCapture(domain, s, r.value)
  {
    if HasPrefix(s, "https://") && MatchHost(domain, s[8..]).Some? then
      MatchHost(domain, s[8..])
    else if HasPrefix(s, "http://") && MatchHost(domain, s[7..]).Some? then
      MatchHost(domain, s[7..])
    else
      MatchHost(domain, s)
  }

  // ---------------------------------------------------------------------------
  // Reference: the input read positionally against one choice per optional part
  // ---------------------------------------------------------------------------

  datatype Scheme = Https | Http | NoScheme

  /** One way of reading the input: which scheme, and whether `w{3}.` and `/` are present. */
  datatype Parse = Parse(scheme: Scheme, www: bool, slash: bool)

  function SchemeText(sc: Scheme): string
  {
    match sc
    case Https => "https://"
    case Http => "http://"
    case NoScheme => ""
  }

  /** The engine's priority among readings: lower is tried first. */
  function Rank(p: Parse): nat
  {
    var sc := match p.scheme case Https => 0 case Http => 1 case NoScheme => 2;
    4 * sc + (if p.www then 0 else 2) + (if p.slash then 0 else 1)
  }

  /**
   The capture when `s` is exactly: the scheme text, then (if chosen) "www"
   and one more non-newline character, then the domain, then (if chosen) a
   slash, then a newline-free capture running to the end.
   */
  function Capture(domain: string, s: string, p: Parse): Option<string>
  {
    var a := |SchemeText(p.scheme)|;
    var b := a + (if p.www then 4 else 0);
    var c := b + |domain|;
    var k := c + (if p.slash then 1 else 0);
    if k <= |s|
      && s[..a] == SchemeText(p.scheme)
      && (p.www ==> s[a..a + 3] == "www" && s[a + 3] != '\n')
      && DomainAt(domain, s[b..])
      && (p.slash ==> s[c] == '/')
      && NoNewline(s[k..])
    then Some(s[k..])
    else None
  }

  /** All twelve readings, in the engine's priority order. */
  const PRIORITY: seq<Parse> := [
    Parse(Https, true, true), Parse(Https, true, false),
    Parse(Https, false, true), Parse(Https, false, false),
    Parse(Http, true, true), Parse(Http, true, false),
    Parse(Http, false, true), Parse(Http, false, false),
    Parse(NoScheme, true, true), Parse(NoScheme, true, false),
    Parse(NoScheme, false, true), Parse(NoScheme, false, false)
  ]

  /** The capture of the first reading in `ps` that fits, if any. */
  function FirstFit(domain: string, s: string, ps: seq<Parse>): (r: Option<string>)
    ensures r.Some? ==> exists i :: 0 <= i < |ps| && Capture(domain, s, ps[i]) == r
                                   && forall j :: 0 <= j < i ==> Capture(domain, s, ps[j]).None?
    ensures r.None? ==> forall i :: 0 <= i < |ps| ==> Capture(domain, s, ps[i]).None?
  {
    if |ps| == 0 then None
    else if Capture(domain, s, ps[0]).Some? then
      Capture(domain, s, ps[0])
    else
      var r := FirstFit(domain, s, ps[1..]);
      if r.Some? then
        var i :| 0 <= i < |ps| - 1 && Capture(domain, s, ps[1..][i]) == r
                 && forall j :: 0 <= j < i ==> Capture(domain, s, ps[1..][j]).None?;
        assert forall j :: 0 <= j < i + 1 ==> Capture(domain, s, ps[j]).None? by {
          forall j | 0 <= j < i + 1
            ensures Capture(domain, s, ps[j]).None?
          {
            if j > 0 {
              assert ps[j] == ps[1..][j - 1];
            }
          }
        }
        assert Capture(domain, s, ps[i + 1]) == r;
        r
      else
        assert forall i :: 0 <= i < |ps| ==> Capture(domain, s, ps[i]).None? by {
          forall i | 0 <= i < |ps|
            ensures Capture(domain, s, ps[i]).None?
          {
            if i > 0 {
              assert ps[i] == ps[1..][i - 1];
            }
          }
        }
        r
  }

  /** The priority list holds every reading, each at the position its rank names. */
  lemma PriorityOrder()
    ensures |PRIORITY| == 12
    ensures forall i :: 0 <= i < |PRIORITY| ==> Rank(PRIORITY[i]) == i
    ensures forall p: Parse :: Rank(p) < |PRIORITY| && PRIORITY[Rank(p)] == p
  {
    forall p: Parse
      ensures Rank(p) < |PRIORITY| && PRIORITY[Rank(p)] == p
    {
      match p.scheme
      case Https =>
      case Http =>
      case NoScheme =>
    }
  }

  /** The first present value of two. */
  function Or<T>(a: Option<T>, b: Option<T>): Option<T>
  {
    if a.Some? then a else b
  }

  lemma {:induction false} FirstFitAppend(domain: string, s: string, ps: seq<Parse>, qs: seq<Parse>)
    ensures FirstFit(domain, s, ps + qs) == Or(FirstFit(domain, s, ps), FirstFit(domain, s, qs))
    decreases |ps|
  {
    if |ps| == 0 {
      assert ps + qs == qs;
    } else {
      assert (ps + qs)[1..] == ps[1..] + qs;
      FirstFitAppend(domain, s, ps[1..], qs);
    }
  }

  lemma FirstFitSingle(domain: string, s: string, p: Parse)
    ensures FirstFit(domain, s, [p]) == Capture(domain, s, p)
  {
    assert [p][1..] == [];
  }

  /** The four readings that share one scheme, in priority order. */
  function SchemeGroup(sc: Scheme): seq<Parse>
  {
    [Parse(sc, true, true), Parse(sc, true, false), Parse(sc, false, true), Parse(sc, false, false)]
  }

  lemma FirstFitGroup(domain: string, s: string, sc: Scheme)
    ensures FirstFit(domain, s, SchemeGroup(sc))
         == Or(Or(Capture(domain, s, Parse(sc, true, true)), Capture(domain, s, Parse(sc, true, false))),
               Or(Capture(domain, s, Parse(sc, false, true)), Capture(domain, s, Parse(sc, false, false))))
  {
    var g := SchemeGroup(sc);
    assert g == ([g[0]] + [g[1]]) + ([g[2]] + [g[3]]);
    FirstFitAppend(domain, s, [g[0]] + [g[1]], [g[2]] + [g[3]]);
    FirstFitAppend(domain, s, [g[0]], [g[1]]);
    FirstFitAppend(domain, s, [g[2]], [g[3]]);
    FirstFitSingle(domain, s, g[0]);
    FirstFitSingle(domain, s, g[1]);
    FirstFitSingle(domain, s, g[2]);
    FirstFitSingle(domain, s, g[3]);
  }

  /** After a domain match, the two readings of `/?` are what `MatchRest` tries, slash first. */
  lemma RestReadings(domain: string, u: string)
    ensures MatchRest(domain, u)
         == Or(Capture(domain, u, Parse(NoScheme, false, true)), Capture(domain, u, Parse(NoScheme, false, false)))
  {
    assert u[..0] == "";
    assert u[0..] == u;
    if DomainAt(domain, u) {
      var t := u[|domain|..];
      if |t| > 0 {
        assert t[1..] == u[|domain| + 1..];
        assert t[0] == u[|domain|];
      }
    }
  }

  /** A reading with `w{3}.` present is a "www" plus one character, then a reading without it. */
  lemma HostShift(domain: string, t: string, slash: bool)
    ensures Capture(domain, t, Parse(NoScheme, true, slash))
         == if |t| >= 4 && t[..3] == "www" && t[3] != '\n'
            then Capture(domain, t[4..], Parse(NoScheme, false, slash)) else None
  {
    assert t[..0] == "";
    if |t| >= 4 {
      var u := t[4..];
      assert u[..0] == "";
      assert u[0..] == u;
      assert t[0..3] == t[..3];
      if |domain| + 4 + (if slash then 1 else 0) <= |t| {
        assert t[4 + |domain| + (if slash then 1 else 0)..] == u[|domain| + (if slash then 1 else 0)..];
        if slash {
          assert t[4 + |domain|] == u[|domain|];
        }
      }
    }
  }

  /** `MatchHost` tries the four scheme-less readings in priority order. */
  lemma HostReadings(domain: string, t: string)
    ensures MatchHost(domain, t) == FirstFit(domain, t, SchemeGroup(NoScheme))
  {
    FirstFitGroup(domain, t, NoScheme);
    HostShift(domain, t, true);
    HostShift(domain, t, false);
    RestReadings(domain, t);
    if |t| >= 4 {
      RestReadings(domain, t[4..]);
    }
  }

  /** A reading with a scheme is the scheme text, then the same reading without it. */
  lemma SchemeShift(domain: string, s: string, sc: Scheme, www: bool, slash: bool)
    ensures Capture(domain, s, Parse(sc, www, slash))
         == if HasPrefix(s, SchemeText(sc))
            then Capture(domain, s[|SchemeText(sc)|..], Parse(NoScheme, www, slash)) else None
  {
    if HasPrefix(s, SchemeText(sc)) {
      SchemeShiftPrefix(domain, s, sc, www, slash);
    }
  }

  lemma SchemeShiftPrefix(domain: string, s: string, sc: Scheme, www: bool, slash: bool)
    requires HasPrefix(s, SchemeText(sc))
    ensures Capture(domain, s, Parse(sc, www, slash))
         == Capture(domain, s[|SchemeText(sc)|..], Parse(NoScheme, www, slash))
  {
    var a := |SchemeText(sc)|;
    var t := s[a..];
    assert t[..0] == "";
    var b := if www then 4 else 0;
    var c := b + |domain|;
    var k := c + (if slash then 1 else 0);
    if k <= |t| {
      assert t[k..] == s[a + k..];
      assert t[b..] == s[a + b..];
      if www {
        assert t[0..3] == s[a..a + 3];
        assert t[3] == s[a + 3];
      }
      if slash {
        assert t[c] == s[a + c];
      }
    }
  }

  lemma SchemeReadings(domain: string, s: string, sc: Scheme)
    ensures FirstFit(domain, s, SchemeGroup(sc))
         == if HasPrefix(s, SchemeText(sc)) then MatchHost(domain, s[|SchemeText(sc)|..]) else None
  {
    FirstFitGroup(domain, s, sc);
    SchemeShift(domain, s, sc, true, true);
    SchemeShift(domain, s, sc, true, false);
    SchemeShift(domain, s, sc, false, true);
    SchemeShift(domain, s, sc, false, false);
    if HasPrefix(s, SchemeText(sc)) {
      var t := s[|SchemeText(sc)|..];
      HostReadings(domain, t);
      FirstFitGroup(domain, t, NoScheme);
      assert FirstFit(domain, s, SchemeGroup(sc)) == FirstFit(domain, t, SchemeGroup(NoScheme));
    }
  }

  /** The matcher returns the capture of the first fitting reading in priority order. */
  lemma IsLinkFirstFit(domain: string, s: string)
    requires PlainDomain(domain)
    ensures IsLink(domain, s) == FirstFit(domain, s, PRIORITY)
  {
    assert PRIORITY == SchemeGroup(Https) + SchemeGroup(Http) + SchemeGroup(NoScheme);
    FirstFitAppend(domain, s, SchemeGroup(Https) + SchemeGroup(Http), SchemeGroup(NoScheme));
    FirstFitAppend(domain, s, SchemeGroup(Https), SchemeGroup(Http));
    SchemeReadings(domain, s, Https);
    SchemeReadings(domain, s, Http);
    SchemeReadings(domain, s, NoScheme);
    assert s[0..] == s;
  }

  /**
   Leftmost-first, stated over readings: a reported capture comes from a
   reading that fits while no reading of higher priority does, and nothing
   is reported exactly when no reading fits.
   */
  lemma IsLinkLeftmostFirst(domain: string, s: string)
    requires PlainDomain(domain)
    ensures IsLink(domain, s).Some? ==>
              exists p: Parse :: Capture(domain, s, p) == IsLink(domain, s)
                && forall q: Parse :: Rank(q) < Rank(p) ==> Capture(domain, s, q).None?
    ensures IsLink(domain, s).None? <==> forall p: Parse :: Capture(domain, s, p).None?
  {
    IsLinkFirstFit(domain, s);
    PriorityOrder();
    var r := IsLink(domain, s);
    if r.Some? {
      var i :| 0 <= i < |PRIORITY| && Capture(domain, s, PRIORITY[i]) == r
               && forall j :: 0 <= j < i ==> Capture(domain, s, PRIORITY[j]).None?;
      var p := PRIORITY[i];
      forall q: Parse | Rank(q) < Rank(p)
        ensures Capture(domain, s, q).None?
      {
        assert PRIORITY[Rank(q)] == q;
      }
    } else {
      forall p: Parse
        ensures Capture(domain, s, p).None?
      {
        assert PRIORITY[Rank(p)] == p;
      }
    }
  }
}
