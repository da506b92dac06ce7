/**
 * `SubBrute` (utils/subbrute.py): brute-force enumeration. Every line of the
 * wordlist becomes a candidate `word.domain`; each candidate is resolved
 * against the configured nameservers and the ones with an answer are kept.
 */
module SubBrute {
  import opened Wrappers
  import opened PyStr

  /** The attributes `__init__` stores; none of them changes afterwards. */
  datatype Brute = Brute(domain: string, wordlist: string, resolvers: seq<string>, threads: int)

  /** What `Resolver.resolve(host, 'A')` does with the given nameservers. */
  datatype DnsAnswer = Answers(count: nat) | Raised

  /**
   * `resolve_subdomain`: the host when the answer set is non-empty; None on
   * an empty answer and on any exception.
   */
  function ResolveSubdomain(resolvers: seq<string>, host: string, dns: (seq<string>, string) -> DnsAnswer): (r: Option<string>)
    ensures r.Some? <==> dns(resolvers, host).Answers? && dns(resolvers, host).count > 0
    ensures r.Some? ==> r.value == host
  {
    match dns(resolvers, host)
    case Answers(count) => if count > 0 then Some(host) else None
    case Raised => None
  }

  /** The list comprehension submitting `f"{word}.{self.domain}"` for each word. */
  function Candidates(words: seq<string>, domain: string): (c: seq<string>)
    ensures |c| == |words|
  {
    seq(|words|, i requires 0 <= i < |words| => words[i] + "." + domain)
  }

  /** `if result:` — the future produced a non-empty host name. */
  predicate IsHit(resolvers: seq<string>, host: string, dns: (seq<string>, string) -> DnsAnswer) {
    var r := ResolveSubdomain(resolvers, host, dns);
    r.Some? && r.value != ""
  }

  /** The set the consuming loop builds from `futures`. */
  function Hits(futures: seq<string>, resolvers: seq<string>, dns: (seq<string>, string) -> DnsAnswer): set<string> {
    set c | c in futures && IsHit(resolvers, c, dns)
  }

  /**
   * The hosts the consuming loop logs as `Found subdomain: {result}`: one
   * line per hit, in the order of `futures`, a repeated hit logged again.
   */
  function HitLog(futures: seq<string>, resolvers: seq<string>, dns: (seq<string>, string) -> DnsAnswer): seq<string> {
    if futures == [] then []
    else
      var c := futures[|futures| - 1];
      HitLog(futures[..|futures| - 1], resolvers, dns) + (if IsHit(resolvers, c, dns) then [c] else [])
  }

  datatype BruteError =
    | WordlistUnreadable  // `open(self.wordlist)` raised
    | NoWorkers           // `ThreadPoolExecutor(max_workers <= 0)` raises ValueError

  /** The outcome of `enumerate` on the wordlist's content (None when it cannot be opened). */
  function EnumerateResult(b: Brute, content: Option<string>, dns: (seq<string>, string) -> DnsAnswer)
    : Result<set<string>, BruteError>
  {
    if content.None? then Err(WordlistUnreadable)
    else if b.threads <= 0 then Err(NoWorkers)
    else Ok(Hits(Candidates(SplitLines(content.value), b.domain), b.resolvers, dns))
  }

  /** The lines `enumerate` logs: none when it fails before the pool starts. */
  function EnumerateLog(b: Brute, content: Option<string>, dns: (seq<string>, string) -> DnsAnswer): seq<string> {
    if content.None? || b.threads <= 0 then []
    else HitLog(Candidates(SplitLines(content.value), b.domain), b.resolvers, dns)
  }

  /**
   * `enumerate`. `consumed` lists the futures whose results the loop takes,
   * in the order it takes them; `logged` the hosts of its log lines.
   */
  method Enumerate(b: Brute, content: Option<string>, dns: (seq<string>, string) -> DnsAnswer)
    returns (r: Result<set<string>, BruteError>, consumed: seq<string>, logged: seq<string>)
    ensures r == EnumerateResult(b, content, dns)
    ensures logged == EnumerateLog(b, content, dns)
    ensures r.Ok? ==> consumed == Candidates(SplitLines(content.value), b.domain)
    ensures r.Err? ==> consumed == []
  {
    consumed, logged := [], [];
    if content.None? {
      return Err(WordlistUnreadable), consumed, logged;
    }
    var words := SplitLines(content.value);
    if b.threads <= 0 {
      return Err(NoWorkers), consumed, logged;
    }
    var futures := Candidates(words, b.domain);
    var subdomains := {};
    var i := 0;
    while i < |futures|
      invariant 0 <= i <= |futures|
      invariant subdomains == Hits(futures[..i], b.resolvers, dns)
      invariant consumed == futures[..i]
      invariant logged == HitLog(futures[..i], b.resolvers, dns)
    {
      var result := ResolveSubdomain(b.resolvers, futures[i], dns);
      assert futures[..i + 1] == futures[..i] + [futures[i]];
      if result.Some? && result.value != "" {
        subdomains := subdomains + {result.value};
        logged := logged + [result.value];
      }
      consumed := consumed + [futures[i]];
      i := i + 1;
    }
    assert futures[..i] == futures;
    r := Ok(subdomains);
  }

  /**
   * A host is found exactly when it is `word.domain` for some wordlist line
   * and the resolver gives it a non-empty answer.
   */
  lemma HitsMember(words: seq<string>, domain: string, resolvers: seq<string>, dns: (seq<string>, string) -> DnsAnswer, h: string)
    ensures h in Hits(Candidates(words, domain), resolvers, dns)
        <==> (exists i :: 0 <= i < |words| && h == words[i] + "." + domain)
             && dns(resolvers, h).Answers? && dns(resolvers, h).count > 0
  {
    var c := Candidates(words, domain);
    if exists i :: 0 <= i < |words| && h == words[i] + "." + domain {
      var i :| 0 <= i < |words| && h == words[i] + "." + domain;
      assert c[i] == h;
      assert |h| > 0;
    }
    if h in c {
      var i :| 0 <= i < |c| && c[i] == h;
      assert h == words[i] + "." + domain;
    }
  }

  /** A candidate whose resolution raises is missing from the result; it is not an error. */
  lemma RaisedIsAbsent(futures: seq<string>, resolvers: seq<string>, dns: (seq<string>, string) -> DnsAnswer, h: string)
    requires dns(resolvers, h).Raised?
    ensures h !in Hits(futures, resolvers, dns)
  {
  }

  /** Repeating a word adds nothing: duplicates collapse into one entry. */
  lemma DuplicateWordsCollapse(words: seq<string>, w: string, domain: string, resolvers: seq<string>, dns: (seq<string>, string) -> DnsAnswer)
    requires w in words
    ensures Hits(Candidates(words + [w], domain), resolvers, dns) == Hits(Candidates(words, domain), resolvers, dns)
  {
    var c := Candidates(words, domain);
    var c2 := Candidates(words + [w], domain);
    var i :| 0 <= i < |words| && words[i] == w;
    assert c2 == c + [c[i]];
  }

  /** The result does not depend on the order of the wordlist lines. */
  lemma HitsOrderFree(f1: seq<string>, f2: seq<string>, resolvers: seq<string>, dns: (seq<string>, string) -> DnsAnswer)
    requires forall c :: c in f1 <==> c in f2
    ensures Hits(f1, resolvers, dns) == Hits(f2, resolvers, dns)
  {
  }

  /** The logged hosts are exactly the hosts of the result. */
  lemma {:induction false} HitLogHits(futures: seq<string>, resolvers: seq<string>, dns: (seq<string>, string) -> DnsAnswer)
    ensures forall h :: h in HitLog(futures, resolvers, dns) <==> h in Hits(futures, resolvers, dns)
    decreases |futures|
  {
    if futures != [] {
      var init := futures[..|futures| - 1];
      HitLogHits(init, resolvers, dns);
      assert futures == init + [futures[|futures| - 1]];
    }
  }

  /** A host is logged once for every future that yields it, and never otherwise. */
  lemma {:induction false} HitLogCount(futures: seq<string>, resolvers: seq<string>, dns: (seq<string>, string) -> DnsAnswer, h: string)
    ensures multiset(HitLog(futures, resolvers, dns))[h] == if IsHit(resolvers, h, dns) then multiset(futures)[h] else 0
    decreases |futures|
  {
    if futures != [] {
      var init := futures[..|futures| - 1];
      HitLogCount(init, resolvers, dns, h);
      assert futures == init + [futures[|futures| - 1]];
    }
  }

  /** The log follows the order of the futures: a split list logs its halves one after the other. */
  lemma {:induction false} HitLogAppend(f1: seq<string>, f2: seq<string>, resolvers: seq<string>, dns: (seq<string>, string) -> DnsAnswer)
    ensures HitLog(f1 + f2, resolvers, dns) == HitLog(f1, resolvers, dns) + HitLog(f2, resolvers, dns)
    decreases |f2|
  {
    if f2 == [] {
      assert f1 + f2 == f1;
    } else {
      var init := f2[..|f2| - 1];
      assert (f1 + f2)[..|f1 + f2| - 1] == f1 + init;
      HitLogAppend(f1, init, resolvers, dns);
    }
  }

  /**
   * A word repeated in the wordlist whose host resolves is logged again,
   * although the result set does not change.
   */
  lemma DuplicateHitLoggedAgain(words: seq<string>, w: string, domain: string, resolvers: seq<string>,
                                dns: (seq<string>, string) -> DnsAnswer)
    requires w in words && IsHit(resolvers, w + "." + domain, dns)
    ensures HitLog(Candidates(words + [w], domain), resolvers, dns)
         == HitLog(Candidates(words, domain), resolvers, dns) + [w + "." + domain]
  {
    var c := Candidates(words, domain);
    assert Candidates(words + [w], domain) == c + [w + "." + domain];
  }
}
