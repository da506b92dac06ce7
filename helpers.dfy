/**
 * `clean_subdomains` (utils/helpers.py): every raw string is split on the
 * literal `<BR>`, each piece is stripped of surrounding whitespace, and the
 * pieces that contain `.` and no `@` are collected into a set.
 */
module Helpers {
  import opened PyStr

  /** The markup artefact scrapers leave between host names (case-sensitive). */
  const Separator: string := "<BR>"

  /** The filter of `clean_subdomains`: contains `.` and no `@`. */
  predicate Keep(part: string) {
    '.' in part && '@' !in part
  }

  /** The stripped pieces among `parts` that pass the filter. */
  function KeptPieces(parts: seq<string>): set<string> {
    if parts == [] then {}
    else
      var last := Strip(parts[|parts| - 1]);
      KeptPieces(parts[..|parts| - 1]) + (if Keep(last) then {last} else {})
  }

  lemma {:induction false} KeptPiecesMember(parts: seq<string>, h: string)
    ensures h in KeptPieces(parts) <==> exists p :: p in parts && Keep(Strip(p)) && h == Strip(p)
    decreases |parts|
  {
    if parts != [] {
      var init := parts[..|parts| - 1];
      KeptPiecesMember(init, h);
      assert parts == init + [parts[|parts| - 1]];
      if exists p :: p in parts && Keep(Strip(p)) && h == Strip(p) {
        var p :| p in parts && Keep(Strip(p)) && h == Strip(p);
        if p != parts[|parts| - 1] { assert p in init; }
      }
    }
  }

  /** What one raw string contributes to the cleaned set. */
  function CleanedOne(raw: string): set<string> {
    KeptPieces(Split(raw, Separator))
  }

  /** The set `clean_subdomains(subdomains)` returns. */
  function Cleaned(subdomains: set<string>): set<string> {
    set s, h | s in subdomains && h in CleanedOne(s) :: h
  }

  lemma KeptPiecesSnoc(parts: seq<string>, j: nat)
    requires j < |parts|
    ensures KeptPieces(parts[..j + 1])
         == KeptPieces(parts[..j]) + (if Keep(Strip(parts[j])) then {Strip(parts[j])} else {})
  {
    assert parts[..j + 1][..j] == parts[..j];
  }

  lemma CleanedAddOne(done: set<string>, s: string)
    ensures Cleaned(done + {s}) == Cleaned(done) + CleanedOne(s)
  {
  }

  /** The loops of `clean_subdomains`: one pass over the inputs, one over each split. */
  method CleanSubdomains(subdomains: set<string>) returns (cleaned: set<string>)
    ensures cleaned == Cleaned(subdomains)
  {
    cleaned := {};
    var pending := subdomains;
    while pending != {}
      invariant pending <= subdomains
      invariant cleaned == Cleaned(subdomains - pending)
      decreases pending
    {
      var subdomain :| subdomain in pending;
      var parts := Split(subdomain, Separator);
      var j := 0;
      while j < |parts|
        invariant 0 <= j <= |parts|
        invariant cleaned == Cleaned(subdomains - pending) + KeptPieces(parts[..j])
      {
        var part := Strip(parts[j]);
        KeptPiecesSnoc(parts, j);
        if '.' in part && '@' !in part {
          cleaned := cleaned + {part};
        }
        j := j + 1;
      }
      assert parts[..j] == parts;
      CleanedAddOne(subdomains - pending, subdomain);
      assert subdomains - (pending - {subdomain}) == (subdomains - pending) + {subdomain};
      pending := pending - {subdomain};
    }
  }

  /** Every cleaned host is a stripped piece of some input split on `<BR>`. */
  lemma CleanedOrigin(subdomains: set<string>, h: string)
    requires h in Cleaned(subdomains)
    ensures exists s, p :: s in subdomains && p in Split(s, Separator) && h == Strip(p)
  {
    var s :| s in subdomains && h in CleanedOne(s);
    KeptPiecesMember(Split(s, Separator), h);
  }

  /** Every stripped piece that passes the filter is in the cleaned set. */
  lemma CleanedComplete(subdomains: set<string>, s: string, p: string)
    requires s in subdomains && p in Split(s, Separator) && Keep(Strip(p))
    ensures Strip(p) in Cleaned(subdomains)
  {
    KeptPiecesMember(Split(s, Separator), Strip(p));
    assert Strip(p) in CleanedOne(s);
  }

  /**
   * Every cleaned host contains `.`, lacks `@`, has no surrounding
   * whitespace and contains no `<BR>`.
   */
  lemma CleanedShape(subdomains: set<string>, h: string)
    requires h in Cleaned(subdomains)
    ensures Keep(h) && IsStripped(h) && !Contains(h, Separator)
  {
    var s :| s in subdomains && h in CleanedOne(s);
    KeptPiecesMember(Split(s, Separator), h);
    var p :| p in Split(s, Separator) && Keep(Strip(p)) && h == Strip(p);
    SplitPiecesLackSep(s, Separator);
    StripSlice(p);
    StripShape(p);
    SliceLacksSub(h, p, |p| - |LStrip(p)|, Separator);
  }

  /** A string that is already a clean host name cleans to itself alone. */
  lemma CleanedOneOfClean(s: string)
    requires IsStripped(s) && !Contains(s, Separator) && Keep(s)
    ensures CleanedOne(s) == {s}
  {
    SplitWithoutSep(s, Separator);
    StripNoop(s);
    assert [s][..0] == [];
    assert KeptPieces([s]) == KeptPieces([]) + {s};
  }

  /** A raw string that is already a clean host name survives cleaning unchanged. */
  lemma CleanHostKept(subdomains: set<string>, s: string)
    requires s in subdomains
    requires IsStripped(s) && !Contains(s, Separator) && Keep(s)
    ensures s in Cleaned(subdomains)
  {
    CleanedOneOfClean(s);
  }

  /** Cleaning twice is cleaning once. */
  lemma CleanedIdempotent(subdomains: set<string>)
    ensures Cleaned(Cleaned(subdomains)) == Cleaned(subdomains)
  {
    var once := Cleaned(subdomains);
    forall h | h in once ensures CleanedOne(h) == {h} {
      CleanedShape(subdomains, h);
      CleanedOneOfClean(h);
    }
  }

  /** Cleaning a union is the union of the cleanings, so input order and repeats do not matter. */
  lemma CleanedUnion(a: set<string>, b: set<string>)
    ensures Cleaned(a + b) == Cleaned(a) + Cleaned(b)
  {
  }

  /** Splitting is case-sensitive: a lower-case `<br>` does not separate. */
  lemma LowerCaseBreakKept()
    ensures Cleaned({"a.io<br>b.io"}) == {"a.io<br>b.io"}
  {
    var s := "a.io<br>b.io";
    assert Separator == ['<', 'B', 'R', '>'];
    MissingCharLacks(s, Separator, 2);
    assert s[1] == '.';
    CleanedOneOfClean(s);
  }
}
