/** Text handling shared by every service: blank trimming, the byte-wise order of Go strings, and the
    sorted duplicate-free listings that the services store in place of sets. */
module Strings {

  /** The characters that Go's unicode.IsSpace accepts. */
  predicate IsSpace(c: char) {
    || '\t' <= c <= '\r' || c == ' ' || c == '\U{0085}' || c == '\U{00A0}' || c == '\U{1680}'
    || c == '\U{2028}' || c == '\U{2029}' || c == '\U{202F}' || c == '\U{205F}' || c == '\U{3000}'
    || '\U{2000}' <= c <= '\U{200A}'
  }

  const BLANKS: string :=
    "\t\n\U{000B}\U{000C}\r \U{0085}\U{00A0}\U{1680}\U{2028}\U{2029}\U{202F}\U{205F}\U{3000}"
    + "\U{2000}\U{2001}\U{2002}\U{2003}\U{2004}\U{2005}\U{2006}\U{2007}\U{2008}\U{2009}\U{200A}"

  /** One by one: tab and line ends, the spaces and the next-line of Latin-1, and the spaces and separators of Unicode. */
  lemma BlankCharacters(c: char)
    ensures IsSpace(c) <==> c in BLANKS
  {
  }

  predicate Tight(s: string) {
    s == "" || (!IsSpace(s[0]) && !IsSpace(s[|s| - 1]))
  }

  function Trim(s: string): string
    decreases |s|
  {
    if s == "" then s
    else if IsSpace(s[0]) then Trim(s[1..])
    else if IsSpace(s[|s| - 1]) then Trim(s[..|s| - 1])
    else s
  }

  /** Trimming leaves no blank at either end, and changes nothing that already is so. */
  lemma {:induction false} TrimTight(s: string)
    ensures Tight(Trim(s))
    ensures Tight(s) <==> Trim(s) == s
    ensures |Trim(s)| <= |s|
    decreases |s|
  {
    if s == "" {
    } else if IsSpace(s[0]) {
      TrimTight(s[1..]);
    } else if IsSpace(s[|s| - 1]) {
      TrimTight(s[..|s| - 1]);
    }
  }

  predicate Blank(s: string) {
    s == "" || (IsSpace(s[0]) && Blank(s[1..]))
  }

  lemma {:induction false} BlankAppend(s: string, c: char)
    requires Blank(s) && IsSpace(c)
    ensures Blank(s + [c])
  {
    if s != "" {
      BlankAppend(s[1..], c);
      assert (s + [c])[1..] == s[1..] + [c];
    }
  }

  lemma CutBefore(c: char, rest: string, before: string, kept: string, after: string)
    requires IsSpace(c) && rest == before + kept + after && Blank(before)
    ensures [c] + rest == ([c] + before) + kept + after && Blank([c] + before)
  {
    assert ([c] + before)[1..] == before;
  }

  lemma CutAfter(c: char, rest: string, before: string, kept: string, after: string)
    requires IsSpace(c) && rest == before + kept + after && Blank(after)
    ensures rest + [c] == before + kept + (after + [c]) && Blank(after + [c])
  {
    BlankAppend(after, c);
  }

  /** Trimming cuts off nothing but blanks, before and after what it keeps. */
  lemma {:induction false} TrimCuts(s: string) returns (before: string, after: string)
    ensures s == before + Trim(s) + after && Blank(before) && Blank(after)
    decreases |s|, 1
  {
    before, after := "", "";
    if s != "" && IsSpace(s[0]) {
      before, after := TrimFront(s);
    } else if s != "" && IsSpace(s[|s| - 1]) {
      before, after := TrimBack(s);
    }
  }

  lemma {:induction false} TrimFront(s: string) returns (before: string, after: string)
    requires s != "" && IsSpace(s[0])
    ensures s == before + Trim(s) + after && Blank(before) && Blank(after)
    decreases |s|, 0
  {
    var rest, kept := s[1..], Trim(s);
    assert kept == Trim(rest) && s == [s[0]] + rest;
    before, after := TrimCuts(rest);
    CutBefore(s[0], rest, before, kept, after);
    before := [s[0]] + before;
  }

  lemma {:induction false} TrimBack(s: string) returns (before: string, after: string)
    requires s != "" && !IsSpace(s[0]) && IsSpace(s[|s| - 1])
    ensures s == before + Trim(s) + after && Blank(before) && Blank(after)
    decreases |s|, 0
  {
    var rest, last, kept := s[..|s| - 1], s[|s| - 1], Trim(s);
    assert kept == Trim(rest) && s == rest + [last];
    before, after := TrimCuts(rest);
    CutAfter(last, rest, before, kept, after);
    after := after + [last];
  }

  /** The printing characters of ASCII are not blank. */
  predicate Printing(c: char) {
    '!' <= c <= '~'
  }

  lemma PrintingEnds(s: string)
    requires s != "" && Printing(s[0]) && Printing(s[|s| - 1])
    ensures Trim(s) == s
  {
    assert Tight(s);
    TrimTight(s);
  }

  /** Go compares strings byte by byte; on UTF-8 that is the order of the code points. */
  predicate Less(a: string, b: string) {
    b != "" && (a == "" || a[0] < b[0] || (a[0] == b[0] && Less(a[1..], b[1..])))
  }

  lemma {:induction false} LessIrreflexive(a: string)
    ensures !Less(a, a)
  {
    if a != "" { LessIrreflexive(a[1..]); }
  }

  lemma {:induction false} LessTransitive(a: string, b: string, c: string)
    requires Less(a, b) && Less(b, c)
    ensures Less(a, c)
  {
    if a != "" && a[0] == b[0] && b[0] == c[0] { LessTransitive(a[1..], b[1..], c[1..]); }
  }

  lemma {:induction false} LessTotal(a: string, b: string)
    ensures a == b || Less(a, b) || Less(b, a)
  {
    if a != "" && b != "" && a[0] == b[0] {
      LessTotal(a[1..], b[1..]);
      assert a == [a[0]] + a[1..] && b == [b[0]] + b[1..];
    }
  }

  /** The smaller of two strings is the one with the smaller character where they first differ, or else the shorter. */
  lemma {:induction false} LessMeans(a: string, b: string)
    ensures Less(a, b) <==> exists k: nat :: Parts(a, b, k)
  {
    if a != "" && b != "" && a[0] == b[0] {
      LessMeans(a[1..], b[1..]);
      if Less(a, b) {
        var k: nat :| Parts(a[1..], b[1..], k);
        assert a[..k + 1] == [a[0]] + a[1..][..k] && b[..k + 1] == [b[0]] + b[1..][..k];
        assert Parts(a, b, k + 1);
      }
      if k: nat :| Parts(a, b, k) {
        assert k > 0 && a[..k][1..] == a[1..][..k - 1] && b[..k][1..] == b[1..][..k - 1];
        assert Parts(a[1..], b[1..], k - 1);
      }
    } else if Less(a, b) {
      assert Parts(a, b, 0);
    }
  }

  /** The two strings are the same up to k, where a has ended or has the smaller character. */
  ghost predicate Parts(a: string, b: string, k: nat) {
    k <= |a| && k < |b| && a[..k] == b[..k] && (k < |a| ==> a[k] < b[k])
  }

  lemma LessAsymmetric(a: string, b: string)
    requires Less(a, b)
    ensures !Less(b, a)
  {
    LessIrreflexive(a);
    if Less(b, a) { LessTransitive(a, b, a); }
  }

  /** The set of values behind a caller's list: entries trimmed, blanks dropped, duplicates merged. */
  function Cleaned(values: seq<string>): set<string> {
    set v | v in values && Trim(v) != "" :: Trim(v)
  }

  function Members(values: seq<string>): set<string> {
    set v | v in values
  }

  lemma SubsetCardinality<T>(a: set<T>, b: set<T>)
    requires a <= b
    ensures |a| <= |b|
    ensures |a| == |b| ==> a == b
  {
    assert b == a + (b - a);
  }

  ghost predicate Ascending(s: seq<string>) {
    forall i, j | 0 <= i < j < |s| :: Less(s[i], s[j])
  }

  /** Places x into an ascending list. */
  function Insert(s: seq<string>, x: string): (r: seq<string>)
    ensures |r| == |s| + 1
    ensures forall v :: v in r <==> v == x || v in s
  {
    if s == [] then [x]
    else if Less(x, s[0]) then [x] + s
    else assert s == [s[0]] + s[1..]; [s[0]] + Insert(s[1..], x)
  }

  lemma {:induction false} InsertAscending(s: seq<string>, x: string)
    requires Ascending(s) && x !in s
    ensures Ascending(Insert(s, x))
  {
    if s == [] {
    } else if Less(x, s[0]) {
      forall j | 0 <= j < |s| ensures Less(x, s[j]) {
        if j > 0 { LessTransitive(x, s[0], s[j]); }
      }
    } else {
      InsertAscending(s[1..], x);
      LessTotal(x, s[0]);
      var tail := Insert(s[1..], x);
      forall j | 0 <= j < |tail| ensures Less(s[0], tail[j]) {
        assert tail[j] in tail;
      }
    }
  }

  /** The normalisation every service applies to identifier lists: trim into a set, then list it sorted. */
  method Normalise(values: seq<string>) returns (out: seq<string>)
    ensures Ascending(out)
    ensures Members(out) == Cleaned(values)
    ensures |out| == |Cleaned(values)|
  {
    var kept: set<string> := {};
    for i := 0 to |values|
      invariant kept == Cleaned(values[..i])
    {
      assert values[..i + 1] == values[..i] + [values[i]];
      var value := Trim(values[i]);
      if value != "" { kept := kept + {value}; }
    }
    assert values[..|values|] == values;
    out := [];
    var rest := kept;
    while rest != {}
      invariant rest <= kept
      invariant Ascending(out)
      invariant forall v :: v in out <==> v in kept && v !in rest
      invariant |out| + |rest| == |kept|
      decreases |rest|
    {
      var v :| v in rest;
      InsertAscending(out, v);
      out := Insert(out, v);
      rest := rest - {v};
    }
  }

  /** A set has one ascending listing, so comparing two normalised lists entry by entry compares the sets. */
  lemma {:induction false} AscendingUnique(a: seq<string>, b: seq<string>)
    requires Ascending(a) && Ascending(b)
    requires forall v :: v in a <==> v in b
    ensures a == b
  {
    if a == [] {
      assert forall i | 0 <= i < |b| :: b[i] in b;
    } else {
      assert a[0] in b && b != [] && b[0] in a;
      if a[0] != b[0] {
        LessAsymmetric(a[0], b[0]) by { assert Less(a[0], b[0]); }
        assert false;
      }
      LessIrreflexive(a[0]);
      forall v ensures v in a[1..] <==> v in b[1..] {
        assert v in a <==> v == a[0] || v in a[1..];
        assert v in b <==> v == b[0] || v in b[1..];
      }
      AscendingUnique(a[1..], b[1..]);
      assert a == [a[0]] + a[1..] && b == [b[0]] + b[1..];
    }
  }
}
