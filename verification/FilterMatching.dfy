/** The host's matcher, and why normalising a query in the dialog does not change what it accepts. */
module FilterMatching {
  import opened Prelude
  import opened FilterLanguage
  import LineReading

  /** Lower-casing of whole texts: how a character is lower-cased may depend on those around it. */
  type Lowering = string -> string

  ghost predicate SplitsAt(lower: Lowering, a: string, c: char, b: string) {
    lower(a + [c] + b) == lower(a) + [c] + lower(b)
  }

  predicate FreeOf(s: string, sep: char -> bool) {
    forall i :: 0 <= i < |s| ==> !sep(s[i])
  }

  /** Lower-casing neither makes nor removes white space or commas, and does not look across them. */
  ghost predicate KeepsSeparators(lower: Lowering) {
    && (forall s :: lower(s) == [] <==> s == [])
    && (forall a, c, b :: IsSpace(c) || IsComma(c) ==> SplitsAt(lower, a, c, b))
    && (forall s :: FreeOf(s, IsSpace) ==> FreeOf(lower(s), IsSpace))
    && (forall s :: FreeOf(s, IsComma) ==> FreeOf(lower(s), IsComma))
  }

  function LowerEach(lower: Lowering, ss: seq<string>): (r: seq<string>)
    ensures |r| == |ss|
    ensures forall i :: 0 <= i < |r| ==> r[i] == lower(ss[i])
  {
    seq(|ss|, i requires 0 <= i < |ss| => lower(ss[i]))
  }

  function LowerGroups(lower: Lowering, gs: seq<seq<string>>): (r: seq<seq<string>>)
    ensures |r| == |gs|
    ensures forall i :: 0 <= i < |r| ==> r[i] == LowerEach(lower, gs[i])
  {
    seq(|gs|, i requires 0 <= i < |gs| => LowerEach(lower, gs[i]))
  }

  // ---------- parsing commutes with lower-casing ----------

  /** The first separator, or the end. */
  function FirstOf(s: string, sep: char -> bool): (n: nat)
    ensures n <= |s| && (n < |s| ==> sep(s[n])) && FreeOf(s[..n], sep)
  {
    if s == [] || sep(s[0]) then 0 else
      assert forall k: nat :: k <= |s[1..]| ==> s[..k + 1] == [s[0]] + s[1..][..k];
      1 + FirstOf(s[1..], sep)
  }

  lemma LowerEachCons(lower: Lowering, a: string, rest: seq<string>)
    ensures LowerEach(lower, [a] + rest) == [lower(a)] + LowerEach(lower, rest)
  {
    hide LowerEach;
  }

  lemma {:induction false} CutLower(lower: Lowering, s: string, sep: char -> bool)
    requires forall a, c, b :: sep(c) ==> SplitsAt(lower, a, c, b)
    requires forall t :: FreeOf(t, sep) ==> FreeOf(lower(t), sep)
    ensures Cut(lower(s), sep) == LowerEach(lower, Cut(s, sep))
    decreases |s|
  {
    hide Cut, LowerEach;
    var n := FirstOf(s, sep);
    var a := s[..n];
    CutOne(a, sep);
    CutOne(lower(a), sep);
    if n == |s| {
      assert a == s && [a] + [] == [a];
      LowerEachCons(lower, a, []);
    } else {
      var c, b := s[n], s[n + 1..];
      assert s == a + [c] + b;
      assert SplitsAt(lower, a, c, b);
      CutAppend(a, c, b, sep);
      CutAppend(lower(a), c, lower(b), sep);
      CutLower(lower, b, sep);
      LowerEachCons(lower, a, Cut(b, sep));
    }
  }

  lemma {:induction false} NonEmptyLower(lower: Lowering, ss: seq<string>)
    requires forall s :: lower(s) == [] <==> s == []
    ensures NonEmpty(LowerEach(lower, ss)) == LowerEach(lower, NonEmpty(ss))
  {
    if ss != [] {
      NonEmptyLower(lower, ss[1..]);
      assert LowerEach(lower, ss)[1..] == LowerEach(lower, ss[1..]);
    }
  }

  lemma WordsLower(lower: Lowering, s: string)
    requires KeepsSeparators(lower)
    ensures Words(lower(s)) == LowerEach(lower, Words(s))
  {
    CutLower(lower, s, IsSpace);
    NonEmptyLower(lower, Cut(s, IsSpace));
  }

  lemma PieceLower(lower: Lowering, p: string)
    requires KeepsSeparators(lower)
    ensures Words(Trim(lower(p))) == LowerEach(lower, Words(Trim(p)))
    ensures Trim(lower(p)) == [] <==> Trim(p) == []
  {
    hide Words, Trim, KeepsSeparators, LowerEach;
    BlankText(p);
    BlankText(lower(p));
    WordsTrim(p);
    WordsTrim(lower(p));
    WordsLower(lower, p);
  }

  lemma LowerGroupsCons(lower: Lowering, g: seq<string>, gs: seq<seq<string>>)
    ensures LowerGroups(lower, [g] + gs) == [LowerEach(lower, g)] + LowerGroups(lower, gs)
  {
    hide LowerGroups, LowerEach;
  }

  lemma {:induction false} EachLower(lower: Lowering, pieces: seq<string>)
    requires KeepsSeparators(lower)
    ensures WordsOfEach(LowerEach(lower, pieces)) == LowerGroups(lower, WordsOfEach(pieces))
  {
    hide Words, Trim, KeepsSeparators, LowerEach, LowerGroups;
    if pieces != [] {
      var p, rest := pieces[0], pieces[1..];
      EachLower(lower, rest);
      PieceLower(lower, p);
      assert LowerEach(lower, pieces)[0] == lower(p) && LowerEach(lower, pieces)[1..] == LowerEach(lower, rest);
      if Trim(p) == [] {
        assert [] + WordsOfEach(rest) == WordsOfEach(rest);
      } else {
        LowerGroupsCons(lower, Words(Trim(p)), WordsOfEach(rest));
      }
    }
  }

  /** The host parses the lower-cased query to the lower-cased groups. */
  lemma ParseLower(lower: Lowering, q: string)
    requires KeepsSeparators(lower)
    ensures ParseGroups(lower(q)) == LowerGroups(lower, ParseGroups(q))
  {
    ParseUniform(q);
    ParseUniform(lower(q));
    CutLower(lower, q, IsComma);
    EachLower(lower, Cut(q, IsComma));
  }

  // ---------- matching ----------

  predicate StandsAt(s: string, t: string, i: nat) {
    i + |t| <= |s| && s[i..i + |t|] == t
  }

  predicate Contains(s: string, t: string) {
    exists i :: 0 <= i <= |s| && StandsAt(s, t, i)
  }

  predicate AllIn(tokens: seq<string>, s: string) {
    forall t :: t in tokens ==> Contains(s, t)
  }

  /** No group at all accepts everything; else one group must have all its tokens in the text. */
  predicate AnyGroup(groups: seq<seq<string>>, s: string) {
    groups == [] || exists i :: 0 <= i < |groups| && AllIn(groups[i], s)
  }

  predicate MatchText(lower: Lowering, haystack: string, q: string) {
    AnyGroup(ParseGroups(lower(q)), lower(haystack))
  }

  /** The match on the file name: an empty name meets no group. */
  predicate MatchFile(lower: Lowering, file: string, q: string) {
    var groups := ParseGroups(lower(q));
    var candidate := lower(lower(file));
    groups == [] || (candidate != [] && exists i :: 0 <= i < |groups| && AllIn(groups[i], candidate))
  }

  lemma {:induction false} TidyGroupByGroup(groups: seq<seq<string>>)
    requires forall i :: 0 <= i < |groups| ==> Dedup(groups[i]) != []
    ensures |Tidy(groups)| == |groups|
    ensures forall i :: 0 <= i < |groups| ==> Tidy(groups)[i] == Dedup(groups[i])
  {
    if groups != [] {
      TidyGroupByGroup(groups[1..]);
      assert Tidy(groups) == [Dedup(groups[0])] + Tidy(groups[1..]);
    }
  }

  lemma SameTokens(lower: Lowering, a: seq<string>, b: seq<string>, s: string)
    requires forall t :: t in a <==> t in b
    ensures AllIn(LowerEach(lower, a), s) <==> AllIn(LowerEach(lower, b), s)
  {
    TokensLower(lower, a, b);
    TokensLower(lower, b, a);
  }

  lemma TokensLower(lower: Lowering, a: seq<string>, b: seq<string>)
    requires forall t :: t in a ==> t in b
    ensures forall u :: u in LowerEach(lower, a) ==> u in LowerEach(lower, b)
  {
    forall u | u in LowerEach(lower, a)
      ensures u in LowerEach(lower, b)
    {
      var i :| 0 <= i < |a| && LowerEach(lower, a)[i] == u;
      assert a[i] in b;
      var j :| 0 <= j < |b| && b[j] == a[i];
      assert LowerEach(lower, b)[j] == u;
    }
  }

  /** The normalised query parses, for the host, to groups with the same tokens in the same places. */
  lemma NormalizedGroups(lower: Lowering, q: string)
    requires KeepsSeparators(lower)
    ensures var a, b := ParseGroups(lower(q)), ParseGroups(lower(Normalize(q)));
            && |a| == |b|
            && forall i, s :: 0 <= i < |a| ==> (AllIn(a[i], s) <==> AllIn(b[i], s))
  {
    hide ParseGroups, Serialize, Tidy;
    var groups := ParseGroups(q);
    ParseIsClean(q);
    ParseOfSerialize(groups);
    ParseLower(lower, q);
    ParseLower(lower, Normalize(q));
    forall i | 0 <= i < |groups|
      ensures Dedup(groups[i]) != [] && forall t :: t in Dedup(groups[i]) <==> t in groups[i]
    {
      TokensSurvive(q, i);
    }
    TidyGroupByGroup(groups);
    forall i, s | 0 <= i < |groups|
      ensures AllIn(LowerEach(lower, groups[i]), s) <==> AllIn(LowerEach(lower, Dedup(groups[i])), s)
    {
      SameTokens(lower, groups[i], Dedup(groups[i]), s);
    }
  }

  lemma TokensSurvive(q: string, i: int)
    requires 0 <= i < |ParseGroups(q)|
    ensures var g := ParseGroups(q)[i]; Dedup(g) != [] && forall t :: t in Dedup(g) <==> t in g
  {
    hide ParseGroups, Dedup;
    ParseIsClean(q);
    var g := ParseGroups(q)[i];
    assert g in ParseGroups(q) && g[0] in g;
    assert CleanToken(g[0]);
    assert g[0] in Dedup(g);
  }

  /** The matcher accepts the normalised query exactly where it accepts the query itself. */
  lemma NormalizeKeepsMatches(lower: Lowering, haystack: string, q: string)
    requires KeepsSeparators(lower)
    ensures MatchText(lower, haystack, Normalize(q)) == MatchText(lower, haystack, q)
    ensures MatchFile(lower, haystack, Normalize(q)) == MatchFile(lower, haystack, q)
  {
    hide ParseGroups, Normalize, AllIn;
    NormalizedGroups(lower, q);
  }

  // ---------- whole filters ----------

  datatype Filter = Filter(pid: string, src: string, proc: string, msg: string)

  /** A line as the matcher sees it: its parsed fields and its file. */
  datatype Row = Row(pid: string, proc: string, msg: string, file: string)

  function NormalizeAll(f: Filter): Filter {
    Filter(Normalize(f.pid), Normalize(f.src), Normalize(f.proc), Normalize(f.msg))
  }

  /** What the host keeps of a filter: its fields trimmed, or nothing if all are blank. */
  function HostFilter(f: Filter): Option<Filter> {
    var g := Filter(Trim(f.pid), Trim(f.src), Trim(f.proc), Trim(f.msg));
    if g == Filter([], [], [], []) then None else Some(g)
  }

  predicate Has(q: string) { Trim(q) != [] }

  predicate Matches(lower: Lowering, filter: Option<Filter>, row: Row) {
    filter.Some? ==>
      var f := filter.value;
      && (Has(f.msg) ==> MatchText(lower, row.msg, f.msg))
      && (Has(f.proc) ==> MatchText(lower, row.proc, f.proc))
      && (Has(f.pid) ==> MatchText(lower, row.pid, f.pid))
      && (Has(f.src) ==> MatchFile(lower, row.file, f.src))
  }

  lemma {:induction false} TrimStartKeepsPieces(s: string)
    ensures WordsOfEach(Cut(TrimStart(s), IsComma)) == WordsOfEach(Cut(s, IsComma))
  {
    if s != [] && IsSpace(s[0]) {
      TrimStartKeepsPieces(s[1..]);
      FirstSpace(s[0], s[1..]);
      assert s == [s[0]] + s[1..];
    }
  }

  lemma FirstSpace(c: char, s: string)
    requires IsSpace(c)
    ensures WordsOfEach(Cut([c] + s, IsComma)) == WordsOfEach(Cut(s, IsComma))
  {
  }

  lemma {:induction false} WordsOfEachAppend(a: seq<string>, b: seq<string>)
    ensures WordsOfEach(a + b) == WordsOfEach(a) + WordsOfEach(b)
  {
    hide Words, Trim;
    if a == [] {
      assert a + b == b;
    } else {
      assert (a + b)[1..] == a[1..] + b;
      WordsOfEachAppend(a[1..], b);
    }
  }

  /** A space at the end of a piece changes none of its tokens. */
  lemma PieceLastSpace(p: string, c: char)
    requires IsSpace(c)
    ensures WordsOfEach([p + [c]]) == WordsOfEach([p])
  {
    hide Words, Trim;
    BlankText(p);
    BlankText(p + [c]);
    WordsTrim(p);
    WordsTrim(p + [c]);
    WordsAppend(p, c, []);
    WordsOfNone();
    assert p + [c] + [] == p + [c];
    assert Words(p) + [] == Words(p);
    WordsOfEachCons(p, []);
    WordsOfEachCons(p + [c], []);
    assert [p] + [] == [p] && [p + [c]] + [] == [p + [c]];
  }

  lemma LastSpaceOfPiece(b: string, c: char)
    requires IsSpace(c) && FreeOf(b, IsComma)
    ensures Cut(b, IsComma) == [b] && Cut(b + [c], IsComma) == [b + [c]]
    ensures WordsOfEach(Cut(b + [c], IsComma)) == WordsOfEach(Cut(b, IsComma))
  {
    hide WordsOfEach, Cut;
    CutOne(b, IsComma);
    CutOne(b + [c], IsComma);
    PieceLastSpace(b, c);
  }

  lemma LastSpaceAfterComma(a: string, b: string, c: char)
    requires IsSpace(c) && FreeOf(b, IsComma)
    ensures WordsOfEach(Cut(a + [','] + b + [c], IsComma)) == WordsOfEach(Cut(a + [','] + b, IsComma))
  {
    hide WordsOfEach, Cut, FreeOf;
    assert a + [','] + b + [c] == a + [','] + (b + [c]);
    LastSpaceOfPiece(b, c);
    CutAppend(a, ',', b, IsComma);
    CutAppend(a, ',', b + [c], IsComma);
    WordsOfEachAppend(Cut(a, IsComma), [b]);
    WordsOfEachAppend(Cut(a, IsComma), [b + [c]]);
  }

  lemma LastSpace(s: string, c: char)
    requires IsSpace(c)
    ensures WordsOfEach(Cut(s + [c], IsComma)) == WordsOfEach(Cut(s, IsComma))
  {
    hide WordsOfEach, Cut;
    var i := LineReading.LastIndexOf(s, ',');
    if i < 0 {
      LastSpaceOfPiece(s, c);
    } else {
      var a, b := s[..i], s[i + 1..];
      assert s == a + [','] + b;
      LastSpaceAfterComma(a, b, c);
    }
  }

  lemma {:induction false} TrimEndKeepsPieces(s: string)
    ensures WordsOfEach(Cut(TrimEnd(s), IsComma)) == WordsOfEach(Cut(s, IsComma))
    decreases |s|
  {
    hide WordsOfEach, Cut;
    if s != [] && IsSpace(s[|s| - 1]) {
      var front := s[..|s| - 1];
      TrimEndKeepsPieces(front);
      LastSpace(front, s[|s| - 1]);
      assert s == front + [s[|s| - 1]];
    }
  }

  lemma ParseOfTrim(q: string)
    ensures ParseGroups(Trim(q)) == ParseGroups(q)
  {
    hide ParseGroups, WordsOfEach, Cut;
    ParseUniform(q);
    ParseUniform(Trim(q));
    TrimStartKeepsPieces(q);
    TrimEndKeepsPieces(TrimStart(q));
  }

  lemma MatchOfTrim(lower: Lowering, haystack: string, q: string)
    requires KeepsSeparators(lower)
    ensures MatchText(lower, haystack, Trim(q)) == MatchText(lower, haystack, q)
    ensures MatchFile(lower, haystack, Trim(q)) == MatchFile(lower, haystack, q)
  {
    hide ParseGroups, Trim, AllIn, LowerGroups;
    ParseOfTrim(q);
    ParseLower(lower, q);
    ParseLower(lower, Trim(q));
  }

  /** A blank query accepts every text, so the guard on blank fields makes no difference. */
  lemma BlankMatches(lower: Lowering, haystack: string, q: string)
    requires KeepsSeparators(lower) && !Has(q)
    ensures MatchText(lower, haystack, q) && MatchFile(lower, haystack, q)
  {
    hide AllIn, LowerGroups;
    ParseLower(lower, q);
    assert ParseGroups(q) == [];
    assert LowerGroups(lower, []) == [];
  }

  /** What a filter accepts, field by field and without guards. */
  ghost predicate FieldsMatch(lower: Lowering, f: Filter, row: Row) {
    && MatchText(lower, row.msg, f.msg)
    && MatchText(lower, row.proc, f.proc)
    && MatchText(lower, row.pid, f.pid)
    && MatchFile(lower, row.file, f.src)
  }

  /** The filter the host keeps accepts what the fields as typed accept. */
  lemma HostFilterMeaning(lower: Lowering, f: Filter, row: Row)
    requires KeepsSeparators(lower)
    ensures Matches(lower, HostFilter(f), row) <==> FieldsMatch(lower, f, row)
  {
    MatchOfTrim(lower, row.msg, f.msg);
    MatchOfTrim(lower, row.proc, f.proc);
    MatchOfTrim(lower, row.pid, f.pid);
    MatchOfTrim(lower, row.file, f.src);
    hide MatchText, MatchFile, Trim;
    BlankOrNot(lower, row.msg, Trim(f.msg));
    BlankOrNot(lower, row.proc, Trim(f.proc));
    BlankOrNot(lower, row.pid, Trim(f.pid));
    BlankOrNot(lower, row.file, Trim(f.src));
    BlankOrNot(lower, row.msg, []);
    BlankOrNot(lower, row.proc, []);
    BlankOrNot(lower, row.pid, []);
    BlankOrNot(lower, row.file, []);
    BlankText([]);
  }

  lemma BlankOrNot(lower: Lowering, haystack: string, q: string)
    requires KeepsSeparators(lower)
    ensures (Has(q) ==> MatchText(lower, haystack, q)) <==> MatchText(lower, haystack, q)
    ensures (Has(q) ==> MatchFile(lower, haystack, q)) <==> MatchFile(lower, haystack, q)
  {
    hide MatchText, MatchFile;
    if !Has(q) {
      BlankMatches(lower, haystack, q);
    }
  }

  /** For every filter and every line, normalising in the dialog does not change what the host accepts. */
  lemma NormalizeAllKeepsMeaning(lower: Lowering, f: Filter, row: Row)
    requires KeepsSeparators(lower)
    ensures Matches(lower, HostFilter(NormalizeAll(f)), row) == Matches(lower, HostFilter(f), row)
  {
    hide MatchText, MatchFile, HostFilter, Matches, Normalize;
    HostFilterMeaning(lower, f, row);
    HostFilterMeaning(lower, NormalizeAll(f), row);
    NormalizeKeepsMatches(lower, row.msg, f.msg);
    NormalizeKeepsMatches(lower, row.proc, f.proc);
    NormalizeKeepsMatches(lower, row.pid, f.pid);
    NormalizeKeepsMatches(lower, row.file, f.src);
  }
}
