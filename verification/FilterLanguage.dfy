/** The filter language: a query is OR groups separated by commas, a group is AND tokens separated by white
    space. The dialog parses, prints and normalises queries; the host parses them again and matches. */
module FilterLanguage {

  /** White space and line terminators as `trim` and `\s` see them. */
  predicate IsSpace(c: char) {
    || c == ' ' || c == '\t' || c == '\n' || c == '\r'
    || c == '\U{000B}' || c == '\U{000C}' || c == '\U{00A0}' || c == '\U{1680}'
    || '\U{2000}' <= c <= '\U{200A}'
    || c == '\U{2028}' || c == '\U{2029}' || c == '\U{202F}' || c == '\U{205F}' || c == '\U{3000}' || c == '\U{FEFF}'
  }

  predicate IsComma(c: char) { c == ',' }

  // ---------- cutting and trimming ----------

  /** The stretches between separators; there is always at least one, possibly empty. */
  function Cut(s: string, sep: char -> bool): (r: seq<string>)
    ensures r != []
    ensures forall i, j :: 0 <= i < |r| && 0 <= j < |r[i]| ==> !sep(r[i][j])
  {
    if s == [] then [[]]
    else if sep(s[0]) then [[]] + Cut(s[1..], sep)
    else
      var rest := Cut(s[1..], sep);
      [[s[0]] + rest[0]] + rest[1..]
  }

  function NonEmpty<T(==)>(ss: seq<seq<T>>): seq<seq<T>> {
    if ss == [] then [] else (if ss[0] == [] then [] else [ss[0]]) + NonEmpty(ss[1..])
  }

  function TrimStart(s: string): string {
    if s != [] && IsSpace(s[0]) then TrimStart(s[1..]) else s
  }

  function TrimEnd(s: string): string {
    if s != [] && IsSpace(s[|s| - 1]) then TrimEnd(s[..|s| - 1]) else s
  }

  function Trim(s: string): string {
    TrimEnd(TrimStart(s))
  }

  /** The tokens of a group: the non-empty stretches between white space. */
  function Words(s: string): seq<string> {
    NonEmpty(Cut(s, IsSpace))
  }

  lemma CutSeparator(c: char, rest: string, sep: char -> bool)
    requires sep(c)
    ensures Cut([c] + rest, sep) == [[]] + Cut(rest, sep)
  {
  }

  lemma CutOther(c: char, rest: string, sep: char -> bool)
    requires !sep(c)
    ensures Cut([c] + rest, sep) == [[c] + Cut(rest, sep)[0]] + Cut(rest, sep)[1..]
  {
  }

  lemma HeadAndTail(a: seq<string>, b: seq<string>, x: char)
    requires a != []
    ensures [[x] + (a + b)[0]] + (a + b)[1..] == ([[x] + a[0]] + a[1..]) + b
  {
  }

  lemma {:induction false} CutAppend(a: string, c: char, b: string, sep: char -> bool)
    requires sep(c)
    ensures Cut(a + [c] + b, sep) == Cut(a, sep) + Cut(b, sep)
  {
    if a == [] {
      assert a + [c] + b == [c] + b;
      CutSeparator(c, b, sep);
      assert Cut(a, sep) == [[]];
    } else {
      hide Cut;
      var x, rest := a[0], a[1..];
      assert a == [x] + rest && a + [c] + b == [x] + (rest + [c] + b);
      CutAppend(rest, c, b, sep);
      if sep(x) {
        CutSeparator(x, rest, sep);
        CutSeparator(x, rest + [c] + b, sep);
      } else {
        CutOther(x, rest, sep);
        CutOther(x, rest + [c] + b, sep);
        HeadAndTail(Cut(rest, sep), Cut(b, sep), x);
      }
    }
  }

  lemma {:induction false} CutOne(s: string, sep: char -> bool)
    requires forall i :: 0 <= i < |s| ==> !sep(s[i])
    ensures Cut(s, sep) == [s]
  {
    if s != [] {
      CutOne(s[1..], sep);
      assert s == [s[0]] + s[1..];
    }
  }

  lemma {:induction false} NonEmptyAppend<T>(a: seq<seq<T>>, b: seq<seq<T>>)
    ensures NonEmpty(a + b) == NonEmpty(a) + NonEmpty(b)
  {
    if a == [] {
      assert a + b == b;
    } else {
      assert (a + b)[1..] == a[1..] + b;
      NonEmptyAppend(a[1..], b);
    }
  }

  lemma WordsAppend(a: string, c: char, b: string)
    requires IsSpace(c)
    ensures Words(a + [c] + b) == Words(a) + Words(b)
  {
    CutAppend(a, c, b, IsSpace);
    NonEmptyAppend(Cut(a, IsSpace), Cut(b, IsSpace));
  }

  lemma WordsOfNone()
    ensures Words([]) == []
  {
    var none: seq<string> := [[]];
    assert Cut([], IsSpace) == none && none[1..] == [];
  }

  lemma {:induction false} WordsTrimStart(s: string)
    ensures Words(TrimStart(s)) == Words(s)
  {
    if s != [] && IsSpace(s[0]) {
      WordsTrimStart(s[1..]);
      WordsAppend([], s[0], s[1..]);
      WordsOfNone();
      assert [] + [s[0]] + s[1..] == s;
    }
  }

  lemma {:induction false} WordsTrimEnd(s: string)
    ensures Words(TrimEnd(s)) == Words(s)
    decreases |s|
  {
    if s != [] && IsSpace(s[|s| - 1]) {
      WordsTrimEnd(s[..|s| - 1]);
      WordsAppend(s[..|s| - 1], s[|s| - 1], []);
      WordsOfNone();
      assert s[..|s| - 1] + [s[|s| - 1]] + [] == s;
    }
  }

  lemma WordsTrim(s: string)
    ensures Words(Trim(s)) == Words(s)
  {
    WordsTrimStart(s);
    WordsTrimEnd(TrimStart(s));
  }

  lemma {:induction false} TrimEndStarts(s: string)
    ensures TrimEnd(s) <= s
    ensures TrimEnd(s) == [] <==> forall i :: 0 <= i < |s| ==> IsSpace(s[i])
    decreases |s|
  {
    if s != [] && IsSpace(s[|s| - 1]) {
      TrimEndStarts(s[..|s| - 1]);
      assert s == s[..|s| - 1] + [s[|s| - 1]];
    }
  }

  lemma {:induction false} TrimStartEnds(s: string)
    ensures TrimStart(s) == [] || !IsSpace(TrimStart(s)[0])
    ensures TrimStart(s) == [] <==> forall i :: 0 <= i < |s| ==> IsSpace(s[i])
  {
    if s != [] && IsSpace(s[0]) {
      TrimStartEnds(s[1..]);
      assert s == [s[0]] + s[1..];
    }
  }

  /** A text of white space only is what trims to nothing and has no tokens. */
  lemma BlankText(s: string)
    ensures Trim(s) == [] <==> forall i :: 0 <= i < |s| ==> IsSpace(s[i])
    ensures Trim(s) == [] <==> Words(s) == []
  {
    TrimStartEnds(s);
    TrimEndStarts(TrimStart(s));
    WordsBlank(s);
  }

  lemma {:induction false} WordsBlank(s: string)
    ensures Words(s) == [] <==> forall i :: 0 <= i < |s| ==> IsSpace(s[i])
  {
    WordsOfNone();
    if s != [] {
      assert s == [s[0]] + s[1..];
      if IsSpace(s[0]) {
        WordsBlank(s[1..]);
        WordsAppend([], s[0], s[1..]);
        assert [] + [s[0]] + s[1..] == s;
      }
    }
  }

  // ---------- parsing and printing ----------

  function WordsOfEach(pieces: seq<string>): seq<seq<string>> {
    if pieces == [] then [] else
      var g := Trim(pieces[0]);
      (if g == [] then [] else [Words(g)]) + WordsOfEach(pieces[1..])
  }

  /** The groups of a query, as the dialog and the host both parse it. */
  function ParseGroups(s: string): seq<seq<string>> {
    if Trim(s) == [] then [] else WordsOfEach(Cut(s, IsComma))
  }

  /** The tokens of a group, empty ones and repeats left out. */
  function Dedup(g: seq<string>): (r: seq<string>)
    ensures forall t :: t in r <==> t in g && t != []
    ensures forall i, j :: 0 <= i < j < |r| ==> r[i] != r[j]
  {
    if g == [] then [] else
      var front := Dedup(g[..|g| - 1]);
      var t := g[|g| - 1];
      if t == [] || t in front then front else front + [t]
  }

  function Join(parts: seq<string>, sep: string): string {
    if parts == [] then []
    else if |parts| == 1 then parts[0]
    else parts[0] + sep + Join(parts[1..], sep)
  }

  function PrintedGroups(groups: seq<seq<string>>): seq<string> {
    if groups == [] then [] else
      var g := Join(Dedup(groups[0]), " ");
      (if g == [] then [] else [g]) + PrintedGroups(groups[1..])
  }

  function Serialize(groups: seq<seq<string>>): string {
    Join(PrintedGroups(groups), ", ")
  }

  method Unique(g: seq<string>) returns (uniq: seq<string>)
    ensures uniq == Dedup(g)
  {
    uniq := [];
    for i := 0 to |g|
      invariant uniq == Dedup(g[..i])
    {
      assert g[..i + 1][..i] == g[..i];
      if g[i] != [] && g[i] !in uniq {
        uniq := uniq + [g[i]];
      }
    }
    assert g[..|g|] == g;
  }

  /** The dialog's printing loop. */
  method SerializeGroups(groups: seq<seq<string>>) returns (s: string)
    ensures s == Serialize(groups)
  {
    hide Dedup, Join;
    var printed: seq<string> := [];
    assert groups[0..] == groups;
    for n := 0 to |groups|
      invariant printed + PrintedGroups(groups[n..]) == PrintedGroups(groups)
    {
      var uniq := Unique(groups[n]);
      var text := Join(uniq, " ");
      PrintedStep(groups, n);
      ghost var before := printed;
      if text != [] {
        printed := printed + [text];
      }
      assert printed + PrintedGroups(groups[n + 1..]) == before + PrintedGroups(groups[n..]);
    }
    assert printed + [] == printed;
    s := Join(printed, ", ");
  }

  lemma PrintedStep(groups: seq<seq<string>>, n: int)
    requires 0 <= n < |groups|
    ensures PrintedGroups(groups[n..])
            == (if Join(Dedup(groups[n]), " ") == [] then [] else [Join(Dedup(groups[n]), " ")]) + PrintedGroups(groups[n + 1..])
  {
  }

  function Normalize(q: string): string {
    Serialize(ParseGroups(q))
  }

  // ---------- printing and parsing again ----------

  predicate CleanToken(t: string) {
    t != [] && forall i :: 0 <= i < |t| ==> !IsSpace(t[i]) && !IsComma(t[i])
  }

  /** Every token is clean, or empty and so not printed at all. */
  ghost predicate Printable(groups: seq<seq<string>>) {
    forall g, t :: g in groups && t in g && t != [] ==> CleanToken(t)
  }

  /** The groups without empty and repeated tokens, and without the groups this empties. */
  function Tidy(groups: seq<seq<string>>): seq<seq<string>> {
    if groups == [] then []
    else (if Dedup(groups[0]) == [] then [] else [Dedup(groups[0])]) + Tidy(groups[1..])
  }

  lemma {:induction false} JoinedTokens(tokens: seq<string>)
    requires forall t :: t in tokens ==> CleanToken(t)
    ensures Join(tokens, " ") == [] <==> tokens == []
    ensures forall i :: 0 <= i < |Join(tokens, " ")| ==> !IsComma(Join(tokens, " ")[i])
  {
    if tokens != [] {
      assert CleanToken(tokens[0]);
      JoinedTokens(tokens[1..]);
    }
  }

  lemma {:induction false} WordsOfJoin(tokens: seq<string>)
    requires forall t :: t in tokens ==> CleanToken(t)
    ensures Words(Join(tokens, " ")) == tokens
    ensures Join(tokens, " ") == [] <==> tokens == []
    ensures forall i :: 0 <= i < |Join(tokens, " ")| ==> !IsComma(Join(tokens, " ")[i])
  {
    JoinedTokens(tokens);
    hide Words, CleanToken;
    if tokens == [] {
      WordsOfNone();
    } else {
      WordsOfToken(tokens[0]);
      if |tokens| > 1 {
        WordsOfJoin(tokens[1..]);
        WordsAppend(tokens[0], ' ', Join(tokens[1..], " "));
        assert tokens[0] + " " + Join(tokens[1..], " ") == tokens[0] + [' '] + Join(tokens[1..], " ");
        assert tokens == [tokens[0]] + tokens[1..];
      } else {
        assert tokens == [tokens[0]];
      }
    }
  }

  lemma WordsOfToken(t: string)
    requires CleanToken(t)
    ensures Words(t) == [t]
  {
    CutOne(t, IsSpace);
    assert [t][1..] == [];
    assert NonEmpty<char>([]) == [];
  }

  lemma ParseUniform(s: string)
    ensures ParseGroups(s) == WordsOfEach(Cut(s, IsComma))
  {
    if Trim(s) == [] {
      BlankText(s);
      CutOne(s, IsComma);
      assert [s][1..] == [];
    }
  }

  lemma LeadingSpace(s: string)
    ensures WordsOfEach(Cut([' '] + s, IsComma)) == WordsOfEach(Cut(s, IsComma))
  {
  }

  predicate CommaFree(s: string) {
    forall i :: 0 <= i < |s| ==> !IsComma(s[i])
  }

  lemma WordsOfEachCons(p: string, rest: seq<string>)
    ensures WordsOfEach([p] + rest) == (if Trim(p) == [] then [] else [Words(Trim(p))]) + WordsOfEach(rest)
  {
  }

  /** Joining pieces with commas and cutting again gives the same groups. */
  lemma {:induction false} GroupsOfJoin(pieces: seq<string>)
    requires forall p :: p in pieces ==> CommaFree(p)
    ensures WordsOfEach(Cut(Join(pieces, ", "), IsComma)) == WordsOfEach(pieces)
  {
    hide Words, Trim;
    if pieces == [] {
      CutOne([], IsComma);
      WordsOfEachCons([], []);
      BlankText([]);
    } else {
      assert CommaFree(pieces[0]);
      CutOne(pieces[0], IsComma);
      assert pieces == [pieces[0]] + pieces[1..];
      WordsOfEachCons(pieces[0], pieces[1..]);
      if |pieces| == 1 {
        assert pieces[1..] == [];
      } else {
        var rest := Join(pieces[1..], ", ");
        GroupsOfJoin(pieces[1..]);
        assert pieces[0] + ", " + rest == pieces[0] + [','] + ([' '] + rest);
        CutAppend(pieces[0], ',', [' '] + rest, IsComma);
        LeadingSpace(rest);
        WordsOfEachCons(pieces[0], Cut([' '] + rest, IsComma));
      }
    }
  }

  lemma PrintableTail(groups: seq<seq<string>>)
    requires Printable(groups) && groups != []
    ensures Printable(groups[1..]) && forall t :: t in Dedup(groups[0]) ==> CleanToken(t)
  {
  }

  lemma {:induction false} GroupsOfPrinted(groups: seq<seq<string>>)
    requires Printable(groups)
    ensures WordsOfEach(PrintedGroups(groups)) == Tidy(groups)
    ensures forall p :: p in PrintedGroups(groups) ==> CommaFree(p)
  {
    hide Words, Trim, Dedup, Join, Printable;
    if groups != [] {
      PrintableTail(groups);
      GroupsOfPrinted(groups[1..]);
      var tokens := Dedup(groups[0]);
      var text := Join(tokens, " ");
      WordsOfJoin(tokens);
      BlankText(text);
      WordsTrim(text);
      WordsOfEachCons(text, PrintedGroups(groups[1..]));
      if text == [] {
        assert PrintedGroups(groups) == PrintedGroups(groups[1..]);
        assert Tidy(groups) == Tidy(groups[1..]);
      } else {
        assert PrintedGroups(groups) == [text] + PrintedGroups(groups[1..]);
      }
    }
  }

  // ---------- the tokens of a parse ----------

  lemma {:induction false} CutChars(s: string, sep: char -> bool, i: int, j: int)
    requires 0 <= i < |Cut(s, sep)| && 0 <= j < |Cut(s, sep)[i]|
    ensures Cut(s, sep)[i][j] in s
    decreases |s|
  {
    if s != [] {
      if sep(s[0]) {
        CutChars(s[1..], sep, i - 1, j);
      } else if i > 0 {
        CutChars(s[1..], sep, i, j);
      } else if j > 0 {
        CutChars(s[1..], sep, 0, j - 1);
      }
    }
  }

  lemma {:induction false} NonEmptyMembers<T>(ss: seq<seq<T>>)
    ensures forall x :: x in NonEmpty(ss) <==> x in ss && x != []
  {
    if ss != [] {
      NonEmptyMembers(ss[1..]);
      assert forall x :: x in ss <==> x == ss[0] || x in ss[1..];
    }
  }

  lemma WordsAreClean(s: string, t: string)
    requires CommaFree(s) && t in Words(s)
    ensures CleanToken(t)
  {
    NonEmptyMembers(Cut(s, IsSpace));
    var i :| 0 <= i < |Cut(s, IsSpace)| && Cut(s, IsSpace)[i] == t;
    forall j | 0 <= j < |t|
      ensures !IsSpace(t[j]) && !IsComma(t[j])
    {
      CutChars(s, IsSpace, i, j);
    }
  }

  lemma {:induction false} EachIsClean(pieces: seq<string>)
    requires forall p :: p in pieces ==> CommaFree(p)
    ensures forall g, t :: g in WordsOfEach(pieces) && t in g ==> CleanToken(t)
    ensures forall g :: g in WordsOfEach(pieces) ==> g != []
  {
    hide Words, Trim;
    if pieces != [] {
      EachIsClean(pieces[1..]);
      var p := pieces[0];
      WordsTrim(p);
      BlankText(p);
      assert pieces == [p] + pieces[1..];
      WordsOfEachCons(p, pieces[1..]);
      forall t | t in Words(p)
        ensures CleanToken(t)
      {
        WordsAreClean(p, t);
      }
    }
  }

  /** A parse gives no empty group and only clean tokens. */
  lemma ParseIsClean(q: string)
    ensures forall g, t :: g in ParseGroups(q) && t in g ==> CleanToken(t)
    ensures forall g :: g in ParseGroups(q) ==> g != []
    ensures Printable(ParseGroups(q))
  {
    ParseUniform(q);
    var pieces := Cut(q, IsComma);
    forall p | p in pieces
      ensures CommaFree(p)
    {
    }
    EachIsClean(pieces);
  }

  lemma {:induction false} TidyKeepsTokens(groups: seq<seq<string>>, g: seq<string>, t: string)
    requires g in groups && t in g && t != []
    ensures exists h :: h in Tidy(groups) && t in h
  {
    hide Dedup;
    if g == groups[0] {
      assert t in Dedup(groups[0]);
      assert Dedup(groups[0]) in Tidy(groups);
    } else {
      TidyKeepsTokens(groups[1..], g, t);
      var h :| h in Tidy(groups[1..]) && t in h;
      assert h in Tidy(groups);
    }
  }

  /** Printing and parsing give the groups back, tidied, exactly when every token is printable. */
  lemma ParseOfSerialize(groups: seq<seq<string>>)
    ensures ParseGroups(Serialize(groups)) == Tidy(groups) <==> Printable(groups)
  {
    hide ParseGroups, Tidy;
    if Printable(groups) {
      ParseUniform(Serialize(groups));
      GroupsOfPrinted(groups);
      GroupsOfJoin(PrintedGroups(groups));
    }
    if ParseGroups(Serialize(groups)) == Tidy(groups) {
      ParseIsClean(Serialize(groups));
      forall g, t | g in groups && t in g && t != []
        ensures CleanToken(t)
      {
        TidyKeepsTokens(groups, g, t);
      }
    }
  }

  lemma {:induction false} DedupOfDistinct(g: seq<string>)
    requires forall i :: 0 <= i < |g| ==> g[i] != []
    requires forall i, j :: 0 <= i < j < |g| ==> g[i] != g[j]
    ensures Dedup(g) == g
  {
    if g != [] {
      DedupOfDistinct(g[..|g| - 1]);
      assert g == g[..|g| - 1] + [g[|g| - 1]];
    }
  }

  lemma {:induction false} PrintedOfTidy(groups: seq<seq<string>>)
    ensures PrintedGroups(Tidy(groups)) == PrintedGroups(groups)
  {
    hide Join;
    if groups != [] {
      PrintedOfTidy(groups[1..]);
      var g := Dedup(groups[0]);
      assert forall i :: 0 <= i < |g| ==> g[i] in g;
      DedupOfDistinct(g);
      if g == [] {
        JoinOfNone();
        assert Tidy(groups) == Tidy(groups[1..]);
      } else {
        assert Tidy(groups) == [g] + Tidy(groups[1..]);
        assert ([g] + Tidy(groups[1..]))[1..] == Tidy(groups[1..]);
      }
    }
  }

  lemma JoinOfNone()
    ensures Join([], " ") == []
  {
  }

  /** Normalising twice is normalising once. */
  lemma NormalizeTwice(q: string)
    ensures Normalize(Normalize(q)) == Normalize(q)
  {
    ParseIsClean(q);
    ParseOfSerialize(ParseGroups(q));
    PrintedOfTidy(ParseGroups(q));
  }

  /** A token with a space in it does not survive printing. */
  lemma SpacedTokenIsSplit()
    ensures ParseGroups(Serialize([["a b"]])) != Tidy([["a b"]])
  {
    hide ParseGroups, Serialize, Tidy;
    var groups := [["a b"]];
    assert groups[0] in groups && groups[0][0] in groups[0];
    assert groups[0][0][1] == ' ';
    ParseOfSerialize(groups);
  }
}
