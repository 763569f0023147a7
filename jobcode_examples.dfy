/** improve_jobcode_description on "ASSOC PROF", step by step.  The step for "Ass"
    (line 196) runs before the one for "Assoc " (line 204) and leaves it nothing to
    expand, so the title comes out as "Assistantoc Professor". */
module JobcodeExamples {
  import opened Text
  import opened Jobcode

  /** The title after padding, after the step of line 196 and after that of line 206. */
  const AssocProf := "Assoc Prof "
  const AfterAss := "Assistantoc Prof "
  const AfterProf := "Assistantoc Professor "

  /** A pattern holding a character the text lacks does not occur in it. */
  lemma AbsentChar(s: string, p: string, k: int)
    requires 0 <= k < |p| && p[k] !in s
    ensures !Occurs(s, p)
  {
    forall i | 0 <= i <= |s|
      ensures !StartsWith(s[i..], p)
    {
      if |p| <= |s| - i {
        assert s[i..][..|p|][k] == s[i + k];
        assert s[i + k] in s;
      }
    }
  }

  /** A pattern holding two adjacent characters that are never adjacent in the text
      does not occur in it. */
  lemma AbsentPair(s: string, p: string, k: int)
    requires 0 <= k && k + 1 < |p|
    requires forall i :: 0 <= i < |s| - 1 ==> s[i] != p[k] || s[i + 1] != p[k + 1]
    ensures !Occurs(s, p)
  {
    forall i | 0 <= i <= |s|
      ensures !StartsWith(s[i..], p)
    {
      if |p| <= |s| - i {
        assert s[i..][..|p|][k] == s[i + k] && s[i..][..|p|][k + 1] == s[i + k + 1];
        assert s[i + k] != p[k] || s[i + k + 1] != p[k + 1];
      }
    }
  }

  /** Text that starts with the pattern, followed by text without it. */
  lemma ReplaceAtStart(p: string, r: string, rest: string)
    requires |p| > 0 && !Occurs(rest, p)
    ensures ReplaceAll(p + rest, p, r) == r + rest
  {
    var s := p + rest;
    assert s[..|p|] == p && s[|p|..] == rest;
    ReplaceAbsent(rest, p, r);
  }

  /** Every character of `t` is in `cs`, and every two adjacent ones are in `ps`. */
  predicate Covers(cs: set<char>, ps: set<(char, char)>, t: string)
  {
    (forall i :: 0 <= i < |t| ==> t[i] in cs)
    && (forall i :: 0 <= i < |t| - 1 ==> (t[i], t[i + 1]) in ps)
  }

  const AssocProfChars: set<char> := {'A', 's', 'o', 'c', ' ', 'P', 'r', 'f'}
  const AssocProfPairs: set<(char, char)> :=
    {('A', 's'), ('s', 's'), ('s', 'o'), ('o', 'c'), ('c', ' '), (' ', 'P'), ('P', 'r'),
     ('r', 'o'), ('o', 'f'), ('f', ' ')}
  const AfterAssChars: set<char> := {'A', 's', 'i', 't', 'a', 'n', 'o', 'c', ' ', 'P', 'r', 'f'}
  const AfterAssPairs: set<(char, char)> :=
    {('A', 's'), ('s', 's'), ('s', 'i'), ('i', 's'), ('s', 't'), ('t', 'a'), ('a', 'n'),
     ('n', 't'), ('t', 'o'), ('o', 'c'), ('c', ' '), (' ', 'P'), ('P', 'r'), ('r', 'o'),
     ('o', 'f'), ('f', ' ')}
  const AfterProfChars: set<char> := {'A', 's', 'i', 't', 'a', 'n', 'o', 'c', ' ', 'P', 'r', 'f', 'e'}
  const AfterProfPairs: set<(char, char)> :=
    {('A', 's'), ('s', 's'), ('s', 'i'), ('i', 's'), ('s', 't'), ('t', 'a'), ('a', 'n'),
     ('n', 't'), ('t', 'o'), ('o', 'c'), ('c', ' '), (' ', 'P'), ('P', 'r'), ('r', 'o'),
     ('o', 'f'), ('f', 'e'), ('e', 's'), ('s', 'o'), ('o', 'r'), ('r', ' ')}

  lemma AssocProfCovered(t: string)
    requires t == AssocProf
    ensures Covers(AssocProfChars, AssocProfPairs, t)
  {
  }

  lemma AfterAssCovered(t: string)
    requires t == AfterAss
    ensures Covers(AfterAssChars, AfterAssPairs, t)
  {
  }

  lemma AfterProfCovered(t: string)
    requires t == AfterProf
    ensures Covers(AfterProfChars, AfterProfPairs, t)
  {
  }

  /** Why a pattern cannot occur in a text: its character at `k` is missing from the
      text, or its characters at `k` and `k + 1` are never adjacent in it. */
  datatype Witness = Char(k: int) | Pair(k: int)

  predicate Lacks(cs: set<char>, ps: set<(char, char)>, p: string, w: Witness)
  {
    match w
    case Char(k) => 0 <= k < |p| && p[k] !in cs
    case Pair(k) => 0 <= k && k + 1 < |p| && (p[k], p[k + 1]) !in ps
  }

  lemma LacksAbsent(t: string, cs: set<char>, ps: set<(char, char)>, p: string, w: Witness)
    requires Covers(cs, ps, t) && Lacks(cs, ps, p, w)
    ensures |p| > 0 && !Occurs(t, p)
  {
    match w
    case Char(k) => AbsentChar(t, p, k);
    case Pair(k) => AbsentPair(t, p, k);
  }

  /** Steps `m..n`, each with a witness that its pattern cannot occur in the text `u`
      the first `m` steps produce, leave `u` alone. */
  lemma ApplyLacking(t: string, rules: seq<Rule>, m: nat, n: nat, u: string,
                     cs: set<char>, ps: set<(char, char)>, ws: seq<Witness>)
    requires m <= n <= |rules| && |ws| == n - m
    requires ApplyRules(t, rules[..m]) == u && Covers(cs, ps, u)
    requires forall i :: m <= i < n ==> Lacks(cs, ps, rules[i].pattern, ws[i - m])
    ensures ApplyRules(t, rules[..n]) == u
  {
    forall i | m <= i < n
      ensures |rules[i].pattern| > 0 && !Occurs(ApplyRules(t, rules[..m]), rules[i].pattern)
    {
      LacksAbsent(u, cs, ps, rules[i].pattern, ws[i - m]);
    }
    ApplyWindow(t, rules, m, n);
  }

  /** A whole list of steps with witnesses leaves the text alone. */
  lemma ApplyAllLacking(t: string, rules: seq<Rule>,
                        cs: set<char>, ps: set<(char, char)>, ws: seq<Witness>)
    requires |ws| == |rules| && Covers(cs, ps, t)
    requires forall i :: 0 <= i < |rules| ==> Lacks(cs, ps, rules[i].pattern, ws[i])
    ensures ApplyRules(t, rules) == t
  {
    assert rules[..0] == [] && rules[..|rules|] == rules;
    ApplyLacking(t, rules, 0, |rules|, t, cs, ps, ws);
  }

  /** Matching cannot start inside a prefix that lacks the pattern's first character. */
  lemma {:induction false} ReplaceAfter(a: string, rest: string, p: string, r: string)
    requires |p| > 0 && p[0] !in a
    ensures ReplaceAll(a + rest, p, r) == a + ReplaceAll(rest, p, r)
    decreases |a|
  {
    if a == [] {
      assert a + rest == rest;
    } else {
      var s := a + rest;
      assert s[0] == a[0] && s[1..] == a[1..] + rest;
      ReplaceAfter(a[1..], rest, p, r);
      if |s| < |p| {
        assert ReplaceAll(rest, p, r) == rest;
      } else {
        assert s[..|p|][0] == a[0];
        assert ReplaceAll(s, p, r) == [s[0]] + ReplaceAll(s[1..], p, r);
        assert a == [a[0]] + a[1..];
      }
    }
  }

  lemma PaddedAssocProf()
    ensures Padded("ASSOC PROF") == "Assoc Prof "
  {
    var s := "ASSOC PROF";
    var l := "assoc prof";
    var t := "Assoc Prof";
    assert forall i :: 0 <= i < |s| ==> Lower(s)[i] == l[i];
    assert Lower(s) == l;
    forall i | 0 <= i < |l|
      ensures Title(l)[i] == t[i]
    {
      TitleAt(l, i);
    }
    assert Title(l) == t;
  }

  /** Line 196 rewrites the leading "Ass". */
  lemma AssRewritesAssoc(t: string)
    requires t == AssocProf
    ensures ReplaceAll(t, "Ass", "Assistant") == AfterAss
  {
    assert t == "Ass" + "oc Prof ";
    assert AfterAss == "Assistant" + "oc Prof ";
    AbsentChar("oc Prof ", "Ass", 0);
    ReplaceAtStart("Ass", "Assistant", "oc Prof ");
  }

  /** Line 206 rewrites the trailing "Prof ". */
  lemma ProfRewritten(t: string)
    requires t == AfterAss
    ensures ReplaceAll(t, "Prof ", "Professor ") == AfterProf
  {
    var a := "Assistantoc ";
    assert t == a + "Prof " && AfterProf == a + "Professor ";
    ReplaceAfter(a, "Prof ", "Prof ", "Professor ");
    assert "Prof "[..5] == "Prof " && "Prof "[5..] == [];
  }

  /** Lines 183-188 find nothing in the padded title. */
  lemma SeparatorRulesUnchanged(t: string)
    requires t == AssocProf
    ensures ApplyRules(t, SeparatorRules) == t
  {
    AssocProfCovered(t);
    ApplyAllLacking(t, SeparatorRules, AssocProfChars, AssocProfPairs,
      [Char(0), Pair(0), Char(0), Char(0), Char(0), Char(0)]);
  }

  lemma Expansions189To198OnAssocProfHead(t: string)
    requires t == AssocProf
    ensures ApplyRules(t, Expansions189To198[..7]) == t
  {
    assert Expansions189To198[..0] == [];
    AssocProfCovered(t);
    ApplyLacking(t, Expansions189To198, 0, 7, t, AssocProfChars, AssocProfPairs,
      [Char(2), Char(2), Char(1), Char(1), Char(1), Char(1), Char(1)]);
  }

  lemma Expansions189To198OnAssocProfTail(t: string, u: string)
    requires u == AfterAss && ApplyRules(t, Expansions189To198[..8]) == u
    ensures ApplyRules(t, Expansions189To198) == u
  {
    assert Expansions189To198[..10] == Expansions189To198;
    AfterAssCovered(u);
    ApplyLacking(t, Expansions189To198, 8, 10, u, AfterAssChars, AfterAssPairs, [Char(4), Char(4)]);
  }

  /** Lines 189-198: only the step for "Ass" (line 196) changes the title. */
  lemma Expansions189To198OnAssocProf(t: string)
    requires t == AssocProf
    ensures ApplyRules(t, Expansions189To198) == AfterAss
  {
    Expansions189To198OnAssocProfHead(t);
    ApplyNext(t, Expansions189To198, 7);
    assert Expansions189To198[7] == Rule("Ass", "Assistant");
    AssRewritesAssoc(t);
    Expansions189To198OnAssocProfTail(t, AfterAss);
  }

  lemma Expansions199To208OnAfterAssHead(t: string)
    requires t == AfterAss
    ensures ApplyRules(t, Expansions199To208[..7]) == t
  {
    assert Expansions199To208[..0] == [];
    AfterAssCovered(t);
    ApplyLacking(t, Expansions199To208, 0, 7, t, AfterAssChars, AfterAssPairs,
      [Char(4), Pair(2), Char(3), Pair(1), Pair(1), Pair(2), Char(0)]);
  }

  lemma Expansions199To208OnAfterAssTail(t: string, u: string)
    requires u == AfterProf && ApplyRules(t, Expansions199To208[..8]) == u
    ensures ApplyRules(t, Expansions199To208) == u
  {
    assert Expansions199To208[..10] == Expansions199To208;
    AfterProfCovered(u);
    ApplyLacking(t, Expansions199To208, 8, 10, u, AfterProfChars, AfterProfPairs, [Char(0), Char(0)]);
  }

  /** Lines 199-208: the step for "Assoc " (line 204) finds nothing, and only the step
      for "Prof " (line 206) changes the title. */
  lemma Expansions199To208OnAfterAss(t: string)
    requires t == AfterAss
    ensures ApplyRules(t, Expansions199To208) == AfterProf
  {
    Expansions199To208OnAfterAssHead(t);
    ApplyNext(t, Expansions199To208, 7);
    assert Expansions199To208[7] == Rule("Prof ", "Professor ");
    ProfRewritten(t);
    Expansions199To208OnAfterAssTail(t, AfterProf);
  }

  /** Lines 209-306 find nothing in "Assistantoc Professor ". */
  lemma Expansions209To218Unchanged(t: string)
    requires t == AfterProf
    ensures ApplyRules(t, Expansions209To218) == t
  {
    AfterProfCovered(t);
    ApplyAllLacking(t, Expansions209To218, AfterProfChars, AfterProfPairs,
      [Char(1), Char(0), Char(0), Char(0), Char(0), Char(0), Char(0), Char(0), Char(0), Char(0)]);
  }

  lemma Expansions219To228Unchanged(t: string)
    requires t == AfterProf
    ensures ApplyRules(t, Expansions219To228) == t
  {
    AfterProfCovered(t);
    ApplyAllLacking(t, Expansions219To228, AfterProfChars, AfterProfPairs,
      [Char(0), Char(0), Char(0), Char(0), Char(0), Char(2), Char(0), Pair(0), Char(0), Char(0)]);
  }

  lemma Expansions229To238Unchanged(t: string)
    requires t == AfterProf
    ensures ApplyRules(t, Expansions229To238) == t
  {
    AfterProfCovered(t);
    ApplyAllLacking(t, Expansions229To238, AfterProfChars, AfterProfPairs,
      [Char(0), Char(3), Char(0), Char(0), Char(0), Char(0), Char(0), Char(0), Char(0), Char(0)]);
  }

  lemma Expansions239To248Unchanged(t: string)
    requires t == AfterProf
    ensures ApplyRules(t, Expansions239To248) == t
  {
    AfterProfCovered(t);
    ApplyAllLacking(t, Expansions239To248, AfterProfChars, AfterProfPairs,
      [Char(0), Char(0), Char(0), Char(0), Char(0), Char(0), Char(0), Char(0), Char(0), Char(0)]);
  }

  lemma Expansions249To258Unchanged(t: string)
    requires t == AfterProf
    ensures ApplyRules(t, Expansions249To258) == t
  {
    AfterProfCovered(t);
    ApplyAllLacking(t, Expansions249To258, AfterProfChars, AfterProfPairs,
      [Char(1), Char(0), Char(0), Char(0), Char(0), Char(0), Pair(1), Char(4), Char(4), Char(0)]);
  }

  lemma Expansions259To268Unchanged(t: string)
    requires t == AfterProf
    ensures ApplyRules(t, Expansions259To268) == t
  {
    AfterProfCovered(t);
    ApplyAllLacking(t, Expansions259To268, AfterProfChars, AfterProfPairs,
      [Char(0), Char(3), Char(1), Char(0), Char(0), Char(0), Char(0), Char(0), Char(1), Char(3)]);
  }

  lemma Expansions269To278Unchanged(t: string)
    requires t == AfterProf
    ensures ApplyRules(t, Expansions269To278) == t
  {
    AfterProfCovered(t);
    ApplyAllLacking(t, Expansions269To278, AfterProfChars, AfterProfPairs,
      [Pair(1), Char(0), Char(0), Char(0), Char(0), Char(0), Char(0), Char(0), Char(0), Char(0)]);
  }

  lemma Expansions279To288Unchanged(t: string)
    requires t == AfterProf
    ensures ApplyRules(t, Expansions279To288) == t
  {
    AfterProfCovered(t);
    ApplyAllLacking(t, Expansions279To288, AfterProfChars, AfterProfPairs,
      [Char(0), Char(0), Char(0), Char(0), Char(0), Char(0), Char(0), Char(1), Char(0), Char(0)]);
  }

  lemma Expansions289To298Unchanged(t: string)
    requires t == AfterProf
    ensures ApplyRules(t, Expansions289To298) == t
  {
    AfterProfCovered(t);
    ApplyAllLacking(t, Expansions289To298, AfterProfChars, AfterProfPairs,
      [Char(0), Char(0), Char(0), Char(0), Char(0), Char(0), Char(1), Char(0), Char(0), Char(0)]);
  }

  lemma Expansions299To302Unchanged(t: string)
    requires t == AfterProf
    ensures ApplyRules(t, Expansions299To302) == t
  {
    AfterProfCovered(t);
    ApplyAllLacking(t, Expansions299To302, AfterProfChars, AfterProfPairs,
      [Char(0), Char(4), Char(0), Char(0)]);
  }

  lemma RestoreRulesUnchanged(t: string)
    requires t == AfterProf
    ensures ApplyRules(t, RestoreRules) == t
  {
    AfterProfCovered(t);
    ApplyAllLacking(t, RestoreRules, AfterProfChars, AfterProfPairs,
      [Char(1), Char(1), Char(1), Char(1)]);
  }

  lemma ExpansionsOnAssocProf(t: string)
    requires t == AssocProf
    ensures ApplyRules(t, Expansions) == AfterProf
  {
    Expansions189To198OnAssocProf(t);
    Expansions199To208OnAfterAss(AfterAss);
    ApplyRulesAppend(t, Expansions189To198, Expansions199To208);
    var done := Expansions189To198 + Expansions199To208;
    Expansions209To218Unchanged(AfterProf);
    ApplyRulesAppend(t, done, Expansions209To218);
    done := done + Expansions209To218;
    Expansions219To228Unchanged(AfterProf);
    ApplyRulesAppend(t, done, Expansions219To228);
    done := done + Expansions219To228;
    Expansions229To238Unchanged(AfterProf);
    ApplyRulesAppend(t, done, Expansions229To238);
    done := done + Expansions229To238;
    Expansions239To248Unchanged(AfterProf);
    ApplyRulesAppend(t, done, Expansions239To248);
    done := done + Expansions239To248;
    Expansions249To258Unchanged(AfterProf);
    ApplyRulesAppend(t, done, Expansions249To258);
    done := done + Expansions249To258;
    Expansions259To268Unchanged(AfterProf);
    ApplyRulesAppend(t, done, Expansions259To268);
    done := done + Expansions259To268;
    Expansions269To278Unchanged(AfterProf);
    ApplyRulesAppend(t, done, Expansions269To278);
    done := done + Expansions269To278;
    Expansions279To288Unchanged(AfterProf);
    ApplyRulesAppend(t, done, Expansions279To288);
    done := done + Expansions279To288;
    Expansions289To298Unchanged(AfterProf);
    ApplyRulesAppend(t, done, Expansions289To298);
    done := done + Expansions289To298;
    Expansions299To302Unchanged(AfterProf);
    ApplyRulesAppend(t, done, Expansions299To302);
    done := done + Expansions299To302;
    assert done == Expansions;
  }

  /** "ASSOC PROF" becomes "Assistantoc Professor": the abbreviation "Assoc" is never
      expanded to "Associate", because the step for "Ass" (line 196) runs first. */
  lemma AssocProfTitle()
    ensures ImproveJobcodeDescription("ASSOC PROF") == "Assistantoc Professor"
  {
    var t := Padded("ASSOC PROF");
    PaddedAssocProf();
    SeparatorRulesUnchanged(t);
    ExpansionsOnAssocProf(t);
    RestoreRulesUnchanged(AfterProf);
    ApplyRulesAppend(t, SeparatorRules, Expansions);
    ApplyRulesAppend(t, SeparatorRules + Expansions, RestoreRules);
    assert AfterProf[..|AfterProf| - 1] == "Assistantoc Professor";
  }
}
