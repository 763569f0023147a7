/** improve_jobcode_description: an HR job title, abbreviated to fit a short field,
    is expanded by a fixed ordered list of text replacements. */
module Jobcode {
  import opened Text

  /** One rewriting step: every occurrence of `pattern` in the title becomes `replacement`. */
  datatype Rule = Rule(pattern: string, replacement: string)

  /** Lines 183-188: collapse ", ," and double blanks, and turn '/', ',' and '-' into
      " @", " !" and " #", so that an abbreviation before them is followed by a blank. */
  const SeparatorRules: seq<Rule> := [
    Rule(", ,", ","),  // 183
    Rule("  ", " "),  // 184
    Rule("/", " @"),  // 185
    Rule("/", " @"),  // 186
    Rule(",", " !"),  // 187
    Rule("-", " #")   // 188
  ]

  /** Lines 189-198: abbreviations expanded. */
  const Expansions189To198: seq<Rule> := [
    Rule("Aca ", "Academic "),  // 189
    Rule("Act ", "Acting "),  // 190
    Rule("Advanc ", "Advanced "),  // 191
    Rule("Adv ", "Advisory "),  // 192
    Rule("Agric ", "Agricultural "),  // 193
    Rule("Alumn Aff ", "Alumni Affairs "),  // 194
    Rule("Anal", "Analyst"),  // 195
    Rule("Ass", "Assistant"),  // 196
    Rule("Ast #R ", "Research Assistant "),  // 197
    Rule("Ast #G ", "Grading Assistant ")   // 198
  ]

  /** Lines 199-208: abbreviations expanded. */
  const Expansions199To208: seq<Rule> := [
    Rule("Ast #T ", "Teaching Assistant "),  // 199
    Rule("Ast ", "Assistant "),  // 200
    Rule("Affl ", "Affiliate "),  // 201
    Rule("Aso ", "Associate "),  // 202
    Rule("Asoc ", "Associate "),  // 203
    Rule("Assoc ", "Associate "),  // 204
    Rule("Bio ", "Biological "),  // 205
    Rule("Prof ", "Professor "),  // 206
    Rule("Mstr ", "Master "),  // 207
    Rule("Couns ", "Counselor ")   // 208
  ]

  /** Lines 209-218: abbreviations expanded. */
  const Expansions209To218: seq<Rule> := [
    Rule("Adj ", "Adjunct "),  // 209
    Rule("Dist ", "Distinguished "),  // 210
    Rule("Chem", "Chemist"),  // 211
    Rule("Chr ", "Chair "),  // 212
    Rule("Cio ", "Chief Information Officer "),  // 213
    Rule("Comm", "Communications"),  // 214
    Rule("Coo ", "Chief Operating Officer "),  // 215
    Rule("Coord ", "Coordinator "),  // 216
    Rule("Co ", "Courtesy "),  // 217
    Rule("Clin ", "Clinical ")   // 218
  ]

  /** Lines 219-228: abbreviations expanded. */
  const Expansions219To228: seq<Rule> := [
    Rule("Clrk", "Clerk"),  // 219
    Rule("Dn ", "Dean "),  // 220
    Rule("Fin", "Financial"),  // 221
    Rule("Finan ", "Financial "),  // 222
    Rule("Stu ", "Student "),  // 223
    Rule("Prg ", "Program "),  // 224
    Rule("Dev ", "Development "),  // 225
    Rule("Aff ", "Affiliate "),  // 226
    Rule("Svcs ", "Services "),  // 227
    Rule("Devel ", "Development ")   // 228
  ]

  /** Lines 229-238: abbreviations expanded. */
  const Expansions229To238: seq<Rule> := [
    Rule("Tech ", "Technician "),  // 229
    Rule("Progs ", "Programs "),  // 230
    Rule("Facil ", "Facility "),  // 231
    Rule("Hlt", "Health"),  // 232
    Rule("Hlth ", "Health "),  // 233
    Rule("Int ", "Interim "),  // 234
    Rule("Sctst ", "Scientist "),  // 235
    Rule("Supp ", "Support "),  // 236
    Rule("Cty ", "County "),  // 237
    Rule("Ext ", "Extension ")   // 238
  ]

  /** Lines 239-248: abbreviations expanded. */
  const Expansions239To248: seq<Rule> := [
    Rule("Emer ", "Emeritus "),  // 239
    Rule("Enforce ", "Enforcement "),  // 240
    Rule("Environ ", "Environmental "),  // 241
    Rule("Gen ", "General "),  // 242
    Rule("Grd", "Graduate"),  // 243
    Rule("Jnt ", "Joint "),  // 244
    Rule("Jr", "Junior"),  // 245
    Rule("Eng ", "Engineer "),  // 246
    Rule("Ctr ", "Center "),  // 247
    Rule("Opr ", "Operator ")   // 248
  ]

  /** Lines 249-258: abbreviations expanded. */
  const Expansions249To258: seq<Rule> := [
    Rule("Admin ", "Administrative "),  // 249
    Rule("Dis ", "Distinguished "),  // 250
    Rule("Ser ", "Service "),  // 251
    Rule("Rep ", "Representative "),  // 252
    Rule("Radiol ", "Radiology "),  // 253
    Rule("Technol ", "Technologist "),  // 254
    Rule("Pres ", "President "),  // 255
    Rule("Pres5 ", "President 5 "),  // 256
    Rule("Pres6 ", "President 6 "),  // 257
    Rule("Emin ", "Eminent ")   // 258
  ]

  /** Lines 259-268: abbreviations expanded. */
  const Expansions259To268: seq<Rule> := [
    Rule("Cfo ", "Chief Financial Officer "),  // 259
    Rule("Prov ", "Provisional "),  // 260
    Rule("Adm ", "Administrator "),  // 261
    Rule("Info ", "Information "),  // 262
    Rule("It ", "Information Technology "),  // 263
    Rule("Mgr ", "Manager "),  // 264
    Rule("Mgt ", "Management "),  // 265
    Rule("Vis ", "Visiting "),  // 266
    Rule("Phas ", "Phased "),  // 267
    Rule("Prog ", "Programmer ")   // 268
  ]

  /** Lines 269-278: abbreviations expanded. */
  const Expansions269To278: seq<Rule> := [
    Rule("Pract ", "Practitioner "),  // 269
    Rule("Registr ", "Registration "),  // 270
    Rule("Rsch ", "Research "),  // 271
    Rule("Rsrh ", "Research "),  // 272
    Rule("Ret ", "Retirement "),  // 273
    Rule("Sch ", "School "),  // 274
    Rule("Sci ", "Scientist "),  // 275
    Rule("Svcs ", "Services "),  // 276
    Rule("Serv ", "Service "),  // 277
    Rule("Tch ", "Teaching ")   // 278
  ]

  /** Lines 279-288: abbreviations expanded. */
  const Expansions279To288: seq<Rule> := [
    Rule("Tele ", "Telecommunications "),  // 279
    Rule("Tv ", "TV "),  // 280
    Rule("Univ ", "University "),  // 281
    Rule("Educ ", "Education "),  // 282
    Rule("Crd ", "Coordinator "),  // 283
    Rule("Res ", "Research "),  // 284
    Rule("Dir ", "Director "),  // 285
    Rule("Pky ", "PK Yonge "),  // 286
    Rule("Rcv ", "Receiving "),  // 287
    Rule("Sr ", "Senior ")   // 288
  ]

  /** Lines 289-298: abbreviations expanded. */
  const Expansions289To298: seq<Rule> := [
    Rule("Spec ", "Specialist "),  // 289
    Rule("Spc ", "Specialist "),  // 290
    Rule("Spv ", "Supervisor "),  // 291
    Rule("Supv ", "Supervisor "),  // 292
    Rule("Supt ", "Superintendant "),  // 293
    Rule("Stud", "Student"),  // 294
    Rule("Pky ", "P. K. Yonge "),  // 295
    Rule("Ii ", "II "),  // 296
    Rule("Iii ", "III "),  // 297
    Rule("Iv ", "IV ")   // 298
  ]

  /** Lines 299-302: abbreviations expanded. */
  const Expansions299To302: seq<Rule> := [
    Rule("Communic ", "Communications "),  // 299
    Rule("Postdoc ", "Postdoctoral "),  // 300
    Rule("Tech ", "Technician "),  // 301
    Rule("Vp ", "Vice President ")   // 302
  ]

  /** Lines 303-306: restore '/', ',' and '-'. */
  const RestoreRules: seq<Rule> := [
    Rule(" @", "/"),  // 303
    Rule(" @", "/"),  // 304
    Rule(" !", ","),  // 305
    Rule(" #", "-")   // 306
  ]

  /** The abbreviation steps of lines 189-302, in source order. */
  const Expansions: seq<Rule> :=
    Expansions189To198 + Expansions199To208 + Expansions209To218 +
    Expansions219To228 + Expansions229To238 + Expansions239To248 +
    Expansions249To258 + Expansions259To268 + Expansions269To278 +
    Expansions279To288 + Expansions289To298 + Expansions299To302

  /** Every replacement step, in source order. */
  const Rules: seq<Rule> := SeparatorRules + Expansions + RestoreRules

  /** Apply the replacement steps one after another. */
  function ApplyRules(t: string, rules: seq<Rule>): string
    decreases |rules|
  {
    if rules == [] then t
    else ApplyRules(ReplaceAll(t, rules[0].pattern, rules[0].replacement), rules[1..])
  }

  /** `t[:-1]` */
  function DropLast(t: string): (r: string)
    ensures |t| > 0 ==> r + [t[|t| - 1]] == t
    ensures |t| == 0 ==> r == []
  {
    if |t| == 0 then [] else t[..|t| - 1]
  }

  /** The title-cased text with one blank of padding after it (lines 178-181). */
  function Padded(s: string): (t: string)
    ensures |t| == |s| + 1 && EndsWithBlank(t)
    ensures t[..|s|] == Title(Lower(s))
  {
    Title(Lower(s)) + " "
  }

  function ImproveJobcodeDescription(s: string): string
  {
    DropLast(ApplyRules(Padded(s), Rules))
  }

  /** A step with a non-empty pattern, whose replacement ends with a blank when its
      pattern does. */
  predicate KeepsBlank(rule: Rule)
  {
    |rule.pattern| > 0 && (EndsWithBlank(rule.pattern) ==> EndsWithBlank(rule.replacement))
  }

  predicate AllKeepBlank(rules: seq<Rule>)
  {
    forall i :: 0 <= i < |rules| ==> KeepsBlank(rules[i])
  }

  lemma AllKeepBlankAppend(a: seq<Rule>, b: seq<Rule>)
    requires AllKeepBlank(a) && AllKeepBlank(b)
    ensures AllKeepBlank(a + b)
  {
    forall i | 0 <= i < |a + b|
      ensures KeepsBlank((a + b)[i])
    {
      if i < |a| {
        assert (a + b)[i] == a[i];
      } else {
        assert (a + b)[i] == b[i - |a|];
      }
    }
  }

  lemma SeparatorRulesKeepBlank() ensures AllKeepBlank(SeparatorRules) {}
  lemma RestoreRulesKeepBlank() ensures AllKeepBlank(RestoreRules) {}
  lemma Expansions189To198KeepBlank() ensures AllKeepBlank(Expansions189To198) {}
  lemma Expansions199To208KeepBlank() ensures AllKeepBlank(Expansions199To208) {}
  lemma Expansions209To218KeepBlank() ensures AllKeepBlank(Expansions209To218) {}
  lemma Expansions219To228KeepBlank() ensures AllKeepBlank(Expansions219To228) {}
  lemma Expansions229To238KeepBlank() ensures AllKeepBlank(Expansions229To238) {}
  lemma Expansions239To248KeepBlank() ensures AllKeepBlank(Expansions239To248) {}
  lemma Expansions249To258KeepBlank() ensures AllKeepBlank(Expansions249To258) {}
  lemma Expansions259To268KeepBlank() ensures AllKeepBlank(Expansions259To268) {}
  lemma Expansions269To278KeepBlank() ensures AllKeepBlank(Expansions269To278) {}
  lemma Expansions279To288KeepBlank() ensures AllKeepBlank(Expansions279To288) {}
  lemma Expansions289To298KeepBlank() ensures AllKeepBlank(Expansions289To298) {}
  lemma Expansions299To302KeepBlank() ensures AllKeepBlank(Expansions299To302) {}

  lemma ExpansionsKeepBlank()
    ensures AllKeepBlank(Expansions)
  {
    Expansions189To198KeepBlank();
    Expansions199To208KeepBlank();
    Expansions209To218KeepBlank();
    Expansions219To228KeepBlank();
    Expansions229To238KeepBlank();
    Expansions239To248KeepBlank();
    Expansions249To258KeepBlank();
    Expansions259To268KeepBlank();
    Expansions269To278KeepBlank();
    Expansions279To288KeepBlank();
    Expansions289To298KeepBlank();
    Expansions299To302KeepBlank();
    var done := Expansions189To198;
    AllKeepBlankAppend(done, Expansions199To208);
    done := done + Expansions199To208;
    AllKeepBlankAppend(done, Expansions209To218);
    done := done + Expansions209To218;
    AllKeepBlankAppend(done, Expansions219To228);
    done := done + Expansions219To228;
    AllKeepBlankAppend(done, Expansions229To238);
    done := done + Expansions229To238;
    AllKeepBlankAppend(done, Expansions239To248);
    done := done + Expansions239To248;
    AllKeepBlankAppend(done, Expansions249To258);
    done := done + Expansions249To258;
    AllKeepBlankAppend(done, Expansions259To268);
    done := done + Expansions259To268;
    AllKeepBlankAppend(done, Expansions269To278);
    done := done + Expansions269To278;
    AllKeepBlankAppend(done, Expansions279To288);
    done := done + Expansions279To288;
    AllKeepBlankAppend(done, Expansions289To298);
    done := done + Expansions289To298;
    AllKeepBlankAppend(done, Expansions299To302);
    done := done + Expansions299To302;
    assert done == Expansions;
  }

  /** Every pattern is non-empty, and every pattern ending with a blank is replaced by
      text ending with one. */
  lemma RulesKeepBlank()
    ensures AllKeepBlank(Rules)
  {
    SeparatorRulesKeepBlank();
    ExpansionsKeepBlank();
    RestoreRulesKeepBlank();
    AllKeepBlankAppend(SeparatorRules, Expansions);
    AllKeepBlankAppend(SeparatorRules + Expansions, RestoreRules);
  }

  lemma {:induction false} ApplyKeepsTrailingBlank(t: string, rules: seq<Rule>)
    requires EndsWithBlank(t) && AllKeepBlank(rules)
    ensures EndsWithBlank(ApplyRules(t, rules))
    decreases |rules|
  {
    if rules != [] {
      assert KeepsBlank(rules[0]);
      var t' := ReplaceAll(t, rules[0].pattern, rules[0].replacement);
      ReplaceKeepsTrailingBlank(t, rules[0].pattern, rules[0].replacement);
      assert AllKeepBlank(rules[1..]) by {
        forall i | 0 <= i < |rules[1..]|
          ensures KeepsBlank(rules[1..][i])
        {
          assert rules[1..][i] == rules[i + 1];
        }
      }
      ApplyKeepsTrailingBlank(t', rules[1..]);
    }
  }

  /** Every step keeps the trailing blank, so dropping the last character removes
      exactly the padding: the result followed by a blank is the rewritten text. */
  lemma PaddingRemoved(s: string)
    ensures ImproveJobcodeDescription(s) + " " == ApplyRules(Padded(s), Rules)
  {
    RulesKeepBlank();
    ApplyKeepsTrailingBlank(Padded(s), Rules);
  }

  /** Applying a list of steps in two parts is applying the whole list. */
  lemma {:induction false} ApplyRulesAppend(t: string, a: seq<Rule>, b: seq<Rule>)
    ensures ApplyRules(t, a + b) == ApplyRules(ApplyRules(t, a), b)
    decreases |a|
  {
    if a != [] {
      assert (a + b)[1..] == a[1..] + b;
      ApplyRulesAppend(ReplaceAll(t, a[0].pattern, a[0].replacement), a[1..], b);
    } else {
      assert a + b == b;
    }
  }

  /** A window of steps `m..n` whose patterns do not occur in the text the first `m`
      steps produce leaves that text alone. */
  lemma ApplyWindow(t: string, rules: seq<Rule>, m: nat, n: nat)
    requires m <= n <= |rules|
    requires forall i :: m <= i < n ==>
      |rules[i].pattern| > 0 && !Occurs(ApplyRules(t, rules[..m]), rules[i].pattern)
    ensures ApplyRules(t, rules[..n]) == ApplyRules(t, rules[..m])
  {
    assert rules[..n] == rules[..m] + rules[m..n];
    ApplyRulesAppend(t, rules[..m], rules[m..n]);
    assert forall i :: 0 <= i < n - m ==> rules[m..n][i] == rules[m + i];
    ApplyAbsent(ApplyRules(t, rules[..m]), rules[m..n]);
  }

  /** The first `n + 1` steps are the first `n` followed by step `n`. */
  lemma ApplyNext(t: string, rules: seq<Rule>, n: nat)
    requires n < |rules|
    ensures ApplyRules(t, rules[..n + 1])
      == ReplaceAll(ApplyRules(t, rules[..n]), rules[n].pattern, rules[n].replacement)
  {
    assert rules[..n + 1] == rules[..n] + [rules[n]];
    ApplyRulesAppend(t, rules[..n], [rules[n]]);
    var u := ApplyRules(t, rules[..n]);
    assert ApplyRules(u, [rules[n]])
      == ApplyRules(ReplaceAll(u, rules[n].pattern, rules[n].replacement), []);
  }

  /** Steps whose (non-empty) patterns do not occur leave the text alone. */
  lemma {:induction false} ApplyAbsent(t: string, rules: seq<Rule>)
    requires forall i :: 0 <= i < |rules| ==> |rules[i].pattern| > 0 && !Occurs(t, rules[i].pattern)
    ensures ApplyRules(t, rules) == t
    decreases |rules|
  {
    if rules != [] {
      ReplaceAbsent(t, rules[0].pattern, rules[0].replacement);
      assert forall i :: 0 <= i < |rules[1..]| ==> rules[1..][i] == rules[i + 1];
      ApplyAbsent(t, rules[1..]);
    }
  }
}
