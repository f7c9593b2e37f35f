/** The two text rewriters the current bot applies to a failed verdict before showing it to a
    field agent (`_simplify_issue_text` and `_simplify_recommendation` in src/bot/bot.py). */
module Simplify {
  import opened Text

  /** The technical terms and their plain replacements, in the order the rewriter applies
      them. The terms are held lower-cased, as the rewriter uses them (`_simplify_issue_text` writes the
      first one as `ONT` and lower-cases every term before use). */
  const IssueRewrites: seq<(string, string)> := [
    ("ont", "white box"),
    ("fiber cable", "cable"),
    ("pigtail screw", "cable entry point"),
    ("duct entry", "cable hole"),
    ("weather-proofing", "weather protection"),
    ("penetration", "hole"),
    ("installation area", "work area"),
    ("equipment", "devices"),
    ("visible and stable", "clear and steady"),
    ("identifiable", "clear"),
    ("insufficient", "not enough"),
    ("not adequately documented", "not clear enough"),
    ("strain relief", "cable support")
  ]

  predicate NonEmptyTerms(rules: seq<(string, string)>)
  {
    forall i :: 0 <= i < |rules| ==> |rules[i].0| > 0
  }

  lemma IssueRewritesNonEmpty()
    ensures NonEmptyTerms(IssueRewrites)
  {
  }

  /** One `replace(term, plain)` per rule, in order. */
  function RewriteAll(s: string, rules: seq<(string, string)>): string
    requires NonEmptyTerms(rules)
    decreases |rules|
  {
    if |rules| == 0 then s
    else RewriteAll(Replace(s, rules[0].0, rules[0].1), rules[1..])
  }

  /** No rule's term occurs in `s`. */
  predicate NoTerm(s: string, rules: seq<(string, string)>)
  {
    forall i :: 0 <= i < |rules| ==> !Contains(s, rules[i].0)
  }

  /** Text with none of the terms passes through the rewrites unchanged. */
  lemma {:induction false} RewriteAllAbsent(s: string, rules: seq<(string, string)>)
    requires NonEmptyTerms(rules) && NoTerm(s, rules)
    ensures RewriteAll(s, rules) == s
    decreases |rules|
  {
    if |rules| > 0 {
      ReplaceAbsent(s, rules[0].0, rules[0].1);
      assert NoTerm(s, rules[1..]) by {
        forall i | 0 <= i < |rules| - 1 ensures !Contains(s, rules[1..][i].0) {
          assert rules[1..][i] == rules[i + 1];
        }
      }
      RewriteAllAbsent(s, rules[1..]);
    }
  }

  /** Rewriting with `rules` is rewriting with its first `i` rules, then with the rest. */
  lemma {:induction false} RewriteAllSplit(s: string, rules: seq<(string, string)>, i: nat)
    requires NonEmptyTerms(rules) && i <= |rules|
    ensures NonEmptyTerms(rules[..i]) && NonEmptyTerms(rules[i..])
    ensures RewriteAll(s, rules) == RewriteAll(RewriteAll(s, rules[..i]), rules[i..])
    decreases i
  {
    assert NonEmptyTerms(rules[..i]) by {
      forall k | 0 <= k < i ensures |rules[..i][k].0| > 0 { assert rules[..i][k] == rules[k]; }
    }
    assert NonEmptyTerms(rules[i..]) by {
      forall k | 0 <= k < |rules| - i ensures |rules[i..][k].0| > 0 { assert rules[i..][k] == rules[i + k]; }
    }
    if i > 0 {
      var tail := rules[1..];
      assert NonEmptyTerms(tail) by {
        forall k | 0 <= k < |tail| ensures |tail[k].0| > 0 { assert tail[k] == rules[k + 1]; }
      }
      RewriteAllSplit(Replace(s, rules[0].0, rules[0].1), tail, i - 1);
      assert rules[..i][1..] == tail[..i - 1];
      assert tail[i - 1..] == rules[i..];
    }
  }

  /** A term on its own is replaced by its rule's plain words. */
  lemma ReplaceWhole(p: string, rep: string)
    requires |p| > 0
    ensures Replace(p, p, rep) == rep
  {
    assert p[..|p|] == p && p[|p|..] == "";
    assert rep + "" == rep;
  }

  /** A rule's term on its own comes out as the rule's plain words when it holds none of the
      earlier terms and its plain words hold none of the later ones. */
  lemma RewriteOneTerm(rules: seq<(string, string)>, i: nat)
    requires NonEmptyTerms(rules) && i < |rules|
    requires NoTerm(rules[i].0, rules[..i]) && NoTerm(rules[i].1, rules[i + 1..])
    ensures RewriteAll(rules[i].0, rules) == rules[i].1
  {
    var (t, r) := rules[i];
    RewriteAllSplit(t, rules, i);
    RewriteAllAbsent(t, rules[..i]);
    var rest := rules[i..];
    assert rest[0] == rules[i] && rest[1..] == rules[i + 1..];
    ReplaceWhole(t, r);
    assert RewriteAll(t, rest) == RewriteAll(r, rules[i + 1..]);
    RewriteAllAbsent(r, rules[i + 1..]);
  }

  /** `lower()` leaves a string without capitals as it is. */
  lemma LowerOfLowerCase(s: string)
    requires forall k :: 0 <= k < |s| ==> !('A' <= s[k] <= 'Z')
    ensures Lower(s) == s
  {
  }

  /** `_simplify_issue_text`: lower-case, rewrite the terms, capitalize. The result is in lower
      case apart from its first character, which is upper case. */
  function SimplifyIssue(issue: string): (r: string)
    ensures |r| > 0 ==> r[0] == UpperChar(r[0])
    ensures forall i :: 1 <= i < |r| ==> r[i] == LowerChar(r[i])
    ensures issue == "" ==> r == ""
  {
    IssueRewritesNonEmpty();
    var t := RewriteAll(Lower(issue), IssueRewrites);
    CapitalizeCased(t);
    Capitalize(t)
  }

  /** A capitalized string is upper case at its head and lower case after. */
  lemma CapitalizeCased(t: string)
    ensures var r := Capitalize(t);
      && (|r| > 0 ==> r[0] == UpperChar(r[0]))
      && (forall i :: 1 <= i < |r| ==> r[i] == LowerChar(r[i]))
      && (t == "" ==> r == "")
  {
  }

  lemma LowerUpperChar(c: char)
    ensures LowerChar(UpperChar(c)) == LowerChar(c)
  {
  }

  lemma LowerOfUpper(s: string)
    ensures Lower(Upper(s)) == Lower(s)
  {
    forall i | 0 <= i < |s| ensures Lower(Upper(s))[i] == Lower(s)[i] {
      LowerUpperChar(s[i]);
    }
  }

  /** The issue rewriter ignores the case of its input. */
  lemma SimplifyIssueIgnoresCase(issue: string)
    ensures SimplifyIssue(Upper(issue)) == SimplifyIssue(issue)
  {
    LowerOfUpper(issue);
  }

  /** An issue that mentions none of the technical terms is only re-cased. */
  lemma SimplifyIssuePlain(issue: string)
    requires NoTerm(Lower(issue), IssueRewrites)
    ensures SimplifyIssue(issue) == Capitalize(Lower(issue))
  {
    IssueRewritesNonEmpty();
    RewriteAllAbsent(Lower(issue), IssueRewrites);
  }

  /** Rule `i`'s term is written in lower case, holds none of the earlier terms, and its plain
      words hold none of the later terms. */
  predicate StandsAlone(rules: seq<(string, string)>, i: nat)
    requires i < |rules|
  {
    && NoTerm(rules[i].0, rules[..i]) && NoTerm(rules[i].1, rules[i + 1..])
    && Lower(rules[i].0) == rules[i].0
  }

  /** The terms are written in lower case. */
  lemma TermInLowerCase(i: nat)
    requires i < |IssueRewrites|
    ensures Lower(IssueRewrites[i].0) == IssueRewrites[i].0
  {
    if i < 7 { EarlyTermInLowerCase(i); } else { LateTermInLowerCase(i); }
  }

  lemma EarlyTermInLowerCase(i: nat)
    requires i < 7
    ensures Lower(IssueRewrites[i].0) == IssueRewrites[i].0
  {
    if i == 0 { LowerOfLowerCase(IssueRewrites[0].0); }
    else if i == 1 { LowerOfLowerCase(IssueRewrites[1].0); }
    else if i == 2 { LowerOfLowerCase(IssueRewrites[2].0); }
    else if i == 3 { LowerOfLowerCase(IssueRewrites[3].0); }
    else if i == 4 { LowerOfLowerCase(IssueRewrites[4].0); }
    else if i == 5 { LowerOfLowerCase(IssueRewrites[5].0); }
    else { LowerOfLowerCase(IssueRewrites[6].0); }
  }

  lemma LateTermInLowerCase(i: nat)
    requires 7 <= i < |IssueRewrites|
    ensures Lower(IssueRewrites[i].0) == IssueRewrites[i].0
  {
    if i == 7 { LowerOfLowerCase(IssueRewrites[7].0); }
    else if i == 8 { LowerOfLowerCase(IssueRewrites[8].0); }
    else if i == 9 { LowerOfLowerCase(IssueRewrites[9].0); }
    else if i == 10 { LowerOfLowerCase(IssueRewrites[10].0); }
    else if i == 11 { LowerOfLowerCase(IssueRewrites[11].0); }
    else { LowerOfLowerCase(IssueRewrites[12].0); }
  }

  /** Every rule of the issue rewriter stands alone. */
  lemma RulesStandAlone(i: nat)
    requires i < |IssueRewrites|
    ensures StandsAlone(IssueRewrites, i)
  {
    TermInLowerCase(i);
    if i == 0 {
      RuleApart0();
    } else if i == 1 {
      RuleApart1();
    } else if i == 2 {
      RuleApart2();
    } else if i == 3 {
      RuleApart3();
    } else if i == 4 {
      RuleApart4();
    } else if i == 5 {
      RuleApart5();
    } else if i == 6 {
      RuleApart6();
    } else if i == 7 {
      RuleApart7();
    } else if i == 8 {
      RuleApart8();
    } else if i == 9 {
      RuleApart9();
    } else if i == 10 {
      RuleApart10();
    } else if i == 11 {
      RuleApart11();
    } else {
      RuleApart12();
    }
  }

  lemma NoTermPrefix(s: string, rules: seq<(string, string)>, b: nat)
    requires b <= |rules| && NoTerm(s, rules[0..b])
    ensures NoTerm(s, rules[..b])
  {
    assert rules[..b] == rules[0..b];
  }

  lemma NoTermSuffix(s: string, rules: seq<(string, string)>, a: nat)
    requires a <= |rules| && NoTerm(s, rules[a..|rules|])
    ensures NoTerm(s, rules[a..])
  {
    assert rules[a..] == rules[a..|rules|];
  }

  /** Two runs of rules without a term of `s` make one. */
  lemma NoTermJoin(s: string, rules: seq<(string, string)>, a: nat, k: nat, b: nat)
    requires a <= k <= b <= |rules|
    requires NoTerm(s, rules[a..k]) && NoTerm(s, rules[k..b])
    ensures NoTerm(s, rules[a..b])
  {
    forall j | 0 <= j < b - a ensures !Contains(s, rules[a..b][j].0) {
      if j < k - a {
        assert rules[a..b][j] == rules[a..k][j];
      } else {
        assert rules[a..b][j] == rules[k..b][j - (k - a)];
      }
    }
  }

  /** Rule i's term holds none of the earlier terms and its plain words none of the later ones,
      checked a few rules at a time (`TermApart` and `WordsApart`) and joined. */
  lemma RuleApart0()
    ensures NoTerm(IssueRewrites[0].0, IssueRewrites[..0]) && NoTerm(IssueRewrites[0].1, IssueRewrites[1..])
  {
    WordsApart0a();
    WordsApart0b();
    WordsApart0c();
    NoTermJoin(IssueRewrites[0].1, IssueRewrites, 1, 5, 9);
    NoTermJoin(IssueRewrites[0].1, IssueRewrites, 1, 9, 13);
    NoTermSuffix(IssueRewrites[0].1, IssueRewrites, 1);
  }

  lemma RuleApart1()
    ensures NoTerm(IssueRewrites[1].0, IssueRewrites[..1]) && NoTerm(IssueRewrites[1].1, IssueRewrites[2..])
  {
    TermApart1();
    WordsApart1a();
    WordsApart1b();
    WordsApart1c();
    NoTermJoin(IssueRewrites[1].1, IssueRewrites, 2, 6, 10);
    NoTermJoin(IssueRewrites[1].1, IssueRewrites, 2, 10, 13);
    NoTermPrefix(IssueRewrites[1].0, IssueRewrites, 1);
    NoTermSuffix(IssueRewrites[1].1, IssueRewrites, 2);
  }

  lemma RuleApart2()
    ensures NoTerm(IssueRewrites[2].0, IssueRewrites[..2]) && NoTerm(IssueRewrites[2].1, IssueRewrites[3..])
  {
    TermApart2();
    WordsApart2a();
    WordsApart2b();
    WordsApart2c();
    NoTermJoin(IssueRewrites[2].1, IssueRewrites, 3, 7, 11);
    NoTermJoin(IssueRewrites[2].1, IssueRewrites, 3, 11, 13);
    NoTermPrefix(IssueRewrites[2].0, IssueRewrites, 2);
    NoTermSuffix(IssueRewrites[2].1, IssueRewrites, 3);
  }

  lemma RuleApart3()
    ensures NoTerm(IssueRewrites[3].0, IssueRewrites[..3]) && NoTerm(IssueRewrites[3].1, IssueRewrites[4..])
  {
    TermApart3();
    WordsApart3a();
    WordsApart3b();
    WordsApart3c();
    NoTermJoin(IssueRewrites[3].1, IssueRewrites, 4, 8, 12);
    NoTermJoin(IssueRewrites[3].1, IssueRewrites, 4, 12, 13);
    NoTermPrefix(IssueRewrites[3].0, IssueRewrites, 3);
    NoTermSuffix(IssueRewrites[3].1, IssueRewrites, 4);
  }

  lemma RuleApart4()
    ensures NoTerm(IssueRewrites[4].0, IssueRewrites[..4]) && NoTerm(IssueRewrites[4].1, IssueRewrites[5..])
  {
    TermApart4();
    WordsApart4a();
    WordsApart4b();
    NoTermJoin(IssueRewrites[4].1, IssueRewrites, 5, 9, 13);
    NoTermPrefix(IssueRewrites[4].0, IssueRewrites, 4);
    NoTermSuffix(IssueRewrites[4].1, IssueRewrites, 5);
  }

  lemma RuleApart5()
    ensures NoTerm(IssueRewrites[5].0, IssueRewrites[..5]) && NoTerm(IssueRewrites[5].1, IssueRewrites[6..])
  {
    TermApart5a();
    TermApart5b();
    NoTermJoin(IssueRewrites[5].0, IssueRewrites, 0, 4, 5);
    WordsApart5a();
    WordsApart5b();
    NoTermJoin(IssueRewrites[5].1, IssueRewrites, 6, 10, 13);
    NoTermPrefix(IssueRewrites[5].0, IssueRewrites, 5);
    NoTermSuffix(IssueRewrites[5].1, IssueRewrites, 6);
  }

  lemma RuleApart6()
    ensures NoTerm(IssueRewrites[6].0, IssueRewrites[..6]) && NoTerm(IssueRewrites[6].1, IssueRewrites[7..])
  {
    TermApart6a();
    TermApart6b();
    NoTermJoin(IssueRewrites[6].0, IssueRewrites, 0, 4, 6);
    WordsApart6a();
    WordsApart6b();
    NoTermJoin(IssueRewrites[6].1, IssueRewrites, 7, 11, 13);
    NoTermPrefix(IssueRewrites[6].0, IssueRewrites, 6);
    NoTermSuffix(IssueRewrites[6].1, IssueRewrites, 7);
  }

  lemma RuleApart7()
    ensures NoTerm(IssueRewrites[7].0, IssueRewrites[..7]) && NoTerm(IssueRewrites[7].1, IssueRewrites[8..])
  {
    TermApart7a();
    TermApart7b();
    NoTermJoin(IssueRewrites[7].0, IssueRewrites, 0, 4, 7);
    WordsApart7a();
    WordsApart7b();
    NoTermJoin(IssueRewrites[7].1, IssueRewrites, 8, 12, 13);
    NoTermPrefix(IssueRewrites[7].0, IssueRewrites, 7);
    NoTermSuffix(IssueRewrites[7].1, IssueRewrites, 8);
  }

  lemma RuleApart8()
    ensures NoTerm(IssueRewrites[8].0, IssueRewrites[..8]) && NoTerm(IssueRewrites[8].1, IssueRewrites[9..])
  {
    TermApart8a();
    TermApart8b();
    NoTermJoin(IssueRewrites[8].0, IssueRewrites, 0, 4, 8);
    WordsApart8();
    NoTermPrefix(IssueRewrites[8].0, IssueRewrites, 8);
    NoTermSuffix(IssueRewrites[8].1, IssueRewrites, 9);
  }

  lemma RuleApart9()
    ensures NoTerm(IssueRewrites[9].0, IssueRewrites[..9]) && NoTerm(IssueRewrites[9].1, IssueRewrites[10..])
  {
    TermApart9a();
    TermApart9b();
    TermApart9c();
    NoTermJoin(IssueRewrites[9].0, IssueRewrites, 0, 4, 8);
    NoTermJoin(IssueRewrites[9].0, IssueRewrites, 0, 8, 9);
    WordsApart9();
    NoTermPrefix(IssueRewrites[9].0, IssueRewrites, 9);
    NoTermSuffix(IssueRewrites[9].1, IssueRewrites, 10);
  }

  lemma RuleApart10()
    ensures NoTerm(IssueRewrites[10].0, IssueRewrites[..10]) && NoTerm(IssueRewrites[10].1, IssueRewrites[11..])
  {
    TermApart10a();
    TermApart10b();
    TermApart10c();
    NoTermJoin(IssueRewrites[10].0, IssueRewrites, 0, 4, 8);
    NoTermJoin(IssueRewrites[10].0, IssueRewrites, 0, 8, 10);
    WordsApart10();
    NoTermPrefix(IssueRewrites[10].0, IssueRewrites, 10);
    NoTermSuffix(IssueRewrites[10].1, IssueRewrites, 11);
  }

  lemma RuleApart11()
    ensures NoTerm(IssueRewrites[11].0, IssueRewrites[..11]) && NoTerm(IssueRewrites[11].1, IssueRewrites[12..])
  {
    TermApart11a();
    TermApart11b();
    TermApart11c();
    NoTermJoin(IssueRewrites[11].0, IssueRewrites, 0, 4, 8);
    NoTermJoin(IssueRewrites[11].0, IssueRewrites, 0, 8, 11);
    WordsApart11();
    NoTermPrefix(IssueRewrites[11].0, IssueRewrites, 11);
    NoTermSuffix(IssueRewrites[11].1, IssueRewrites, 12);
  }

  lemma RuleApart12()
    ensures NoTerm(IssueRewrites[12].0, IssueRewrites[..12]) && NoTerm(IssueRewrites[12].1, IssueRewrites[13..])
  {
    TermApart12a();
    TermApart12b();
    TermApart12c();
    NoTermJoin(IssueRewrites[12].0, IssueRewrites, 0, 4, 8);
    NoTermJoin(IssueRewrites[12].0, IssueRewrites, 0, 8, 12);
    NoTermPrefix(IssueRewrites[12].0, IssueRewrites, 12);
    assert IssueRewrites[13..] == [];
  }

  lemma WordsApart0a()
    ensures NoTerm(IssueRewrites[0].1, IssueRewrites[1..5])
  {
    var r := IssueRewrites[0].1;
    var rules := IssueRewrites[1..5];
    assert |r| == 9;
    forall j | 0 <= j < 4 ensures !Contains(r, rules[j].0) {
      assert rules[j] == IssueRewrites[j + 1];
      assert |rules[j].0| >= 10;
      NotContainsLonger(r, rules[j].0);
    }
  }

  lemma WordsApart0b()
    ensures NoTerm(IssueRewrites[0].1, IssueRewrites[5..9])
  {
    var r := IssueRewrites[0].1;
    var rules := IssueRewrites[5..9];
    assert |r| == 9;
    forall j | 0 <= j < 4 ensures !Contains(r, rules[j].0) {
      if j == 0 {
        NotContainsLonger(r, rules[j].0);
      } else if j == 1 {
        NotContainsLonger(r, rules[j].0);
      } else if j == 2 {
        NotContainsByChar(r, rules[j].0, 1);
      } else {
        NotContainsLonger(r, rules[j].0);
      }
    }
  }

  lemma WordsApart0c()
    ensures NoTerm(IssueRewrites[0].1, IssueRewrites[9..13])
  {
    var r := IssueRewrites[0].1;
    var rules := IssueRewrites[9..13];
    assert |r| == 9;
    forall j | 0 <= j < 4 ensures !Contains(r, rules[j].0) {
      if j == 0 {
        NotContainsLonger(r, rules[j].0);
      } else if j == 1 {
        NotContainsLonger(r, rules[j].0);
      } else if j == 2 {
        NotContainsLonger(r, rules[j].0);
      } else {
        NotContainsLonger(r, rules[j].0);
      }
    }
  }

  /** Each pair of a string and a term is told apart by the cheapest witness: the term is
      longer, or one of its characters, or one of its adjacent pairs, is missing from the
      string. */
  lemma TermApart1()
    ensures NoTerm(IssueRewrites[1].0, IssueRewrites[0..1])
  {
    var t := IssueRewrites[1].0;
    var rules := IssueRewrites[0..1];
    assert |t| == 11;
    forall j | 0 <= j < 1 ensures !Contains(t, rules[j].0) {
      NotContainsByFirstChar(t, rules[j].0);
    }
  }

  lemma WordsApart1a()
    ensures NoTerm(IssueRewrites[1].1, IssueRewrites[2..6])
  {
    var r := IssueRewrites[1].1;
    var rules := IssueRewrites[2..6];
    assert |r| == 5;
    forall j | 0 <= j < 4 ensures !Contains(r, rules[j].0) {
      if j == 0 {
        NotContainsLonger(r, rules[j].0);
      } else if j == 1 {
        NotContainsLonger(r, rules[j].0);
      } else if j == 2 {
        NotContainsLonger(r, rules[j].0);
      } else {
        NotContainsLonger(r, rules[j].0);
      }
    }
  }

  lemma WordsApart1b()
    ensures NoTerm(IssueRewrites[1].1, IssueRewrites[6..10])
  {
    var r := IssueRewrites[1].1;
    var rules := IssueRewrites[6..10];
    assert |r| == 5;
    forall j | 0 <= j < 4 ensures !Contains(r, rules[j].0) {
      if j == 0 {
        NotContainsLonger(r, rules[j].0);
      } else if j == 1 {
        NotContainsLonger(r, rules[j].0);
      } else if j == 2 {
        NotContainsLonger(r, rules[j].0);
      } else {
        NotContainsLonger(r, rules[j].0);
      }
    }
  }

  lemma WordsApart1c()
    ensures NoTerm(IssueRewrites[1].1, IssueRewrites[10..13])
  {
    var r := IssueRewrites[1].1;
    var rules := IssueRewrites[10..13];
    assert |r| == 5;
    forall j | 0 <= j < 3 ensures !Contains(r, rules[j].0) {
      if j == 0 {
        NotContainsLonger(r, rules[j].0);
      } else if j == 1 {
        NotContainsLonger(r, rules[j].0);
      } else {
        NotContainsLonger(r, rules[j].0);
      }
    }
  }

  lemma TermApart2()
    ensures NoTerm(IssueRewrites[2].0, IssueRewrites[0..2])
  {
    var t := IssueRewrites[2].0;
    var rules := IssueRewrites[0..2];
    assert |t| == 13;
    forall j | 0 <= j < 2 ensures !Contains(t, rules[j].0) {
      if j == 0 {
        NotContainsByFirstChar(t, rules[j].0);
      } else {
        NotContainsByFirstChar(t, rules[j].0);
      }
    }
  }

  lemma WordsApart2a()
    ensures NoTerm(IssueRewrites[2].1, IssueRewrites[3..7])
  {
    var r := IssueRewrites[2].1;
    var rules := IssueRewrites[3..7];
    assert |r| == 17;
    forall j | 0 <= j < 4 ensures !Contains(r, rules[j].0) {
      if j == 0 {
        NotContainsByFirstChar(r, rules[j].0);
      } else if j == 1 {
        NotContainsByFirstChar(r, rules[j].0);
      } else if j == 2 {
        NotContainsByPair(r, rules[j].0, 0);
      } else {
        NotContainsByChar(r, rules[j].0, 2);
      }
    }
  }

  lemma WordsApart2b()
    ensures NoTerm(IssueRewrites[2].1, IssueRewrites[7..11])
  {
    var r := IssueRewrites[2].1;
    var rules := IssueRewrites[7..11];
    assert |r| == 17;
    forall j | 0 <= j < 4 ensures !Contains(r, rules[j].0) {
      if j == 0 {
        NotContainsByChar(r, rules[j].0, 1);
      } else if j == 1 {
        NotContainsLonger(r, rules[j].0);
      } else if j == 2 {
        NotContainsByChar(r, rules[j].0, 1);
      } else {
        NotContainsByChar(r, rules[j].0, 2);
      }
    }
  }

  lemma WordsApart2c()
    ensures NoTerm(IssueRewrites[2].1, IssueRewrites[11..13])
  {
    var r := IssueRewrites[2].1;
    var rules := IssueRewrites[11..13];
    assert |r| == 17;
    forall j | 0 <= j < 2 ensures !Contains(r, rules[j].0) {
      if j == 0 {
        NotContainsLonger(r, rules[j].0);
      } else {
        NotContainsByFirstChar(r, rules[j].0);
      }
    }
  }

  lemma TermApart3()
    ensures NoTerm(IssueRewrites[3].0, IssueRewrites[0..3])
  {
    var t := IssueRewrites[3].0;
    var rules := IssueRewrites[0..3];
    assert |t| == 10;
    forall j | 0 <= j < 3 ensures !Contains(t, rules[j].0) {
      if j == 0 {
        NotContainsByFirstChar(t, rules[j].0);
      } else if j == 1 {
        NotContainsLonger(t, rules[j].0);
      } else {
        NotContainsLonger(t, rules[j].0);
      }
    }
  }

  lemma WordsApart3a()
    ensures NoTerm(IssueRewrites[3].1, IssueRewrites[4..8])
  {
    var r := IssueRewrites[3].1;
    var rules := IssueRewrites[4..8];
    assert |r| == 10;
    forall j | 0 <= j < 4 ensures !Contains(r, rules[j].0) {
      if j == 0 {
        NotContainsLonger(r, rules[j].0);
      } else if j == 1 {
        NotContainsLonger(r, rules[j].0);
      } else if j == 2 {
        NotContainsLonger(r, rules[j].0);
      } else {
        NotContainsByChar(r, rules[j].0, 1);
      }
    }
  }

  lemma WordsApart3b()
    ensures NoTerm(IssueRewrites[3].1, IssueRewrites[8..12])
  {
    var r := IssueRewrites[3].1;
    var rules := IssueRewrites[8..12];
    assert |r| == 10;
    forall j | 0 <= j < 4 ensures !Contains(r, rules[j].0) {
      if j == 0 {
        NotContainsLonger(r, rules[j].0);
      } else if j == 1 {
        NotContainsLonger(r, rules[j].0);
      } else if j == 2 {
        NotContainsLonger(r, rules[j].0);
      } else {
        NotContainsLonger(r, rules[j].0);
      }
    }
  }

  lemma WordsApart3c()
    ensures NoTerm(IssueRewrites[3].1, IssueRewrites[12..13])
  {
    var r := IssueRewrites[3].1;
    var rules := IssueRewrites[12..13];
    assert |r| == 10;
    forall j | 0 <= j < 1 ensures !Contains(r, rules[j].0) {
      NotContainsLonger(r, rules[j].0);
    }
  }

  lemma TermApart4()
    ensures NoTerm(IssueRewrites[4].0, IssueRewrites[0..4])
  {
    var t := IssueRewrites[4].0;
    var rules := IssueRewrites[0..4];
    assert |t| == 16;
    forall j | 0 <= j < 4 ensures !Contains(t, rules[j].0) {
      if j == 0 {
        NotContainsByPair(t, rules[j].0, 0);
      } else if j == 1 {
        NotContainsByChar(t, rules[j].0, 2);
      } else if j == 2 {
        NotContainsByChar(t, rules[j].0, 6);
      } else {
        NotContainsByFirstChar(t, rules[j].0);
      }
    }
  }

  lemma WordsApart4a()
    ensures NoTerm(IssueRewrites[4].1, IssueRewrites[5..9])
  {
    var r := IssueRewrites[4].1;
    var rules := IssueRewrites[5..9];
    assert |r| == 18;
    forall j | 0 <= j < 4 ensures !Contains(r, rules[j].0) {
      if j == 0 {
        NotContainsByPair(r, rules[j].0, 0);
      } else if j == 1 {
        NotContainsByChar(r, rules[j].0, 2);
      } else if j == 2 {
        NotContainsByChar(r, rules[j].0, 1);
      } else {
        NotContainsByFirstChar(r, rules[j].0);
      }
    }
  }

  lemma WordsApart4b()
    ensures NoTerm(IssueRewrites[4].1, IssueRewrites[9..13])
  {
    var r := IssueRewrites[4].1;
    var rules := IssueRewrites[9..13];
    assert |r| == 18;
    forall j | 0 <= j < 4 ensures !Contains(r, rules[j].0) {
      if j == 0 {
        NotContainsByChar(r, rules[j].0, 1);
      } else if j == 1 {
        NotContainsByChar(r, rules[j].0, 2);
      } else if j == 2 {
        NotContainsLonger(r, rules[j].0);
      } else {
        NotContainsByFirstChar(r, rules[j].0);
      }
    }
  }

  lemma TermApart5a()
    ensures NoTerm(IssueRewrites[5].0, IssueRewrites[0..4])
  {
    var t := IssueRewrites[5].0;
    var rules := IssueRewrites[0..4];
    assert |t| == 11;
    forall j | 0 <= j < 4 ensures !Contains(t, rules[j].0) {
      if j == 0 {
        NotContainsByPair(t, rules[j].0, 1);
      } else if j == 1 {
        NotContainsByFirstChar(t, rules[j].0);
      } else if j == 2 {
        NotContainsLonger(t, rules[j].0);
      } else {
        NotContainsByFirstChar(t, rules[j].0);
      }
    }
  }

  lemma TermApart5b()
    ensures NoTerm(IssueRewrites[5].0, IssueRewrites[4..5])
  {
    var t := IssueRewrites[5].0;
    var rules := IssueRewrites[4..5];
    assert |t| == 11;
    forall j | 0 <= j < 1 ensures !Contains(t, rules[j].0) {
      NotContainsLonger(t, rules[j].0);
    }
  }

  lemma WordsApart5a()
    ensures NoTerm(IssueRewrites[5].1, IssueRewrites[6..10])
  {
    var r := IssueRewrites[5].1;
    var rules := IssueRewrites[6..10];
    assert |r| == 4;
    forall j | 0 <= j < 4 ensures !Contains(r, rules[j].0) {
      if j == 0 {
        NotContainsLonger(r, rules[j].0);
      } else if j == 1 {
        NotContainsLonger(r, rules[j].0);
      } else if j == 2 {
        NotContainsLonger(r, rules[j].0);
      } else {
        NotContainsLonger(r, rules[j].0);
      }
    }
  }

  lemma WordsApart5b()
    ensures NoTerm(IssueRewrites[5].1, IssueRewrites[10..13])
  {
    var r := IssueRewrites[5].1;
    var rules := IssueRewrites[10..13];
    assert |r| == 4;
    forall j | 0 <= j < 3 ensures !Contains(r, rules[j].0) {
      if j == 0 {
        NotContainsLonger(r, rules[j].0);
      } else if j == 1 {
        NotContainsLonger(r, rules[j].0);
      } else {
        NotContainsLonger(r, rules[j].0);
      }
    }
  }

  lemma TermApart6a()
    ensures NoTerm(IssueRewrites[6].0, IssueRewrites[0..4])
  {
    var t := IssueRewrites[6].0;
    var rules := IssueRewrites[0..4];
    assert |t| == 17;
    forall j | 0 <= j < 4 ensures !Contains(t, rules[j].0) {
      if j == 0 {
        NotContainsByPair(t, rules[j].0, 1);
      } else if j == 1 {
        NotContainsByFirstChar(t, rules[j].0);
      } else if j == 2 {
        NotContainsByFirstChar(t, rules[j].0);
      } else {
        NotContainsByFirstChar(t, rules[j].0);
      }
    }
  }

  lemma TermApart6b()
    ensures NoTerm(IssueRewrites[6].0, IssueRewrites[4..6])
  {
    var t := IssueRewrites[6].0;
    var rules := IssueRewrites[4..6];
    assert |t| == 17;
    forall j | 0 <= j < 2 ensures !Contains(t, rules[j].0) {
      if j == 0 {
        NotContainsByFirstChar(t, rules[j].0);
      } else {
        NotContainsByFirstChar(t, rules[j].0);
      }
    }
  }

  lemma WordsApart6a()
    ensures NoTerm(IssueRewrites[6].1, IssueRewrites[7..11])
  {
    var r := IssueRewrites[6].1;
    var rules := IssueRewrites[7..11];
    assert |r| == 9;
    forall j | 0 <= j < 4 ensures !Contains(r, rules[j].0) {
      if j == 0 {
        NotContainsByChar(r, rules[j].0, 1);
      } else if j == 1 {
        NotContainsLonger(r, rules[j].0);
      } else if j == 2 {
        NotContainsLonger(r, rules[j].0);
      } else {
        NotContainsLonger(r, rules[j].0);
      }
    }
  }

  lemma WordsApart6b()
    ensures NoTerm(IssueRewrites[6].1, IssueRewrites[11..13])
  {
    var r := IssueRewrites[6].1;
    var rules := IssueRewrites[11..13];
    assert |r| == 9;
    forall j | 0 <= j < 2 ensures !Contains(r, rules[j].0) {
      if j == 0 {
        NotContainsLonger(r, rules[j].0);
      } else {
        NotContainsLonger(r, rules[j].0);
      }
    }
  }

  lemma TermApart7a()
    ensures NoTerm(IssueRewrites[7].0, IssueRewrites[0..4])
  {
    var t := IssueRewrites[7].0;
    var rules := IssueRewrites[0..4];
    assert |t| == 9;
    forall j | 0 <= j < 4 ensures !Contains(t, rules[j].0) {
      if j == 0 {
        NotContainsByFirstChar(t, rules[j].0);
      } else if j == 1 {
        NotContainsLonger(t, rules[j].0);
      } else if j == 2 {
        NotContainsLonger(t, rules[j].0);
      } else {
        NotContainsLonger(t, rules[j].0);
      }
    }
  }

  lemma TermApart7b()
    ensures NoTerm(IssueRewrites[7].0, IssueRewrites[4..7])
  {
    var t := IssueRewrites[7].0;
    var rules := IssueRewrites[4..7];
    assert |t| == 9;
    forall j | 0 <= j < 3 ensures !Contains(t, rules[j].0) {
      if j == 0 {
        NotContainsLonger(t, rules[j].0);
      } else if j == 1 {
        NotContainsLonger(t, rules[j].0);
      } else {
        NotContainsLonger(t, rules[j].0);
      }
    }
  }

  lemma WordsApart7a()
    ensures NoTerm(IssueRewrites[7].1, IssueRewrites[8..12])
  {
    var r := IssueRewrites[7].1;
    var rules := IssueRewrites[8..12];
    assert |r| == 7;
    forall j | 0 <= j < 4 ensures !Contains(r, rules[j].0) {
      if j == 0 {
        NotContainsLonger(r, rules[j].0);
      } else if j == 1 {
        NotContainsLonger(r, rules[j].0);
      } else if j == 2 {
        NotContainsLonger(r, rules[j].0);
      } else {
        NotContainsLonger(r, rules[j].0);
      }
    }
  }

  lemma WordsApart7b()
    ensures NoTerm(IssueRewrites[7].1, IssueRewrites[12..13])
  {
    var r := IssueRewrites[7].1;
    var rules := IssueRewrites[12..13];
    assert |r| == 7;
    forall j | 0 <= j < 1 ensures !Contains(r, rules[j].0) {
      NotContainsLonger(r, rules[j].0);
    }
  }

  lemma TermApart8a()
    ensures NoTerm(IssueRewrites[8].0, IssueRewrites[0..4])
  {
    var t := IssueRewrites[8].0;
    var rules := IssueRewrites[0..4];
    assert |t| == 18;
    forall j | 0 <= j < 4 ensures !Contains(t, rules[j].0) {
      if j == 0 {
        NotContainsByFirstChar(t, rules[j].0);
      } else if j == 1 {
        NotContainsByFirstChar(t, rules[j].0);
      } else if j == 2 {
        NotContainsByFirstChar(t, rules[j].0);
      } else {
        NotContainsByChar(t, rules[j].0, 1);
      }
    }
  }

  lemma TermApart8b()
    ensures NoTerm(IssueRewrites[8].0, IssueRewrites[4..8])
  {
    var t := IssueRewrites[8].0;
    var rules := IssueRewrites[4..8];
    assert |t| == 18;
    forall j | 0 <= j < 4 ensures !Contains(t, rules[j].0) {
      if j == 0 {
        NotContainsByFirstChar(t, rules[j].0);
      } else if j == 1 {
        NotContainsByFirstChar(t, rules[j].0);
      } else if j == 2 {
        NotContainsByChar(t, rules[j].0, 10);
      } else {
        NotContainsByChar(t, rules[j].0, 1);
      }
    }
  }

  lemma WordsApart8()
    ensures NoTerm(IssueRewrites[8].1, IssueRewrites[9..13])
  {
    var r := IssueRewrites[8].1;
    var rules := IssueRewrites[9..13];
    assert |r| == 16;
    forall j | 0 <= j < 4 ensures !Contains(r, rules[j].0) {
      if j == 0 {
        NotContainsByFirstChar(r, rules[j].0);
      } else if j == 1 {
        NotContainsByFirstChar(r, rules[j].0);
      } else if j == 2 {
        NotContainsLonger(r, rules[j].0);
      } else {
        NotContainsByChar(r, rules[j].0, 4);
      }
    }
  }

  lemma TermApart9a()
    ensures NoTerm(IssueRewrites[9].0, IssueRewrites[0..4])
  {
    var t := IssueRewrites[9].0;
    var rules := IssueRewrites[0..4];
    assert |t| == 12;
    forall j | 0 <= j < 4 ensures !Contains(t, rules[j].0) {
      if j == 0 {
        NotContainsByFirstChar(t, rules[j].0);
      } else if j == 1 {
        NotContainsByChar(t, rules[j].0, 4);
      } else if j == 2 {
        NotContainsLonger(t, rules[j].0);
      } else {
        NotContainsByChar(t, rules[j].0, 1);
      }
    }
  }

  lemma TermApart9b()
    ensures NoTerm(IssueRewrites[9].0, IssueRewrites[4..8])
  {
    var t := IssueRewrites[9].0;
    var rules := IssueRewrites[4..8];
    assert |t| == 12;
    forall j | 0 <= j < 4 ensures !Contains(t, rules[j].0) {
      if j == 0 {
        NotContainsLonger(t, rules[j].0);
      } else if j == 1 {
        NotContainsByFirstChar(t, rules[j].0);
      } else if j == 2 {
        NotContainsLonger(t, rules[j].0);
      } else {
        NotContainsByChar(t, rules[j].0, 1);
      }
    }
  }

  lemma TermApart9c()
    ensures NoTerm(IssueRewrites[9].0, IssueRewrites[8..9])
  {
    var t := IssueRewrites[9].0;
    var rules := IssueRewrites[8..9];
    assert |t| == 12;
    forall j | 0 <= j < 1 ensures !Contains(t, rules[j].0) {
      NotContainsLonger(t, rules[j].0);
    }
  }

  lemma WordsApart9()
    ensures NoTerm(IssueRewrites[9].1, IssueRewrites[10..13])
  {
    var r := IssueRewrites[9].1;
    var rules := IssueRewrites[10..13];
    assert |r| == 5;
    forall j | 0 <= j < 3 ensures !Contains(r, rules[j].0) {
      if j == 0 {
        NotContainsLonger(r, rules[j].0);
      } else if j == 1 {
        NotContainsLonger(r, rules[j].0);
      } else {
        NotContainsLonger(r, rules[j].0);
      }
    }
  }

  lemma TermApart10a()
    ensures NoTerm(IssueRewrites[10].0, IssueRewrites[0..4])
  {
    var t := IssueRewrites[10].0;
    var rules := IssueRewrites[0..4];
    assert |t| == 12;
    forall j | 0 <= j < 4 ensures !Contains(t, rules[j].0) {
      if j == 0 {
        NotContainsByFirstChar(t, rules[j].0);
      } else if j == 1 {
        NotContainsByChar(t, rules[j].0, 2);
      } else if j == 2 {
        NotContainsLonger(t, rules[j].0);
      } else {
        NotContainsByFirstChar(t, rules[j].0);
      }
    }
  }

  lemma TermApart10b()
    ensures NoTerm(IssueRewrites[10].0, IssueRewrites[4..8])
  {
    var t := IssueRewrites[10].0;
    var rules := IssueRewrites[4..8];
    assert |t| == 12;
    forall j | 0 <= j < 4 ensures !Contains(t, rules[j].0) {
      if j == 0 {
        NotContainsLonger(t, rules[j].0);
      } else if j == 1 {
        NotContainsByFirstChar(t, rules[j].0);
      } else if j == 2 {
        NotContainsLonger(t, rules[j].0);
      } else {
        NotContainsByChar(t, rules[j].0, 1);
      }
    }
  }

  lemma TermApart10c()
    ensures NoTerm(IssueRewrites[10].0, IssueRewrites[8..10])
  {
    var t := IssueRewrites[10].0;
    var rules := IssueRewrites[8..10];
    assert |t| == 12;
    forall j | 0 <= j < 2 ensures !Contains(t, rules[j].0) {
      if j == 0 {
        NotContainsLonger(t, rules[j].0);
      } else {
        NotContainsByChar(t, rules[j].0, 1);
      }
    }
  }

  lemma WordsApart10()
    ensures NoTerm(IssueRewrites[10].1, IssueRewrites[11..13])
  {
    var r := IssueRewrites[10].1;
    var rules := IssueRewrites[11..13];
    assert |r| == 10;
    forall j | 0 <= j < 2 ensures !Contains(r, rules[j].0) {
      if j == 0 {
        NotContainsLonger(r, rules[j].0);
      } else {
        NotContainsLonger(r, rules[j].0);
      }
    }
  }

  lemma TermApart11a()
    ensures NoTerm(IssueRewrites[11].0, IssueRewrites[0..4])
  {
    var t := IssueRewrites[11].0;
    var rules := IssueRewrites[0..4];
    assert |t| == 25;
    forall j | 0 <= j < 4 ensures !Contains(t, rules[j].0) {
      if j == 0 {
        NotContainsByPair(t, rules[j].0, 0);
      } else if j == 1 {
        NotContainsByFirstChar(t, rules[j].0);
      } else if j == 2 {
        NotContainsByFirstChar(t, rules[j].0);
      } else {
        NotContainsByChar(t, rules[j].0, 8);
      }
    }
  }

  lemma TermApart11b()
    ensures NoTerm(IssueRewrites[11].0, IssueRewrites[4..8])
  {
    var t := IssueRewrites[11].0;
    var rules := IssueRewrites[4..8];
    assert |t| == 25;
    forall j | 0 <= j < 4 ensures !Contains(t, rules[j].0) {
      if j == 0 {
        NotContainsByFirstChar(t, rules[j].0);
      } else if j == 1 {
        NotContainsByFirstChar(t, rules[j].0);
      } else if j == 2 {
        NotContainsByFirstChar(t, rules[j].0);
      } else {
        NotContainsByChar(t, rules[j].0, 3);
      }
    }
  }

  lemma TermApart11c()
    ensures NoTerm(IssueRewrites[11].0, IssueRewrites[8..11])
  {
    var t := IssueRewrites[11].0;
    var rules := IssueRewrites[8..11];
    assert |t| == 25;
    forall j | 0 <= j < 3 ensures !Contains(t, rules[j].0) {
      if j == 0 {
        NotContainsByFirstChar(t, rules[j].0);
      } else if j == 1 {
        NotContainsByFirstChar(t, rules[j].0);
      } else {
        NotContainsByFirstChar(t, rules[j].0);
      }
    }
  }

  lemma WordsApart11()
    ensures NoTerm(IssueRewrites[11].1, IssueRewrites[12..13])
  {
    var r := IssueRewrites[11].1;
    var rules := IssueRewrites[12..13];
    assert |r| == 16;
    forall j | 0 <= j < 1 ensures !Contains(r, rules[j].0) {
      NotContainsByFirstChar(r, rules[j].0);
    }
  }

  lemma TermApart12a()
    ensures NoTerm(IssueRewrites[12].0, IssueRewrites[0..4])
  {
    var t := IssueRewrites[12].0;
    var rules := IssueRewrites[0..4];
    assert |t| == 13;
    forall j | 0 <= j < 4 ensures !Contains(t, rules[j].0) {
      if j == 0 {
        NotContainsByFirstChar(t, rules[j].0);
      } else if j == 1 {
        NotContainsByChar(t, rules[j].0, 2);
      } else if j == 2 {
        NotContainsByFirstChar(t, rules[j].0);
      } else {
        NotContainsByFirstChar(t, rules[j].0);
      }
    }
  }

  lemma TermApart12b()
    ensures NoTerm(IssueRewrites[12].0, IssueRewrites[4..8])
  {
    var t := IssueRewrites[12].0;
    var rules := IssueRewrites[4..8];
    assert |t| == 13;
    forall j | 0 <= j < 4 ensures !Contains(t, rules[j].0) {
      if j == 0 {
        NotContainsLonger(t, rules[j].0);
      } else if j == 1 {
        NotContainsByFirstChar(t, rules[j].0);
      } else if j == 2 {
        NotContainsLonger(t, rules[j].0);
      } else {
        NotContainsByChar(t, rules[j].0, 1);
      }
    }
  }

  lemma TermApart12c()
    ensures NoTerm(IssueRewrites[12].0, IssueRewrites[8..12])
  {
    var t := IssueRewrites[12].0;
    var rules := IssueRewrites[8..12];
    assert |t| == 13;
    forall j | 0 <= j < 4 ensures !Contains(t, rules[j].0) {
      if j == 0 {
        NotContainsLonger(t, rules[j].0);
      } else if j == 1 {
        NotContainsByChar(t, rules[j].0, 1);
      } else if j == 2 {
        NotContainsByChar(t, rules[j].0, 3);
      } else {
        NotContainsLonger(t, rules[j].0);
      }
    }
  }

  /** Every technical term is rewritten to its plain words: an issue that is just the term, in
      any case, comes out as the rule's plain words, capitalized. */
  lemma SimplifyIssueRewritesTerms(i: nat, issue: string)
    requires i < |IssueRewrites| && Lower(issue) == IssueRewrites[i].0
    ensures SimplifyIssue(issue) == Capitalize(IssueRewrites[i].1)
  {
    IssueRewritesNonEmpty();
    RulesStandAlone(i);
    RewriteOneTerm(IssueRewrites, i);
  }

  /** The seven tips `_simplify_recommendation` can give. */
  const TipWider := "Step further back to fit more in the photo"
  const TipCloser := "Get closer to show more detail"
  const TipAngle := "Try a different angle - move to the side or front"
  const TipLight := "Take the photo in better light or use your phone's flash"
  const TipFocus := "Make sure the camera is focused and the image is sharp"
  const TipVisible := "Make sure you can clearly see what's needed in the photo"
  const TipGeneric := "Take a clearer photo showing what's needed for this step"

  /** The keyword groups, tried in order, and the tip each gives. */
  const TipRules: seq<(seq<string>, string)> := [
    (["wider", "step back"], TipWider),
    (["closer", "close-up"], TipCloser),
    (["angle"], TipAngle),
    (["lighting", "light"], TipLight),
    (["clear"], TipFocus),
    (["visible"], TipVisible)
  ]

  /** Some keyword of the group occurs in `s`. */
  predicate AnyIn(s: string, keys: seq<string>)
  {
    exists i :: 0 <= i < |keys| && Contains(s, keys[i])
  }

  /** The tip of the first rule with a keyword in `s`, the generic tip when none has one. */
  function FirstTip(rules: seq<(seq<string>, string)>, s: string): (t: string)
    ensures (exists i :: 0 <= i < |rules| && t == rules[i].1) || t == TipGeneric
    decreases |rules|
  {
    if |rules| == 0 then TipGeneric
    else if AnyIn(s, rules[0].0) then rules[0].1
    else
      var t := FirstTip(rules[1..], s);
      assert (exists i :: 0 <= i < |rules| - 1 && t == rules[1..][i].1) ==> exists i :: 0 <= i < |rules| && t == rules[i].1;
      t
  }

  /** `_simplify_recommendation`: the lower-cased recommendation is tested for the keyword
      groups in a fixed order and the first hit picks one of seven fixed tips. */
  function SimplifyRecommendation(rec: string): (r: string)
    ensures r in {TipWider, TipCloser, TipAngle, TipLight, TipFocus, TipVisible, TipGeneric}
  {
    var s := Lower(rec);
    if Contains(s, "wider") || Contains(s, "step back") then TipWider
    else if Contains(s, "closer") || Contains(s, "close-up") then TipCloser
    else if Contains(s, "angle") then TipAngle
    else if Contains(s, "lighting") || Contains(s, "light") then TipLight
    else if Contains(s, "clear") then TipFocus
    else if Contains(s, "visible") then TipVisible
    else TipGeneric
  }

  lemma AnyIn2(s: string, a: string, b: string)
    ensures AnyIn(s, [a, b]) <==> Contains(s, a) || Contains(s, b)
  {
    if Contains(s, a) { assert [a, b][0] == a; }
    if Contains(s, b) { assert [a, b][1] == b; }
  }

  lemma AnyIn1(s: string, a: string)
    ensures AnyIn(s, [a]) <==> Contains(s, a)
  {
    if Contains(s, a) { assert [a][0] == a; }
  }

  /** The if-chain of `_simplify_recommendation` is the first-match rule over the keyword
      table. */
  lemma SimplifyRecommendationByRules(rec: string)
    ensures SimplifyRecommendation(rec) == FirstTip(TipRules, Lower(rec))
  {
    var s := Lower(rec);
    AnyIn2(s, "wider", "step back");
    AnyIn2(s, "closer", "close-up");
    AnyIn1(s, "angle");
    AnyIn2(s, "lighting", "light");
    AnyIn1(s, "clear");
    AnyIn1(s, "visible");
    var r1 := TipRules[1..];
    var r2 := r1[1..];
    var r3 := r2[1..];
    var r4 := r3[1..];
    var r5 := r4[1..];
    var r6 := r5[1..];
    assert r6 == [];
    assert FirstTip(r6, s) == TipGeneric;
    assert FirstTip(r5, s) == if Contains(s, "visible") then TipVisible else TipGeneric;
    assert FirstTip(r4, s) == if Contains(s, "clear") then TipFocus else FirstTip(r5, s);
    assert FirstTip(r3, s) == if Contains(s, "lighting") || Contains(s, "light") then TipLight else FirstTip(r4, s);
    assert FirstTip(r2, s) == if Contains(s, "angle") then TipAngle else FirstTip(r3, s);
    assert FirstTip(r1, s) == if Contains(s, "closer") || Contains(s, "close-up") then TipCloser else FirstTip(r2, s);
  }

  /** The recommendation rewriter ignores the case of its input. */
  lemma SimplifyRecommendationIgnoresCase(rec: string)
    ensures SimplifyRecommendation(Upper(rec)) == SimplifyRecommendation(rec)
  {
    LowerOfUpper(rec);
  }

  /** A mismatch at position `j` rules out `s.startswith(p)`. */
  lemma NotStartsAt(s: string, p: string, j: nat)
    requires j < |p| && j < |s| && s[j] != p[j]
    ensures !StartsWith(s, p)
  {
  }

  /** None of the later terms occurs in the text the first rewrite makes of "front". */
  lemma RewrittenFrontHasNoTerm()
    ensures NoTerm("frwhite box", IssueRewrites[1..])
  {
    var t := "frwhite box";
    var rest := IssueRewrites[1..];
    forall i | 0 <= i < |rest| ensures !Contains(t, rest[i].0) {
      if i == 0 {
        FiberCableAbsent(t, rest[0].0);
      } else if i == 6 {
        EquipmentAbsent(t, rest[6].0);
      } else if i == 2 || i == 4 {
        assert rest[i].0[0] in "dp";
        NotContainsByFirstChar(t, rest[i].0);
      } else {
        assert |rest[i].0| > |t|;
        NotContainsLonger(t, rest[i].0);
      }
    }
  }

  lemma FiberCableAbsent(t: string, p: string)
    requires t == "frwhite box" && p == "fiber cable"
    ensures !Contains(t, p)
  {
    NotStartsAt(t, p, 1);
    NotContainsLonger(t[1..], p);
  }

  lemma EquipmentAbsent(t: string, p: string)
    requires t == "frwhite box" && p == "equipment"
    ensures !Contains(t, p)
  {
    var t1 := t[1..];
    var t2 := t1[1..];
    NotContainsLonger(t2[1..], p);
    NotStartsAt(t2, p, 0);
    assert !Contains(t2, p);
    NotStartsAt(t1, p, 0);
    assert !Contains(t1, p);
    NotStartsAt(t, p, 0);
  }

  /** The first rewrite turns "front" into "frwhite box". */
  lemma FrontFirstRewrite(s: string)
    requires s == "front"
    ensures Replace(s, "ont", "white box") == "frwhite box"
  {
    assert Replace("", "ont", "white box") == "";
    assert Replace("ont", "ont", "white box") == "white box";
    assert Replace("ront", "ont", "white box") == "rwhite box";
  }

  lemma CapitalizeFrwhite(t: string)
    requires t == "frwhite box"
    ensures Capitalize(t) == "Frwhite box"
  {
    var c := Capitalize(t);
    forall j | 1 <= j < |t| ensures c[j] == t[j] {
      assert !('A' <= t[j] <= 'Z');
    }
  }

  /** The terms are replaced as plain substrings, not as words: the `ont` inside "front" is
      rewritten too, so "Front" (in any case) becomes "Frwhite box". */
  lemma SimplifyIssueRewritesInsideWords(issue: string)
    requires Lower(issue) == "front"
    ensures SimplifyIssue(issue) == "Frwhite box"
  {
    IssueRewritesNonEmpty();
    var s := Lower(issue);
    var t := "frwhite box";
    FrontFirstRewrite(s);
    RewrittenFrontHasNoTerm();
    RewriteAllAbsent(t, IssueRewrites[1..]);
    assert RewriteAll(s, IssueRewrites) == t;
    CapitalizeFrwhite(t);
  }
}
