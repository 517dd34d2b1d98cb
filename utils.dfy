/** The naming convention that turns a collection name into the name of the
  * foreign key pointing at it and into its singular form
  * (`categories` -> `category_id` / `category`).
  *
  * Each of `schemaToId` and `schemaToTitle` is two chained global regular
  * expression replacements, `/(ies)\b/g` and then `/(s)\b/g`. `\b` after a
  * pattern that ends in a word character holds exactly when the next
  * character is not a word character or the string ends there; a global
  * replacement scans left to right, replaces a match and resumes after it,
  * or moves on by one character. `ReplaceWordFinal` is that scan. */
module Utils {

  /** The characters `\b` treats as word characters: `[A-Za-z0-9_]`. */
  predicate IsWordChar(c: char)
  {
    ('a' <= c <= 'z') || ('A' <= c <= 'Z') || ('0' <= c <= '9') || c == '_'
  }

  predicate IsWord(s: string)
  {
    forall i :: 0 <= i < |s| ==> IsWordChar(s[i])
  }

  /** `/(pat)\b/` matches `s` at position `i`. */
  predicate MatchesAt(s: string, pat: string, i: nat)
  {
    i + |pat| <= |s| && s[i..i + |pat|] == pat && (i + |pat| == |s| || !IsWordChar(s[i + |pat|]))
  }

  /** The two patterns the convention uses are non-empty runs of word characters. */
  predicate IsPattern(pat: string)
  {
    |pat| > 0 && IsWord(pat)
  }

  /** `s.replace(/(pat)\b/g, rep)`. */
  function ReplaceWordFinal(s: string, pat: string, rep: string): (r: string)
    requires IsPattern(pat)
    ensures |rep| <= |pat| ==> |r| <= |s|
    ensures |rep| >= |pat| ==> |r| >= |s|
    decreases |s|
  {
    if |s| == 0 then ""
    else if MatchesAt(s, pat, 0) then rep + ReplaceWordFinal(s[|pat|..], pat, rep)
    else [s[0]] + ReplaceWordFinal(s[1..], pat, rep)
  }

  /** `schemaToId`: the foreign-key name of a collection. */
  function SchemaToId(schema: string): (r: string)
    ensures |r| >= |schema|
  {
    ReplaceWordFinal(ReplaceWordFinal(schema, "ies", "y_id"), "s", "_id")
  }

  /** `schemaToTitle`: the singular form of a collection name. */
  function SchemaToTitle(schema: string): (r: string)
    ensures |r| <= |schema|
  {
    ReplaceWordFinal(ReplaceWordFinal(schema, "ies", "y"), "s", "")
  }

  /** `s` has a word-final occurrence of `pat` somewhere. */
  predicate HasWordFinal(s: string, pat: string)
  {
    exists i: nat | i < |s| :: MatchesAt(s, pat, i)
  }

  lemma {:induction false} MatchesAtShift(s: string, pat: string, i: nat)
    requires |s| > 0 && MatchesAt(s, pat, i + 1)
    ensures MatchesAt(s[1..], pat, i)
  {
    assert s[1..][i..i + |pat|] == s[i + 1..i + 1 + |pat|];
  }

  /** Where the pattern never occurs at the end of a word, the rewrite changes nothing. */
  lemma {:induction false} ReplaceWithoutMatch(s: string, pat: string, rep: string)
    requires IsPattern(pat)
    requires !HasWordFinal(s, pat)
    ensures ReplaceWordFinal(s, pat, rep) == s
    decreases |s|
  {
    if |s| > 0 {
      assert !MatchesAt(s, pat, 0);
      forall i: nat ensures !MatchesAt(s[1..], pat, i) {
        if MatchesAt(s[1..], pat, i) {
          assert s[1..][i..i + |pat|] == s[i + 1..i + 1 + |pat|];
          assert MatchesAt(s, pat, i + 1);
        }
      }
      ReplaceWithoutMatch(s[1..], pat, rep);
    }
  }

  /** Any word-final occurrence is rewritten, so a rewrite of a different length
    * changes the length of the string. */
  lemma {:induction false} ReplaceWithMatch(s: string, pat: string, rep: string, i: nat)
    requires IsPattern(pat) && MatchesAt(s, pat, i)
    ensures |rep| < |pat| ==> |ReplaceWordFinal(s, pat, rep)| < |s|
    ensures |rep| > |pat| ==> |ReplaceWordFinal(s, pat, rep)| > |s|
    decreases |s|
  {
    if !MatchesAt(s, pat, 0) {
      assert i > 0;
      MatchesAtShift(s, pat, i - 1);
      ReplaceWithMatch(s[1..], pat, rep, i - 1);
    }
  }

  /** A word-final `ies` ends in a word-final `s`. */
  lemma IesEndsInS(s: string, i: nat)
    requires MatchesAt(s, "ies", i)
    ensures MatchesAt(s, "s", i + 2)
  {
    assert s[i + 2] == s[i..i + 3][2];
  }

  /** `schemaToTitle(s) == s` exactly when `s` has no word-final `s`. */
  lemma TitleUnchangedIff(s: string)
    ensures SchemaToTitle(s) == s <==> !HasWordFinal(s, "s")
  {
    assert IsPattern("ies") by { assert IsWordChar("ies"[0]) && IsWordChar("ies"[1]) && IsWordChar("ies"[2]); }
    assert IsPattern("s") by { assert IsWordChar("s"[0]); }
    var once := ReplaceWordFinal(s, "ies", "y");
    if HasWordFinal(s, "ies") {
      var i: nat :| MatchesAt(s, "ies", i);
      ReplaceWithMatch(s, "ies", "y", i);
      IesEndsInS(s, i);
      assert SchemaToTitle(s) != s;
    } else {
      ReplaceWithoutMatch(s, "ies", "y");
      if HasWordFinal(s, "s") {
        var i: nat :| MatchesAt(s, "s", i);
        ReplaceWithMatch(once, "s", "", i);
      } else {
        ReplaceWithoutMatch(once, "s", "");
      }
    }
  }

  /** `schemaToId(s) == s` exactly when `s` has no word-final `s`: in particular no
    * `_id` is ever appended to a name that does not end in `s`. */
  lemma IdUnchangedIff(s: string)
    ensures SchemaToId(s) == s <==> !HasWordFinal(s, "s")
  {
    assert IsPattern("ies") by { assert IsWordChar("ies"[0]) && IsWordChar("ies"[1]) && IsWordChar("ies"[2]); }
    assert IsPattern("s") by { assert IsWordChar("s"[0]); }
    var once := ReplaceWordFinal(s, "ies", "y_id");
    if HasWordFinal(s, "ies") {
      var i: nat :| MatchesAt(s, "ies", i);
      ReplaceWithMatch(s, "ies", "y_id", i);
      IesEndsInS(s, i);
      assert SchemaToId(s) != s;
    } else {
      ReplaceWithoutMatch(s, "ies", "y_id");
      if HasWordFinal(s, "s") {
        var i: nat :| MatchesAt(s, "s", i);
        ReplaceWithMatch(once, "s", "_id", i);
      } else {
        ReplaceWithoutMatch(once, "s", "_id");
      }
    }
  }

  /** In a single word that ends with the pattern, only that final occurrence is rewritten. */
  lemma {:induction false} ReplaceWordEnd(p: string, pat: string, rep: string)
    requires IsPattern(pat) && IsWord(p + pat)
    ensures ReplaceWordFinal(p + pat, pat, rep) == p + rep
    decreases |p|
  {
    var s := p + pat;
    if p == [] {
      assert s == pat;
      assert s[|pat|..] == [];
    } else {
      assert IsWordChar(s[|pat|]);
      assert s[1..] == p[1..] + pat;
      ReplaceWordEnd(p[1..], pat, rep);
    }
  }

  /** In a single word that does not end with the pattern, nothing is rewritten. */
  lemma {:induction false} ReplaceWordNoEnd(s: string, pat: string, rep: string)
    requires IsPattern(pat) && IsWord(s)
    requires |s| < |pat| || s[|s| - |pat|..] != pat
    ensures ReplaceWordFinal(s, pat, rep) == s
  {
    forall i: nat ensures !MatchesAt(s, pat, i) {
      if i + |pat| < |s| {
        assert IsWordChar(s[i + |pat|]);
      } else if i + |pat| == |s| {
        assert s[i..i + |pat|] == s[|s| - |pat|..];
      }
    }
    ReplaceWithoutMatch(s, pat, rep);
  }

  /** The `ies` rewrite runs first: a word ending in `ies` becomes `...y_id` and `...y`,
    * never `...ie_id` or `...ie`. */
  lemma WordEndingInIes(p: string)
    requires IsWord(p + "ies")
    ensures SchemaToId(p + "ies") == p + "y_id"
    ensures SchemaToTitle(p + "ies") == p + "y"
  {
    assert IsPattern("ies") by { assert IsWordChar("ies"[0]) && IsWordChar("ies"[1]) && IsWordChar("ies"[2]); }
    assert IsPattern("s") by { assert IsWordChar("s"[0]); }
    ReplaceWordEnd(p, "ies", "y_id");
    ReplaceWordEnd(p, "ies", "y");
    assert IsWord(p) by { forall i | 0 <= i < |p| ensures IsWordChar(p[i]) { assert p[i] == (p + "ies")[i]; } }
    assert IsWord(p + "y_id") by {
      forall i | 0 <= i < |p| + 4 ensures IsWordChar((p + "y_id")[i]) {
        if i < |p| { assert (p + "y_id")[i] == p[i]; }
      }
    }
    assert IsWord(p + "y") by {
      forall i | 0 <= i < |p| + 1 ensures IsWordChar((p + "y")[i]) {
        if i < |p| { assert (p + "y")[i] == p[i]; }
      }
    }
    assert (p + "y_id")[|p + "y_id"| - 1..] == "d";
    assert (p + "y")[|p + "y"| - 1..] == "y";
    ReplaceWordNoEnd(p + "y_id", "s", "_id");
    ReplaceWordNoEnd(p + "y", "s", "");
  }

  /** A word ending in `s` but not in `ies` loses that `s`: `...s` becomes `..._id` and `...`. */
  lemma WordEndingInS(p: string)
    requires IsWord(p + "s")
    requires |p| < 2 || p[|p| - 2..] != "ie"
    ensures SchemaToId(p + "s") == p + "_id"
    ensures SchemaToTitle(p + "s") == p
  {
    assert IsPattern("ies") by { assert IsWordChar("ies"[0]) && IsWordChar("ies"[1]) && IsWordChar("ies"[2]); }
    assert IsPattern("s") by { assert IsWordChar("s"[0]); }
    var s := p + "s";
    if |s| >= 3 {
      assert s[|s| - 3..][..2] == p[|p| - 2..];
    }
    ReplaceWordNoEnd(s, "ies", "y_id");
    ReplaceWordNoEnd(s, "ies", "y");
    ReplaceWordEnd(p, "s", "_id");
    ReplaceWordEnd(p, "s", "");
  }

  /** For one word ending in `s`, the foreign key is the singular form followed by `_id`. */
  lemma IdIsTitleWithSuffix(s: string)
    requires |s| > 0 && IsWord(s) && s[|s| - 1] == 's'
    ensures SchemaToId(s) == SchemaToTitle(s) + "_id"
  {
    if |s| >= 3 && s[|s| - 3..] == "ies" {
      var p := s[..|s| - 3];
      assert s == p + "ies";
      WordEndingInIes(p);
    } else {
      var p := s[..|s| - 1];
      assert s == p + "s";
      if |p| >= 2 {
        assert s[|s| - 3..] == p[|p| - 2..] + "s";
      }
      WordEndingInS(p);
    }
  }

  /** Whether the pattern matches at the start of `a + [c] + b` depends on `a` alone. */
  lemma MatchAtStartAcross(a: string, c: char, b: string, pat: string)
    requires IsPattern(pat) && !IsWordChar(c) && a != []
    ensures MatchesAt(a + [c] + b, pat, 0) == MatchesAt(a, pat, 0)
  {
    var s := a + [c] + b;
    if |pat| <= |a| {
      assert s[..|pat|] == a[..|pat|];
      assert |pat| < |a| ==> s[|pat|] == a[|pat|];
      assert |pat| == |a| ==> s[|pat|] == c;
    } else if |pat| <= |s| {
      assert s[..|pat|][|a|] == c;
      assert IsWordChar(pat[|a|]);
    }
  }

  /** The rewrite is global: it acts on each word separately, across any non-word separator. */
  lemma {:induction false} ReplaceAcrossSeparator(a: string, c: char, b: string, pat: string, rep: string)
    requires IsPattern(pat) && !IsWordChar(c)
    ensures ReplaceWordFinal(a + [c] + b, pat, rep)
         == ReplaceWordFinal(a, pat, rep) + [c] + ReplaceWordFinal(b, pat, rep)
    decreases |a|
  {
    var s := a + [c] + b;
    if a == [] {
      assert s == [c] + b;
      assert IsWordChar(pat[0]);
      assert !MatchesAt(s, pat, 0) by { if |pat| <= |s| { assert s[..|pat|][0] == c; } }
      assert s[1..] == b;
    } else {
      MatchAtStartAcross(a, c, b, pat);
      if MatchesAt(a, pat, 0) {
        assert s[|pat|..] == a[|pat|..] + [c] + b;
        ReplaceAcrossSeparator(a[|pat|..], c, b, pat, rep);
      } else {
        assert s[1..] == a[1..] + [c] + b;
        ReplaceAcrossSeparator(a[1..], c, b, pat, rep);
      }
    }
  }

  /** Both conversions treat the words of a multi-word name one by one. */
  lemma ConversionsPerWord(a: string, c: char, b: string)
    requires !IsWordChar(c)
    ensures SchemaToId(a + [c] + b) == SchemaToId(a) + [c] + SchemaToId(b)
    ensures SchemaToTitle(a + [c] + b) == SchemaToTitle(a) + [c] + SchemaToTitle(b)
  {
    assert IsPattern("ies") by { assert IsWordChar("ies"[0]) && IsWordChar("ies"[1]) && IsWordChar("ies"[2]); }
    assert IsPattern("s") by { assert IsWordChar("s"[0]); }
    ReplaceAcrossSeparator(a, c, b, "ies", "y_id");
    ReplaceAcrossSeparator(ReplaceWordFinal(a, "ies", "y_id"), c, ReplaceWordFinal(b, "ies", "y_id"), "s", "_id");
    ReplaceAcrossSeparator(a, c, b, "ies", "y");
    ReplaceAcrossSeparator(ReplaceWordFinal(a, "ies", "y"), c, ReplaceWordFinal(b, "ies", "y"), "s", "");
  }

  /** `categories` -> `category_id` / `category`. */
  lemma CategoriesNames()
    ensures SchemaToId("categories") == "category_id"
    ensures SchemaToTitle("categories") == "category"
  {
    var p := "categor";
    var s := p + "ies";
    assert IsWord(s) by {
      assert IsWordChar(s[0]) && IsWordChar(s[1]) && IsWordChar(s[2]) && IsWordChar(s[3]);
      assert IsWordChar(s[4]) && IsWordChar(s[5]) && IsWordChar(s[6]) && IsWordChar(s[7]);
      assert IsWordChar(s[8]) && IsWordChar(s[9]);
    }
    WordEndingInIes(p);
    assert s == "categories";
    assert p + "y_id" == "category_id";
    assert p + "y" == "category";
  }

  /** `brands` -> `brand_id` / `brand`. */
  lemma BrandsNames()
    ensures SchemaToId("brands") == "brand_id"
    ensures SchemaToTitle("brands") == "brand"
  {
    var p := "brand";
    var s := p + "s";
    assert IsWord(s) by {
      assert IsWordChar(s[0]) && IsWordChar(s[1]) && IsWordChar(s[2]);
      assert IsWordChar(s[3]) && IsWordChar(s[4]) && IsWordChar(s[5]);
    }
    assert p[3..] != "ie" by { assert p[3..][0] == 'n'; }
    WordEndingInS(p);
    assert s == "brands";
    assert p + "_id" == "brand_id";
  }

  /** A name that does not end in `s` gets no `_id`: `schemaToId('person') == 'person'`. */
  lemma NameWithoutFinalS()
    ensures SchemaToId("person") == "person"
    ensures SchemaToTitle("person") == "person"
  {
    var s := "person";
    assert IsPattern("ies") by { assert IsWordChar("ies"[0]) && IsWordChar("ies"[1]) && IsWordChar("ies"[2]); }
    assert IsPattern("s") by { assert IsWordChar("s"[0]); }
    assert IsWord(s) by {
      assert IsWordChar(s[0]) && IsWordChar(s[1]) && IsWordChar(s[2]);
      assert IsWordChar(s[3]) && IsWordChar(s[4]) && IsWordChar(s[5]);
    }
    assert s[3..] != "ies" by { assert s[3..][0] == 's'; }
    assert s[5..] != "s" by { assert s[5..][0] == 'n'; }
    ReplaceWordNoEnd(s, "ies", "y_id");
    ReplaceWordNoEnd(s, "ies", "y");
    ReplaceWordNoEnd(s, "s", "_id");
    ReplaceWordNoEnd(s, "s", "");
  }
}
