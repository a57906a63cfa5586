/** `normalizeUserId` of server/utils/userUtils.js: trim, lower-case, and
    turn every whitespace run into one underscore. */
module UserUtils {
  import opened JsString

  function NormalizeUserId(userId: string): (r: string)
    ensures NoSpace(r)
    ensures NoUpper(r)
  {
    var lowered := Lower(Trim(userId));
    ReplaceHasNoSpace(lowered, "_", false);
    ReplaceKeepsNoUpper(lowered, "_", false);
    ReplaceSpaceRuns(lowered, "_")
  }

  /** A string without whitespace and without upper-case letters is already normal. */
  lemma NormalOfNormalForm(s: string)
    requires NoSpace(s) && NoUpper(s)
    ensures NormalizeUserId(s) == s
  {
    TrimStartOfSpaceFree(s);
    TrimEndOfSpaceFree(s);
    assert Trim(s) == s;
    assert Lower(s) == s;
    ReplaceOfSpaceFree(s, "_", false);
  }

  lemma NormalizeIdempotent(s: string)
    ensures NormalizeUserId(NormalizeUserId(s)) == NormalizeUserId(s)
  {
    NormalOfNormalForm(NormalizeUserId(s));
  }

  lemma TrimDropsLeadingSpaces(w: string, s: string)
    requires AllSpace(w)
    ensures Trim(w + s) == Trim(s)
  {
    TrimStartSpacesThen(w, s);
  }

  lemma TrimDropsTrailingSpaces(s: string, w: string)
    requires AllSpace(w)
    ensures Trim(s + w) == Trim(s)
  {
    if AllSpace(s) {
      assert AllSpace(s + w);
      assert TrimStart(s + w) == [] && TrimStart(s) == [];
    } else {
      TrimStartAppend(s, w);
      TrimEndThenSpaces(TrimStart(s), w);
    }
  }

  /** Whitespace at either end disappears instead of becoming `_`. */
  lemma NormalizeIgnoresOuterSpaces(w: string, s: string, w': string)
    requires AllSpace(w) && AllSpace(w')
    ensures NormalizeUserId(w + s + w') == NormalizeUserId(s)
  {
    assert w + s + w' == w + (s + w');
    TrimDropsLeadingSpaces(w, s + w');
    TrimDropsTrailingSpaces(s, w');
  }

  lemma LowerAppend(a: string, b: string)
    ensures Lower(a + b) == Lower(a) + Lower(b)
  {
  }

  lemma LowerKeepsSpace(c: char)
    ensures IsSpace(LowerChar(c)) == IsSpace(c)
  {
  }

  /** Between two words, a whitespace run becomes exactly one `_`. */
  lemma NormalizeJoinsWords(a: string, w: string, b: string)
    requires a != [] && !IsSpace(a[0]) && !IsSpace(a[|a| - 1])
    requires b != [] && !IsSpace(b[0]) && !IsSpace(b[|b| - 1])
    requires w != [] && AllSpace(w)
    ensures NormalizeUserId(a + w + b) == NormalizeUserId(a) + "_" + NormalizeUserId(b)
  {
    var s := a + w + b;
    assert Trim(s) == s by {
      assert s[0] == a[0] && s[|s| - 1] == b[|b| - 1];
      TrimStartOfSpaceFree(s);
      TrimEndOfSpaceFree(s);
    }
    assert Trim(a) == a by {
      TrimStartOfSpaceFree(a);
      TrimEndOfSpaceFree(a);
    }
    assert Trim(b) == b by {
      TrimStartOfSpaceFree(b);
      TrimEndOfSpaceFree(b);
    }
    var la, lw, lb := Lower(a), Lower(w), Lower(b);
    assert Lower(s) == la + lw + lb by {
      LowerAppend(a + w, b);
      LowerAppend(a, w);
    }
    assert !IsSpace(la[|la| - 1]) by { LowerKeepsSpace(a[|a| - 1]); }
    assert !IsSpace(lb[0]) by { LowerKeepsSpace(b[0]); }
    assert AllSpace(lw) by {
      forall i | 0 <= i < |lw| ensures IsSpace(lw[i]) { LowerKeepsSpace(w[i]); }
    }
    ReplaceOneRun(la, lw, lb, "_", false);
  }

  /** Apart from whitespace and underscores, the characters survive in order,
      lower-cased. */
  lemma NormalizeKeepsVisible(s: string)
    ensures Visible(NormalizeUserId(s)) == Lower(Visible(s))
  {
    VisibleOfReplace(Lower(Trim(s)), false);
    VisibleOfLower(Trim(s));
    VisibleOfTrim(s);
  }
}
