/** The JavaScript string operations the core relies on: the `\s` class of
    regular expressions (which is also what `String.prototype.trim` strips),
    `trim`, a global `replace(/\s+/g, rep)`, ASCII case mapping, and the
    decimal rendering of integers used in file names and messages. */
module JsString {
  import opened Common

  /** The characters JavaScript's `\s` matches: the WhiteSpace and
      LineTerminator code points of ECMA-262. */
  predicate IsSpace(c: char)
  {
    || c == '\t' || c == '\n' || c == '\U{000B}' || c == '\U{000C}' || c == '\r'
    || c == ' ' || c == '\U{00A0}' || c == '\U{1680}'
    || ('\U{2000}' <= c <= '\U{200A}')
    || c == '\U{2028}' || c == '\U{2029}' || c == '\U{202F}' || c == '\U{205F}'
    || c == '\U{3000}' || c == '\U{FEFF}'
  }

  predicate NoSpace(s: string)
  {
    forall i :: 0 <= i < |s| ==> !IsSpace(s[i])
  }

  predicate AllSpace(s: string)
  {
    forall i :: 0 <= i < |s| ==> IsSpace(s[i])
  }

  /** Removes the leading whitespace. */
  function TrimStart(s: string): (r: string)
    ensures |r| <= |s| && r == s[|s| - |r|..]
    ensures forall i :: 0 <= i < |s| - |r| ==> IsSpace(s[i])
    ensures r == [] || !IsSpace(r[0])
  {
    if |s| > 0 && IsSpace(s[0]) then TrimStart(s[1..]) else s
  }

  /** Removes the trailing whitespace. */
  function TrimEnd(s: string): (r: string)
    ensures |r| <= |s| && r == s[..|r|]
    ensures forall i :: |r| <= i < |s| ==> IsSpace(s[i])
    ensures r == [] || !IsSpace(r[|r| - 1])
  {
    if |s| > 0 && IsSpace(s[|s| - 1]) then TrimEnd(s[..|s| - 1]) else s
  }

  /** `s.trim()`. */
  function Trim(s: string): string
  {
    TrimEnd(TrimStart(s))
  }

  /** `s.replace(/\s+/g, rep)`: every maximal run of whitespace becomes one `rep`. */
  function ReplaceSpaceRuns(s: string, rep: string): string
  {
    ReplaceRuns(s, rep, false)
  }

  /** The scan behind ReplaceSpaceRuns, one character at a time; `inRun`
      says that the previous character was whitespace, so that a run has
      already been replaced. */
  function ReplaceRuns(s: string, rep: string, inRun: bool): string
  {
    if s == [] then [] else Emit(s[0], rep, inRun) + ReplaceRuns(s[1..], rep, IsSpace(s[0]))
  }

  /** What the scan writes for one character: `rep` for the first
      whitespace of a run, nothing for the rest of it, other characters
      as they are. */
  function Emit(c: char, rep: string, inRun: bool): string
  {
    if !IsSpace(c) then [c] else if inRun then [] else rep
  }

  predicate IsUpper(c: char) { 'A' <= c <= 'Z' }

  predicate IsLower(c: char) { 'a' <= c <= 'z' }

  function LowerChar(c: char): (d: char)
    ensures !IsUpper(d)
    ensures IsUpper(c) ==> IsLower(d) && d as int == c as int + 32
    ensures !IsUpper(c) ==> d == c
  {
    if IsUpper(c) then (c as int + 32) as char else c
  }

  function UpperChar(c: char): (d: char)
    ensures !IsLower(d)
    ensures IsLower(c) ==> IsUpper(d) && d as int == c as int - 32
    ensures !IsLower(c) ==> d == c
  {
    if IsLower(c) then (c as int - 32) as char else c
  }

  /** `s.toLowerCase()`, restricted to the ASCII letters. */
  function Lower(s: string): (r: string)
    ensures |r| == |s| && forall i :: 0 <= i < |s| ==> r[i] == LowerChar(s[i])
  {
    if s == [] then [] else [LowerChar(s[0])] + Lower(s[1..])
  }

  /** `s.toUpperCase()`, restricted to the ASCII letters. */
  function Upper(s: string): (r: string)
    ensures |r| == |s| && forall i :: 0 <= i < |s| ==> r[i] == UpperChar(s[i])
  {
    if s == [] then [] else [UpperChar(s[0])] + Upper(s[1..])
  }

  predicate NoUpper(s: string)
  {
    forall i :: 0 <= i < |s| ==> !IsUpper(s[i])
  }

  function DigitChar(d: nat): (c: char)
    requires d < 10
    ensures '0' <= c <= '9' && c as int - '0' as int == d
  {
    ('0' as int + d) as char
  }

  /** The decimal text of a natural number, as template literals print it. */
  function NatToString(n: nat): (r: string)
    ensures |r| >= 1 && forall i :: 0 <= i < |r| ==> '0' <= r[i] <= '9'
    ensures n != 0 ==> r[0] != '0'
  {
    if n < 10 then [DigitChar(n)] else NatToString(n / 10) + [DigitChar(n % 10)]
  }

  function IntToString(i: int): string
  {
    if i < 0 then "-" + NatToString(-i) else NatToString(i)
  }

  /** The value of a string of decimal digits: the partner of NatToString. */
  function DigitsValue(s: string): nat
    requires forall i :: 0 <= i < |s| ==> '0' <= s[i] <= '9'
  {
    if s == [] then 0 else 10 * DigitsValue(s[..|s| - 1]) + (s[|s| - 1] as int - '0' as int)
  }

  lemma {:induction false} NatToStringRoundTrip(n: nat)
    ensures DigitsValue(NatToString(n)) == n
  {
    if n >= 10 {
      var r := NatToString(n);
      assert r[..|r| - 1] == NatToString(n / 10);
      NatToStringRoundTrip(n / 10);
    }
  }

  // ---------------------------------------------------------------------
  // Facts about trim and the whitespace-run replacement.

  lemma TrimStartOfSpaceFree(s: string)
    requires s == [] || !IsSpace(s[0])
    ensures TrimStart(s) == s
  {
  }

  lemma TrimEndOfSpaceFree(s: string)
    requires s == [] || !IsSpace(s[|s| - 1])
    ensures TrimEnd(s) == s
  {
  }

  /** Leading whitespace in front of a string is all that TrimStart removes there. */
  lemma {:induction false} TrimStartSpacesThen(w: string, t: string)
    requires AllSpace(w)
    ensures TrimStart(w + t) == TrimStart(t)
  {
    if w == [] {
      assert w + t == t;
    } else {
      assert (w + t)[1..] == w[1..] + t;
      TrimStartSpacesThen(w[1..], t);
    }
  }

  /** Whitespace after a string is all that TrimEnd removes there. */
  lemma {:induction false} TrimEndThenSpaces(t: string, w: string)
    requires AllSpace(w)
    ensures TrimEnd(t + w) == TrimEnd(t)
  {
    if w == [] {
      assert t + w == t;
    } else {
      assert (t + w)[..|t + w| - 1] == t + w[..|w| - 1];
      TrimEndThenSpaces(t, w[..|w| - 1]);
    }
  }

  /** A string that is not blank keeps whatever follows it through TrimStart. */
  lemma {:induction false} TrimStartAppend(s: string, t: string)
    requires !AllSpace(s)
    ensures TrimStart(s + t) == TrimStart(s) + t
  {
    if IsSpace(s[0]) {
      assert (s + t)[1..] == s[1..] + t;
      TrimStartAppend(s[1..], t);
    }
  }

  lemma {:induction false} ReplaceOfSpaceFree(s: string, rep: string, inRun: bool)
    requires NoSpace(s)
    ensures ReplaceRuns(s, rep, inRun) == s
  {
    if s != [] {
      ReplaceOfSpaceFree(s[1..], rep, false);
    }
  }

  lemma {:induction false} ReplaceHasNoSpace(s: string, rep: string, inRun: bool)
    requires NoSpace(rep)
    ensures NoSpace(ReplaceRuns(s, rep, inRun))
  {
    if s != [] {
      ReplaceHasNoSpace(s[1..], rep, IsSpace(s[0]));
    }
  }

  lemma {:induction false} ReplaceKeepsNoUpper(s: string, rep: string, inRun: bool)
    requires NoUpper(s) && NoUpper(rep)
    ensures NoUpper(ReplaceRuns(s, rep, inRun))
  {
    if s != [] {
      ReplaceKeepsNoUpper(s[1..], rep, IsSpace(s[0]));
    }
  }

  /** Inside a run, the rest of the run produces nothing. */
  lemma {:induction false} ReplaceRestOfRun(w: string, b: string, rep: string)
    requires AllSpace(w)
    requires b == [] || !IsSpace(b[0])
    ensures ReplaceRuns(w + b, rep, true) == ReplaceRuns(b, rep, false)
  {
    if w == [] {
      assert w + b == b;
    } else {
      assert (w + b)[1..] == w[1..] + b;
      ReplaceRestOfRun(w[1..], b, rep);
    }
  }

  /** A run at the very start becomes one `rep`. */
  lemma ReplaceLeadingRun(w: string, b: string, rep: string)
    requires w != [] && AllSpace(w)
    requires b == [] || !IsSpace(b[0])
    ensures ReplaceRuns(w + b, rep, false) == rep + ReplaceRuns(b, rep, false)
  {
    assert (w + b)[0] == w[0] && (w + b)[1..] == w[1..] + b;
    ReplaceRestOfRun(w[1..], b, rep);
  }

  /** One maximal whitespace run between two pieces becomes exactly one `rep`. */
  lemma {:induction false} ReplaceOneRun(a: string, w: string, b: string, rep: string, inRun: bool)
    requires a == [] || !IsSpace(a[|a| - 1])
    requires w != [] && AllSpace(w)
    requires b == [] || !IsSpace(b[0])
    requires a != [] || !inRun
    ensures ReplaceRuns(a + w + b, rep, inRun)
         == ReplaceRuns(a, rep, inRun) + rep + ReplaceRuns(b, rep, false)
    decreases |a|, 1
  {
    if a == [] {
      assert a + w + b == w + b;
      ReplaceLeadingRun(w, b, rep);
    } else {
      ReplaceOneRunAfter(a, w, b, rep, inRun);
    }
  }

  /** The inductive case of ReplaceOneRun: the first character of `a` is
      written as the scan writes it, and the rest follows by induction. */
  lemma {:induction false} ReplaceOneRunAfter(a: string, w: string, b: string, rep: string, inRun: bool)
    requires a != [] && !IsSpace(a[|a| - 1])
    requires w != [] && AllSpace(w)
    requires b == [] || !IsSpace(b[0])
    ensures ReplaceRuns(a + w + b, rep, inRun)
         == ReplaceRuns(a, rep, inRun) + rep + ReplaceRuns(b, rep, false)
    decreases |a|, 0
  {
    var t := a[1..];
    assert a + w + b == [a[0]] + (t + w + b) && a == [a[0]] + t;
    assert t == [] || t[|t| - 1] == a[|a| - 1];
    var head, x, y := Emit(a[0], rep, inRun), ReplaceRuns(t, rep, IsSpace(a[0])), ReplaceRuns(b, rep, false);
    calc {
      ReplaceRuns(a + w + b, rep, inRun);
      { ReplaceStep(a[0], t + w + b, rep, inRun); }
      head + ReplaceRuns(t + w + b, rep, IsSpace(a[0]));
      { ReplaceOneRun(t, w, b, rep, IsSpace(a[0])); }
      head + (x + rep + y);
      { ConcatAssoc(head, x + rep, y); ConcatAssoc(head, x, rep); }
      (head + x) + rep + y;
      { ReplaceStep(a[0], t, rep, inRun); }
      ReplaceRuns(a, rep, inRun) + rep + y;
    }
  }


  /** The scan of a string with a known first character. */
  lemma ReplaceStep(c: char, t: string, rep: string, inRun: bool)
    ensures ReplaceRuns([c] + t, rep, inRun) == Emit(c, rep, inRun) + ReplaceRuns(t, rep, IsSpace(c))
  {
    assert ([c] + t)[0] == c && ([c] + t)[1..] == t;
  }

  // ---------------------------------------------------------------------
  // Characters that are neither whitespace nor `_`, in order.

  function Visible(s: string): string
  {
    if s == [] then []
    else if IsSpace(s[0]) || s[0] == '_' then Visible(s[1..])
    else [s[0]] + Visible(s[1..])
  }

  lemma {:induction false} VisibleAppend(s: string, t: string)
    ensures Visible(s + t) == Visible(s) + Visible(t)
  {
    if s == [] {
      assert s + t == t;
    } else {
      assert (s + t)[1..] == s[1..] + t;
      VisibleAppend(s[1..], t);
    }
  }

  lemma {:induction false} VisibleOfSpaces(w: string)
    requires AllSpace(w)
    ensures Visible(w) == []
  {
    if w != [] {
      VisibleOfSpaces(w[1..]);
    }
  }

  lemma VisibleUnderscore()
    ensures Visible("_") == []
  {
    assert "_"[1..] == [];
  }

  lemma {:induction false} VisibleOfReplace(s: string, inRun: bool)
    ensures Visible(ReplaceRuns(s, "_", inRun)) == Visible(s)
  {
    if s != [] {
      var rest := ReplaceRuns(s[1..], "_", IsSpace(s[0]));
      if IsSpace(s[0]) {
        var lead: string := if inRun then [] else "_";
        VisibleAppend(lead, rest);
        VisibleUnderscore();
      } else {
        VisibleAppend([s[0]], rest);
      }
      VisibleOfReplace(s[1..], IsSpace(s[0]));
    }
  }

  lemma {:induction false} VisibleOfTrimStart(s: string)
    ensures Visible(TrimStart(s)) == Visible(s)
  {
    if |s| > 0 && IsSpace(s[0]) {
      VisibleOfTrimStart(s[1..]);
    }
  }

  lemma {:induction false} VisibleOfTrimEnd(a: string)
    ensures Visible(TrimEnd(a)) == Visible(a)
  {
    var b := TrimEnd(a);
    assert a == b + a[|b|..];
    VisibleAppend(b, a[|b|..]);
    VisibleOfSpaces(a[|b|..]);
  }

  lemma VisibleOfTrim(s: string)
    ensures Visible(Trim(s)) == Visible(s)
  {
    VisibleOfTrimStart(s);
    VisibleOfTrimEnd(TrimStart(s));
  }

  lemma {:induction false} VisibleOfLower(s: string)
    ensures Visible(Lower(s)) == Lower(Visible(s))
  {
    if s != [] {
      assert Lower(s)[1..] == Lower(s[1..]);
      VisibleOfLower(s[1..]);
    }
  }
}
