/**
  The two string operations the recommenders rely on: Python's `str.lower`
  (restricted to the letters that occur in the sheet and in the keyword
  lists) and the substring test `k in s`.
*/
module Text {

  /** `str.lower` on one character that lowers to one character: the ASCII
      capitals and the capitals of the Turkish alphabet; every other
      character is left as it is. */
  function LowerSimple(c: char): char
  {
    if 'A' <= c <= 'Z' then (c as int + 32) as char
    else if c == 'Ç' then 'ç'
    else if c == 'Ğ' then 'ğ'
    else if c == 'Ö' then 'ö'
    else if c == 'Ş' then 'ş'
    else if c == 'Ü' then 'ü'
    else c
  }

  /** `str.lower` on one character. The capital dotted I is the one letter
      that lowers to two characters: a plain `i` followed by U+0307. */
  function LowerChar(c: char): string
  {
    if c == 'İ' then "i\U{0307}" else [LowerSimple(c)]
  }

  function Lower(s: string): (r: string)
    ensures |r| >= |s|
    ensures 'İ' !in s ==> |r| == |s|
  {
    if s == [] then [] else LowerChar(s[0]) + Lower(s[1..])
  }

  /** Without a dotted capital I, lowering maps each character on its own. */
  lemma {:induction false} LowerPlain(s: string)
    requires 'İ' !in s
    ensures Lower(s) == seq(|s|, i requires 0 <= i < |s| => LowerSimple(s[i]))
  {
    if s != [] {
      assert 'İ' !in s[1..] by {
        forall i | 0 <= i < |s[1..]| ensures s[1..][i] != 'İ' {
          assert s[1..][i] == s[i + 1];
        }
      }
      LowerPlain(s[1..]);
    }
  }

  /** Lowering a given text without a dotted capital I, character by
      character. */
  lemma LowerPlainIs(s: string, t: string)
    requires 'İ' !in s && |t| == |s|
    requires forall i :: 0 <= i < |s| ==> t[i] == LowerSimple(s[i])
    ensures Lower(s) == t
  {
    LowerPlain(s);
  }

  /** A text already in lower case is its own lowering. */
  lemma LowerFixes(s: string)
    requires forall i :: 0 <= i < |s| ==> s[i] != 'İ' && LowerSimple(s[i]) == s[i]
    ensures Lower(s) == s
  {
    LowerPlain(s);
  }

  /** A text made of a dotted capital I and a text `rest` without one lowers
      to `i`, U+0307 and `rest` lowered character by character. */
  lemma LowerDottedHead(s: string, rest: string, t: string)
    requires s == ['İ'] + rest && 'İ' !in rest && |t| == |rest|
    requires forall i :: 0 <= i < |rest| ==> t[i] == LowerSimple(rest[i])
    ensures Lower(s) == "i\U{0307}" + t
  {
    assert s[1..] == rest;
    LowerPlainIs(rest, t);
  }

  lemma {:induction false} LowerAppend(a: string, b: string)
    ensures Lower(a + b) == Lower(a) + Lower(b)
  {
    if a == [] {
      assert a + b == b;
    } else {
      assert (a + b)[0] == a[0];
      assert (a + b)[1..] == a[1..] + b;
      LowerAppend(a[1..], b);
    }
  }

  /** Lowering a text from the lowerings of its two parts. */
  lemma LowerJoin(s: string, a: string, b: string, la: string, lb: string)
    requires s == a + b && Lower(a) == la && Lower(b) == lb
    ensures Lower(s) == la + lb
  {
    LowerAppend(a, b);
  }

  /** Lowering a string twice gives what lowering it once gives. */
  lemma {:induction false} LowerIdempotent(s: string)
    ensures Lower(Lower(s)) == Lower(s)
  {
    if s != [] {
      var head := LowerChar(s[0]);
      calc {
        Lower(Lower(s));
        Lower(head + Lower(s[1..]));
        { LowerAppend(head, Lower(s[1..])); }
        Lower(head) + Lower(Lower(s[1..]));
        { LowerIdempotent(s[1..]); }
        Lower(head) + Lower(s[1..]);
        { assert Lower(head) == head by { LowerHeadFixed(s[0]); } }
        Lower(s);
      }
    }
  }

  lemma LowerHeadFixed(c: char)
    ensures Lower(LowerChar(c)) == LowerChar(c)
  {
    var h := LowerChar(c);
    if c == 'İ' {
      assert h == ['i'] + ['\U{0307}'];
      LowerAppend(['i'], ['\U{0307}']);
    } else {
      assert h == [LowerSimple(c)];
      assert h[1..] == [];
    }
  }

  /** `k` starts at position `i` of `s`. */
  predicate OccursAt(s: string, k: string, i: int)
  {
    0 <= i && i + |k| <= |s| && s[i..i + |k|] == k
  }

  /** Python's `k in s` for strings: `k` occurs in `s` as a contiguous block. */
  predicate Contains(s: string, k: string)
  {
    exists i | 0 <= i <= |s| - |k| :: OccursAt(s, k, i)
  }

  /** One character of the keyword missing from the text rules the keyword out. */
  lemma Absent(s: string, k: string, c: char)
    requires c in k && c !in s
    ensures !Contains(s, k)
  {
    forall i | 0 <= i <= |s| - |k| ensures !OccursAt(s, k, i) {
      var j :| 0 <= j < |k| && k[j] == c;
      assert s[i..i + |k|][j] == s[i + j];
    }
  }

  /** A keyword whose first character occurs in `s` only at the start, where
      its second character then differs, does not occur in `s`. */
  lemma AbsentPastHead(s: string, k: string)
    requires 2 <= |k| && 2 <= |s| && s[0] == k[0] && s[1] != k[1]
    requires k[0] !in s[1..]
    ensures !Contains(s, k)
  {
    forall i | 0 <= i <= |s| - |k| ensures !OccursAt(s, k, i) {
      if i == 0 {
        assert s[i..i + |k|][1] != k[1];
      } else {
        assert s[1..][i - 1] == s[i];
        assert s[i..i + |k|][0] != k[0];
      }
    }
  }

  /** A block found at a position is contained. */
  lemma Found(s: string, k: string, i: nat)
    requires i + |k| <= |s| && s[i..i + |k|] == k
    ensures Contains(s, k)
  {
    assert OccursAt(s, k, i);
  }

  /** The empty keyword occurs in every text. */
  lemma EmptyContained(s: string)
    ensures Contains(s, "")
  {
    assert OccursAt(s, "", 0);
  }

  // ----- Matching that ignores case ------------------------------------

  /** One character as a regular expression compiled with IGNORECASE
      compares it: by its one-character lowercase, with the dotless `ı`
      counted as the same letter as `i`. So `I`, `i`, `ı` and `İ` all
      match one another, unlike under `str.lower`. */
  function FoldChar(c: char): char
  {
    if c == 'I' || c == 'ı' || c == 'İ' then 'i' else LowerSimple(c)
  }

  /** A text with every character folded; folding keeps the length. */
  function Fold(s: string): (r: string)
    ensures |r| == |s|
  {
    if s == [] then [] else [FoldChar(s[0])] + Fold(s[1..])
  }

  /** Python's `s.str.contains(k, case=False)` on one present cell `s`:
      `k` occurs in `s` when characters are compared ignoring case. */
  predicate ContainsIgnoringCase(s: string, k: string)
  {
    Contains(Fold(s), Fold(k))
  }

  /** Every character of `k` agrees, ignoring case, with the character of
      `s` at offset `i`. */
  predicate AgreesAt(s: string, k: string, i: int)
  {
    0 <= i && i + |k| <= |s| && forall j :: 0 <= j < |k| ==> FoldChar(s[i + j]) == FoldChar(k[j])
  }

  lemma {:induction false} FoldAt(s: string, j: int)
    requires 0 <= j < |s|
    ensures Fold(s)[j] == FoldChar(s[j])
  {
    if j > 0 {
      FoldAt(s[1..], j - 1);
    }
  }

  /** Matching ignoring case is a character-by-character comparison: `k`
      occurs in `s` exactly when, at some offset, each of its characters
      agrees with the text's up to case. */
  lemma ContainsIgnoringCaseAt(s: string, k: string)
    ensures ContainsIgnoringCase(s, k) <==> exists i :: AgreesAt(s, k, i)
  {
    var fs, fk := Fold(s), Fold(k);
    forall i | 0 <= i && i + |k| <= |s|
      ensures OccursAt(fs, fk, i) <==> AgreesAt(s, k, i)
    {
      forall j | 0 <= j < |k|
        ensures fs[i..i + |k|][j] == fs[i + j] && fs[i + j] == FoldChar(s[i + j]) && fk[j] == FoldChar(k[j])
      {
        FoldAt(s, i + j);
        FoldAt(k, j);
      }
    }
    if ContainsIgnoringCase(s, k) {
      var i :| 0 <= i <= |fs| - |fk| && OccursAt(fs, fk, i);
      assert AgreesAt(s, k, i);
    }
    if i :| AgreesAt(s, k, i) {
      assert OccursAt(fs, fk, i);
    }
  }

  /** The empty query occurs, ignoring case, in every text. */
  lemma EmptyContainedIgnoringCase(s: string)
    ensures ContainsIgnoringCase(s, "")
  {
    EmptyContained(Fold(s));
  }

  /** Folding a given text character by character. */
  lemma FoldIs(s: string, t: string)
    requires |t| == |s| && forall i :: 0 <= i < |s| ==> t[i] == FoldChar(s[i])
    ensures Fold(s) == t
  {
    forall i | 0 <= i < |s| ensures Fold(s)[i] == t[i] {
      FoldAt(s, i);
    }
  }

  /** Unlike lowering, folding lets a capital `I` find a dotless `ı`. */
  lemma DotlessMatch(fluid: string, shout: string)
    requires fluid == "Sıvı" && shout == "SIVI"
    ensures ContainsIgnoringCase(fluid, shout)
    ensures !Contains(Lower(fluid), Lower(shout))
  {
    FoldIs(fluid, "sivi");
    FoldIs(shout, "sivi");
    Found("sivi", "sivi", 0);
    LowerPlainIs(fluid, "sıvı");
    LowerPlainIs(shout, "sivi");
    assert !OccursAt("sıvı", "sivi", 0) by {
      assert "sıvı"[1] != "sivi"[1];
    }
  }
}
