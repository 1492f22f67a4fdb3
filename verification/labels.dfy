/**
  Label canonicalisation and the bidirectional containment match used both by
  the search box and by the image-identification escalation check.
 */
module Labels {
  import opened JsText

  /** A code point that survives normalisation: ASCII `a-z` or `0-9`. */
  predicate IsKeyChar(c: char) {
    'a' <= c <= 'z' || '0' <= c <= '9'
  }

  predicate IsKey(s: string) {
    forall i :: 0 <= i < |s| ==> IsKeyChar(s[i])
  }

  /** A code point whose lower-case form contributes an ASCII letter or digit. */
  predicate Survives(c: char) {
    IsKeyChar(c) || 'A' <= c <= 'Z' || c == '\U{212A}' || c == '\U{0130}'
  }

  /**
    What one code point contributes after `toLowerCase()` and deleting
    everything outside `[a-z0-9]`. Besides ASCII, only two code points
    lower-case to something containing an ASCII letter: KELVIN SIGN (to `k`)
    and LATIN CAPITAL LETTER I WITH DOT ABOVE (to `i` plus a combining dot,
    which is then deleted).
   */
  function Fold(c: char): (r: string)
    ensures |r| <= 1 && IsKey(r)
    ensures IsKeyChar(c) ==> r == [c]
    ensures r == [] <==> !Survives(c)
  {
    if IsKeyChar(c) then [c]
    else if 'A' <= c <= 'Z' then [(c as int + 32) as char]
    else if c == '\U{212A}' then ['k']
    else if c == '\U{0130}' then ['i']
    else []
  }

  /** `normalize(str)`: lower-case, then delete every code point outside `[a-z0-9]`. */
  function Normalize(s: string): (r: string)
    ensures IsKey(r)
    ensures |r| <= |s|
  {
    if s == [] then [] else Fold(s[0]) + Normalize(s[1..])
  }

  /**
    Normalising deletes everything exactly when no code point survives
    lower-casing as an ASCII letter or digit (punctuation, spaces, most
    non-Latin text).
   */
  lemma {:induction false} NormalizeEmptyIff(s: string)
    ensures Normalize(s) == [] <==> forall i :: 0 <= i < |s| ==> !Survives(s[i])
    decreases |s|
  {
    if s != [] {
      NormalizeEmptyIff(s[1..]);
      assert forall i :: 1 <= i < |s| ==> s[i] == s[1..][i - 1];
      if forall i :: 0 <= i < |s| ==> !Survives(s[i]) {
        assert !Survives(s[0]);
        assert forall i :: 0 <= i < |s[1..]| ==> !Survives(s[1..][i]);
      }
    }
  }

  /** "---" has no letters or digits, so it normalises to "". */
  lemma DashesNormalizeEmpty()
    ensures Normalize("---") == []
  {
    NormalizeEmptyIff("---");
  }

  /** Normalisation distributes over concatenation, so it works code point by code point. */
  lemma {:induction false} NormalizeConcat(a: string, b: string)
    ensures Normalize(a + b) == Normalize(a) + Normalize(b)
    decreases |a|
  {
    if a != [] {
      assert (a + b)[0] == a[0];
      assert (a + b)[1..] == a[1..] + b;
      NormalizeConcat(a[1..], b);
      assert Normalize(a + b) == Fold(a[0]) + (Normalize(a[1..]) + Normalize(b));
    } else {
      assert a + b == b;
    }
  }

  /** A string already made of `[a-z0-9]` is its own normal form. */
  lemma {:induction false} NormalizeKey(s: string)
    requires IsKey(s)
    ensures Normalize(s) == s
    decreases |s|
  {
    if s != [] {
      NormalizeKey(s[1..]);
    }
  }

  /** Normalising twice is the same as normalising once. */
  lemma NormalizeIdempotent(s: string)
    ensures Normalize(Normalize(s)) == Normalize(s)
  {
    NormalizeKey(Normalize(s));
  }

  /** ASCII upper-casing is invisible to normalisation. */
  lemma {:induction false} NormalizeUpper(s: string)
    ensures Normalize(ToUpperAscii(s)) == Normalize(s)
    decreases |s|
  {
    if s != [] {
      assert ToUpperAscii(s)[1..] == ToUpperAscii(s[1..]);
      NormalizeUpper(s[1..]);
    }
  }

  /**
    The predicate inside `filter`/`some`: the normalised model contains the
    already normalised term, or the term contains the normalised model.
   */
  predicate LabelMatches(model: string, term: string) {
    var key := Normalize(model);
    Includes(key, term) || Includes(term, key)
  }

  /** Matching two raw texts (each normalised first) does not depend on which is the model. */
  lemma MatchesSymmetric(a: string, b: string)
    ensures LabelMatches(a, Normalize(b)) <==> LabelMatches(b, Normalize(a))
  {
    NormalizeIdempotent(a);
    NormalizeIdempotent(b);
  }

  /** A term that normalises to nothing matches every model. */
  lemma EmptyTermMatchesAll(model: string)
    ensures LabelMatches(model, [])
  {
    IncludesEmpty(Normalize(model));
  }

  /** A model that normalises to nothing matches every term. */
  lemma EmptyKeyMatchesAll(model: string, term: string)
    requires Normalize(model) == []
    ensures LabelMatches(model, term)
  {
    IncludesEmpty(term);
  }

  /** A model matches the normalised form of its own text, and of its upper-cased text. */
  lemma MatchesOwnText(model: string)
    ensures LabelMatches(model, Normalize(model))
    ensures LabelMatches(ToUpperAscii(model), Normalize(model))
  {
    IncludesSelf(Normalize(model));
    NormalizeUpper(model);
  }

}
