/**
  `filteredResults`: a blank search term shows the whole combined view;
  otherwise only the records whose label fuzzily matches the term, in view order.
 */
module Search {
  import opened JsText
  import opened Labels
  import opened Catalog

  /** `sub` can be obtained from `s` by deleting elements, keeping the rest in order. */
  predicate IsSubsequence<T(==)>(sub: seq<T>, s: seq<T>)
    decreases |s|
  {
    if sub == [] then true
    else if s == [] then false
    else (sub[0] == s[0] && IsSubsequence(sub[1..], s[1..])) || IsSubsequence(sub, s[1..])
  }

  /**
    `view.filter(item => …)` with an already normalised term: the kept records
    appear in view order and all of them match.
   */
  function KeepMatching(view: seq<Record>, term: string): (r: seq<Record>)
    ensures IsSubsequence(r, view)
    ensures forall i :: 0 <= i < |r| ==> LabelMatches(r[i].model, term)
  {
    if view == [] then []
    else
      var rest := KeepMatching(view[1..], term);
      if LabelMatches(view[0].model, term) then
        assert ([view[0]] + rest)[1..] == rest;
        [view[0]] + rest
      else
        rest
  }

  /** Nothing that matches is lost: each matching record is kept as often as it occurs in the view. */
  lemma {:induction false} KeepMatchingComplete(view: seq<Record>, term: string, x: Record)
    requires LabelMatches(x.model, term)
    ensures multiset(KeepMatching(view, term))[x] == multiset(view)[x]
    decreases |view|
  {
    if view != [] {
      KeepMatchingComplete(view[1..], term, x);
      assert view == [view[0]] + view[1..];
    }
  }

  /** `filteredResults` for a view and the raw search box text. */
  function FilterResults(view: seq<Record>, searchTerm: string): (r: seq<Record>)
    ensures IsBlank(searchTerm) ==> r == view
    ensures !IsBlank(searchTerm) ==>
      && IsSubsequence(r, view)
      && (forall i :: 0 <= i < |r| ==> LabelMatches(r[i].model, Normalize(searchTerm)))
      && (forall x :: x in view && LabelMatches(x.model, Normalize(searchTerm)) ==>
            multiset(r)[x] == multiset(view)[x])
  {
    if IsBlank(searchTerm) then view
    else
      var term := Normalize(searchTerm);
      forall x | x in view && LabelMatches(x.model, term)
        ensures multiset(KeepMatching(view, term))[x] == multiset(view)[x]
      {
        KeepMatchingComplete(view, term, x);
      }
      KeepMatching(view, term)
  }

  /** A term that is not blank but has no letters or digits (say "---") hides nothing. */
  lemma {:induction false} KeepAllForEmptyKey(view: seq<Record>)
    ensures KeepMatching(view, []) == view
    decreases |view|
  {
    if view != [] {
      EmptyTermMatchesAll(view[0].model);
      KeepAllForEmptyKey(view[1..]);
    }
  }

  /** Consequence for the search box: punctuation-only queries show the whole view. */
  lemma PunctuationOnlyShowsAll(view: seq<Record>, searchTerm: string)
    requires Normalize(searchTerm) == []
    ensures FilterResults(view, searchTerm) == view
  {
    KeepAllForEmptyKey(view);
  }

  /** The search box holding "---" shows the whole view. */
  lemma DashesShowAll(view: seq<Record>)
    ensures FilterResults(view, "---") == view
  {
    DashesNormalizeEmpty();
    PunctuationOnlyShowsAll(view, "---");
  }

  /** A record whose label normalises to nothing is shown for every query. */
  lemma EmptyKeyAlwaysShown(view: seq<Record>, searchTerm: string, x: Record)
    requires x in view && Normalize(x.model) == []
    ensures x in FilterResults(view, searchTerm)
  {
    if !IsBlank(searchTerm) {
      EmptyKeyMatchesAll(x.model, Normalize(searchTerm));
      KeepMatchingComplete(view, Normalize(searchTerm), x);
    }
  }

  /** The filter never invents records: whatever it returns occurs in the view. */
  lemma {:induction false} SubsequenceMembers<T>(sub: seq<T>, s: seq<T>)
    requires IsSubsequence(sub, s)
    ensures |sub| <= |s|
    ensures forall x :: x in sub ==> x in s
    decreases |s|
  {
    if sub != [] {
      if sub[0] == s[0] && IsSubsequence(sub[1..], s[1..]) {
        SubsequenceMembers(sub[1..], s[1..]);
        assert sub == [sub[0]] + sub[1..];
      } else {
        SubsequenceMembers(sub, s[1..]);
      }
    }
  }
}
