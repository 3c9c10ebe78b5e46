// The name filter of the list: `byText` (src/index.js:40) applied to the whole
// dataset by `R.filter` (src/index.js:62).

module Filter {
  import opened Text

  /** One dataset entry. The link target is carried along but never inspected. */
  datatype Record = Record(name: string, uri: string)

  /**
   * The predicate `byText(text)` builds: the lower-cased name contains the query.
   * Only the name is lower-cased; the query is used as typed.
   */
  predicate ByText(text: string, r: Record) {
    Contains(Lower(r.name), text)
  }

  /**
   * The filter step: the records kept by `ByText(text, _)`, in dataset order.
   * Defined by recursion on the last record, as a left-to-right filter appends.
   */
  function Matches(data: seq<Record>, text: string): (r: seq<Record>)
    ensures |r| <= |data|
    ensures forall x :: x in r ==> x in data && ByText(text, x)
    ensures forall x :: x in data && ByText(text, x) ==> x in r
  {
    if |data| == 0 then []
    else
      var n := |data| - 1;
      assert data == data[..n] + [data[n]];
      Matches(data[..n], text) + (if ByText(text, data[n]) then [data[n]] else [])
  }

  /**
   * The dataset positions whose record the filter keeps, in increasing order:
   * an independent account of which records survive and in which order.
   */
  function Positions(data: seq<Record>, text: string): (ps: seq<nat>)
    ensures forall k :: 0 <= k < |ps| ==> ps[k] < |data|
    ensures forall k, l :: 0 <= k < l < |ps| ==> ps[k] < ps[l]
    ensures forall j :: 0 <= j < |data| ==> (j in ps <==> ByText(text, data[j]))
  {
    if |data| == 0 then []
    else
      var n := |data| - 1;
      Positions(data[..n], text) + (if ByText(text, data[n]) then [n] else [])
  }

  /**
   * The filtered list is exactly the records at the kept positions, one for one
   * and in increasing position order: an order-preserving subsequence of the
   * dataset that holds every matching record and no other.
   */
  lemma {:induction false} MatchesSelectsPositions(data: seq<Record>, text: string)
    ensures |Matches(data, text)| == |Positions(data, text)|
    ensures forall k :: 0 <= k < |Positions(data, text)| ==>
      Matches(data, text)[k] == data[Positions(data, text)[k]]
  {
    if |data| > 0 {
      var n := |data| - 1;
      MatchesSelectsPositions(data[..n], text);
    }
  }

  /** The filter keeps nothing exactly when no record of the dataset matches. */
  lemma {:induction false} MatchesEmptyIff(data: seq<Record>, text: string)
    ensures Matches(data, text) == [] <==> forall x :: x in data ==> !ByText(text, x)
  {
    if |data| > 0 {
      var n := |data| - 1;
      assert data == data[..n] + [data[n]];
      MatchesEmptyIff(data[..n], text);
    }
  }

  /** Filtering a list whose every record already matches returns it unchanged. */
  lemma {:induction false} MatchesKeepsAllMatching(data: seq<Record>, text: string)
    requires forall x :: x in data ==> ByText(text, x)
    ensures Matches(data, text) == data
  {
    if |data| > 0 {
      var n := |data| - 1;
      assert data[n] in data;
      assert forall x :: x in data[..n] ==> x in data;
      MatchesKeepsAllMatching(data[..n], text);
      assert data[..n] + [data[n]] == data;
    }
  }

  /** An empty query keeps every record, so the whole dataset is listed in order. */
  lemma EmptyQueryKeepsAll(data: seq<Record>)
    ensures Matches(data, "") == data
  {
    forall x | x in data
      ensures ByText("", x)
    {
      ContainsEmptyAndSelf(Lower(x.name));
    }
    MatchesKeepsAllMatching(data, "");
  }

  /** Filtering the filtered list again with the same query changes nothing. */
  lemma MatchesIdempotent(data: seq<Record>, text: string)
    ensures Matches(Matches(data, text), text) == Matches(data, text)
  {
    MatchesKeepsAllMatching(Matches(data, text), text);
  }

  /** Records whose names differ only in letter case are kept or dropped together. */
  lemma NameCaseIrrelevant(text: string, a: Record, b: Record)
    requires SameUpToCase(a.name, b.name)
    ensures ByText(text, a) <==> ByText(text, b)
  {
    LowerSameUpToCase(a.name, b.name);
  }

  /** A query holding an upper-case ASCII letter keeps no record at all. */
  lemma UpperCaseQueryKeepsNothing(data: seq<Record>, text: string)
    requires HasUpper(text)
    ensures Matches(data, text) == []
  {
    forall x | x in data
      ensures !ByText(text, x)
    {
      if ByText(text, x) {
        NoUpperContainsNoUpper(Lower(x.name), text);
      }
    }
    if Matches(data, text) != [] {
      assert Matches(data, text)[0] in Matches(data, text);
    }
  }

  /**
   * The filter as documented: name and query both lower-cased before the
   * containment test.
   */
  predicate ByTextAsDocumented(text: string, r: Record) {
    Contains(Lower(r.name), Lower(text))
  }

  /**
   * The filter as written agrees with the documented case-insensitive filter on
   * every record exactly when the query has no upper-case letter.
   */
  lemma AgreesWithDocumentedFilterIff(text: string)
    ensures (forall r :: ByText(text, r) == ByTextAsDocumented(text, r)) <==> !HasUpper(text)
  {
    if HasUpper(text) {
      var r := Record(text, "");
      ContainsEmptyAndSelf(Lower(text));
      assert ByTextAsDocumented(text, r);
      UpperCaseQueryKeepsNothing([r], text);
      assert r in [r];
      assert !ByText(text, r);
    } else {
      LowerOfLowerCase(text);
    }
  }

  /**
   * A concrete witness of the difference: "Alpha" is listed for the query "al"
   * but not for "Al".
   */
  lemma QueryCaseMatters()
    ensures Matches([Record("Alpha", "")], "al") == [Record("Alpha", "")]
    ensures Matches([Record("Alpha", "")], "Al") == []
  {
    var r := Record("Alpha", "");
    assert Lower(r.name) == "alpha";
    assert "al" <= Lower(r.name)[0..];
    assert ByText("al", r);
    assert IsUpper("Al"[0]);
    UpperCaseQueryKeepsNothing([r], "Al");
  }
}
