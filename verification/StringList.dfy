/** The trimmed, sorted and duplicate-free string lists of internal/qa and
    internal/productionqa. */
module StringList {
  import opened Text

  /** The values trimmed, without blanks. */
  function TrimAll(values: seq<string>): (r: seq<string>)
    ensures "" !in r
  {
    if values == [] then []
    else
      var last := TrimSpace(values[|values| - 1]);
      TrimAll(values[..|values| - 1]) + (if last == "" then [] else [last])
  }

  /** The values without repetitions in a row. */
  function Unique(values: seq<string>): (kept: seq<string>)
    ensures |kept| <= |values| && (values != [] ==> kept != [] && kept[|kept| - 1] == values[|values| - 1])
  {
    if values == [] then []
    else
      var kept, last := Unique(values[..|values| - 1]), values[|values| - 1];
      if kept != [] && kept[|kept| - 1] == last then kept else kept + [last]
  }

  function Tidy(values: seq<string>): seq<string> {
    Unique(Sort(TrimAll(values)))
  }

  /** Writes the kept values over the front of the slice it reads. */
  method UniqueInPlace(values: array<string>) returns (n: nat)
    requires "" !in values[..]
    modifies values
    ensures n <= values.Length && values[..n] == Unique(old(values[..]))
  {
    n := 0;
    var previous := "";
    ghost var was := values[..];
    for i := 0 to values.Length
      invariant n <= i && values[..n] == Unique(was[..i])
      invariant previous == if n == 0 then "" else values[n - 1]
      invariant forall k | i <= k < values.Length :: values[k] == was[k]
    {
      assert values[i] == was[i] != "";
      assert was[..i + 1][..i] == was[..i];
      if values[i] == previous {
        continue;
      }
      previous := values[i];
      values[n] := previous;
      n := n + 1;
    }
    assert was[..values.Length] == was;
  }

  /** sortedUnique, sortedStrings */
  method SortUnique(values: seq<string>) returns (out: seq<string>)
    ensures out == Tidy(values)
  {
    hide TrimSpace, Sort, Unique;
    var trimmed := [];
    for i := 0 to |values|
      invariant trimmed == TrimAll(values[..i])
    {
      assert values[..i + 1][..i] == values[..i];
      var value := TrimSpace(values[i]);
      if value != "" {
        trimmed := trimmed + [value];
      }
    }
    assert values[..|values|] == values;
    var sorted := Sort(trimmed);
    SortMembers(trimmed, "");
    var slice := new string[|sorted|](i requires 0 <= i < |sorted| => sorted[i]);
    assert slice[..] == sorted;
    var n := UniqueInPlace(slice);
    out := slice[..n];
  }

  // ----- what the list holds -----

  lemma {:induction false} TrimAllMembers(values: seq<string>, x: string)
    ensures x in TrimAll(values) <==> x != "" && exists i | 0 <= i < |values| :: TrimSpace(values[i]) == x
  {
    hide TrimSpace;
    if values != [] {
      TrimAllMembers(values[..|values| - 1], x);
    }
  }

  lemma {:induction false} UniqueMembers(values: seq<string>, x: string)
    ensures x in Unique(values) <==> x in values
  {
    if values != [] {
      UniqueMembers(values[..|values| - 1], x);
      assert values == values[..|values| - 1] + [values[|values| - 1]];
    }
  }

  lemma {:induction false} UniqueSorted(values: seq<string>)
    requires Sorted(values)
    ensures Sorted(Unique(values))
    ensures forall i, j | 0 <= i < j < |Unique(values)| :: Unique(values)[i] != Unique(values)[j]
  {
    hide StrLe;
    if values != [] {
      var front, last := values[..|values| - 1], values[|values| - 1];
      UniqueSorted(front);
      var kept := Unique(front);
      forall i | 0 <= i < |kept|
        ensures StrLe(kept[i], last) && (kept[|kept| - 1] != last ==> kept[i] != last)
      {
        UniqueMembers(front, kept[i]);
        StrLeTotal(last, last);
        assert kept[|kept| - 1] == front[|front| - 1];
        if kept[i] == last && kept[|kept| - 1] != last {
          StrLeAntisymmetric(kept[|kept| - 1], last);
        }
      }
    }
  }

  /** The list is strictly sorted and holds every non-blank value, trimmed, once. */
  lemma TidyMeans(values: seq<string>)
    ensures forall x :: x in Tidy(values) <==> x != "" && exists i | 0 <= i < |values| :: TrimSpace(values[i]) == x
    ensures Sorted(Tidy(values))
    ensures forall i, j | 0 <= i < j < |Tidy(values)| :: Tidy(values)[i] != Tidy(values)[j]
  {
    hide TrimSpace, TrimAll, Unique, Sort, StrLe;
    UniqueSorted(Sort(TrimAll(values)));
    forall x
      ensures x in Tidy(values) <==> x != "" && exists i | 0 <= i < |values| :: TrimSpace(values[i]) == x
    {
      UniqueMembers(Sort(TrimAll(values)), x);
      SortMembers(TrimAll(values), x);
      TrimAllMembers(values, x);
    }
  }

  /** A value with a word in front keeps the word in the list. */
  lemma KeepsPrefix(values: seq<string>, i: nat, word: string)
    requires i < |values| && HasPrefix(values[i], word)
    requires word != "" && !IsSpace(word[0]) && !IsSpace(word[|word| - 1])
    ensures exists k | 0 <= k < |Tidy(values)| :: HasPrefix(Tidy(values)[k], word)
  {
    hide IsSpace, Tidy, TrimSpace;
    TrimKeepsPrefix(values[i], word);
    TidyMeans(values);
    var x := TrimSpace(values[i]);
    assert x in Tidy(values);
  }

  lemma TrimKeepsPrefix(s: string, word: string)
    requires HasPrefix(s, word) && word != "" && !IsSpace(word[0]) && !IsSpace(word[|word| - 1])
    ensures HasPrefix(TrimSpace(s), word) && TrimSpace(s) != ""
  {
    hide IsSpace;
    assert s[0] == word[0] && s[|word| - 1] == word[|word| - 1];
    assert TrimLeft(s, IsSpace) == s;
    var r := TrimRight(s, IsSpace);
    assert |r| >= |word|;
    assert r[..|word|] == s[..|word|] == word;
  }

  lemma PrefixContained(s: string, word: string)
    requires HasPrefix(s, word)
    ensures Contains(s, word)
  {
    assert s[0..] == s;
    assert HasPrefix(s[0..], word);
  }
}
