/** The selected-features list and its toggle. */
module Features {
  import opened ChatConfig

  predicate NoDuplicates(s: seq<FeatureId>) {
    forall i, j :: 0 <= i < j < |s| ==> s[i] != s[j]
  }

  /** `list.filter(f => f !== id)`. */
  function Without(s: seq<FeatureId>, id: FeatureId): (r: seq<FeatureId>)
    ensures |r| <= |s| && id !in r
  {
    if s == [] then [] else (if s[0] == id then [] else [s[0]]) + Without(s[1..], id)
  }

  /** Filtering drops every occurrence of `id` and keeps every other occurrence of every other id. */
  lemma {:induction false} WithoutRemovesExactly(s: seq<FeatureId>, id: FeatureId)
    ensures id !in Without(s, id)
    ensures forall x :: x in Without(s, id) <==> x in s && x != id
    ensures multiset(Without(s, id)) == multiset(s)[id := 0]
  {
    if s != [] {
      WithoutRemovesExactly(s[1..], id);
      var head := if s[0] == id then [] else [s[0]];
      assert Without(s, id) == head + Without(s[1..], id);
      assert s == [s[0]] + s[1..];
      assert multiset(s) == multiset{s[0]} + multiset(s[1..]);
    }
  }

  /** Filtering distributes over concatenation, so the kept ids stay in their original order. */
  lemma {:induction false} WithoutConcat(a: seq<FeatureId>, b: seq<FeatureId>, id: FeatureId)
    ensures Without(a + b, id) == Without(a, id) + Without(b, id)
  {
    if a != [] {
      assert (a + b)[0] == a[0] && (a + b)[1..] == a[1..] + b;
      WithoutConcat(a[1..], b, id);
      var head := if a[0] == id then [] else [a[0]];
      assert Without(a, id) == head + Without(a[1..], id);
      assert Without(a + b, id) == head + Without(a[1..] + b, id);
    } else {
      assert a + b == b;
    }
  }

  /** Filtering out an id the list does not hold gives the list back unchanged. */
  lemma {:induction false} WithoutAbsent(s: seq<FeatureId>, id: FeatureId)
    requires id !in s
    ensures Without(s, id) == s
  {
    if s != [] {
      WithoutAbsent(s[1..], id);
    }
  }

  /** Filtering never introduces a duplicate. */
  lemma {:induction false} WithoutNoDuplicates(s: seq<FeatureId>, id: FeatureId)
    requires NoDuplicates(s)
    ensures NoDuplicates(Without(s, id))
  {
    if s != [] {
      WithoutNoDuplicates(s[1..], id);
      WithoutRemovesExactly(s[1..], id);
      var rest := Without(s[1..], id);
      assert s[0] !in s[1..];
      assert s[0] !in rest;
    }
  }

  /** `handleFeatureToggle`: remove every occurrence if present, append at the end if absent. */
  function Toggle(s: seq<FeatureId>, id: FeatureId): (r: seq<FeatureId>)
    ensures id in r <==> id !in s
    ensures forall x :: x != id ==> (x in r <==> x in s)
  {
    if id in s then WithoutRemovesExactly(s, id); Without(s, id) else s + [id]
  }

  /** As a set of ids, a toggle is the symmetric difference with `{id}`. */
  lemma ToggleIsSymmetricDifference(s: seq<FeatureId>, id: FeatureId)
    ensures (set x | x in Toggle(s, id)) == (set x | x in s) - {id} + (if id in s then {} else {id})
  {
  }

  /** A duplicate-free feature list stays duplicate-free under a toggle. */
  lemma ToggleNoDuplicates(s: seq<FeatureId>, id: FeatureId)
    requires NoDuplicates(s)
    ensures NoDuplicates(Toggle(s, id))
  {
    if id in s {
      WithoutNoDuplicates(s, id);
    }
  }

  /** Toggling an absent id twice restores the original list exactly. */
  lemma ToggleTwiceAbsent(s: seq<FeatureId>, id: FeatureId)
    requires id !in s
    ensures Toggle(Toggle(s, id), id) == s
  {
    WithoutConcat(s, [id], id);
    WithoutAbsent(s, id);
  }

  /**
    Toggling a present id twice in a duplicate-free list keeps the same ids:
    the others in their original order, the toggled one now last.
   */
  lemma ToggleTwicePresent(s: seq<FeatureId>, id: FeatureId)
    requires NoDuplicates(s) && id in s
    ensures Toggle(Toggle(s, id), id) == Without(s, id) + [id]
    ensures multiset(Toggle(Toggle(s, id), id)) == multiset(s)
    ensures |Toggle(Toggle(s, id), id)| == |s| && Toggle(Toggle(s, id), id)[|s| - 1] == id
  {
    WithoutRemovesExactly(s, id);
    var w := Without(s, id);
    assert Toggle(s, id) == w;
    assert Toggle(w, id) == w + [id];
    OnlyOccurrence(s, id);
    calc {
      multiset(w + [id]);
      multiset(s)[id := 0] + multiset{id};
      multiset(s);
    }
  }

  /** In a duplicate-free list, a present id occurs exactly once. */
  lemma OnlyOccurrence(s: seq<FeatureId>, id: FeatureId)
    requires NoDuplicates(s) && id in s
    ensures multiset(s)[id] == 1
  {
    var i :| 0 <= i < |s| && s[i] == id;
    assert s == s[..i] + [id] + s[i + 1..];
    assert id !in s[..i] && id !in s[i + 1..];
  }

  /** Toggling ids from the catalog keeps the selected features inside the catalog. */
  lemma ToggleStaysInCatalog(s: seq<FeatureId>, id: FeatureId)
    requires forall x :: x in s ==> x in FeatureCatalog
    requires id in FeatureCatalog
    ensures forall x :: x in Toggle(s, id) ==> x in FeatureCatalog
  {
  }
}
