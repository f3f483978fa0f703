/**
 * Search-path helpers of the plugin command (pkg/cmd/plugin/plugin.go):
 * order-preserving de-duplication of the search path and the check that a
 * file name carries one of the plugin prefixes.
 */
module PluginPaths {
  import opened GoStd

  /** ValidPluginFilenamePrefixes */
  const ValidPluginFilenamePrefixes: seq<string> := ["fabricator"]

  /**
   * The first occurrences of the elements of `paths`, in order: the
   * specification of uniquePathsList.
   */
  function Dedup(paths: seq<string>): seq<string>
  {
    if paths == [] then []
    else
      var kept := Dedup(paths[..|paths| - 1]);
      var p := paths[|paths| - 1];
      if p in kept then kept else kept + [p]
  }

  /** Dedup keeps exactly the elements of its input. */
  lemma {:induction false} DedupSameElements(paths: seq<string>)
    ensures forall p :: p in Dedup(paths) <==> p in paths
  {
    if paths != [] {
      var init := paths[..|paths| - 1];
      DedupSameElements(init);
      assert paths == init + [paths[|paths| - 1]];
    }
  }

  /** Dedup never keeps a path twice. */
  lemma {:induction false} DedupDistinct(paths: seq<string>)
    ensures Distinct(Dedup(paths))
  {
    if paths != [] {
      DedupDistinct(paths[..|paths| - 1]);
    }
  }

  /** The position of the first occurrence of `x` in `s`. */
  function FirstIndex(s: seq<string>, x: string): (i: nat)
    requires x in s
    ensures i < |s| && s[i] == x && x !in s[..i]
  {
    if s[0] == x then 0 else 1 + FirstIndex(s[1..], x)
  }

  /** Any position holding `x` with no `x` before it is the first occurrence. */
  lemma FirstIndexUnique(s: seq<string>, x: string, k: nat)
    requires k < |s| && s[k] == x && x !in s[..k]
    ensures FirstIndex(s, x) == k
  {
    var i := FirstIndex(s, x);
    assert forall m :: 0 <= m < k ==> s[..k][m] == s[m];
    assert forall m :: 0 <= m < i ==> s[..i][m] == s[m];
  }

  /** A first occurrence is unaffected by what follows it. */
  lemma FirstIndexPrefix(s: seq<string>, n: nat, x: string)
    requires n <= |s| && x in s[..n]
    ensures FirstIndex(s, x) == FirstIndex(s[..n], x)
  {
    var k := FirstIndex(s[..n], x);
    assert s[..n][..k] == s[..k];
    FirstIndexUnique(s, x, k);
  }

  /** Dedup lists the paths in the order of their first occurrence. */
  lemma {:induction false} DedupKeepsFirstOccurrenceOrder(paths: seq<string>)
    ensures forall i, j :: 0 <= i < j < |Dedup(paths)| ==>
      Dedup(paths)[i] in paths && Dedup(paths)[j] in paths &&
      FirstIndex(paths, Dedup(paths)[i]) < FirstIndex(paths, Dedup(paths)[j])
  {
    if paths != [] {
      var n := |paths| - 1;
      var init := paths[..n];
      var kept := Dedup(init);
      var r := Dedup(paths);
      DedupKeepsFirstOccurrenceOrder(init);
      DedupSameElements(init);
      DedupSameElements(paths);
      forall i, j | 0 <= i < j < |r|
        ensures r[i] in paths && r[j] in paths && FirstIndex(paths, r[i]) < FirstIndex(paths, r[j])
      {
        assert r[i] == kept[i] && r[i] in init;
        FirstIndexPrefix(paths, n, r[i]);
        if j < |kept| {
          assert r[j] == kept[j] && r[j] in init;
          FirstIndexPrefix(paths, n, r[j]);
          assert FirstIndex(init, kept[i]) < FirstIndex(init, kept[j]);
        } else {
          assert r[j] == paths[n] && r[j] !in init;
          FirstIndexUnique(paths, r[j], n);
          assert FirstIndex(init, r[i]) < n;
        }
      }
      assert forall i, j :: 0 <= i < j < |r| ==> FirstIndex(paths, r[i]) < FirstIndex(paths, r[j]);
    } else {
      assert Dedup(paths) == [];
    }
  }

  /** A path list without duplicates is its own Dedup. */
  lemma {:induction false} DedupOfDistinct(paths: seq<string>)
    requires Distinct(paths)
    ensures Dedup(paths) == paths
  {
    if paths != [] {
      var init := paths[..|paths| - 1];
      DedupOfDistinct(init);
      assert paths[|paths| - 1] !in init;
      assert init + [paths[|paths| - 1]] == paths;
    }
  }

  /** De-duplicating twice is de-duplicating once. */
  lemma DedupIdempotent(paths: seq<string>)
    ensures Dedup(Dedup(paths)) == Dedup(paths)
  {
    DedupDistinct(paths);
    DedupOfDistinct(Dedup(paths));
  }

  /** uniquePathsList */
  method UniquePathsList(paths: seq<string>) returns (newPaths: seq<string>)
    ensures newPaths == Dedup(paths)
  {
    var seen: set<string> := {};
    newPaths := [];
    for i := 0 to |paths|
      invariant newPaths == Dedup(paths[..i])
      invariant forall p :: p in seen <==> p in newPaths
    {
      var p := paths[i];
      assert paths[..i + 1][..i] == paths[..i];
      if p in seen {
        continue;
      }
      seen := seen + {p};
      newPaths := newPaths + [p];
    }
    assert paths[..|paths|] == paths;
  }

  /** `name` starts with one of `prefixes` followed by "-". */
  predicate ValidlyPrefixed(name: string, prefixes: seq<string>) {
    exists i :: 0 <= i < |prefixes| && HasPrefix(name, prefixes[i] + "-")
  }

  /** hasValidPrefix */
  method HasValidPrefix(filepath: string, validPrefixes: seq<string>) returns (valid: bool)
    ensures valid <==> ValidlyPrefixed(filepath, validPrefixes)
  {
    for i := 0 to |validPrefixes|
      invariant forall k :: 0 <= k < i ==> !HasPrefix(filepath, validPrefixes[k] + "-")
    {
      if !HasPrefix(filepath, validPrefixes[i] + "-") {
        continue;
      }
      return true;
    }
    return false;
  }

  /** With the one built-in prefix, a plugin file name starts with "fabricator-". */
  lemma PluginFileNames(name: string)
    ensures ValidlyPrefixed(name, ValidPluginFilenamePrefixes) <==> HasPrefix(name, "fabricator-")
  {
    if HasPrefix(name, "fabricator-") {
      assert HasPrefix(name, ValidPluginFilenamePrefixes[0] + "-");
    }
  }
}
