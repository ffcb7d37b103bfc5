/** Label sets and their merging (mergeLabels in cmd/scrape.go). */
module Labels {
  import opened Wrappers

  /** A Prometheus label set: label name to label value. */
  type Labels = map<string, string>

  /** The specification of mergeLabels: a left fold that copies each label set over
      the result of the ones before it, so on a shared key the later set wins. */
  function Merge(labelSets: seq<Labels>): Labels
    decreases |labelSets|
  {
    if labelSets == [] then map[]
    else Merge(labelSets[..|labelSets| - 1]) + labelSets[|labelSets| - 1]
  }

  /** A key is in the merged set exactly when some input set holds it. */
  lemma {:induction false} MergeKeys(labelSets: seq<Labels>, k: string)
    ensures k in Merge(labelSets) <==> exists i :: 0 <= i < |labelSets| && k in labelSets[i]
  {
    if labelSets != [] {
      var n := |labelSets| - 1;
      var init := labelSets[..n];
      MergeKeys(init, k);
      if k in Merge(labelSets) && k !in labelSets[n] {
        var i :| 0 <= i < n && k in init[i];
        assert k in labelSets[i];
      }
      if k !in Merge(labelSets) {
        forall i | 0 <= i < |labelSets|
          ensures k !in labelSets[i]
        {
          if i < n {
            assert labelSets[i] == init[i];
          }
        }
      }
    }
  }

  /** A key takes its value from the last input set that holds it. */
  lemma {:induction false} MergeLastWins(labelSets: seq<Labels>, i: nat, k: string)
    requires i < |labelSets| && k in labelSets[i]
    requires forall j :: i < j < |labelSets| ==> k !in labelSets[j]
    ensures k in Merge(labelSets) && Merge(labelSets)[k] == labelSets[i][k]
  {
    var n := |labelSets| - 1;
    if i < n {
      assert k !in labelSets[n];
      var init := labelSets[..n];
      assert init[i] == labelSets[i];
      MergeLastWins(init, i, k);
    }
  }

  /** Merging two lists one after the other is merging their merges, the second
      one winning on shared keys. */
  lemma {:induction false} MergeAppend(a: seq<Labels>, b: seq<Labels>)
    ensures Merge(a + b) == Merge(a) + Merge(b)
    decreases |b|
  {
    if b == [] {
      assert a + b == a;
    } else {
      DropLast(a, b);
      MergeAppend(a, b[..|b| - 1]);
      UnionAssociative(Merge(a), Merge(b[..|b| - 1]), b[|b| - 1]);
    }
  }

  /** Copying two label sets in turn is copying their union. */
  lemma UnionAssociative(x: Labels, y: Labels, z: Labels)
    ensures (x + y) + z == x + (y + z)
  {
  }

  /** mergeLabels: copies every label set, in order, into a fresh map. */
  method MergeLabels(labelSets: seq<Labels>) returns (merged: Labels)
    ensures merged == Merge(labelSets)
  {
    merged := map[];
    for i := 0 to |labelSets|
      invariant merged == Merge(labelSets[..i])
    {
      assert labelSets[..i + 1][..i] == labelSets[..i];
      // maps.Copy(merged, labels): every pair of the source overwrites the destination
      merged := merged + labelSets[i];
    }
    assert labelSets[..|labelSets|] == labelSets;
  }
}
