/** Post-processing of a vector-store search (vdb/milvus_connector.py,
    `MilvusDB.search`): the client's hits for the first query vector are sorted
    by distance, those strictly closer than the threshold are kept, and their
    texts are joined one per line. The client itself is a function value. */
module MilvusConnector {
  import opened Wrappers
  import opened Errors
  import opened Sorting
  import opened Embeddings

  /** The threshold `search` uses when the caller gives none. */
  const DefaultThreshold: real := 1.5

  /** One hit: its distance and the `text` field of its entity, if any. */
  datatype Hit = Hit(distance: real, text: Option<string>)

  /** `MilvusClient.search(data=..., limit=...)`: one hit list per query vector. */
  type Client = (seq<Vector>, nat) -> seq<seq<Hit>>

  function Distance(h: Hit): real
  {
    h.distance
  }

  /** The hits the loop keeps: `hit.get("distance", 0) < threshold`. */
  function Below(threshold: real): Hit -> bool
  {
    (h: Hit) => h.distance < threshold
  }

  /** `f"{hit.get('entity', {}).get('text')}\n"`; a missing text prints as "None". */
  function Line(h: Hit): string
  {
    (match h.text case Some(t) => t case None => "None") + "\n"
  }

  /** The lines of `hs`, concatenated in order. */
  function Lines(hs: seq<Hit>): string
  {
    if hs == [] then "" else Line(hs[0]) + Lines(hs[1..])
  }

  lemma {:induction false} LinesSnoc(hs: seq<Hit>, h: Hit)
    ensures Lines(hs + [h]) == Lines(hs) + Line(h)
  {
    if hs == [] {
      assert [] + [h] == [h];
    } else {
      assert (hs + [h])[0] == hs[0];
      assert (hs + [h])[1..] == hs[1..] + [h];
      LinesSnoc(hs[1..], h);
    }
  }

  /** A sub-sequence of a sorted sequence is sorted. */
  lemma {:induction false} FilterSorted(s: seq<Hit>, p: Hit -> bool)
    requires SortedBy(s, Distance)
    ensures SortedBy(Filter(s, p), Distance)
  {
    if s != [] {
      FilterSorted(s[1..], p);
      var rest := Filter(s[1..], p);
      forall j | 0 <= j < |rest|
        ensures s[0].distance <= rest[j].distance
      {
        FilterCount(s[1..], p, rest[j]);
        assert rest[j] in multiset(rest);
        var m :| 0 <= m < |s[1..]| && s[1..][m] == rest[j];
        assert s[1..][m] == s[m + 1];
      }
    }
  }

  /** The hits that contribute to the context, in the order they are written:
      exactly the hits closer than `threshold` (a hit at the threshold is not),
      ascending by distance, never more than the client returned. */
  function Kept(hits: seq<Hit>, threshold: real): (r: seq<Hit>)
    ensures forall i :: 0 <= i < |r| ==> r[i].distance < threshold
    ensures SortedBy(r, Distance)
    ensures multiset(r) == multiset(Filter(hits, Below(threshold)))
    ensures |r| <= |hits|
  {
    var sorted := SortBy(hits, Distance);
    FilterSorted(sorted, Below(threshold));
    forall h ensures multiset(Filter(sorted, Below(threshold)))[h] == multiset(Filter(hits, Below(threshold)))[h] {
      FilterCount(sorted, Below(threshold), h);
      FilterCount(hits, Below(threshold), h);
    }
    Filter(sorted, Below(threshold))
  }

  /** The string `search` returns for one hit list. */
  function Context(hits: seq<Hit>, threshold: real): string
  {
    Lines(Kept(hits, threshold))
  }

  /** What `search` returns for the client's answer: only the first query's
      hits are used, and an answer with no hit list at all raises IndexError. */
  function SearchResult(queryResult: seq<seq<Hit>>, threshold: real): Result<string, Exception>
  {
    if |queryResult| == 0 then Failure(IndexError) else Success(Context(queryResult[0], threshold))
  }

  /** `MilvusDB.search`: ask the client, sort the first hit list by distance,
      and append one line per hit below the threshold. */
  method Search(client: Client, searchData: seq<Vector>, limit: nat, threshold: real := DefaultThreshold)
    returns (r: Result<string, Exception>)
    ensures r == SearchResult(client(searchData, limit), threshold)
    ensures r.Success? ==> r.value == Lines(Kept(client(searchData, limit)[0], threshold))
  {
    var queryResult := client(searchData, limit);
    if |queryResult| == 0 {
      return Failure(IndexError);
    }
    var sorted := SortBy(queryResult[0], Distance);
    var result := "";
    for i := 0 to |sorted|
      invariant result == Lines(Filter(sorted[..i], Below(threshold)))
    {
      ghost var done := Filter(sorted[..i], Below(threshold));
      assert sorted[..i + 1] == sorted[..i] + [sorted[i]];
      FilterSnoc(sorted[..i], sorted[i], Below(threshold));
      assert Below(threshold)(sorted[i]) == (sorted[i].distance < threshold);
      if sorted[i].distance < threshold {
        LinesSnoc(done, sorted[i]);
        result := result + Line(sorted[i]);
      } else {
        assert done + [] == done;
      }
    }
    assert sorted[..|sorted|] == sorted;
    return Success(result);
  }

  /** Each contributing hit adds its text and exactly one newline, in order. */
  lemma {:induction false} LinesAt(hs: seq<Hit>, k: nat)
    requires k < |hs|
    ensures |Lines(hs)| >= |Lines(hs[..k])| + |Line(hs[k])|
    ensures Lines(hs)[|Lines(hs[..k])|..|Lines(hs[..k])| + |Line(hs[k])|] == Line(hs[k])
  {
    assert hs == hs[..k] + [hs[k]] + hs[k + 1..];
    LinesConcat(hs[..k] + [hs[k]], hs[k + 1..]);
    LinesSnoc(hs[..k], hs[k]);
  }

  lemma {:induction false} LinesConcat(a: seq<Hit>, b: seq<Hit>)
    ensures Lines(a + b) == Lines(a) + Lines(b)
  {
    if a == [] {
      assert a + b == b;
    } else {
      assert (a + b)[0] == a[0];
      assert (a + b)[1..] == a[1..] + b;
      LinesConcat(a[1..], b);
    }
  }

  /** No hits, or no hit closer than the threshold, gives the empty context. */
  lemma EmptyContext(hits: seq<Hit>, threshold: real)
    requires forall i :: 0 <= i < |hits| ==> hits[i].distance >= threshold
    ensures Context(hits, threshold) == ""
  {
    FilterNone(hits, Below(threshold));
    assert |multiset(Kept(hits, threshold))| == 0;
  }

  /** Hits at the same distance keep the order the client gave them. */
  lemma KeptStable(hits: seq<Hit>, threshold: real, d: real)
    requires d < threshold
    ensures Filter(Kept(hits, threshold), HasKey(Distance, d)) == Filter(hits, HasKey(Distance, d))
  {
    var sorted := SortBy(hits, Distance);
    FilterAbsorb(sorted, Below(threshold), HasKey(Distance, d));
    SortByStable(hits, Distance, d);
  }

  /** Distances 0.9, 0.2 and 1.6 for texts "c", "a" and "b" under the
      handler's threshold 1.7 give "a\nc\nb\n". */
  lemma SearchExample()
    ensures Context([Hit(0.9, Some("c")), Hit(0.2, Some("a")), Hit(1.6, Some("b"))], 1.7) == "a\nc\nb\n"
  {
    var a, b, c := Hit(0.2, Some("a")), Hit(1.6, Some("b")), Hit(0.9, Some("c"));
    SortedExample(a, b, c);
    FilterExample(a, c, b, 1.7);
    LinesExample();
    assert Kept([c, a, b], 1.7) == Filter([a, c, b], Below(1.7));
  }

  /** The same hits with "b" moved to exactly the threshold give "a\nc\n". */
  lemma ThresholdExample()
    ensures Context([Hit(0.9, Some("c")), Hit(0.2, Some("a")), Hit(1.7, Some("b"))], 1.7) == "a\nc\n"
  {
    var a, b, c := Hit(0.2, Some("a")), Hit(1.7, Some("b")), Hit(0.9, Some("c"));
    SortedExample(a, b, c);
    FilterExample(a, c, b, 1.7);
    LinesExample();
    assert Kept([c, a, b], 1.7) == Filter([a, c, b], Below(1.7));
  }

  lemma FilterExample(x: Hit, y: Hit, z: Hit, threshold: real)
    requires x.distance < threshold && y.distance < threshold
    ensures Filter([x, y, z], Below(threshold)) == if z.distance < threshold then [x, y, z] else [x, y]
  {
    var p := Below(threshold);
    FilterStep(z, [], p);
    FilterStep(y, [z], p);
    FilterStep(x, [y, z], p);
    assert [z] + [] == [z] && [y] + [z] == [y, z] && [x] + [y, z] == [x, y, z];
  }

  lemma LinesExample()
    ensures Lines([Hit(0.2, Some("a")), Hit(0.9, Some("c")), Hit(1.6, Some("b"))]) == "a\nc\nb\n"
    ensures Lines([Hit(0.2, Some("a")), Hit(0.9, Some("c"))]) == "a\nc\n"
  {
    var a, b, c := Hit(0.2, Some("a")), Hit(1.6, Some("b")), Hit(0.9, Some("c"));
    LinesStep(b, []);
    LinesStep(c, [b]);
    LinesStep(a, [c, b]);
    LinesStep(c, []);
    LinesStep(a, [c]);
    assert [b] + [] == [b] && [c] + [b] == [c, b] && [a] + [c, b] == [a, c, b];
    assert [c] + [] == [c] && [a] + [c] == [a, c];
    assert Line(a) == "a\n" && Line(b) == "b\n" && Line(c) == "c\n";
  }

  lemma FilterStep(x: Hit, s: seq<Hit>, p: Hit -> bool)
    ensures Filter([x] + s, p) == (if p(x) then [x] else []) + Filter(s, p)
  {
    assert ([x] + s)[1..] == s;
  }

  lemma LinesStep(x: Hit, s: seq<Hit>)
    ensures Lines([x] + s) == Line(x) + Lines(s)
  {
    assert ([x] + s)[1..] == s;
  }

  lemma SortedExample(a: Hit, b: Hit, c: Hit)
    requires a.distance < c.distance < b.distance
    ensures SortBy([c, a, b], Distance) == [a, c, b]
  {
    assert SortBy([b], Distance) == [b] by {
      assert [b][1..] == [];
      assert SortBy([b], Distance) == InsertBy(b, [], Distance);
    }
    assert SortBy([a, b], Distance) == [a, b] by {
      assert [a, b][1..] == [b];
      assert SortBy([a, b], Distance) == InsertBy(a, [b], Distance);
    }
    assert InsertBy(c, [b], Distance) == [c, b] by {
      assert Distance(c) <= Distance(b);
    }
    assert InsertBy(c, [a, b], Distance) == [a, c, b] by {
      assert [a, b][1..] == [b];
      assert Distance(c) > Distance(a);
      assert InsertBy(c, [a, b], Distance) == [a] + InsertBy(c, [b], Distance);
    }
    assert [c, a, b][1..] == [a, b];
    assert SortBy([c, a, b], Distance) == InsertBy(c, SortBy([a, b], Distance), Distance);
  }
}
