/**
 * The catalog search stage: every strategy query is run against the
 * catalog's search endpoint in order, the first five items of each reply
 * are merged into one list without repeating a track URI, and the list is
 * cut to twenty tracks (`searchSpotifyWithQueries` in
 * backend/api/playlist/generate.js).
 *
 * The network call of each query is not modelled; its outcome is an input.
 */
module CatalogSearch {
  import opened Common

  /** Only the first five items of a query's reply are looked at. */
  const PerQueryLimit: nat := 5
  /** The merged list is cut to this many tracks. */
  const TotalLimit: nat := 20

  /** One entry of a reply's `tracks.items`; `artists` is `None` when the field is absent. */
  datatype Item = Item(id: string, uri: string, name: string, artists: Option<seq<string>>)

  /** The record pushed onto the merged list; `artist` is the first artist's name, if any. */
  datatype Track = Track(id: string, uri: string, name: string, artist: Option<string>)

  /**
   * What one query's search produced: the request threw or answered with a
   * non-ok status (`Failed`), the body had no `tracks.items` (`OkNoItems`),
   * or the body listed `items`.
   */
  datatype SearchOutcome = Failed | OkNoItems | Ok(items: seq<Item>)

  function ToTrack(item: Item): Track
  {
    Track(item.id, item.uri, item.name,
          if item.artists.Some? && |item.artists.value| > 0 then Some(item.artists.value[0]) else None)
  }

  function Uris(ts: seq<Track>): seq<string>
  {
    seq(|ts|, i requires 0 <= i < |ts| => ts[i].uri)
  }

  /** The items of a reply that are looked at: its first `PerQueryLimit`. */
  function Slice(items: seq<Item>): seq<Item>
  {
    items[..Min(PerQueryLimit, |items|)]
  }

  /**
   * Scans one query's slice in order. An item whose URI is already on the
   * list is skipped; a new item is appended. Building the record reads
   * `artists[0]`, so a new item without `artists` throws, which ends the
   * scan of this query and keeps what it appended so far.
   */
  function Absorb(acc: seq<Track>, slice: seq<Item>): seq<Track>
    decreases |slice|
  {
    if slice == [] then acc
    else if slice[0].uri in Uris(acc) then Absorb(acc, slice[1..])
    else if slice[0].artists.None? then acc
    else Absorb(acc + [ToTrack(slice[0])], slice[1..])
  }

  /** What one query adds to the list built so far. */
  function Contribute(acc: seq<Track>, outcome: SearchOutcome): seq<Track>
  {
    match outcome
    case Ok(items) => Absorb(acc, Slice(items))
    case _ => acc
  }

  /** The merged list after all the given queries, before the final cut. */
  function Accumulate(outcomes: seq<SearchOutcome>): seq<Track>
  {
    if outcomes == [] then []
    else Contribute(Accumulate(outcomes[..|outcomes| - 1]), outcomes[|outcomes| - 1])
  }

  /** The stage's result: the merged list cut to `TotalLimit` tracks. */
  function SearchResult(outcomes: seq<SearchOutcome>): seq<Track>
  {
    var all := Accumulate(outcomes);
    all[..Min(TotalLimit, |all|)]
  }

  /**
   * The loop of `searchSpotifyWithQueries`: `foundTracks` grows by pushes and
   * `seenUris` holds the URIs pushed so far.
   */
  method SearchWithQueries(outcomes: seq<SearchOutcome>) returns (tracks: seq<Track>)
    ensures tracks == SearchResult(outcomes)
  {
    var foundTracks: seq<Track> := [];
    var seenUris: set<string> := {};
    for k := 0 to |outcomes|
      invariant foundTracks == Accumulate(outcomes[..k])
      invariant forall u :: u in seenUris <==> u in Uris(foundTracks)
    {
      assert outcomes[..k + 1][..k] == outcomes[..k];
      match outcomes[k]
      case Ok(items) =>
        var slice := Slice(items);
        ghost var before := foundTracks;
        var j := 0;
        while j < |slice|
          invariant 0 <= j <= |slice|
          invariant Absorb(foundTracks, slice[j..]) == Absorb(before, slice)
          invariant forall u :: u in seenUris <==> u in Uris(foundTracks)
        {
          var item := slice[j];
          assert slice[j..][1..] == slice[j + 1..];
          if item.uri !in seenUris {
            if item.artists.None? {
              break;
            }
            assert Uris(foundTracks + [ToTrack(item)]) == Uris(foundTracks) + [item.uri];
            foundTracks := foundTracks + [ToTrack(item)];
            seenUris := seenUris + {item.uri};
          }
          j := j + 1;
        }
      case _ =>
    }
    assert outcomes[..|outcomes|] == outcomes;
    tracks := foundTracks[..Min(TotalLimit, |foundTracks|)];
  }

  // ----- Properties of the merge -----

  /** No two tracks of the list share a URI. */
  predicate DistinctUris(ts: seq<Track>)
  {
    forall i, j :: 0 <= i < j < |ts| ==> ts[i].uri != ts[j].uri
  }

  lemma {:induction false} AbsorbKeepsDistinct(acc: seq<Track>, slice: seq<Item>)
    requires DistinctUris(acc)
    ensures DistinctUris(Absorb(acc, slice))
    decreases |slice|
  {
    if slice == [] {
    } else if slice[0].uri in Uris(acc) {
      AbsorbKeepsDistinct(acc, slice[1..]);
    } else if slice[0].artists.None? {
    } else {
      var next := acc + [ToTrack(slice[0])];
      forall i, j | 0 <= i < j < |next| ensures next[i].uri != next[j].uri {
        if j == |acc| {
          assert Uris(acc)[i] == acc[i].uri;
        }
      }
      AbsorbKeepsDistinct(next, slice[1..]);
    }
  }

  /** The merged list never repeats a URI, within one query's slice or across queries. */
  lemma {:induction false} AccumulateDistinct(outcomes: seq<SearchOutcome>)
    ensures DistinctUris(Accumulate(outcomes))
  {
    if outcomes != [] {
      var prior := outcomes[..|outcomes| - 1];
      AccumulateDistinct(prior);
      match outcomes[|outcomes| - 1]
      case Ok(items) => AbsorbKeepsDistinct(Accumulate(prior), Slice(items));
      case _ =>
    }
  }

  /**
   * A scan only appends: what was on the list stays where it was, at most one
   * track per scanned item is added, and each added track comes from an item
   * of the slice whose URI was not on the list before.
   */
  lemma {:induction false} AbsorbAppends(acc: seq<Track>, slice: seq<Item>)
    ensures var r := Absorb(acc, slice);
      acc <= r && |r| <= |acc| + |slice| &&
      forall k :: |acc| <= k < |r| ==>
        r[k].uri !in Uris(acc) && exists i :: 0 <= i < |slice| && r[k] == ToTrack(slice[i])
    decreases |slice|
  {
    if slice == [] {
    } else if slice[0].uri in Uris(acc) {
      AbsorbAppends(acc, slice[1..]);
      var r := Absorb(acc, slice);
      forall k | |acc| <= k < |r|
        ensures exists i :: 0 <= i < |slice| && r[k] == ToTrack(slice[i])
      {
        var i :| 0 <= i < |slice[1..]| && r[k] == ToTrack(slice[1..][i]);
        assert r[k] == ToTrack(slice[i + 1]);
      }
    } else if slice[0].artists.None? {
    } else {
      var next := acc + [ToTrack(slice[0])];
      AbsorbAppends(next, slice[1..]);
      var r := Absorb(acc, slice);
      assert r == Absorb(next, slice[1..]);
      forall k | |acc| <= k < |r|
        ensures r[k].uri !in Uris(acc)
        ensures exists i :: 0 <= i < |slice| && r[k] == ToTrack(slice[i])
      {
        if k == |acc| {
          assert r[k] == next[k] == ToTrack(slice[0]);
        } else {
          assert r[k].uri !in Uris(next);
          assert Uris(acc) <= Uris(next);
          var i :| 0 <= i < |slice[1..]| && r[k] == ToTrack(slice[1..][i]);
          assert r[k] == ToTrack(slice[i + 1]);
        }
      }
    }
  }

  /**
   * One query step: the list so far is kept as a prefix, and the query adds at
   * most five tracks, each built from one of the first five items of its reply
   * and carrying a URI not seen before. A failed query, or one without
   * `tracks.items`, adds nothing.
   */
  lemma QueryStep(outcomes: seq<SearchOutcome>, k: nat)
    requires k < |outcomes|
    ensures var before, after := Accumulate(outcomes[..k]), Accumulate(outcomes[..k + 1]);
      before <= after && |after| <= |before| + PerQueryLimit &&
      (!outcomes[k].Ok? ==> after == before) &&
      (outcomes[k].Ok? ==>
        forall m :: |before| <= m < |after| ==>
          after[m].uri !in Uris(before) &&
          exists i :: 0 <= i < Min(PerQueryLimit, |outcomes[k].items|) && after[m] == ToTrack(outcomes[k].items[i]))
  {
    assert outcomes[..k + 1][..k] == outcomes[..k];
    var before := Accumulate(outcomes[..k]);
    match outcomes[k]
    case Ok(items) =>
      AbsorbAppends(before, Slice(items));
      var after := Accumulate(outcomes[..k + 1]);
      forall m | |before| <= m < |after|
        ensures exists i :: 0 <= i < Min(PerQueryLimit, |items|) && after[m] == ToTrack(items[i])
      {
        var i :| 0 <= i < |Slice(items)| && after[m] == ToTrack(Slice(items)[i]);
        assert after[m] == ToTrack(items[i]);
      }
    case _ =>
  }

  /** A later query never displaces or reorders an earlier query's tracks. */
  lemma {:induction false} EarlierQueriesArePrefix(outcomes: seq<SearchOutcome>, k: nat, m: nat)
    requires k <= m <= |outcomes|
    ensures Accumulate(outcomes[..k]) <= Accumulate(outcomes[..m])
    decreases m - k
  {
    if k < m {
      QueryStep(outcomes, k);
      EarlierQueriesArePrefix(outcomes, k + 1, m);
    }
  }

  /**
   * The stage's result has at most twenty tracks, all with distinct URIs, and
   * is the first `min(20, n)` of the `n` merged tracks.
   */
  lemma SearchResultIsCappedPrefix(outcomes: seq<SearchOutcome>)
    ensures var r, all := SearchResult(outcomes), Accumulate(outcomes);
      |r| <= TotalLimit && r <= all && |r| == Min(TotalLimit, |all|) && DistinctUris(r)
  {
    AccumulateDistinct(outcomes);
  }

  // ----- A reference definition of the merge -----

  /** The items the queries' slices offer, query by query and item by item. */
  function Candidates(outcomes: seq<SearchOutcome>): seq<Item>
  {
    if outcomes == [] then []
    else Candidates(outcomes[..|outcomes| - 1]) +
         match outcomes[|outcomes| - 1]
         case Ok(items) => Slice(items)
         case _ => []
  }

  /** Every item carries `artists`, so building its record never throws. */
  predicate HasArtists(c: seq<Item>)
  {
    forall i :: 0 <= i < |c| ==> c[i].artists.Some?
  }

  /** No earlier item of `c` has the URI of item `i`. */
  predicate IsFirst(c: seq<Item>, i: nat)
    requires i < |c|
  {
    forall j :: 0 <= j < i ==> c[j].uri != c[i].uri
  }

  /** The items among the first `n` of `c` that are the first with their URI, in order. */
  function FirstOccurrences(c: seq<Item>, n: nat): seq<Item>
    requires n <= |c|
  {
    if n == 0 then []
    else FirstOccurrences(c, n - 1) + (if IsFirst(c, n - 1) then [c[n - 1]] else [])
  }

  function ToTracks(c: seq<Item>): seq<Track>
  {
    seq(|c|, i requires 0 <= i < |c| => ToTrack(c[i]))
  }

  lemma ToTracksAppend(a: seq<Item>, b: seq<Item>)
    ensures ToTracks(a + b) == ToTracks(a) + ToTracks(b)
  {
    assert forall i :: 0 <= i < |a + b| ==> ToTracks(a + b)[i] == (ToTracks(a) + ToTracks(b))[i];
  }

  lemma {:induction false} FirstOccurrencesOfPrefix(c: seq<Item>, d: seq<Item>, n: nat)
    requires n <= |c| && n <= |d| && c[..n] == d[..n]
    ensures FirstOccurrences(c, n) == FirstOccurrences(d, n)
  {
    if n > 0 {
      assert c[..n - 1] == d[..n - 1] by {
        assert c[..n - 1] == c[..n][..n - 1];
        assert d[..n - 1] == d[..n][..n - 1];
      }
      FirstOccurrencesOfPrefix(c, d, n - 1);
      assert c[n - 1] == c[..n][n - 1] == d[..n][n - 1] == d[n - 1];
      assert IsFirst(c, n - 1) == IsFirst(d, n - 1) by {
        forall j | 0 <= j < n - 1 ensures c[j] == d[j] {
          assert c[j] == c[..n][j] && d[j] == d[..n][j];
        }
      }
    }
  }

  /** A URI is on the reference list exactly when one of the first `n` items has it. */
  lemma {:induction false} FirstOccurrencesUris(c: seq<Item>, n: nat, u: string)
    requires n <= |c|
    ensures u in Uris(ToTracks(FirstOccurrences(c, n))) <==> exists j :: 0 <= j < n && c[j].uri == u
  {
    if n > 0 {
      FirstOccurrencesUris(c, n - 1, u);
      var prior := FirstOccurrences(c, n - 1);
      var tail := if IsFirst(c, n - 1) then [c[n - 1]] else [];
      ToTracksAppend(prior, tail);
      assert Uris(ToTracks(prior) + ToTracks(tail)) == Uris(ToTracks(prior)) + Uris(ToTracks(tail));
      if IsFirst(c, n - 1) {
        assert Uris(ToTracks(tail)) == [c[n - 1].uri];
      } else {
        assert Uris(ToTracks(tail)) == [];
        if c[n - 1].uri == u {
          var j :| 0 <= j < n - 1 && c[j].uri == c[n - 1].uri;
        }
      }
    }
  }

  /** Scanning well-formed items extends the reference list of what came before. */
  lemma {:induction false} AbsorbMatchesReference(c: seq<Item>, s: seq<Item>)
    requires HasArtists(s)
    ensures Absorb(ToTracks(FirstOccurrences(c, |c|)), s) == ToTracks(FirstOccurrences(c + s, |c + s|))
    decreases |s|
  {
    if s == [] {
      assert c + s == c;
    } else {
      var acc := ToTracks(FirstOccurrences(c, |c|));
      var c' := c + [s[0]];
      assert c' + s[1..] == c + s;
      FirstOccurrencesOfPrefix(c', c, |c|);
      ToTracksAppend(FirstOccurrences(c, |c|), if IsFirst(c', |c|) then [s[0]] else []);
      assert c'[|c|] == s[0];
      FirstOccurrencesUris(c, |c|, s[0].uri);
      if s[0].uri in Uris(acc) {
        var j :| 0 <= j < |c| && c[j].uri == s[0].uri;
        assert c'[j] == c[j];
        assert !IsFirst(c', |c|);
        assert FirstOccurrences(c', |c'|) == FirstOccurrences(c, |c|) + [] == FirstOccurrences(c, |c|);
        assert Absorb(acc, s) == Absorb(acc, s[1..]);
      } else {
        assert s[0].artists.Some?;
        assert IsFirst(c', |c|) by {
          forall j | 0 <= j < |c| ensures c'[j].uri != c'[|c|].uri {
            assert c'[j] == c[j];
          }
        }
        assert ToTracks([s[0]]) == [ToTrack(s[0])];
        assert ToTracks(FirstOccurrences(c', |c'|)) == acc + [ToTrack(s[0])];
        assert Absorb(acc, s) == Absorb(acc + [ToTrack(s[0])], s[1..]);
      }
      AbsorbMatchesReference(c', s[1..]);
    }
  }

  /**
   * When every item carries `artists`, the merged list is the list of
   * candidates that are the first with their URI, in candidate order: the
   * first occurrence wins. Every candidate's URI is on the merged list.
   */
  lemma {:induction false} AccumulateMatchesReference(outcomes: seq<SearchOutcome>)
    requires HasArtists(Candidates(outcomes))
    ensures var c := Candidates(outcomes);
      Accumulate(outcomes) == ToTracks(FirstOccurrences(c, |c|)) &&
      forall j :: 0 <= j < |c| ==> c[j].uri in Uris(Accumulate(outcomes))
  {
    var c := Candidates(outcomes);
    if outcomes != [] {
      var prior := outcomes[..|outcomes| - 1];
      var pc := Candidates(prior);
      var tail := match outcomes[|outcomes| - 1] case Ok(items) => Slice(items) case _ => [];
      assert c == pc + tail;
      assert HasArtists(pc) by {
        forall i | 0 <= i < |pc| ensures pc[i].artists.Some? { assert pc[i] == c[i]; }
      }
      assert HasArtists(tail) by {
        forall i | 0 <= i < |tail| ensures tail[i].artists.Some? { assert tail[i] == c[|pc| + i]; }
      }
      AccumulateMatchesReference(prior);
      AbsorbMatchesReference(pc, tail);
      assert pc + [] == pc;
    }
    forall j | 0 <= j < |c| ensures c[j].uri in Uris(Accumulate(outcomes)) {
      FirstOccurrencesUris(c, |c|, c[j].uri);
    }
  }
}
