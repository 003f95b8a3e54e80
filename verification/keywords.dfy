/** The search query list: every location joined with every service,
    scoped to the Threads site, followed by hand-written high-intent
    queries. */
module Keywords {

  /** Restricts a web search to posts on Threads. */
  const SITE_FILTER: string := " site:threads.net"

  const LOCATIONS: seq<string> := ["中壢", "桃園", "平鎮"]

  const SERVICES: seq<string> := ["接睫毛", "做臉", "除毛", "清粉刺", "皮膚管理"]

  /** The phrases of the colloquial queries, without the site restriction. */
  const HIGH_INTENT_PHRASES: seq<string> := ["中壢推薦做臉", "桃園清粉刺推薦", "想做皮膚管理"]

  /** Colloquial queries appended verbatim after the generated ones. */
  const HIGH_INTENT: seq<string> := [
    "中壢推薦做臉 site:threads.net",
    "桃園清粉刺推薦 site:threads.net",
    "想做皮膚管理 site:threads.net"
  ]

  /** The query for one location and one service. */
  function Query(loc: string, serv: string): string
  {
    loc + serv + SITE_FILTER
  }

  /** The queries for one location, services in order. */
  function Row(loc: string, servs: seq<string>): (r: seq<string>)
    ensures |r| == |servs|
    ensures forall j :: 0 <= j < |servs| ==> r[j] == Query(loc, servs[j])
  {
    seq(|servs|, j requires 0 <= j < |servs| => Query(loc, servs[j]))
  }

  /** Locations in the outer loop, services in the inner one. */
  function CrossProduct(locs: seq<string>, servs: seq<string>): seq<string>
  {
    if |locs| == 0 then [] else Row(locs[0], servs) + CrossProduct(locs[1..], servs)
  }

  /** The full query list for a configuration. */
  function Generate(locs: seq<string>, servs: seq<string>, extras: seq<string>): seq<string>
  {
    CrossProduct(locs, servs) + extras
  }

  /** The query list the radar scans. */
  const KEYWORDS: seq<string> := Generate(LOCATIONS, SERVICES, HIGH_INTENT)

  /** Position of the first query of location `i` when every location
      contributes `n` queries; equal to `i * n` (RowStartIsProduct). */
  function RowStart(i: nat, n: nat): nat
  {
    if i == 0 then 0 else RowStart(i - 1, n) + n
  }

  lemma {:induction false} RowStartIsProduct(i: nat, n: nat)
    ensures RowStart(i, n) == i * n
  {
    if i > 0 {
      RowStartIsProduct(i - 1, n);
      assert i * n == (i - 1) * n + n;
    }
  }

  /** Rows of an earlier location end no later than later rows start. */
  lemma {:induction false} RowStartMonotone(i: nat, m: nat, n: nat)
    requires i < m
    ensures RowStart(i, n) + n <= RowStart(m, n)
    decreases m
  {
    if i + 1 < m {
      RowStartMonotone(i, m - 1, n);
    }
  }

  lemma {:induction false} CrossProductLength(locs: seq<string>, servs: seq<string>)
    ensures |CrossProduct(locs, servs)| == RowStart(|locs|, |servs|)
  {
    if |locs| > 0 {
      CrossProductLength(locs[1..], servs);
      RowStartShift(|locs| - 1, |servs|);
    }
  }

  /** Peeling off the first row shifts every later row by `n`. */
  lemma {:induction false} RowStartShift(i: nat, n: nat)
    ensures RowStart(i + 1, n) == n + RowStart(i, n)
  {
    if i > 0 {
      RowStartShift(i - 1, n);
    }
  }

  /** Entry `RowStart(i, |servs|) + j` of the cross product is the query
      for location `i` and service `j`. */
  lemma {:induction false} CrossProductAt(locs: seq<string>, servs: seq<string>, i: nat, j: nat)
    requires i < |locs| && j < |servs|
    ensures RowStart(i, |servs|) + j < |CrossProduct(locs, servs)|
    ensures CrossProduct(locs, servs)[RowStart(i, |servs|) + j] == Query(locs[i], servs[j])
  {
    var n := |servs|;
    var rest := locs[1..];
    var c := CrossProduct(locs, servs);
    CrossProductLength(locs, servs);
    RowStartMonotone(i, |locs|, n);
    if i > 0 {
      CrossProductAt(rest, servs, i - 1, j);
      var k := RowStart(i - 1, n) + j;
      RowStartShift(i - 1, n);
      assert c == Row(locs[0], servs) + CrossProduct(rest, servs);
      assert c[n + k] == CrossProduct(rest, servs)[k];
    }
  }

  /** The generated list holds `|locs| * |servs|` location/service
      queries, the one for location `i` and service `j` at position
      `i * |servs| + j`, followed by the extra queries in order. */
  lemma GenerateLayout(locs: seq<string>, servs: seq<string>, extras: seq<string>)
    ensures |Generate(locs, servs, extras)| == RowStart(|locs|, |servs|) + |extras|
    ensures forall i :: 0 <= i < |locs| ==> RowStart(i, |servs|) + |servs| <= RowStart(|locs|, |servs|)
    ensures forall i, j :: 0 <= i < |locs| && 0 <= j < |servs| ==>
              Generate(locs, servs, extras)[RowStart(i, |servs|) + j] == locs[i] + servs[j] + SITE_FILTER
    ensures Generate(locs, servs, extras)[RowStart(|locs|, |servs|)..] == extras
  {
    var c := CrossProduct(locs, servs);
    var g := Generate(locs, servs, extras);
    CrossProductLength(locs, servs);
    assert g[|c|..] == extras;
    forall i | 0 <= i < |locs|
      ensures RowStart(i, |servs|) + |servs| <= RowStart(|locs|, |servs|)
    {
      RowStartMonotone(i, |locs|, |servs|);
    }
    forall i, j | 0 <= i < |locs| && 0 <= j < |servs|
      ensures g[RowStart(i, |servs|) + j] == locs[i] + servs[j] + SITE_FILTER
    {
      CrossProductAt(locs, servs, i, j);
    }
  }

  /** The radar scans eighteen queries: location `i` with service `j` at
      position `5 * i + j`, the three high-intent ones last. */
  lemma KeywordsShape()
    ensures |KEYWORDS| == 18
    ensures KEYWORDS[15..] == HIGH_INTENT
    ensures forall i, j :: 0 <= i < 3 && 0 <= j < 5 ==>
              KEYWORDS[5 * i + j] == LOCATIONS[i] + SERVICES[j] + SITE_FILTER
  {
    GenerateLayout(LOCATIONS, SERVICES, HIGH_INTENT);
    forall i: nat | i <= 3
      ensures RowStart(i, 5) == 5 * i
    {
      RowStartIsProduct(i, 5);
    }
  }

  /** No location, service or high-intent phrase contains a space. */
  lemma PhrasesHaveNoSpace()
    ensures forall i :: 0 <= i < |LOCATIONS| ==> ' ' !in LOCATIONS[i]
    ensures forall j :: 0 <= j < |SERVICES| ==> ' ' !in SERVICES[j]
    ensures forall k :: 0 <= k < |HIGH_INTENT_PHRASES| ==> ' ' !in HIGH_INTENT_PHRASES[k]
  {
    assert ' ' !in LOCATIONS[0] && ' ' !in LOCATIONS[1] && ' ' !in LOCATIONS[2];
    assert ' ' !in SERVICES[0] && ' ' !in SERVICES[1] && ' ' !in SERVICES[2];
    assert ' ' !in SERVICES[3] && ' ' !in SERVICES[4];
    assert ' ' !in HIGH_INTENT_PHRASES[0] && ' ' !in HIGH_INTENT_PHRASES[1];
    assert ' ' !in HIGH_INTENT_PHRASES[2];
  }

  lemma SameString(a: string, b: string)
    requires |a| == |b|
    requires forall k :: 0 <= k < |a| ==> a[k] == b[k]
    ensures a == b
  {
  }

  /** Each high-intent query is its phrase scoped to Threads. */
  lemma HighIntentAreSiteQueries()
    ensures |HIGH_INTENT| == |HIGH_INTENT_PHRASES| == 3
    ensures forall k :: 0 <= k < 3 ==> HIGH_INTENT[k] == HIGH_INTENT_PHRASES[k] + SITE_FILTER
  {
    SameString(HIGH_INTENT[0], HIGH_INTENT_PHRASES[0] + SITE_FILTER);
    SameString(HIGH_INTENT[1], HIGH_INTENT_PHRASES[1] + SITE_FILTER);
    SameString(HIGH_INTENT[2], HIGH_INTENT_PHRASES[2] + SITE_FILTER);
  }

  /** Appending one location to the outer loop appends its row. */
  lemma {:induction false} CrossProductSnoc(locs: seq<string>, loc: string, servs: seq<string>)
    ensures CrossProduct(locs + [loc], servs) == CrossProduct(locs, servs) + Row(loc, servs)
  {
    if |locs| == 0 {
      assert CrossProduct([loc], servs) == Row(loc, servs) + CrossProduct([], servs);
    } else {
      assert (locs + [loc])[1..] == locs[1..] + [loc];
      CrossProductSnoc(locs[1..], loc, servs);
    }
  }

  /** The nested loops that build the query list, as written in the
      program: locations outside, services inside, extras appended. */
  method BuildKeywords(locs: seq<string>, servs: seq<string>, extras: seq<string>)
    returns (kws: seq<string>)
    ensures kws == Generate(locs, servs, extras)
    ensures |kws| == RowStart(|locs|, |servs|) + |extras|
    ensures kws[RowStart(|locs|, |servs|)..] == extras
  {
    kws := [];
    var i := 0;
    while i < |locs|
      invariant 0 <= i <= |locs|
      invariant kws == CrossProduct(locs[..i], servs)
    {
      var loc := locs[i];
      var j := 0;
      ghost var before := kws;
      while j < |servs|
        invariant 0 <= j <= |servs|
        invariant kws == before + Row(loc, servs[..j])
      {
        assert Row(loc, servs[..j + 1]) == Row(loc, servs[..j]) + [Query(loc, servs[j])];
        kws := kws + [loc + servs[j] + SITE_FILTER];
        j := j + 1;
      }
      assert servs[..j] == servs;
      CrossProductSnoc(locs[..i], loc, servs);
      assert locs[..i + 1] == locs[..i] + [loc];
      i := i + 1;
    }
    assert locs[..i] == locs;
    kws := kws + extras;
    GenerateLayout(locs, servs, extras);
  }
}
