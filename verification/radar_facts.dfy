/** What a radar run promises, proved against an independent description
    of its output: flatten the run into the sequence of results it
    examines (the "hits"), and a hit is notified exactly when it is the
    first hit with its link and no block word occurs in it. */
module RadarFacts {
  import opened Text
  import opened Keywords
  import opened Radar

  /** One result, together with the query whose search returned it. */
  datatype Hit = Hit(query: string, result: RawResult)

  function HitsOf(query: string, rs: seq<RawResult>): (hs: seq<Hit>)
    ensures |hs| == |rs|
    ensures forall k :: 0 <= k < |rs| ==> hs[k] == Hit(query, rs[k])
  {
    seq(|rs|, k requires 0 <= k < |rs| => Hit(query, rs[k]))
  }

  /** A failed search contributes no hits. */
  function OutcomeHits(query: string, outcome: SearchOutcome): seq<Hit>
  {
    match outcome
    case Failed => []
    case Ok(rs) => HitsOf(query, rs)
  }

  /** Every result the run examines, in the order it examines them. */
  function Hits(queries: seq<string>, outcomes: seq<SearchOutcome>): seq<Hit>
    requires |queries| == |outcomes|
    decreases |queries|
  {
    if |queries| == 0 then []
    else OutcomeHits(queries[0], outcomes[0]) + Hits(queries[1..], outcomes[1..])
  }

  function LinkAt(hs: seq<Hit>, i: nat): string
    requires i < |hs|
  {
    LinkOf(hs[i].result)
  }

  /** No earlier hit has the same link. */
  predicate FirstSighting(hs: seq<Hit>, i: nat)
    requires i < |hs|
  {
    forall j :: 0 <= j < i ==> LinkAt(hs, j) != LinkAt(hs, i)
  }

  /** The hits the run is meant to notify. */
  predicate Notifiable(cfg: Config, hs: seq<Hit>, i: nat)
    requires i < |hs|
  {
    FirstSighting(hs, i) && !Blocked(cfg.blockWords, hs[i].result)
  }

  /** Positions, in increasing order, of the notifiable hits before `n`. */
  function Selected(cfg: Config, hs: seq<Hit>, n: nat): (ix: seq<nat>)
    requires n <= |hs|
    ensures forall k :: 0 <= k < |ix| ==> ix[k] < n && Notifiable(cfg, hs, ix[k])
    ensures forall i :: 0 <= i < n && Notifiable(cfg, hs, i) ==> i in ix
    ensures forall a, b :: 0 <= a < b < |ix| ==> ix[a] < ix[b]
  {
    if n == 0 then []
    else Selected(cfg, hs, n - 1) + (if Notifiable(cfg, hs, n - 1) then [n - 1] else [])
  }

  function ComposeHit(h: Hit): Message
  {
    Compose(h.query, h.result)
  }

  /** The messages for the hits at the given positions. */
  function Notices(hs: seq<Hit>, ix: seq<nat>): (ms: seq<Message>)
    requires forall k :: 0 <= k < |ix| ==> ix[k] < |hs|
    ensures |ms| == |ix|
    ensures forall k :: 0 <= k < |ix| ==> ms[k] == ComposeHit(hs[ix[k]])
  {
    seq(|ix|, k requires 0 <= k < |ix| => ComposeHit(hs[ix[k]]))
  }

  /** The links of the hits before `n`. */
  function LinksUpTo(hs: seq<Hit>, n: nat): set<string>
    requires n <= |hs|
  {
    set j | 0 <= j < n :: LinkAt(hs, j)
  }

  /** With credentials every message was posted, in order; without them
      none was, and each send reported an error instead. */
  predicate Delivered(cfg: Config, st: RunState)
  {
    if HasCredentials(cfg) then
      && |st.outbox| == |st.notes|
      && st.configErrors == 0
      && forall k :: 0 <= k < |st.outbox| ==> st.outbox[k] == PostFor(cfg, st.notes[k])
    else
      st.outbox == [] && st.configErrors == |st.notes|
  }

  /** `st` is what the reference description says after the first `n` hits. */
  predicate Agrees(cfg: Config, hs: seq<Hit>, n: nat, st: RunState)
    requires n <= |hs|
  {
    && st.seen == LinksUpTo(hs, n)
    && st.notes == Notices(hs, Selected(cfg, hs, n))
    && st.count == |st.notes|
    && Delivered(cfg, st)
  }

  /** The run's per-result step, applied to a sequence of hits. */
  function Absorb(cfg: Config, st: RunState, hs: seq<Hit>): RunState
    decreases |hs|
  {
    if |hs| == 0 then st
    else Absorb(cfg, Visit(cfg, st, hs[0].query, hs[0].result), hs[1..])
  }

  lemma {:induction false} AbsorbAppend(cfg: Config, st: RunState, a: seq<Hit>, b: seq<Hit>)
    ensures Absorb(cfg, st, a + b) == Absorb(cfg, Absorb(cfg, st, a), b)
    decreases |a|
  {
    if |a| == 0 {
      assert a + b == b;
    } else {
      assert (a + b)[1..] == a[1..] + b;
      AbsorbAppend(cfg, Visit(cfg, st, a[0].query, a[0].result), a[1..], b);
    }
  }

  lemma {:induction false} ScanResultsIsAbsorb(cfg: Config, st: RunState, query: string, rs: seq<RawResult>)
    ensures ScanResults(cfg, st, query, rs) == Absorb(cfg, st, HitsOf(query, rs))
    decreases |rs|
  {
    if |rs| > 0 {
      assert HitsOf(query, rs)[1..] == HitsOf(query, rs[1..]);
      ScanResultsIsAbsorb(cfg, Visit(cfg, st, query, rs[0]), query, rs[1..]);
    }
  }

  /** Scanning query by query is the same as absorbing the run's hits. */
  lemma {:induction false} ScanAllIsAbsorb(cfg: Config, st: RunState, queries: seq<string>, outcomes: seq<SearchOutcome>)
    requires |queries| == |outcomes|
    ensures ScanAll(cfg, st, queries, outcomes) == Absorb(cfg, st, Hits(queries, outcomes))
    decreases |queries|
  {
    if |queries| > 0 {
      var mid := ScanQuery(cfg, st, queries[0], outcomes[0]);
      match outcomes[0] {
        case Failed =>
        case Ok(rs) => ScanResultsIsAbsorb(cfg, st, queries[0], rs);
      }
      assert mid == Absorb(cfg, st, OutcomeHits(queries[0], outcomes[0]));
      ScanAllIsAbsorb(cfg, mid, queries[1..], outcomes[1..]);
      AbsorbAppend(cfg, st, OutcomeHits(queries[0], outcomes[0]), Hits(queries[1..], outcomes[1..]));
    }
  }

  /** One more hit moves the agreement one position on. */
  lemma VisitAgrees(cfg: Config, hs: seq<Hit>, m: nat, st: RunState)
    requires m < |hs|
    requires Agrees(cfg, hs, m, st)
    ensures Agrees(cfg, hs, m + 1, Visit(cfg, st, hs[m].query, hs[m].result))
  {
    var link := LinkAt(hs, m);
    assert LinksUpTo(hs, m + 1) == LinksUpTo(hs, m) + {link};
    assert link in st.seen <==> !FirstSighting(hs, m);
    var ix := Selected(cfg, hs, m);
    if Notifiable(cfg, hs, m) {
      assert Selected(cfg, hs, m + 1) == ix + [m];
      assert Notices(hs, ix + [m]) == Notices(hs, ix) + [ComposeHit(hs[m])];
    } else {
      assert Selected(cfg, hs, m + 1) == ix;
    }
  }

  /** After any prefix of the hits, the fold agrees with the reference. */
  lemma {:induction false} AbsorbAgrees(cfg: Config, hs: seq<Hit>, n: nat)
    requires n <= |hs|
    ensures Agrees(cfg, hs, n, Absorb(cfg, Start, hs[..n]))
  {
    if n == 0 {
      assert LinksUpTo(hs, 0) == {};
    } else {
      var m := n - 1;
      AbsorbAgrees(cfg, hs, m);
      var st := Absorb(cfg, Start, hs[..m]);
      assert hs[..n] == hs[..m] + [hs[m]];
      AbsorbAppend(cfg, Start, hs[..m], [hs[m]]);
      assert Absorb(cfg, st, [hs[m]]) == Visit(cfg, st, hs[m].query, hs[m].result);
      VisitAgrees(cfg, hs, m, st);
    }
  }

  /** A run's final state is the reference outcome for its hits: the seen
      links are exactly the links examined, the messages are those of the
      first unblocked sightings in order, the count is their number, and
      delivery follows the credentials. */
  lemma RunMatchesReference(cfg: Config, queries: seq<string>, outcomes: seq<SearchOutcome>)
    requires |queries| == |outcomes|
    ensures var hs := Hits(queries, outcomes);
            Agrees(cfg, hs, |hs|, RunRadar(cfg, queries, outcomes))
  {
    var hs := Hits(queries, outcomes);
    ScanAllIsAbsorb(cfg, Start, queries, outcomes);
    AbsorbAgrees(cfg, hs, |hs|);
    assert hs[..|hs|] == hs;
  }

  /** No link is notified twice in a run, whichever queries return it and
      however often. */
  lemma NoLinkNotifiedTwice(cfg: Config, queries: seq<string>, outcomes: seq<SearchOutcome>)
    requires |queries| == |outcomes|
    ensures var notes := RunRadar(cfg, queries, outcomes).notes;
            forall a, b :: 0 <= a < b < |notes| ==> notes[a].link != notes[b].link
  {
    var hs := Hits(queries, outcomes);
    RunMatchesReference(cfg, queries, outcomes);
    var ix := Selected(cfg, hs, |hs|);
    var notes := RunRadar(cfg, queries, outcomes).notes;
    forall a, b | 0 <= a < b < |notes|
      ensures notes[a].link != notes[b].link
    {
      assert ix[a] < ix[b];
      assert FirstSighting(hs, ix[b]);
      assert LinkAt(hs, ix[a]) != LinkAt(hs, ix[b]);
    }
  }

  /** No block word occurs in the result's title, space and body. */
  ghost predicate Clean(words: seq<string>, r: RawResult)
  {
    forall w :: w in words ==> !Occurs(w, FullText(r))
  }

  /** The executable block test is the negation of `Clean`. */
  lemma {:induction false} BlockedIffNotClean(words: seq<string>, r: RawResult)
    ensures Blocked(words, r) <==> !Clean(words, r)
  {
    AnyContainedIffSomeOccurs(words, FullText(r));
    if !Clean(words, r) {
      var w :| w in words && Occurs(w, FullText(r));
      var k :| 0 <= k < |words| && words[k] == w;
    }
  }

  /** `m` is the message for a first sighting of a link in which no block
      word occurs. */
  ghost predicate FromCleanFirstSighting(cfg: Config, hs: seq<Hit>, m: Message)
  {
    exists i :: 0 <= i < |hs| && FirstSighting(hs, i) && Clean(cfg.blockWords, hs[i].result) && m == ComposeHit(hs[i])
  }

  /** Filter completeness: every notification comes from a first sighting
      of its link in which no block word occurs. */
  lemma NotifiedOnlyIfClean(cfg: Config, queries: seq<string>, outcomes: seq<SearchOutcome>)
    requires |queries| == |outcomes|
    ensures var notes := RunRadar(cfg, queries, outcomes).notes;
            forall k :: 0 <= k < |notes| ==> FromCleanFirstSighting(cfg, Hits(queries, outcomes), notes[k])
  {
    var hs := Hits(queries, outcomes);
    RunMatchesReference(cfg, queries, outcomes);
    var ix := Selected(cfg, hs, |hs|);
    var notes := RunRadar(cfg, queries, outcomes).notes;
    forall k | 0 <= k < |notes|
      ensures FromCleanFirstSighting(cfg, hs, notes[k])
    {
      var i := ix[k];
      assert Notifiable(cfg, hs, i);
      BlockedIffNotClean(cfg.blockWords, hs[i].result);
      assert notes[k] == ComposeHit(hs[i]);
    }
  }

  /** Nothing is lost: every first sighting of a link in which no block
      word occurs is notified. */
  lemma CleanFirstSightingNotified(cfg: Config, queries: seq<string>, outcomes: seq<SearchOutcome>)
    requires |queries| == |outcomes|
    ensures var hs := Hits(queries, outcomes);
            var notes := RunRadar(cfg, queries, outcomes).notes;
            forall i :: 0 <= i < |hs| && FirstSighting(hs, i) && Clean(cfg.blockWords, hs[i].result) ==>
              ComposeHit(hs[i]) in notes
  {
    var hs := Hits(queries, outcomes);
    RunMatchesReference(cfg, queries, outcomes);
    var ix := Selected(cfg, hs, |hs|);
    var notes := RunRadar(cfg, queries, outcomes).notes;
    forall i | 0 <= i < |hs| && FirstSighting(hs, i) && Clean(cfg.blockWords, hs[i].result)
      ensures ComposeHit(hs[i]) in notes
    {
      BlockedIffNotClean(cfg.blockWords, hs[i].result);
      assert Notifiable(cfg, hs, i);
      var k :| 0 <= k < |ix| && ix[k] == i;
      assert notes[k] == ComposeHit(hs[i]);
    }
  }

  /** Because the duplicate check comes before the block list, a blocked
      first sighting of a link silences that link for the rest of the run,
      even when a later result with the same link is clean. */
  lemma BlockedFirstSightingSilencesLink(cfg: Config, queries: seq<string>, outcomes: seq<SearchOutcome>, i: nat)
    requires |queries| == |outcomes|
    requires i < |Hits(queries, outcomes)|
    requires FirstSighting(Hits(queries, outcomes), i)
    requires Blocked(cfg.blockWords, Hits(queries, outcomes)[i].result)
    ensures var notes := RunRadar(cfg, queries, outcomes).notes;
            forall k :: 0 <= k < |notes| ==> notes[k].link != LinkAt(Hits(queries, outcomes), i)
    ensures LinkAt(Hits(queries, outcomes), i) in RunRadar(cfg, queries, outcomes).seen
  {
    var hs := Hits(queries, outcomes);
    RunMatchesReference(cfg, queries, outcomes);
    var ix := Selected(cfg, hs, |hs|);
    var notes := RunRadar(cfg, queries, outcomes).notes;
    forall k | 0 <= k < |notes|
      ensures notes[k].link != LinkAt(hs, i)
    {
      var j := ix[k];
      assert Notifiable(cfg, hs, j);
      assert j != i;
      if j < i {
        assert LinkAt(hs, j) != LinkAt(hs, i);
      } else {
        assert LinkAt(hs, i) != LinkAt(hs, j);
      }
    }
  }

  lemma {:induction false} HitsLength(queries: seq<string>, outcomes: seq<SearchOutcome>)
    requires |queries| == |outcomes|
    ensures |Hits(queries, outcomes)| == TotalResults(outcomes)
    decreases |queries|
  {
    if |queries| > 0 {
      HitsLength(queries[1..], outcomes[1..]);
    }
  }

  /** The number of results the searches returned. */
  function TotalResults(outcomes: seq<SearchOutcome>): nat
  {
    if |outcomes| == 0 then 0
    else (match outcomes[0] case Failed => 0 case Ok(rs) => |rs|) + TotalResults(outcomes[1..])
  }

  /** The count reported at the end equals the number of notifications,
      and is bounded by the results returned and by the distinct links. */
  lemma CountBounds(cfg: Config, queries: seq<string>, outcomes: seq<SearchOutcome>)
    requires |queries| == |outcomes|
    ensures var st := RunRadar(cfg, queries, outcomes);
            && st.count == |st.notes|
            && st.count <= TotalResults(outcomes)
            && st.count <= |st.seen|
            && st.seen == LinksUpTo(Hits(queries, outcomes), |Hits(queries, outcomes)|)
  {
    var hs := Hits(queries, outcomes);
    RunMatchesReference(cfg, queries, outcomes);
    HitsLength(queries, outcomes);
    ScanAllIsAbsorb(cfg, Start, queries, outcomes);
    AbsorbCountBound(cfg, Start, hs);
  }

  lemma {:induction false} AbsorbCountBound(cfg: Config, st: RunState, hs: seq<Hit>)
    ensures Absorb(cfg, st, hs).count <= st.count + |hs|
    decreases |hs|
  {
    if |hs| > 0 {
      AbsorbCountBound(cfg, Visit(cfg, st, hs[0].query, hs[0].result), hs[1..]);
    }
  }

  /** At most one result with a missing link is ever notified in a run. */
  lemma MissingLinkNotifiedAtMostOnce(cfg: Config, queries: seq<string>, outcomes: seq<SearchOutcome>)
    requires |queries| == |outcomes|
    ensures var notes := RunRadar(cfg, queries, outcomes).notes;
            forall a, b :: 0 <= a < |notes| && 0 <= b < |notes| && notes[a].link == "" && notes[b].link == "" ==> a == b
  {
    NoLinkNotifiedTwice(cfg, queries, outcomes);
  }

  /** Without credentials nothing is posted and every notification becomes
      an error report; with them every notification is posted once, in
      order, with its rendered text. The run goes on either way. */
  lemma CredentialGuard(cfg: Config, queries: seq<string>, outcomes: seq<SearchOutcome>)
    requires |queries| == |outcomes|
    ensures var st := RunRadar(cfg, queries, outcomes);
            && (!HasCredentials(cfg) ==> st.outbox == [] && st.configErrors == st.count)
            && (HasCredentials(cfg) ==>
                  && |st.outbox| == st.count
                  && st.configErrors == 0
                  && forall k :: 0 <= k < |st.outbox| ==>
                       st.outbox[k].text == Render(st.notes[k]) && st.outbox[k].chatId == cfg.chatId.value)
  {
    RunMatchesReference(cfg, queries, outcomes);
  }

  lemma {:induction false} ScanAllAppend(cfg: Config, st: RunState,
                                         q1: seq<string>, o1: seq<SearchOutcome>,
                                         q2: seq<string>, o2: seq<SearchOutcome>)
    requires |q1| == |o1| && |q2| == |o2|
    ensures ScanAll(cfg, st, q1 + q2, o1 + o2) == ScanAll(cfg, ScanAll(cfg, st, q1, o1), q2, o2)
    decreases |q1|
  {
    if |q1| == 0 {
      assert q1 + q2 == q2 && o1 + o2 == o2;
    } else {
      assert (q1 + q2)[1..] == q1[1..] + q2;
      assert (o1 + o2)[1..] == o1[1..] + o2;
      ScanAllAppend(cfg, ScanQuery(cfg, st, q1[0], o1[0]), q1[1..], o1[1..], q2, o2);
    }
  }

  /** A failed search on query `k` is contained: the run equals scanning
      the queries before `k` and then, from that same state, the queries
      after it. Nothing seen or counted before the failure is lost. */
  lemma FailedQuerySkipped(cfg: Config, st: RunState, queries: seq<string>, outcomes: seq<SearchOutcome>, k: nat)
    requires |queries| == |outcomes|
    requires k < |queries| && outcomes[k].Failed?
    ensures var before := ScanAll(cfg, st, queries[..k], outcomes[..k]);
            ScanAll(cfg, st, queries, outcomes) == ScanAll(cfg, before, queries[k + 1..], outcomes[k + 1..])
  {
    var before := ScanAll(cfg, st, queries[..k], outcomes[..k]);
    assert queries == queries[..k] + ([queries[k]] + queries[k + 1..]);
    assert outcomes == outcomes[..k] + ([outcomes[k]] + outcomes[k + 1..]);
    ScanAllAppend(cfg, st, queries[..k], outcomes[..k], [queries[k]] + queries[k + 1..], [outcomes[k]] + outcomes[k + 1..]);
    ScanAllAppend(cfg, before, [queries[k]], [outcomes[k]], queries[k + 1..], outcomes[k + 1..]);
    assert ScanAll(cfg, before, [queries[k]], [outcomes[k]]) == before;
  }

  /** The keyword shown for a generated query is location and service
      joined, as long as neither contains a space. */
  lemma CleanGeneratedKeyword(loc: string, serv: string)
    requires ' ' !in loc && ' ' !in serv
    ensures CleanKeyword(Query(loc, serv)) == loc + serv
  {
    assert Query(loc, serv) == (loc + serv) + SITE_FILTER;
    RemoveTrailing(loc + serv, SITE_FILTER);
  }

  /** Every location/service query the radar scans is shown as the
      location and the service joined. */
  lemma GeneratedKeywordLabels()
    ensures forall i, j :: 0 <= i < 3 && 0 <= j < 5 ==>
              CleanKeyword(KEYWORDS[5 * i + j]) == LOCATIONS[i] + SERVICES[j]
  {
    KeywordsShape();
    PhrasesHaveNoSpace();
    forall i, j | 0 <= i < 3 && 0 <= j < 5
      ensures CleanKeyword(KEYWORDS[5 * i + j]) == LOCATIONS[i] + SERVICES[j]
    {
      CleanGeneratedKeyword(LOCATIONS[i], SERVICES[j]);
    }
  }

  /** The three high-intent queries are shown without the site restriction. */
  lemma HighIntentLabels()
    ensures forall k :: 0 <= k < |HIGH_INTENT| ==> CleanKeyword(HIGH_INTENT[k]) == HIGH_INTENT_PHRASES[k]
  {
    PhrasesHaveNoSpace();
    HighIntentAreSiteQueries();
    forall k | 0 <= k < |HIGH_INTENT|
      ensures CleanKeyword(HIGH_INTENT[k]) == HIGH_INTENT_PHRASES[k]
    {
      RemoveTrailing(HIGH_INTENT_PHRASES[k], SITE_FILTER);
    }
  }

  /** A lash-extension post whose body shares an experience is dropped
      when "分享" is a block word: nothing is sent. */
  lemma BlockedPostScenario()
    ensures var r := RawResult(Some("https://threads.net/post/123"), Some("中壢接睫毛心得"), Some("分享我的經驗"));
            var run := RunRadar(Config(["分享"], Some("t"), Some("c")), ["中壢接睫毛 site:threads.net"], [Ok([r])]);
            run.count == 0 && run.notes == [] && run.outbox == [] && run.seen == {"https://threads.net/post/123"}
  {
    var r := RawResult(Some("https://threads.net/post/123"), Some("中壢接睫毛心得"), Some("分享我的經驗"));
    var text := FullText(r);
    assert text == "中壢接睫毛心得" + " " + "分享我的經驗";
    OccursBetween("中壢接睫毛心得 ", "分享", "我的經驗");
    assert "中壢接睫毛心得 " + "分享" + "我的經驗" == text;
    ContainsIffOccurs(text, "分享");
    assert Blocked(["分享"], r);
  }

  /** The same post returned twice under two queries, with no block word
      matching, is sent once, with the link as its anchor target. */
  lemma RepeatedPostScenario()
    ensures var r := RawResult(Some("https://threads.net/post/123"), Some("中壢接睫毛心得"), Some("分享我的經驗"));
            var run := RunRadar(Config([], Some("t"), Some("c")),
                                ["中壢接睫毛 site:threads.net", "桃園接睫毛 site:threads.net"], [Ok([r]), Ok([r])]);
            run.count == 1 && |run.outbox| == 1 && run.notes[0].link == "https://threads.net/post/123"
  {
  }

  /** Every hit was returned by one of the run's queries. */
  lemma {:induction false} HitQueriesAreQueries(queries: seq<string>, outcomes: seq<SearchOutcome>)
    requires |queries| == |outcomes|
    ensures forall i :: 0 <= i < |Hits(queries, outcomes)| ==> Hits(queries, outcomes)[i].query in queries
    decreases |queries|
  {
    if |queries| > 0 {
      HitQueriesAreQueries(queries[1..], outcomes[1..]);
      var head := OutcomeHits(queries[0], outcomes[0]);
      var hs := Hits(queries, outcomes);
      forall i | 0 <= i < |hs|
        ensures hs[i].query in queries
      {
        if i < |head| {
          assert hs[i] == head[i];
        } else {
          assert hs[i] == Hits(queries[1..], outcomes[1..])[i - |head|];
        }
      }
    }
  }

  /** The hashtags the program can show: each location joined with each
      service, and the three high-intent phrases. */
  function ProgramLabels(): (labels: set<string>)
    ensures forall k :: 0 <= k < |HIGH_INTENT_PHRASES| ==> HIGH_INTENT_PHRASES[k] in labels
  {
    (set i, j | 0 <= i < |LOCATIONS| && 0 <= j < |SERVICES| :: LOCATIONS[i] + SERVICES[j])
      + (set k | 0 <= k < |HIGH_INTENT_PHRASES| :: HIGH_INTENT_PHRASES[k])
  }

  /** The keyword shown for each of the program's own queries is one of
      its labels. */
  lemma ProgramQueryLabelled(p: nat)
    requires p < |KEYWORDS|
    ensures CleanKeyword(KEYWORDS[p]) in ProgramLabels()
  {
    KeywordsShape();
    if p < 15 {
      var i, j := p / 5, p % 5;
      assert p == 5 * i + j;
      GeneratedKeywordLabels();
      assert CleanKeyword(KEYWORDS[5 * i + j]) == LOCATIONS[i] + SERVICES[j];
    } else {
      HighIntentLabels();
      assert KEYWORDS[p] == HIGH_INTENT[p - 15];
    }
  }

  /** Every message of a run is tagged with one of its queries, with the
      site restriction taken out. */
  lemma NotesTaggedByQueries(cfg: Config, queries: seq<string>, outcomes: seq<SearchOutcome>)
    requires |queries| == |outcomes|
    ensures var notes := RunRadar(cfg, queries, outcomes).notes;
            forall k :: 0 <= k < |notes| ==> exists p :: 0 <= p < |queries| && notes[k].keyword == CleanKeyword(queries[p])
  {
    var hs := Hits(queries, outcomes);
    var notes := RunRadar(cfg, queries, outcomes).notes;
    NotifiedOnlyIfClean(cfg, queries, outcomes);
    HitQueriesAreQueries(queries, outcomes);
    forall k | 0 <= k < |notes|
      ensures exists p :: 0 <= p < |queries| && notes[k].keyword == CleanKeyword(queries[p])
    {
      assert FromCleanFirstSighting(cfg, hs, notes[k]);
      var i :| 0 <= i < |hs| && FirstSighting(hs, i) && Clean(cfg.blockWords, hs[i].result) && notes[k] == ComposeHit(hs[i]);
      assert hs[i].query in queries;
      var p :| 0 <= p < |queries| && queries[p] == hs[i].query;
    }
  }

  /** The program's own run, with its block list and its 18 queries:
      no link is notified twice, and every message is tagged with one of
      the program's labels, never with the site restriction. */
  lemma ProgramRun(token: Option<string>, chatId: Option<string>, outcomes: seq<SearchOutcome>)
    requires |outcomes| == |KEYWORDS|
    ensures var notes := RunRadar(DefaultConfig(token, chatId), KEYWORDS, outcomes).notes;
            && (forall a, b :: 0 <= a < b < |notes| ==> notes[a].link != notes[b].link)
            && (forall k :: 0 <= k < |notes| ==> notes[k].keyword in ProgramLabels())
  {
    var cfg := DefaultConfig(token, chatId);
    var notes := RunRadar(cfg, KEYWORDS, outcomes).notes;
    NoLinkNotifiedTwice(cfg, KEYWORDS, outcomes);
    NotesTaggedByQueries(cfg, KEYWORDS, outcomes);
    forall k | 0 <= k < |notes|
      ensures notes[k].keyword in ProgramLabels()
    {
      var p :| 0 <= p < |KEYWORDS| && notes[k].keyword == CleanKeyword(KEYWORDS[p]);
      ProgramQueryLabelled(p);
    }
  }
}
