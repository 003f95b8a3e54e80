/** `run_hawk_radar` as the program writes it: a loop over the queries, an
    inner loop over each query's results, a local set of seen links and a
    running count. Its invariants tie it to the fold in `Radar`, so every
    property proved of `RunRadar` holds of this loop. */
module RadarLoop {
  import opened Text
  import opened Radar
  import opened RadarFacts

  lemma {:induction false} ScanResultsSnoc(cfg: Config, st: RunState, query: string, rs: seq<RawResult>, r: RawResult)
    ensures ScanResults(cfg, st, query, rs + [r]) == Visit(cfg, ScanResults(cfg, st, query, rs), query, r)
    decreases |rs|
  {
    if |rs| == 0 {
      assert [r][1..] == [];
    } else {
      assert (rs + [r])[1..] == rs[1..] + [r];
      ScanResultsSnoc(cfg, Visit(cfg, st, query, rs[0]), query, rs[1..], r);
    }
  }

  lemma ScanAllSnoc(cfg: Config, st: RunState, queries: seq<string>, outcomes: seq<SearchOutcome>, i: nat)
    requires |queries| == |outcomes| && i < |queries|
    ensures ScanAll(cfg, st, queries[..i + 1], outcomes[..i + 1])
         == ScanQuery(cfg, ScanAll(cfg, st, queries[..i], outcomes[..i]), queries[i], outcomes[i])
  {
    assert queries[..i + 1] == queries[..i] + [queries[i]];
    assert outcomes[..i + 1] == outcomes[..i] + [outcomes[i]];
    ScanAllAppend(cfg, st, queries[..i], outcomes[..i], [queries[i]], [outcomes[i]]);
  }

  /** The inner loop of the run: the results of one query, in order. */
  method ScanResultsLoop(cfg: Config, query: string, results: seq<RawResult>,
                         seen0: set<string>, found0: nat, notes0: seq<Message>, outbox0: seq<Post>, errors0: nat)
    returns (seenLinks: set<string>, found: nat, notes: seq<Message>, outbox: seq<Post>, configErrors: nat)
    ensures RunState(seenLinks, found, notes, outbox, configErrors)
         == ScanResults(cfg, RunState(seen0, found0, notes0, outbox0, errors0), query, results)
  {
    ghost var before := RunState(seen0, found0, notes0, outbox0, errors0);
    seenLinks, found, notes, outbox, configErrors := seen0, found0, notes0, outbox0, errors0;
    var j := 0;
    while j < |results|
      invariant j <= |results|
      invariant RunState(seenLinks, found, notes, outbox, configErrors)
             == ScanResults(cfg, before, query, results[..j])
    {
      var r := results[j];
      var link := LinkOf(r);
      ScanResultsSnoc(cfg, before, query, results[..j], r);
      assert results[..j + 1] == results[..j] + [r];
      if link !in seenLinks {
        seenLinks := seenLinks + {link};
        if !AnyContained(cfg.blockWords, TitleOf(r) + " " + BodyOf(r)) {
          found := found + 1;
          var msg := Compose(query, r);
          notes := notes + [msg];
          if HasCredentials(cfg) {
            outbox := outbox + [PostFor(cfg, msg)];
          } else {
            configErrors := configErrors + 1;
          }
        }
      }
      j := j + 1;
    }
    assert results[..j] == results;
  }

  /** The run, query by query. A failed search is caught and the next
      query is scanned; the pauses between requests have no effect on the
      outcome and are not modelled. */
  method HawkRadar(cfg: Config, queries: seq<string>, outcomes: seq<SearchOutcome>)
    returns (found: nat, notes: seq<Message>, outbox: seq<Post>, configErrors: nat)
    requires |queries| == |outcomes|
    ensures var st := RunRadar(cfg, queries, outcomes);
            found == st.count && notes == st.notes && outbox == st.outbox && configErrors == st.configErrors
    ensures found == |notes|
    ensures forall a, b :: 0 <= a < b < |notes| ==> notes[a].link != notes[b].link
  {
    found := 0;
    notes := [];
    outbox := [];
    configErrors := 0;
    var seenLinks: set<string> := {};
    var i := 0;
    while i < |queries|
      invariant i <= |queries|
      invariant RunState(seenLinks, found, notes, outbox, configErrors)
             == ScanAll(cfg, Start, queries[..i], outcomes[..i])
    {
      match outcomes[i] {
        case Failed =>
        case Ok(results) =>
          seenLinks, found, notes, outbox, configErrors :=
            ScanResultsLoop(cfg, queries[i], results, seenLinks, found, notes, outbox, configErrors);
      }
      ScanAllSnoc(cfg, Start, queries, outcomes, i);
      i := i + 1;
    }
    assert queries[..i] == queries && outcomes[..i] == outcomes;
    NoLinkNotifiedTwice(cfg, queries, outcomes);
  }
}
