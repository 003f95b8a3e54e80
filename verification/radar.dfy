/** One run of the lead radar: for each query in order, take the search
    results, skip links already seen in this run, drop results that
    mention a block word, and send a Telegram message for each of the
    rest. The search backend is an input (one outcome per query) and
    the Telegram API is an outbox of the requests that would be posted. */
module Radar {
  import opened Text
  import opened Keywords

  datatype Option<T> = None | Some(value: T)

  /** A search result as the search library returns it: a record whose
      keys may be missing. */
  datatype RawResult = RawResult(href: Option<string>, title: Option<string>, body: Option<string>)

  /** What one search call produced: an error (caught by the run) or a
      list of results, possibly empty. */
  datatype SearchOutcome = Failed | Ok(results: seq<RawResult>)

  /** Words that mark advertising, courses, recruiting and other peers. */
  const BLOCK_WORDS: seq<string> := [
    "推廣", "廣告", "教學", "課程", "徵才", "徵手模",
    "工作室出租", "美睫教學", "紋繡教學"
  ]

  /** Characters of the result body shown in a message. */
  const SUMMARY_LENGTH: nat := 100

  const TELEGRAM_API: string := "https://api.telegram.org/bot"

  /** The run's settings: the block list and the Telegram credentials
      read from the environment (absent variables are `None`). */
  datatype Config = Config(blockWords: seq<string>, token: Option<string>, chatId: Option<string>)

  /** The configuration the program runs with. */
  function DefaultConfig(token: Option<string>, chatId: Option<string>): Config
  {
    Config(BLOCK_WORDS, token, chatId)
  }

  /** Both credentials are present and non-empty (Python truthiness). */
  predicate HasCredentials(cfg: Config)
  {
    cfg.token.Some? && cfg.token.value != "" && cfg.chatId.Some? && cfg.chatId.value != ""
  }

  /** The parts of one notification. */
  datatype Message = Message(keyword: string, summary: string, link: string)

  /** One `sendMessage` request to the Telegram Bot API. */
  datatype Post = Post(url: string, chatId: string, text: string, parseMode: string, disablePreview: bool)

  /** Everything a run accumulates: the links seen so far, the number of
      leads found, the messages composed, the requests posted and the
      number of sends refused for missing credentials. */
  datatype RunState = RunState(
    seen: set<string>,
    count: nat,
    notes: seq<Message>,
    outbox: seq<Post>,
    configErrors: nat)

  const Start: RunState := RunState({}, 0, [], [], 0)

  /** `dict.get(key, '')`. */
  function FieldOr(f: Option<string>): string
  {
    match f
    case Some(s) => s
    case None => ""
  }

  function LinkOf(r: RawResult): string { FieldOr(r.href) }
  function TitleOf(r: RawResult): string { FieldOr(r.title) }
  function BodyOf(r: RawResult): string { FieldOr(r.body) }

  /** The text the block list is matched against. */
  function FullText(r: RawResult): string
  {
    TitleOf(r) + " " + BodyOf(r)
  }

  /** Some block word occurs, case-sensitively, in title or body. */
  predicate Blocked(words: seq<string>, r: RawResult)
  {
    AnyContained(words, FullText(r))
  }

  /** The query with the site restriction taken out, shown as a hashtag. */
  function CleanKeyword(query: string): string
  {
    RemoveAll(query, SITE_FILTER)
  }

  /** The notification for a result found by a query. */
  function Compose(query: string, r: RawResult): (m: Message)
    ensures m.keyword == CleanKeyword(query)
    ensures m.link == LinkOf(r)
    ensures m.summary <= BodyOf(r)
    ensures |m.summary| == if |BodyOf(r)| < SUMMARY_LENGTH then |BodyOf(r)| else SUMMARY_LENGTH
  {
    Message(CleanKeyword(query), Truncate(BodyOf(r), SUMMARY_LENGTH), LinkOf(r))
  }

  const HEADER: string := "🎯 <b>Miniko 雷達響了！</b>\n關鍵字：#"
  const RULE: string := "\n------------------\n"
  const ANCHOR_OPEN: string := "...\n------------------\n🔗 <a href='"
  const ANCHOR_CLOSE: string := "'>點擊去 Threads 留言</a>"

  /** The HTML text of a notification, as sent with parse mode HTML.
      Title and body are not escaped. */
  function Render(m: Message): string
  {
    HEADER + m.keyword + RULE + m.summary + ANCHOR_OPEN + m.link + ANCHOR_CLOSE
  }

  /** The message's anchor points at the result's link. */
  lemma RenderCarriesLink(m: Message)
    ensures OccursAt(m.link, Render(m), |HEADER + m.keyword + RULE + m.summary + ANCHOR_OPEN|)
    ensures OccursAt(ANCHOR_CLOSE, Render(m), |Render(m)| - |ANCHOR_CLOSE|)
  {
    var before := HEADER + m.keyword + RULE + m.summary + ANCHOR_OPEN;
    OccursBetween(before, m.link, ANCHOR_CLOSE);
    OccursBetween(before + m.link, ANCHOR_CLOSE, "");
    assert before + m.link + ANCHOR_CLOSE + "" == Render(m);
  }

  /** The message shows the keyword right after the fixed header. */
  lemma RenderCarriesKeyword(m: Message)
    ensures HEADER <= Render(m)
    ensures OccursAt(m.keyword, Render(m), |HEADER|)
  {
    OccursBetween(HEADER, m.keyword, RULE + m.summary + ANCHOR_OPEN + m.link + ANCHOR_CLOSE);
    assert Render(m) == HEADER + m.keyword + (RULE + m.summary + ANCHOR_OPEN + m.link + ANCHOR_CLOSE);
  }

  /** The message shows the summary right after the first rule. */
  lemma RenderCarriesSummary(m: Message)
    ensures OccursAt(m.summary, Render(m), |HEADER + m.keyword + RULE|)
  {
    OccursBetween(HEADER + m.keyword + RULE, m.summary, ANCHOR_OPEN + m.link + ANCHOR_CLOSE);
    assert Render(m) == (HEADER + m.keyword + RULE) + m.summary + (ANCHOR_OPEN + m.link + ANCHOR_CLOSE);
  }

  /** The request posted for a message; only built when credentials exist. */
  function PostFor(cfg: Config, m: Message): (p: Post)
    requires HasCredentials(cfg)
    ensures p.chatId == cfg.chatId.value && p.text == Render(m)
    ensures p.url == TELEGRAM_API + cfg.token.value + "/sendMessage"
    ensures p.parseMode == "HTML" && p.disablePreview
  {
    Post(TELEGRAM_API + cfg.token.value + "/sendMessage", cfg.chatId.value, Render(m), "HTML", true)
  }

  /** `send_telegram`: without credentials it reports an error and sends
      nothing; otherwise it posts one request. Delivery failures are
      swallowed by the program and are not visible here. */
  function SendTelegram(cfg: Config, st: RunState, m: Message): (r: RunState)
    ensures r.seen == st.seen && r.count == st.count && r.notes == st.notes
    ensures HasCredentials(cfg) ==> r.outbox == st.outbox + [PostFor(cfg, m)] && r.configErrors == st.configErrors
    ensures !HasCredentials(cfg) ==> r.outbox == st.outbox && r.configErrors == st.configErrors + 1
  {
    if !HasCredentials(cfg) then st.(configErrors := st.configErrors + 1)
    else st.(outbox := st.outbox + [PostFor(cfg, m)])
  }

  /** Handling of one result of one query: the duplicate check comes first
      and marks the link as seen, the block list second; a result that
      passes both is counted, composed and sent. */
  function Visit(cfg: Config, st: RunState, query: string, r: RawResult): (st': RunState)
    ensures st'.seen == st.seen + {LinkOf(r)}
    ensures st.notes <= st'.notes && st.outbox <= st'.outbox
    ensures st'.count - st.count == |st'.notes| - |st.notes| <= |st'.seen| - |st.seen|
    ensures |st'.notes| == |st.notes| + 1 <==> LinkOf(r) !in st.seen && !Blocked(cfg.blockWords, r)
    ensures var notify := LinkOf(r) !in st.seen && !Blocked(cfg.blockWords, r);
            && st'.notes == st.notes + (if notify then [Compose(query, r)] else [])
            && st'.outbox == st.outbox + (if notify && HasCredentials(cfg) then [PostFor(cfg, Compose(query, r))] else [])
            && st'.configErrors == st.configErrors + (if notify && !HasCredentials(cfg) then 1 else 0)
  {
    var link := LinkOf(r);
    if link in st.seen then st
    else
      var marked := st.(seen := st.seen + {link});
      if Blocked(cfg.blockWords, r) then marked
      else
        var m := Compose(query, r);
        SendTelegram(cfg, marked.(count := marked.count + 1, notes := marked.notes + [m]), m)
  }

  /** The results of one query, in the order the search returned them. */
  function ScanResults(cfg: Config, st: RunState, query: string, rs: seq<RawResult>): (st': RunState)
    ensures st.seen <= st'.seen && st.notes <= st'.notes && st.outbox <= st'.outbox
    ensures st'.count - st.count == |st'.notes| - |st.notes| <= |rs|
    ensures st'.count - st.count <= |st'.seen| - |st.seen|
    decreases |rs|
  {
    if |rs| == 0 then st
    else ScanResults(cfg, Visit(cfg, st, query, rs[0]), query, rs[1..])
  }

  /** One query: a failed search is caught and leaves the state alone. */
  function ScanQuery(cfg: Config, st: RunState, query: string, outcome: SearchOutcome): (st': RunState)
    ensures outcome.Failed? ==> st' == st
    ensures st.seen <= st'.seen && st.notes <= st'.notes && st.outbox <= st'.outbox
    ensures st'.count - st.count == |st'.notes| - |st.notes| <= |st'.seen| - |st.seen|
  {
    match outcome
    case Failed => st
    case Ok(rs) => ScanResults(cfg, st, query, rs)
  }

  /** The queries in order, each with the outcome of its search. */
  function ScanAll(cfg: Config, st: RunState, queries: seq<string>, outcomes: seq<SearchOutcome>): (st': RunState)
    requires |queries| == |outcomes|
    ensures st.seen <= st'.seen && st.notes <= st'.notes && st.outbox <= st'.outbox
    ensures st'.count - st.count == |st'.notes| - |st.notes| <= |st'.seen| - |st.seen|
    decreases |queries|
  {
    if |queries| == 0 then st
    else ScanAll(cfg, ScanQuery(cfg, st, queries[0], outcomes[0]), queries[1..], outcomes[1..])
  }

  /** `run_hawk_radar` with the search results given: the final state. */
  function RunRadar(cfg: Config, queries: seq<string>, outcomes: seq<SearchOutcome>): (st: RunState)
    requires |queries| == |outcomes|
    ensures st.count == |st.notes| <= |st.seen|
  {
    ScanAll(cfg, Start, queries, outcomes)
  }
}
