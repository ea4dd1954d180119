/** The `__main__` block: the fixed plan of searches, the material built from
    their texts, one briefing, one mail. The search, chat and mail services
    are input functions; the search service is told the number of the call
    so that each call may answer differently. */
module Pipeline {
  import opened Wrappers
  import opened Text
  import opened Config
  import opened Search
  import opened Dict
  import opened Trace
  import opened Briefing
  import opened Mail

  const CompanyQuerySuffix: string := " 签约 中标 财报 出海 布局 产能 最新动态"
  const WeihaiCompaniesQuery: string := "威海 OR 荣成 OR 文登 OR 乳山 制造业 优质产能 外贸 新质生产力 企业 出海 -旅游 -文娱"
  const WeihaiQuery: string := "威海 OR 荣成 OR 文登 OR 乳山 宏观经济 招商引资 政策 外经贸 国际产能合作 专精特新 产业集群 -旅游 -消费 -文化 -娱乐"
  const IndustryQuerySuffix: string := " 行业 市场规模 政策 发展趋势 全球 宏观 研报"
  const FinanceMacroQuery: string := "LPR 存款准备金率 美联储联邦基金利率 USD EUR JPY GBP 兑人民币 汇率 变动"
  const LocalBanksQuery: string := "威海 OR 荣成 OR 文登 OR 乳山 银行 跨境结算 国际业务 外汇便利化 对公业务 -零售金融 -个人理财"
  const MacroQuery: string := "中国宏观经济 全球局势 国际贸易 重大新闻"
  const LeaderboardQuery: string := "LLM Leaderboard Chatbot Arena Model Ranking updates"
  const TechQuery: string := "人工智能 AI大模型 机器人 新能源 全球前沿动向 最新突破"
  const LmsysDomains: seq<string> := ["lmsys.org"]
  const TechMediaDomains: seq<string> :=
    ["qbitai.com", "jiqizhixin.com", "36kr.com", "leiphone.com", "geekpark.net",
     "techcrunch.com", "venturebeat.com", "theverge.com"]
  const SubjectPrefix: string := "【威海商业情报】"

  /** The mail subject. */
  function Subject(today: Date): string
    requires ValidDate(today)
  {
    SubjectPrefix + TodayStr(today)
  }

  /** The request for one industry. */
  function IndustryPayload(apiKey: Option<string>, industry: string): Payload {
    MakePayload(apiKey, industry + IndustryQuerySuffix, DefaultDays, 10, None)
  }

  function IndustryPayloads(apiKey: Option<string>, industries: seq<string>): (r: seq<Payload>)
    ensures |r| == |industries|
    ensures forall j :: 0 <= j < |industries| ==> r[j] == IndustryPayload(apiKey, industries[j])
  {
    seq(|industries|, j requires 0 <= j < |industries| => IndustryPayload(apiKey, industries[j]))
  }

  /** The requests sent before the industry searches: the two company
      searches and the Weihai search. */
  function LeadingPlan(key: Option<string>, companies: string): seq<Payload> {
    [MakePayload(key, companies + CompanyQuerySuffix, DefaultDays, 15, None),
     MakePayload(key, WeihaiCompaniesQuery, DefaultDays, 15, None),
     MakePayload(key, WeihaiQuery, DefaultDays, 20, None)]
  }

  /** The requests sent after them: the two finance searches, the macro
      search and the two technology searches. */
  function TrailingPlan(key: Option<string>): seq<Payload> {
    [MakePayload(key, FinanceMacroQuery, DefaultDays, 10, None),
     MakePayload(key, LocalBanksQuery, DefaultDays, 10, None),
     MakePayload(key, MacroQuery, DefaultDays, DefaultMaxResults, None),
     MakePayload(key, LeaderboardQuery, DefaultDays, 5, Some(LmsysDomains)),
     MakePayload(key, TechQuery, DefaultDays, 20, Some(TechMediaDomains))]
  }

  /** Every request of a run, in the order they are sent, for the search
      key, the company string and the industry list of the configuration. */
  function Plan(key: Option<string>, companies: string, industries: seq<string>): seq<Payload> {
    LeadingPlan(key, companies) + IndustryPayloads(key, industries) + TrailingPlan(key)
  }

  /** The text `search_info` makes of the answer to each planned request. */
  function Texts(plan: seq<Payload>, search: (nat, Payload) -> Reply): (r: seq<string>)
    ensures |r| == |plan|
    ensures forall i :: 0 <= i < |plan| ==> r[i] == SearchText(search(i, plan[i]))
  {
    seq(|plan|, i requires 0 <= i < |plan| => SearchText(search(i, plan[i])))
  }

  function SearchEvents(plan: seq<Payload>): (r: seq<Event>)
    ensures |r| == |plan|
    ensures forall i :: 0 <= i < |plan| ==> r[i] == Searched(plan[i])
  {
    seq(|plan|, i requires 0 <= i < |plan| => Searched(plan[i]))
  }

  /** The six blocks of material handed to `generate_briefing`. */
  datatype Material = Material(comp: string, weihai: string, industryData: Dict,
                               finance: string, macro: string, tech: string)

  /** The material made of the texts of a run, laid out as `Plan` orders the
      requests. */
  function MaterialOf(industries: seq<string>, texts: seq<string>): Material
    requires |texts| == 8 + |industries|
  {
    var n := |industries|;
    Material(
      Composite(TargetCompaniesHeading, texts[0], WeihaiCompaniesHeading, texts[1]),
      texts[2],
      Fill(industries, texts[3..3 + n]),
      Composite(FinanceMacroHeading, texts[3 + n], LocalBanksHeading, texts[4 + n]),
      texts[5 + n],
      Composite(LeaderboardHeading, texts[6 + n], OtherTechHeading, texts[7 + n]))
  }

  /** The prompt of a run whose searches produced `texts`. */
  function PlannedPrompt(t: Template, today: string, companies: string, industries: seq<string>,
                         texts: seq<string>): string
    requires |texts| == 8 + |industries|
  {
    var m := MaterialOf(industries, texts);
    Prompt(t, today, companies, m.comp, m.weihai,
           IndustryContextOf(m.industryData), m.finance, m.macro, m.tech)
  }

  /** The texts of the industry searches, numbered from `start`. */
  function IndustryTexts(apiKey: Option<string>, industries: seq<string>, start: nat,
                         search: (nat, Payload) -> Reply): (r: seq<string>)
    ensures |r| == |industries|
    ensures forall j :: 0 <= j < |industries| ==>
              r[j] == SearchText(search(start + j, IndustryPayload(apiKey, industries[j])))
  {
    seq(|industries|, j requires 0 <= j < |industries| =>
          SearchText(search(start + j, IndustryPayload(apiKey, industries[j]))))
  }

  /** The `industry_data` loop: one search per listed industry, in list
      order, each text assigned to its industry's key. */
  method CollectIndustries(apiKey: Option<string>, industries: seq<string>, start: nat,
                           search: (nat, Payload) -> Reply)
    returns (data: Dict, events: seq<Event>)
    ensures data == Fill(industries, IndustryTexts(apiKey, industries, start, search))
    ensures events == SearchEvents(IndustryPayloads(apiKey, industries))
  {
    data := [];
    events := [];
    for j := 0 to |industries|
      invariant data == Fill(industries[..j], IndustryTexts(apiKey, industries[..j], start, search))
      invariant events == SearchEvents(IndustryPayloads(apiKey, industries[..j]))
    {
      var industry := industries[j];
      var payload := IndustryPayload(apiKey, industry);
      var text := SearchInfo(search(start + j, payload));
      IndustryStep(apiKey, industries, start, search, j);
      IndustrySearchStep(apiKey, industries, j);
      data := Put(data, industry, text);
      events := events + [Searched(payload)];
    }
    assert industries[..|industries|] == industries;
  }

  /** One more industry assigns its text to its key last. */
  lemma IndustryStep(apiKey: Option<string>, industries: seq<string>, start: nat,
                     search: (nat, Payload) -> Reply, j: nat)
    requires j < |industries|
    ensures Fill(industries[..j + 1], IndustryTexts(apiKey, industries[..j + 1], start, search))
            == Put(Fill(industries[..j], IndustryTexts(apiKey, industries[..j], start, search)),
                   industries[j], SearchText(search(start + j, IndustryPayload(apiKey, industries[j]))))
  {
    var vs := IndustryTexts(apiKey, industries[..j + 1], start, search);
    assert vs[..j] == IndustryTexts(apiKey, industries[..j], start, search);
    FillStep(industries, vs, j);
  }

  /** One more industry sends one more request. */
  lemma IndustrySearchStep(apiKey: Option<string>, industries: seq<string>, j: nat)
    requires j < |industries|
    ensures SearchEvents(IndustryPayloads(apiKey, industries[..j + 1]))
            == SearchEvents(IndustryPayloads(apiKey, industries[..j])) + [Searched(IndustryPayload(apiKey, industries[j]))]
  {
    assert IndustryPayloads(apiKey, industries[..j + 1])
           == IndustryPayloads(apiKey, industries[..j]) + [IndustryPayload(apiKey, industries[j])];
  }

  lemma SearchEventsAppend(a: seq<Payload>, b: seq<Payload>)
    ensures SearchEvents(a + b) == SearchEvents(a) + SearchEvents(b)
  {
  }

  lemma SearchEventsOfThree(p0: Payload, p1: Payload, p2: Payload)
    ensures SearchEvents([p0, p1, p2]) == [Searched(p0), Searched(p1), Searched(p2)]
  {
  }

  lemma SearchEventsOfFive(p0: Payload, p1: Payload, p2: Payload, p3: Payload, p4: Payload)
    ensures SearchEvents([p0, p1, p2, p3, p4])
            == [Searched(p0), Searched(p1), Searched(p2), Searched(p3), Searched(p4)]
  {
  }

  /** Where each text of a run sits among the texts of the plan. */
  lemma TextsLayout(key: Option<string>, companies: string, industries: seq<string>,
                    search: (nat, Payload) -> Reply)
    ensures var n := |industries|;
            var texts := Texts(Plan(key, companies, industries), search);
            && |texts| == 8 + n
            && (forall i :: 0 <= i < 3 ==> texts[i] == SearchText(search(i, LeadingPlan(key, companies)[i])))
            && texts[3..3 + n] == IndustryTexts(key, industries, 3, search)
            && (forall k :: 0 <= k < 5 ==> texts[3 + n + k] == SearchText(search(3 + n + k, TrailingPlan(key)[k])))
  {
    var leading, middle, trailing := LeadingPlan(key, companies), IndustryPayloads(key, industries), TrailingPlan(key);
    assert Plan(key, companies, industries) == leading + middle + trailing;
    TextsOfParts(leading, middle, trailing, search);
    assert Texts(leading + middle + trailing, search)[|leading|..|leading| + |middle|]
           == IndustryTexts(key, industries, 3, search);
  }

  /** The texts of a plan in three parts: each part's text is numbered by
      its place in the whole plan. */
  lemma TextsOfParts(a: seq<Payload>, b: seq<Payload>, c: seq<Payload>, search: (nat, Payload) -> Reply)
    ensures var texts := Texts(a + b + c, search);
            && (forall i :: 0 <= i < |a| ==> texts[i] == SearchText(search(i, a[i])))
            && (forall j :: 0 <= j < |b| ==> texts[|a| + j] == SearchText(search(|a| + j, b[j])))
            && (forall k :: 0 <= k < |c| ==> texts[|a| + |b| + k] == SearchText(search(|a| + |b| + k, c[k])))
  {
    var plan := a + b + c;
    forall i | 0 <= i < |a| ensures plan[i] == a[i] {}
    forall j | 0 <= j < |b| ensures plan[|a| + j] == b[j] {}
    forall k | 0 <= k < |c| ensures plan[|a| + |b| + k] == c[k] {}
  }

  /** The searches of `__main__`, from the company searches to the technology
      searches, and the six blocks of material made of their texts. */
  method GatherMaterial(key: Option<string>, companies: string, industries: seq<string>,
                        search: (nat, Payload) -> Reply)
    returns (m: Material, events: seq<Event>)
    ensures |Plan(key, companies, industries)| == 8 + |industries|
    ensures m == MaterialOf(industries, Texts(Plan(key, companies, industries), search))
    ensures events == SearchEvents(Plan(key, companies, industries))
  {
    var n := |industries|;
    var p0 := MakePayload(key, companies + CompanyQuerySuffix, DefaultDays, 15, None);
    var compTarget := SearchInfo(search(0, p0));
    var p1 := MakePayload(key, WeihaiCompaniesQuery, DefaultDays, 15, None);
    var compWeihai := SearchInfo(search(1, p1));
    var comp := Composite(TargetCompaniesHeading, compTarget, WeihaiCompaniesHeading, compWeihai);
    var p2 := MakePayload(key, WeihaiQuery, DefaultDays, 20, None);
    var weihai := SearchInfo(search(2, p2));
    var industryData, industryEvents := CollectIndustries(key, industries, 3, search);
    var p3 := MakePayload(key, FinanceMacroQuery, DefaultDays, 10, None);
    var financeMacro := SearchInfo(search(3 + n, p3));
    var p4 := MakePayload(key, LocalBanksQuery, DefaultDays, 10, None);
    var banks := SearchInfo(search(4 + n, p4));
    var finance := Composite(FinanceMacroHeading, financeMacro, LocalBanksHeading, banks);
    var p5 := MakePayload(key, MacroQuery, DefaultDays, DefaultMaxResults, None);
    var macro := SearchInfo(search(5 + n, p5));
    var p6 := MakePayload(key, LeaderboardQuery, DefaultDays, 5, Some(LmsysDomains));
    var leaderboard := SearchInfo(search(6 + n, p6));
    var p7 := MakePayload(key, TechQuery, DefaultDays, 20, Some(TechMediaDomains));
    var techGeneral := SearchInfo(search(7 + n, p7));
    var tech := Composite(LeaderboardHeading, leaderboard, OtherTechHeading, techGeneral);

    m := Material(comp, weihai, industryData, finance, macro, tech);
    events := [Searched(p0), Searched(p1), Searched(p2)] + industryEvents
              + [Searched(p3), Searched(p4), Searched(p5), Searched(p6), Searched(p7)];

    ghost var leading, trailing := [p0, p1, p2], [p3, p4, p5, p6, p7];
    assert leading == LeadingPlan(key, companies);
    assert trailing == TrailingPlan(key);
    SearchEventsAppend(leading, IndustryPayloads(key, industries));
    SearchEventsAppend(leading + IndustryPayloads(key, industries), trailing);
    SearchEventsOfThree(p0, p1, p2);
    SearchEventsOfFive(p3, p4, p5, p6, p7);
    TextsLayout(key, companies, industries, search);
  }

  /** The plan sends `8 + n` requests for `n` industries, all with the
      configured key, a seven-day window, the advanced depth and no answer;
      the first asks about the configured companies, each industry's request
      about that industry; only the two technology searches are restricted
      to domains. */
  lemma PlanShape(key: Option<string>, companies: string, industries: seq<string>)
    ensures var plan, n := Plan(key, companies, industries), |industries|;
            && |plan| == 8 + n
            && (forall i :: 0 <= i < |plan| ==>
                  && plan[i].apiKey == key && plan[i].days == DefaultDays
                  && plan[i].searchDepth == "advanced" && !plan[i].includeAnswer
                  && (plan[i].includeDomains.Some? <==> i >= 6 + n))
            && plan[0].query == companies + CompanyQuerySuffix
            && (forall j :: 0 <= j < n ==>
                  plan[3 + j].query == industries[j] + IndustryQuerySuffix && plan[3 + j].maxResults == 10)
            && plan[6 + n].includeDomains == Some(LmsysDomains)
            && plan[7 + n].includeDomains == Some(TechMediaDomains)
  {
    var plan, n := Plan(key, companies, industries), |industries|;
    forall i | 0 <= i < |plan|
      ensures && plan[i].apiKey == key && plan[i].days == DefaultDays
              && plan[i].searchDepth == "advanced" && !plan[i].includeAnswer
              && (plan[i].includeDomains.Some? <==> i >= 6 + n)
    {
      if i < 3 {
        assert plan[i] == LeadingPlan(key, companies)[i];
      } else if i < 3 + n {
        assert plan[i] == IndustryPayloads(key, industries)[i - 3];
      } else {
        assert plan[i] == TrailingPlan(key)[i - 3 - n];
      }
    }
    forall j | 0 <= j < n ensures plan[3 + j] == IndustryPayload(key, industries[j]) {
      assert plan[3 + j] == IndustryPayloads(key, industries)[j];
    }
    assert plan[6 + n] == TrailingPlan(key)[3];
    assert plan[7 + n] == TrailingPlan(key)[4];
  }

  /** The prompt holds the date, the company string, and every category
      search text directly under its heading. */
  lemma PromptHasCategoryResults(t: Template, today: string, companies: string, industries: seq<string>,
                                 texts: seq<string>)
    requires |texts| == 8 + |industries|
    ensures var p, n := PlannedPrompt(t, today, companies, industries, texts), |industries|;
            && Contains(p, today) && Contains(p, companies)
            && Contains(p, TargetCompaniesHeading + "\n" + texts[0])
            && Contains(p, WeihaiCompaniesHeading + "\n" + texts[1])
            && Contains(p, texts[2])
            && Contains(p, FinanceMacroHeading + "\n" + texts[3 + n])
            && Contains(p, LocalBanksHeading + "\n" + texts[4 + n])
            && Contains(p, texts[5 + n])
            && Contains(p, LeaderboardHeading + "\n" + texts[6 + n])
            && Contains(p, OtherTechHeading + "\n" + texts[7 + n])
  {
    var p, n := PlannedPrompt(t, today, companies, industries, texts), |industries|;
    var m := MaterialOf(industries, texts);
    PromptHasMaterial(t, today, companies, m.comp, m.weihai,
                      IndustryContextOf(m.industryData), m.finance, m.macro, m.tech);
    CompositeParts(TargetCompaniesHeading, texts[0], WeihaiCompaniesHeading, texts[1]);
    CompositeParts(FinanceMacroHeading, texts[3 + n], LocalBanksHeading, texts[4 + n]);
    CompositeParts(LeaderboardHeading, texts[6 + n], OtherTechHeading, texts[7 + n]);
    ContainsTrans(p, m.comp, TargetCompaniesHeading + "\n" + texts[0]);
    ContainsTrans(p, m.comp, WeihaiCompaniesHeading + "\n" + texts[1]);
    ContainsTrans(p, m.finance, FinanceMacroHeading + "\n" + texts[3 + n]);
    ContainsTrans(p, m.finance, LocalBanksHeading + "\n" + texts[4 + n]);
    ContainsTrans(p, m.tech, LeaderboardHeading + "\n" + texts[6 + n]);
    ContainsTrans(p, m.tech, OtherTechHeading + "\n" + texts[7 + n]);
  }

  /** The industry dict of a run has one entry per distinct industry, in
      the order of first mention, and an industry holds the text of its last
      search: the text of an earlier search for a repeated industry is
      replaced. */
  lemma IndustryDataOfRun(industries: seq<string>, texts: seq<string>)
    requires |texts| == 8 + |industries|
    ensures var data := MaterialOf(industries, texts).industryData;
            && Keys(data) == Dedup(industries)
            && DistinctKeys(data)
            && forall j :: 0 <= j < |industries| && industries[j] !in industries[j + 1..] ==>
                 Lookup(data, industries[j]) == Some(texts[3 + j])
  {
    var itexts := texts[3..3 + |industries|];
    var data := Fill(industries, itexts);
    assert MaterialOf(industries, texts).industryData == data;
    assert Keys(data) == Dedup(industries) && DistinctKeys(data) by {
      FillKeys(industries, itexts);
    }
    forall j | 0 <= j < |industries| && industries[j] !in industries[j + 1..]
      ensures Lookup(data, industries[j]) == Some(texts[3 + j])
    {
      FillLastWins(industries, itexts, j);
    }
  }

  /** Each industry's block, its heading line followed by the text of its
      last search, appears verbatim in the prompt. */
  lemma PromptHasIndustryResults(t: Template, today: string, companies: string, industries: seq<string>,
                                 texts: seq<string>)
    requires |texts| == 8 + |industries|
    ensures forall j :: 0 <= j < |industries| && industries[j] !in industries[j + 1..] ==>
              Contains(PlannedPrompt(t, today, companies, industries, texts), IndustryBlock(industries[j], texts[3 + j]))
  {
    forall j | 0 <= j < |industries| && industries[j] !in industries[j + 1..]
      ensures Contains(PlannedPrompt(t, today, companies, industries, texts), IndustryBlock(industries[j], texts[3 + j]))
    {
      IndustryBlockInPrompt(t, today, companies, industries, texts, j);
    }
  }

  lemma IndustryBlockInPrompt(t: Template, today: string, companies: string, industries: seq<string>,
                              texts: seq<string>, j: nat)
    requires |texts| == 8 + |industries|
    requires j < |industries| && industries[j] !in industries[j + 1..]
    ensures Contains(PlannedPrompt(t, today, companies, industries, texts), IndustryBlock(industries[j], texts[3 + j]))
  {
    var m := MaterialOf(industries, texts);
    var itexts := texts[3..3 + |industries|];
    var data := m.industryData;
    var context := IndustryContextOf(data);
    assert data == Fill(industries, itexts);
    FillLastWins(industries, itexts, j);
    var i := LookupEntry(data, industries[j]);
    IndustryContextHasEveryBlock(data);
    assert Contains(context, IndustryBlock(data[i].0, data[i].1));
    PromptHasMaterial(t, today, companies, m.comp, m.weihai, context, m.finance, m.macro, m.tech);
    ContainsTrans(PlannedPrompt(t, today, companies, industries, texts), context,
                  IndustryBlock(industries[j], texts[3 + j]));
  }

  /** The order of a run's events: the searches of the plan first, then the
      Gemini throttle exactly when that backend is used, then the single chat
      call; after it come only mail connections and the retry pause. */
  predicate InOrder(plan: seq<Payload>, gemini: bool, events: seq<Event>) {
    var chatAt := |plan| + (if gemini then 1 else 0);
    && chatAt < |events|
    && (forall i :: 0 <= i < |events| ==> (events[i].Searched? <==> i < |plan|))
    && (forall i :: 0 <= i < |events| ==> (events[i] == Paused(GeminiThrottle) <==> gemini && i == |plan|))
    && (forall i :: 0 <= i < |events| ==> (events[i].Chatted? <==> i == chatAt))
    && (forall i :: chatAt < i < |events| ==>
          events[i].SmtpConnected? || events[i] == Paused(Seconds(RetryPauseSeconds)))
  }

  /** The events of `generate_briefing`: the throttle when the backend is
      Gemini, then the chat call. */
  function ChatEvents(gemini: bool, model: Option<string>, prompt: string): seq<Event> {
    (if gemini then [Paused(GeminiThrottle)] else []) + [Chatted(model, prompt)]
  }

  /** A run's events are in that order whatever the mail transport did. */
  lemma EventOrder(plan: seq<Payload>, gemini: bool, model: Option<string>, prompt: string,
                   mailed: seq<Event>, events: seq<Event>)
    requires forall i :: 0 <= i < |mailed| ==> mailed[i].SmtpConnected? || mailed[i] == Paused(Seconds(RetryPauseSeconds))
    requires events == SearchEvents(plan) + ChatEvents(gemini, model, prompt) + mailed
    ensures InOrder(plan, gemini, events)
  {
    var before := SearchEvents(plan) + ChatEvents(gemini, model, prompt);
    if gemini {
      assert events[|plan|] == Paused(GeminiThrottle);
    }
    forall i | 0 <= i < |events|
      ensures events[i] != Paused(GeminiThrottle) || (gemini && i == |plan|)
    {
      if i >= |before| {
        assert events[i] == mailed[i - |before|];
      }
    }
    forall i | |before| <= i < |events|
      ensures events[i].SmtpConnected? || events[i] == Paused(Seconds(RetryPauseSeconds))
    {
      assert events[i] == mailed[i - |before|];
    }
  }

  /** The steps of `__main__` after the configuration is read: the searches
      of the plan, in order; then the briefing of the prompt built from their
      texts, with the Gemini throttle exactly when that backend is chosen;
      then `send_email`. */
  method Brief(key: Option<string>, companies: string, industries: seq<string>, backend: Backend,
               today: string, t: Template, sender: Option<string>, password: Option<string>,
               receivers: Option<string>, subject: string, search: (nat, Payload) -> Reply,
               chat: (Option<string>, string) -> ChatOutcome, smtp: (nat, Message) -> Attempt)
    returns (prompt: string, briefing: Option<string>, delivery: Delivery, copies: nat, events: seq<Event>)
    ensures var plan := Plan(key, companies, industries);
            var before := SearchEvents(plan) + ChatEvents(backend.gemini, backend.model, prompt);
            && |plan| == 8 + |industries|
            && prompt == PlannedPrompt(t, today, companies, industries, Texts(plan, search))
            && briefing == BriefingOf(chat(backend.model, prompt))
            && |before| <= |events| && events[..|before|] == before
            && Delivers(sender, password, receivers, subject, briefing, smtp, delivery, events[|before|..], copies)
            && InOrder(plan, backend.gemini, events)
  {
    var m, searched := GatherMaterial(key, companies, industries, search);
    var generated;
    briefing, prompt, generated := GenerateBriefing(t, today, companies, backend.gemini, backend.model,
                                                    m.comp, m.weihai, m.industryData,
                                                    m.finance, m.macro, m.tech, chat);
    var mailed;
    delivery, mailed, copies := SendEmail(sender, password, receivers, subject, briefing, smtp);
    events := searched + generated + mailed;
    ghost var before := searched + generated;
    assert generated == ChatEvents(backend.gemini, backend.model, prompt);
    assert events[..|before|] == before;
    assert events[|before|..] == mailed;
    MailSteps(sender, password, receivers, subject, briefing, smtp, delivery, mailed, copies);
    EventOrder(Plan(key, companies, industries), backend.gemini, backend.model, prompt, mailed, events);
  }

  /** A failed chat call still reaches the recipients: what is handed to the
      transport starts with the failure text, which fence stripping keeps. */
  lemma ChatFailureIsMailed(sender: string, receivers: Option<string>, subject: string, outcome: ChatOutcome)
    requires outcome.ChatRaised?
    ensures BriefingOf(outcome).Some?
    ensures GenerationFailurePrefix <= EmailMessage(sender, receivers, subject, BriefingOf(outcome).value).body
  {
    var e := outcome.error;
    assert '`' !in GenerationFailurePrefix;
    assert HtmlFence[0] == '`' && Fence[0] == '`';
    ReplaceKeepsPrefix(GenerationFailurePrefix, e, HtmlFence, "");
    ReplaceKeepsPrefix(GenerationFailurePrefix, Replace(e, HtmlFence, ""), Fence, "");
  }

  /** `__main__`. */
  method Run(env: Env, today: Date, t: Template, search: (nat, Payload) -> Reply,
             chat: (Option<string>, string) -> ChatOutcome, smtp: (nat, Message) -> Attempt)
    returns (prompt: string, briefing: Option<string>, delivery: Delivery, copies: nat, events: seq<Event>)
    requires ValidDate(today)
    ensures var companies, industries := TargetCompanies(env), IndustryList(env);
            var plan := Plan(env.searchApiKey, companies, industries);
            var gemini, model := !Truthy(env.customApiKey), SelectBackend(env).model;
            var before := SearchEvents(plan) + ChatEvents(gemini, model, prompt);
            && |plan| == 8 + |industries|
            && prompt == PlannedPrompt(t, TodayStr(today), companies, industries, Texts(plan, search))
            && (gemini ==> model.Some?)
            && briefing == BriefingOf(chat(model, prompt))
            && |before| <= |events| && events[..|before|] == before
            && Delivers(env.emailSender, env.emailPassword, env.emailReceivers, Subject(today),
                        briefing, smtp, delivery, events[|before|..], copies)
            && InOrder(plan, gemini, events)
  {
    BackendChoice(env);
    prompt, briefing, delivery, copies, events :=
      Brief(env.searchApiKey, TargetCompanies(env), IndustryList(env), SelectBackend(env), TodayStr(today), t,
            env.emailSender, env.emailPassword, env.emailReceivers, SubjectPrefix + TodayStr(today),
            search, chat, smtp);
  }
}
