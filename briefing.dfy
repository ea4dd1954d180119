/** `generate_briefing` and the category blocks `__main__` hands it: the
    per-industry context, the two-part category blocks, the prompt, and the
    single chat call. The prompt's fixed instruction text is a parameter (a
    `Template`); the chat service is an input function. */
module Briefing {
  import opened Wrappers
  import opened Text
  import opened Dict
  import opened Trace

  /** One industry's part of the material: `--- 行业: X ---`, then its search text. */
  function IndustryBlock(industry: string, content: string): string {
    "--- 行业: " + industry + " ---\n" + content + "\n"
  }

  /** The blocks of the dict's entries, in dict order. */
  function IndustryBlocks(d: Dict): (r: seq<string>)
    ensures |r| == |d|
    ensures forall i :: 0 <= i < |d| ==> r[i] == IndustryBlock(d[i].0, d[i].1)
  {
    seq(|d|, i requires 0 <= i < |d| => IndustryBlock(d[i].0, d[i].1))
  }

  /** `ind_context` after the loop: the blocks concatenated in dict order. */
  function IndustryContextOf(d: Dict): string {
    Concat(IndustryBlocks(d))
  }

  /** The loop of `generate_briefing` that grows `ind_context` with `+=`. */
  method IndustryContext(d: Dict) returns (context: string)
    ensures context == IndustryContextOf(d)
  {
    context := "";
    for i := 0 to |d|
      invariant context == IndustryContextOf(d[..i])
    {
      var (industry, content) := d[i];
      var block := IndustryBlock(industry, content);
      assert IndustryBlocks(d[..i + 1]) == IndustryBlocks(d[..i]) + [block];
      ConcatAppend(IndustryBlocks(d[..i]), [block]);
      assert Concat([block]) == block;
      context := context + "--- 行业: " + industry + " ---\n" + content + "\n";
    }
    assert d[..|d|] == d;
  }

  /** The context is empty exactly when the dict is, and holds every entry's
      block: its heading line directly followed by that entry's text. */
  lemma IndustryContextHasEveryBlock(d: Dict)
    ensures IndustryContextOf(d) == "" <==> d == []
    ensures forall i :: 0 <= i < |d| ==> Contains(IndustryContextOf(d), IndustryBlock(d[i].0, d[i].1))
  {
    forall i | 0 <= i < |d|
      ensures Contains(IndustryContextOf(d), IndustryBlock(d[i].0, d[i].1))
    {
      ConcatContains(IndustryBlocks(d), i);
    }
    if d != [] {
      assert |IndustryBlocks(d)[0]| > 0;
    }
  }

  const TargetCompaniesHeading: string := "【指定目标企业】"
  const WeihaiCompaniesHeading: string := "【威海其他优质企业】"
  const FinanceMacroHeading: string := "【金融宏观数据】"
  const LocalBanksHeading: string := "【威海辖区银行业务】"
  const LeaderboardHeading: string := "【权威大模型榜单专区（来自lmsys.org）】"
  const OtherTechHeading: string := "【其他科技进展】"

  /** A category made of two searches: each result under its heading line,
      with a blank line between the two parts. */
  function Composite(heading1: string, part1: string, heading2: string, part2: string): string {
    heading1 + "\n" + part1 + "\n\n" + heading2 + "\n" + part2
  }

  /** A composite opens with its first heading line, and each heading line is
      directly followed by its own part. */
  lemma CompositeParts(heading1: string, part1: string, heading2: string, part2: string)
    ensures var c := Composite(heading1, part1, heading2, part2);
            && heading1 + "\n" <= c
            && Contains(c, heading1 + "\n" + part1)
            && Contains(c, heading2 + "\n" + part2)
  {
    var c := Composite(heading1, part1, heading2, part2);
    var first, gap, second := heading1 + "\n" + part1, "\n\n", heading2 + "\n" + part2;
    assert c == [] + first + (gap + second);
    assert c == (first + gap) + second + [];
    ContainsInfix([], first, gap + second);
    ContainsInfix(first + gap, second, []);
  }

  /** The fixed text of the prompt, cut at the places where values are
      inserted: the date, the company list, the six blocks of material, and
      the date again in the report header. */
  datatype Template = Template(
    beforeDate: string,
    beforeCompanies: string,
    beforeCompanyMaterial: string,
    beforeWeihaiMaterial: string,
    beforeIndustryMaterial: string,
    beforeFinanceMaterial: string,
    beforeMacroMaterial: string,
    beforeTechMaterial: string,
    beforeReportDate: string,
    tail: string)

  /** The pieces of the f-string prompt of `generate_briefing`, fixed text
      and inserted values alternating. */
  function PromptPieces(t: Template, today: string, companies: string, comp: string, weihai: string,
                        industry: string, finance: string, macro: string, tech: string): seq<string>
  {
    [t.beforeDate, today, t.beforeCompanies, companies,
     t.beforeCompanyMaterial, comp, t.beforeWeihaiMaterial, weihai,
     t.beforeIndustryMaterial, industry, t.beforeFinanceMaterial, finance,
     t.beforeMacroMaterial, macro, t.beforeTechMaterial, tech,
     t.beforeReportDate, today, t.tail]
  }

  /** The prompt of `generate_briefing`. */
  function Prompt(t: Template, today: string, companies: string, comp: string, weihai: string,
                  industry: string, finance: string, macro: string, tech: string): string
  {
    Concat(PromptPieces(t, today, companies, comp, weihai, industry, finance, macro, tech))
  }

  /** Every inserted value appears verbatim in the prompt, whatever the
      template says. */
  lemma PromptHasMaterial(t: Template, today: string, companies: string, comp: string, weihai: string,
                          industry: string, finance: string, macro: string, tech: string)
    ensures var p := Prompt(t, today, companies, comp, weihai, industry, finance, macro, tech);
            && Contains(p, today) && Contains(p, companies)
            && Contains(p, comp) && Contains(p, weihai) && Contains(p, industry)
            && Contains(p, finance) && Contains(p, macro) && Contains(p, tech)
  {
    var pieces := PromptPieces(t, today, companies, comp, weihai, industry, finance, macro, tech);
    forall i | 0 <= i < |pieces| ensures Contains(Concat(pieces), pieces[i]) {
      ConcatContains(pieces, i);
    }
    assert pieces[1] == today && pieces[3] == companies && pieces[5] == comp && pieces[7] == weihai;
    assert pieces[9] == industry && pieces[11] == finance && pieces[13] == macro && pieces[15] == tech;
  }

  /** The reply of the chat service: a message whose `content` may be `None`,
      or an exception. */
  datatype ChatOutcome = Replied(content: Option<string>) | ChatRaised(error: string)

  const GenerationFailurePrefix: string := "生成简报失败: "

  /** What `generate_briefing` returns for a chat outcome. */
  function BriefingOf(o: ChatOutcome): Option<string> {
    match o
    case Replied(c) => c
    case ChatRaised(e) => Some(GenerationFailurePrefix + e)
  }

  /** `generate_briefing`: build the industry context and the prompt, wait
      first when the service is Gemini, then make one chat call with the
      chosen model. */
  method GenerateBriefing(t: Template, today: string, companies: string, gemini: bool, model: Option<string>,
                          comp: string, weihai: string, industryData: Dict, finance: string,
                          macro: string, tech: string, chat: (Option<string>, string) -> ChatOutcome)
    returns (briefing: Option<string>, prompt: string, events: seq<Event>)
    ensures prompt == Prompt(t, today, companies, comp, weihai, IndustryContextOf(industryData), finance, macro, tech)
    ensures events == (if gemini then [Paused(GeminiThrottle)] else []) + [Chatted(model, prompt)]
    ensures briefing == BriefingOf(chat(model, prompt))
  {
    var context := IndustryContext(industryData);
    prompt := Prompt(t, today, companies, comp, weihai, context, finance, macro, tech);
    events := [];
    if gemini {
      events := events + [Paused(GeminiThrottle)];
    }
    var outcome := chat(model, prompt);
    events := events + [Chatted(model, prompt)];
    match outcome {
      case Replied(c) => briefing := c;
      case ChatRaised(e) => briefing := Some(GenerationFailurePrefix + e);
    }
  }
}
