/** `search_info`: the request it sends to the search service and the text it
    makes of the reply. The HTTP call itself is outside the model; its reply
    (or the exception it raised) is an input. */
module Search {
  import opened Wrappers
  import opened Text

  /** A JSON member of a hit: missing, `null`, or a value. */
  datatype Field<T> = Absent | Null | Present(value: T)

  /** One entry of the reply's `results` list. */
  datatype Hit = Hit(content: Field<string>, url: Field<string>)

  /** What `requests.post(...).json()` gave: an exception (network error,
      bad JSON, a reply that is not an object), or a JSON object whose
      `results` member is given. */
  datatype Reply = Raised(error: string) | Body(results: Field<seq<Hit>>)

  /** The JSON payload of the search request. */
  datatype Payload = Payload(
    apiKey: Option<string>,
    query: string,
    searchDepth: string,
    includeAnswer: bool,
    days: int,
    maxResults: int,
    includeDomains: Option<seq<string>>)

  const DefaultDays: int := 7
  const DefaultMaxResults: int := 15

  /** The payload `search_info` builds: fixed depth, no answer, and a domain
      list only when the caller gave a non-empty one (`if include_domains:`). */
  function MakePayload(apiKey: Option<string>, query: string, days: int, maxResults: int,
                       includeDomains: Option<seq<string>>): (p: Payload)
    ensures p.apiKey == apiKey && p.query == query && p.days == days && p.maxResults == maxResults
    ensures p.searchDepth == "advanced" && !p.includeAnswer
    ensures p.includeDomains.Some? <==> includeDomains.Some? && includeDomains.value != []
    ensures p.includeDomains.Some? ==> p.includeDomains == includeDomains
  {
    var domains := if includeDomains.Some? && includeDomains.value != [] then includeDomains else None;
    Payload(apiKey, query, "advanced", false, days, maxResults, domains)
  }

  const NoResults: string := "暂无直接搜索结果。"
  const FailurePrefix: string := "搜索失败: "
  const NoSource: string := "无来源链接"
  const RecordHead: string := "【内容】: "
  const RecordMiddle: string := " \n【来源】: "
  /** `str(None)`, which the f-string prints for a `null` url. */
  const NoneText: string := "None"
  /** `str(e)` for `None.replace(...)` and for iterating over `None`. */
  const NoneReplaceError: string := "'NoneType' object has no attribute 'replace'"
  const NoneIterError: string := "'NoneType' object is not iterable"

  /** `result.get('content', '').replace('\n', ' ')` for a content that is not `null`. */
  function ContentText(f: Field<string>): string
    requires !f.Null?
  {
    if f.Present? then Replace(f.value, "\n", " ") else ""
  }

  /** `result.get('url', '无来源链接')` as the f-string prints it. */
  function UrlText(f: Field<string>): string {
    match f
    case Absent => NoSource
    case Null => NoneText
    case Present(u) => u
  }

  /** The record one hit becomes. */
  function Record(h: Hit): string
    requires !h.content.Null?
  {
    RecordHead + ContentText(h.content) + RecordMiddle + UrlText(h.url) + "\n"
  }

  /** Some hit has a `null` content, on which `.replace` raises. */
  predicate HasNullContent(hits: seq<Hit>) {
    exists i :: 0 <= i < |hits| && hits[i].content.Null?
  }

  function Records(hits: seq<Hit>): (r: seq<string>)
    requires !HasNullContent(hits)
    ensures |r| == |hits|
    ensures forall i :: 0 <= i < |hits| ==> r[i] == Record(hits[i])
  {
    seq(|hits|, i requires 0 <= i < |hits| => Record(hits[i]))
  }

  /** What `search_info` returns for a reply. */
  function SearchText(reply: Reply): string {
    match reply
    case Raised(e) => FailurePrefix + e
    case Body(Null) => FailurePrefix + NoneIterError
    case Body(Absent) => NoResults
    case Body(Present(hits)) =>
      if HasNullContent(hits) then FailurePrefix + NoneReplaceError
      else if hits == [] then NoResults
      else Join(Records(hits), "\n")
  }

  /** The loop of `search_info`: one record appended per hit, then the records
      joined by newlines, the empty-result sentinel, or the failure text. */
  method SearchInfo(reply: Reply) returns (text: string)
    ensures text == SearchText(reply)
  {
    if reply.Raised? {
      return FailurePrefix + reply.error;
    }
    if reply.results.Null? {
      return FailurePrefix + NoneIterError;
    }
    var hits := if reply.results.Present? then reply.results.value else [];
    var records: seq<string> := [];
    for i := 0 to |hits|
      invariant !HasNullContent(hits[..i])
      invariant records == Records(hits[..i])
    {
      var hit := hits[i];
      if hit.content.Null? {
        return FailurePrefix + NoneReplaceError;
      }
      var content := if hit.content.Present? then Replace(hit.content.value, "\n", " ") else "";
      var source := match hit.url
        case Absent => NoSource
        case Null => NoneText
        case Present(u) => u;
      records := records + [RecordHead + content + RecordMiddle + source + "\n"];
      assert hits[..i + 1] == hits[..i] + [hit];
    }
    assert hits[..|hits|] == hits;
    text := if records != [] then Join(records, "\n") else NoResults;
  }

  /** The three kinds of outcome of a search. */
  predicate Failed(reply: Reply) {
    reply.Raised? || reply.results.Null? || (reply.results.Present? && HasNullContent(reply.results.value))
  }

  predicate Empty(reply: Reply) {
    reply.Body? && (reply.results.Absent? || reply.results == Present([]))
  }

  /** The text tells the three outcomes apart: it is the sentinel exactly when
      there was nothing (no `results` member or an empty list), it starts with
      the failure prefix exactly when the call or the formatting raised, and it
      starts with a record otherwise. */
  lemma SearchTextClassified(reply: Reply)
    ensures SearchText(reply) == NoResults <==> Empty(reply)
    ensures FailurePrefix <= SearchText(reply) <==> Failed(reply)
    ensures RecordHead <= SearchText(reply) <==> !Empty(reply) && !Failed(reply)
  {
    var t := SearchText(reply);
    assert NoResults[0] != FailurePrefix[0] && NoResults[0] != RecordHead[0];
    assert FailurePrefix[0] != RecordHead[0];
    if !Empty(reply) && !Failed(reply) {
      var hits := reply.results.value;
      JoinStartsWithFirst(Records(hits), "\n");
      assert Records(hits)[0][0] == RecordHead[0];
      assert t[0] == RecordHead[0];
      assert RecordHead <= t;
    }
  }

  /** A successful search with hits yields one record per hit, in hit order,
      joined by newlines; each record shows the hit's content on one line with
      every newline turned into a space and nothing else changed, and the
      hit's url, or the placeholder when the hit has none. */
  lemma RecordsOfHits(hits: seq<Hit>)
    requires hits != [] && !HasNullContent(hits)
    ensures SearchText(Body(Present(hits))) == Join(Records(hits), "\n")
    ensures forall i :: 0 <= i < |hits| ==>
              var c := ContentText(hits[i].content);
              && Records(hits)[i] == RecordHead + c + RecordMiddle + UrlText(hits[i].url) + "\n"
              && '\n' !in c
              && (hits[i].content.Present? ==>
                    |c| == |hits[i].content.value|
                    && forall k :: 0 <= k < |c| ==>
                         c[k] == if hits[i].content.value[k] == '\n' then ' ' else hits[i].content.value[k])
              && (hits[i].url.Absent? ==> Records(hits)[i] == RecordHead + c + RecordMiddle + NoSource + "\n")
  {
    forall i | 0 <= i < |hits|
      ensures var c := ContentText(hits[i].content);
              && '\n' !in c
              && (hits[i].content.Present? ==>
                    |c| == |hits[i].content.value|
                    && forall k :: 0 <= k < |c| ==>
                         c[k] == if hits[i].content.value[k] == '\n' then ' ' else hits[i].content.value[k])
    {
      if hits[i].content.Present? {
        var v := hits[i].content.value;
        ReplaceChar(v, '\n', ' ');
        assert "\n" == ['\n'] && " " == [' '];
        var c := ContentText(hits[i].content);
        assert forall k :: 0 <= k < |c| ==> c[k] != '\n';
      }
    }
  }
}
