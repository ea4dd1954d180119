/** What the script reads at import time: the environment variables, the
    company and industry lists derived from them, and the report date. The
    environment and today's date are inputs here. */
module Config {
  import opened Wrappers
  import opened Text

  /** The environment variables the script reads; `None` when unset. */
  datatype Env = Env(
    targetCompanies: Option<string>,
    targetIndustry: Option<string>,
    searchApiKey: Option<string>,
    geminiApiKey: Option<string>,
    geminiModel: Option<string>,
    customApiKey: Option<string>,
    customBaseUrl: Option<string>,
    customModel: Option<string>,
    emailSender: Option<string>,
    emailPassword: Option<string>,
    emailReceivers: Option<string>)

  /** Python truthiness of an optional string: set and non-empty. */
  predicate Truthy(v: Option<string>) {
    v.Some? && v.value != ""
  }

  /** `os.getenv(name) or default`: the default replaces an unset or empty value. */
  function OrDefault(v: Option<string>, default: string): string {
    if Truthy(v) then v.value else default
  }

  /** `os.getenv(name, default)`: the default replaces an unset value only. */
  function GetEnv(v: Option<string>, default: string): string {
    if v.Some? then v.value else default
  }

  const DefaultCompanies: string :=
    "山东未来机器人有限公司 威海广泰 威海国际经济技术合作股份有限公司 双丰物探 威尔海姆 迪尚集团"
  const DefaultIndustries: string := "工程承包 橡胶轮胎 医疗器械 油气装备 机器人"
  const DefaultGeminiModel: string := "gemini-2.5-flash"

  /** The two list separators users type besides spaces. */
  const IdeographicComma: char := '、'
  const FullwidthComma: char := '，'

  predicate IsListSeparator(c: char) {
    c == IdeographicComma || c == FullwidthComma
  }

  /** `.replace('、', ' ').replace('，', ' ')`. */
  function NormaliseSeparators(s: string): string {
    Replace(Replace(s, [IdeographicComma], [' ']), [FullwidthComma], [' '])
  }

  /** Normalising turns each separator into a space, leaves every other
      character where it was, and keeps the length. */
  lemma NormaliseSeparatorsAt(s: string)
    ensures |NormaliseSeparators(s)| == |s|
    ensures forall i :: 0 <= i < |s| ==>
              NormaliseSeparators(s)[i] == if IsListSeparator(s[i]) then ' ' else s[i]
  {
    ReplaceChar(s, IdeographicComma, ' ');
    ReplaceChar(Replace(s, [IdeographicComma], [' ']), FullwidthComma, ' ');
  }

  /** Normalising distributes over concatenation. */
  lemma NormaliseSeparatorsAppend(a: string, b: string)
    ensures NormaliseSeparators(a + b) == NormaliseSeparators(a) + NormaliseSeparators(b)
  {
    NormaliseSeparatorsAt(a);
    NormaliseSeparatorsAt(b);
    NormaliseSeparatorsAt(a + b);
    var l, r := NormaliseSeparators(a + b), NormaliseSeparators(a) + NormaliseSeparators(b);
    assert |l| == |r|;
    forall i | 0 <= i < |l| ensures l[i] == r[i] {
      if i < |a| {
        assert (a + b)[i] == a[i];
      } else {
        assert (a + b)[i] == b[i - |a|];
      }
    }
  }

  /** `TARGET_COMPANIES`. */
  function TargetCompanies(env: Env): string {
    NormaliseSeparators(OrDefault(env.targetCompanies, DefaultCompanies))
  }

  /** The company string has the raw value's length, holds neither separator,
      and differs from the raw value exactly where a separator stood, which
      became a space. */
  lemma TargetCompaniesNormalised(env: Env)
    ensures var raw := OrDefault(env.targetCompanies, DefaultCompanies);
            && |TargetCompanies(env)| == |raw|
            && IdeographicComma !in TargetCompanies(env)
            && FullwidthComma !in TargetCompanies(env)
            && forall i :: 0 <= i < |raw| ==>
                 (TargetCompanies(env)[i] != raw[i] <==> IsListSeparator(raw[i]))
                 && (IsListSeparator(raw[i]) ==> TargetCompanies(env)[i] == ' ')
  {
    NormaliseSeparatorsAt(OrDefault(env.targetCompanies, DefaultCompanies));
  }

  /** `[i for i in raw.replace('、', ' ').replace('，', ' ').split() if i]`. */
  function Industries(raw: string): seq<string> {
    KeepNonEmpty(Split(NormaliseSeparators(raw)))
  }

  /** `INDUSTRY_LIST`. */
  function IndustryList(env: Env): seq<string> {
    Industries(OrDefault(env.targetIndustry, DefaultIndustries))
  }

  /** The filter in the comprehension never drops anything: `split()` yields
      no empty token. */
  lemma IndustriesAreTokens(raw: string)
    ensures Industries(raw) == Split(NormaliseSeparators(raw))
  {
    SplitWords(NormaliseSeparators(raw));
    KeepNonEmptyAll(Split(NormaliseSeparators(raw)));
  }

  /** Every industry is non-empty and holds neither white space nor a separator. */
  lemma IndustryListClean(env: Env)
    ensures forall i :: 0 <= i < |IndustryList(env)| ==>
              var w := IndustryList(env)[i];
              IsWord(w) && IdeographicComma !in w && FullwidthComma !in w
  {
    var raw := OrDefault(env.targetIndustry, DefaultIndustries);
    var n := NormaliseSeparators(raw);
    IndustriesAreTokens(raw);
    NormaliseSeparatorsAt(raw);
    SplitWords(n);
    SplitChars(n);
    assert IdeographicComma !in n && FullwidthComma !in n;
  }

  /** A space, a tab, `、` or `，` anywhere separates: the industries of the
      whole are those of the part before it followed by those of the part
      after it. */
  lemma IndustriesAtSeparator(a: string, c: char, b: string)
    requires IsSpace(c) || IsListSeparator(c)
    ensures Industries(a + [c] + b) == Industries(a) + Industries(b)
  {
    NormaliseSeparatorsAppend(a + [c], b);
    NormaliseSeparatorsAppend(a, [c]);
    NormaliseSeparatorsAt([c]);
    var w := NormaliseSeparators([c])[0];
    assert NormaliseSeparators([c]) == [w];
    assert IsSpace(w);
    SplitAtSpace(NormaliseSeparators(a), w, NormaliseSeparators(b));
    IndustriesAreTokens(a + [c] + b);
    IndustriesAreTokens(a);
    IndustriesAreTokens(b);
  }

  /** A single name without separators is one industry. */
  lemma IndustriesOfName(w: string)
    requires IsWord(w) && IdeographicComma !in w && FullwidthComma !in w
    ensures Industries(w) == [w]
  {
    NormaliseSeparatorsAt(w);
    assert NormaliseSeparators(w) == w;
    SplitOfWord(w);
    IndustriesAreTokens(w);
  }

  /** A value made only of white space and separators names no industry. */
  lemma IndustriesOfBlank(s: string)
    requires forall i :: 0 <= i < |s| ==> IsSpace(s[i]) || IsListSeparator(s[i])
    ensures Industries(s) == []
  {
    NormaliseSeparatorsAt(s);
    SplitOfBlank(NormaliseSeparators(s));
    IndustriesAreTokens(s);
  }

  predicate IsName(w: string) {
    IsWord(w) && IdeographicComma !in w && FullwidthComma !in w
  }

  /** Names joined by one separator, white space, `、` or `，`, are exactly
      those names as industries, in order. */
  lemma {:induction false} IndustriesOfJoin(ws: seq<string>, c: char)
    requires IsSpace(c) || IsListSeparator(c)
    requires forall i :: 0 <= i < |ws| ==> IsName(ws[i])
    ensures Industries(Join(ws, [c])) == ws
  {
    if |ws| == 0 {
      IndustriesOfBlank("");
    } else if |ws| == 1 {
      IndustriesOfName(ws[0]);
    } else {
      var rest := Join(ws[1..], [c]);
      assert Join(ws, [c]) == ws[0] + [c] + rest;
      IndustriesAtSeparator(ws[0], c, rest);
      IndustriesOfName(ws[0]);
      IndustriesOfJoin(ws[1..], c);
      assert ws == [ws[0]] + ws[1..];
    }
  }

  /** A calendar date as `datetime.date` holds it. */
  datatype Date = Date(year: int, month: int, day: int)

  predicate ValidDate(d: Date) {
    1 <= d.year <= 9999 && 1 <= d.month <= 12 && 1 <= d.day <= 31
  }

  function Pow10(w: nat): nat {
    if w == 0 then 1 else 10 * Pow10(w - 1)
  }

  function DigitChar(n: nat): (c: char)
    requires n < 10
    ensures '0' <= c <= '9' && c as int - '0' as int == n
  {
    ('0' as int + n) as char
  }

  /** `n` written in exactly `w` decimal digits, zero-padded. */
  function Digits(n: nat, w: nat): (r: string)
    requires n < Pow10(w)
    ensures |r| == w
  {
    if w == 0 then "" else Digits(n / 10, w - 1) + [DigitChar(n % 10)]
  }

  /** The value of a string of decimal digits; `None` if a character is not one. */
  function DigitsValue(s: string): Option<nat> {
    if s == [] then Some(0)
    else
      var c := s[|s| - 1];
      if '0' <= c <= '9' then
        match DigitsValue(s[..|s| - 1])
        case None => None
        case Some(v) => Some(10 * v + (c as int - '0' as int))
      else None
  }

  lemma {:induction false} DigitsValueOfDigits(n: nat, w: nat)
    requires n < Pow10(w)
    ensures DigitsValue(Digits(n, w)) == Some(n)
  {
    if w > 0 {
      var prefix, last := Digits(n / 10, w - 1), DigitChar(n % 10);
      var s := Digits(n, w);
      assert s == prefix + [last];
      assert s[..|s| - 1] == prefix && s[|s| - 1] == last;
      DigitsValueOfDigits(n / 10, w - 1);
      assert DigitsValue(s) == Some(10 * (n / 10) + n % 10);
    }
  }

  /** `TODAY_STR`: `strftime("%Y年%m月%d日")`. */
  function TodayStr(d: Date): (r: string)
    requires ValidDate(d)
    ensures |r| == 11
  {
    Digits(d.year, 4) + "年" + Digits(d.month, 2) + "月" + Digits(d.day, 2) + "日"
  }

  /** Reads a date back from the eleven characters `TodayStr` writes. */
  function ParseTodayStr(s: string): Option<Date> {
    if |s| != 11 || s[4] != '年' || s[7] != '月' || s[10] != '日' then None
    else
      match (DigitsValue(s[..4]), DigitsValue(s[5..7]), DigitsValue(s[8..10]))
      case (Some(y), Some(m), Some(d)) => Some(Date(y, m, d))
      case _ => None
  }

  /** The date string determines the date: different days give different
      subjects and report headers. */
  lemma TodayStrRoundTrip(d: Date)
    requires ValidDate(d)
    ensures ParseTodayStr(TodayStr(d)) == Some(d)
  {
    var s := TodayStr(d);
    assert s[..4] == Digits(d.year, 4);
    assert s[5..7] == Digits(d.month, 2);
    assert s[8..10] == Digits(d.day, 2);
    DigitsValueOfDigits(d.year, 4);
    DigitsValueOfDigits(d.month, 2);
    DigitsValueOfDigits(d.day, 2);
  }

  /** Which chat service the run talks to (the client construction itself is
      not modelled; its choice of model and throttling is). */
  datatype Backend = Backend(gemini: bool, model: Option<string>)

  function SelectBackend(env: Env): Backend {
    if !Truthy(env.customApiKey) then
      Backend(true, Some(GetEnv(env.geminiModel, DefaultGeminiModel)))
    else
      Backend(false, env.customModel)
  }

  /** Gemini is used exactly when no custom key is set (an empty key counts
      as unset); it then always has a model, the configured one even when
      that is empty, and otherwise the default. With a custom key the custom
      model is passed on as configured, possibly unset. */
  lemma BackendChoice(env: Env)
    ensures SelectBackend(env).gemini <==> !Truthy(env.customApiKey)
    ensures SelectBackend(env).gemini ==> SelectBackend(env).model.Some?
    ensures SelectBackend(env).gemini && env.geminiModel.Some? ==> SelectBackend(env).model == env.geminiModel
    ensures SelectBackend(env).gemini && env.geminiModel.None? ==> SelectBackend(env).model == Some(DefaultGeminiModel)
    ensures !SelectBackend(env).gemini ==> SelectBackend(env).model == env.customModel
  {
  }
}
