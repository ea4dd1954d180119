# Weihai business briefing, modelled in Dafny

`main.py` builds a weekly business briefing for the Weihai office in four steps:

1. It reads its configuration from the environment: target companies, industries, search key, chat backend and mail credentials.
2. It runs a fixed series of web searches. Each search's JSON hits become plain-text records.
3. It assembles the results into six blocks of material and hands one prompt to a chat model, which writes the briefing.
4. It mails the briefing over SMTP. It tries implicit TLS on port 465 first, and falls back to STARTTLS on port 587 after a three-second pause.

This project models that script with the outside world abstracted away:

- The environment and today's date are explicit inputs (`Config.Env`, `Config.Date`).
- The search service is an input function. It receives the number of the call and the request payload, and gives back a JSON body or an exception.
- The chat service is an input function from model and prompt to a reply or an exception.
- The SMTP transport is an input function from port and message to the outcome of one attempt. An attempt either delivered, failed before sending, or failed after the message went out (for example in `quit()`).
- Pauses and connections are recorded as a trace of `Trace.Event`s, so the order in which the script does things can be stated and proved.

The modules follow the script:

- `Text`: the Python string operations the script relies on:
  - `str.replace`;
  - `split()` with the Unicode white-space set, and `split(',')`;
  - `strip()`;
  - `join`;
  - `+` over a list.
- `Config`: the environment handling at import time:
  - `TARGET_COMPANIES`, `INDUSTRY_LIST` and `TODAY_STR`;
  - the backend choice of `__main__`.
- `Search`: the payload and the result formatting of `search_info`.
- `Dict`: an insertion-ordered Python `dict` whose assignment replaces a value in place.
- `Briefing`: `generate_briefing` and the two-part category blocks.
- `Mail`: `send_email`.
- `Pipeline`: the `__main__` block:
  - `Pipeline.Run` reads the configuration;
  - `Pipeline.Brief` runs the searches, the briefing and the mail;
  - `Pipeline.Plan` lists every search request in the order it is sent.

Loops of the script are methods with loop invariants, proved against the functions that specify them:

- the record loop of `search_info`;
- the `ind_context +=` loop;
- the `industry_data` loop.

The sequential 465-then-587 control flow of `send_email` is a method too, without a loop, proved against the predicate `Mail.Delivers`. The comprehensions and chained `replace` calls are functions.

Edge cases of the code that the model keeps:

- `os.getenv(k) or d` replaces an empty value, while `os.getenv(k, d)` does not.
  - So an empty `GEMINI_MODEL` is passed to the chat call as the empty model name.
  - An `EMAIL_RECEIVERS` made only of commas and white space is "configured" and yields no recipient at all (`Mail.RecipientsOfSeparatorsOnly`).
- A search hit whose `content` is JSON `null` makes `.replace` raise. The whole search then becomes a `搜索失败: ` text, and the earlier records are lost.
  - A `null` url prints as `None`.
  - A `null` `results` member makes the loop raise.
- An industry listed twice is searched twice. The dict keeps one entry for it, at the place of its first mention, holding the text of the last search.
- A chat reply whose content is `None` is passed on as `None`. `send_email` then raises on `.replace` when credentials are set (`Mail.Delivery.Crashed`), and no connection is made.
- A sender address with a character outside ASCII makes `formataddr` raise `UnicodeEncodeError`, outside the `try`. This too ends `send_email` before any connection (`Crashed`).
- When port 465 fails after the message went out, port 587 is still tried. The briefing can then arrive twice (`Mail.DeliveryBounds`).
- The chat call has no retry with another model: one failed call becomes the `生成简报失败: ` text.

## Model

| member | source | states |
|---|---|---|
| Config.NormaliseSeparatorsAt | main.py:19 | the two chained replacements keep the length, turn each `、` and `，` into a space, and leave every other character where it was |
| Config.TargetCompaniesNormalised | main.py:18-19 | `TARGET_COMPANIES` has the raw value's length and contains neither separator. It differs from the raw value exactly at the positions of a separator, where it holds a space. The raw value is the default when the variable is unset or empty |
| Config.IndustriesAreTokens | main.py:21-22 | the `if i` filter drops nothing: `INDUSTRY_LIST` is exactly the white-space tokens of the normalised value, in order |
| Config.IndustryListClean | main.py:21-22 | every industry is non-empty and contains no white space, `、` or `，` |
| Config.IndustriesAtSeparator | main.py:22 | a white-space character, `、` or `，` anywhere splits the list: the industries of the whole are those before it followed by those after it |
| Config.IndustriesOfName | main.py:22 | a single name without separators is exactly one industry |
| Config.IndustriesOfBlank | main.py:22 | a value made only of white space and separators gives no industry |
| Config.IndustriesOfJoin | main.py:21-22 | any list of names joined by one white-space character, `、` or `，` gives back exactly those names as industries, in order. The default value, five names joined by spaces, is one such list |
| Config.DigitsValueOfDigits | main.py:38 | a zero-padded decimal field reads back as the number written |
| Config.TodayStrRoundTrip | main.py:38 | `TODAY_STR` (`%Y年%m月%d日`) determines the date: reading it back gives the date it was made from |
| Search.SearchInfo | main.py:56-65 | the record loop returns the text that `Search.SearchText` assigns to the reply, including the failure texts for an exception, a `null` result list and a `null` content |
| Search.SearchTextClassified | main.py:56-65 | the text is the no-results sentinel exactly when there is no `results` member or an empty list. It starts with `搜索失败: ` exactly when the call or the formatting raised. It starts with a `【内容】: ` record exactly otherwise |
| Search.RecordsOfHits | main.py:59-63 | hits give one record per hit, in hit order, joined by newlines. Each record's content has every newline turned into a space and no other change, so it contains no newline. A hit without a url shows `无来源链接` |
| Text.SplitAtSpace | main.py:22 | `split()` around one white-space character is the split of both sides concatenated |
| Text.SplitWords | main.py:22 | every token of `split()` is non-empty and contains no white space |
| Text.ReplaceChar | main.py:19 | replacing one character by one character changes exactly the occurrences of the first and keeps the length |
| Text.Strip | main.py:168 | neither end of the result is white space, and the result is a block of the input with only white space around it |
| Text.StripPadded | main.py:168 | stripping an address padded with white space on both sides gives the address back |
| Text.SplitOnJoin | main.py:168 | joining pieces free of the separator and splitting on it gives the pieces back |
| Text.JoinSplitOn | main.py:168 | splitting on a separator and joining with it gives the string back |
| Text.NoFenceAfterRemoval | main.py:171 | after every non-overlapping ```` ``` ```` is removed from left to right, none is left, even where removal brings backticks together |
| Dict.PutKeys | main.py:246 | assigning to a present key keeps the keys in place; assigning to a new key appends it |
| Dict.PutLookup | main.py:246 | after `d[k] = v`, `k` holds `v` and every other key holds what it held |
| Dict.PutDistinct | main.py:246 | assignment never makes a key appear twice |
| Dict.FillKeys | main.py:244-246 | the dict filled by the loop has each key once. Its keys are the distinct keys assigned, in the order of first assignment |
| Dict.FillLastWins | main.py:244-246 | a key holds the value of its last assignment |
| Briefing.IndustryContext | main.py:71-73 | the `+=` loop yields the concatenation, in dict order, of one `--- 行业: X ---` block per entry |
| Briefing.IndustryContextHasEveryBlock | main.py:71-73 | the context is empty exactly when the dict is. It contains every entry's heading line directly followed by that entry's text |
| Briefing.CompositeParts | main.py:239 | a two-part category block opens with its first heading line, and each heading line is directly followed by its own search text |
| Briefing.PromptHasMaterial | main.py:75-149 | whatever the fixed instruction text, the prompt contains the date, the company string and each of the six blocks of material verbatim |
| Briefing.GenerateBriefing | main.py:70-161 | the prompt is built from the industry context of the dict given. The Gemini throttle precedes the single chat call exactly when the backend is Gemini. The briefing is what that call's outcome gives |
| Mail.Recipients | main.py:168 | with `EMAIL_RECEIVERS` unset or empty the list is exactly the sender. Otherwise every entry is non-empty, has no white space at either end, and contains neither `,` nor `，` |
| Mail.ParseReceiversClean | main.py:168 | every entry parsed from a configured value is such a clean address |
| Mail.RecipientsOfList | main.py:168 | clean addresses, each padded with any white space, separated by `,` or `，` chosen gap by gap, are read back as exactly those addresses, in order |
| Mail.RecipientsOfMixedList | main.py:168 | `a@x.com，b@x.com, c@x.com` gives the three addresses |
| Mail.RecipientsOfSeparatorsOnly | main.py:168 | a non-empty value made only of commas of either width and white space counts as configured and yields no recipient, not the sender |
| Mail.StripFences | main.py:171 | after the two replacements the text contains neither ```` ```html ```` nor ```` ``` ```` |
| Mail.StripFencesIdempotent | main.py:171 | stripping fences twice is stripping them once |
| Mail.SendEmail | main.py:166-210 | without sender or password nothing is attempted. A `None` briefing or a non-ASCII sender raises before any connection. Otherwise port 465 is tried first, and port 587 is tried after a 3-second pause exactly when 465 did not deliver. A failed delivery is a result, not an exception, and the copies that went out are counted |
| Mail.DeliveryBounds | main.py:192-210 | the connections are none, 465 alone, or 465, the 3-second pause and 587, in that order. At most two copies go out, and two only when 465 failed after sending. Success on 587 means all three steps happened |
| Mail.MailSteps | main.py:192-210 | `send_email` only connects and pauses for the retry |
| Pipeline.CollectIndustries | main.py:244-246 | the `industry_data` loop sends one request per listed industry, in list order, and assigns each text to its industry's key |
| Pipeline.TextsLayout | main.py:237-267 | the text of each search sits at its place in the plan: three leading searches, one per industry, five trailing ones |
| Pipeline.GatherMaterial | main.py:236-269 | the searches of `__main__` are exactly the `8 + n` planned requests, in order. The six blocks of material are made of their texts as the plan lays them out |
| Pipeline.PlanShape | main.py:237-267 | every request uses the configured key, a seven-day window, the advanced depth and no answer. The first asks about the configured companies, and each industry request about its industry with a limit of 10. Only the two technology searches name domains |
| Pipeline.PromptHasCategoryResults | main.py:237-272 | the prompt contains the date, the company string, and every category's search text directly under its heading |
| Pipeline.IndustryDataOfRun | main.py:244-246 | the industry dict has one entry per distinct industry, in order of first mention. Each industry holds the text of its last search |
| Pipeline.PromptHasIndustryResults | main.py:244-272 | for each industry, its heading line followed by the text of its last search appears verbatim in the prompt |
| Pipeline.EventOrder | main.py:237-274 | all searches come first. The Gemini throttle follows them exactly when Gemini is used, and nowhere else. Then comes the one chat call, and after it only mail connections and the retry pause |
| Pipeline.Brief | main.py:235-274 | a run searches the plan in order, prompts with the material of those texts, and briefs with the chat outcome. It then sends the briefing under the given subject as `send_email` promises, with the events in that order |
| Pipeline.ChatFailureIsMailed | main.py:159-171 | when the chat call raises, the text handed to the mail transport starts with `生成简报失败: `: the failure becomes the briefing, and fence stripping keeps that prefix |
| Pipeline.Run | main.py:215-274 | the same for the configuration read from the environment. The Gemini throttle comes exactly when `CUSTOM_API_KEY` is unset or empty, and Gemini is then always called with a model. The subject is `【威海商业情报】` followed by `TODAY_STR` |

## Left out

- The HTTP request of `search_info` and the JSON decoding are not modelled. The reply or the exception is an input.
- JSON values of unexpected types are not modelled: a non-string `content` or `url`, a hit that is not an object, or a `results` member that is not a list. In the script, a non-string `content` or a hit that is not an object raises inside the `try`, and a non-string `url` prints as its `str`. A `results` member that is not a list raises inside the `try` when it is a number, a non-empty string or a non-empty object, and gives the no-results sentinel when it is an empty string or an empty object.
- Constructing the OpenAI client is not modelled, including its `base_url` values, `CUSTOM_BASE_URL`, the 120-second timeout, and the exception it may raise when no API key is set. The chat call is an input function, so the `temperature` argument and the message list are not modelled either.
- The `time.sleep` pauses are recorded as events, not as durations. The float parse of `GEMINI_REQUEST_DELAY` is left out; a malformed value makes the script fail at import.
- `smtplib` is abstracted into one outcome per attempt: the server `smtp.qq.com`, the 30-second timeouts, login, `starttls`, and the exception `sendmail` raises for an empty recipient list. MIME, `Header`, the Markdown-to-HTML conversion and the HTML wrapper are not modelled. The message handed to the transport carries the fence-stripped text. Of `formataddr`, only its refusal of a non-ASCII address is modelled.
- Mail.SendEmail: assumes that building the message raises nothing besides `formataddr`'s refusal of a non-ASCII address. Exceptions from `markdown.markdown`, `Header` or `MIMEText`, all outside the `try`, are not modelled.
- Briefing.GenerateBriefing: assumes the Gemini throttle returns. In the script `time.sleep(GEMINI_REQUEST_DELAY)` runs outside the `try` and raises for a negative or NaN delay, and for one too large for the platform. That ends the script before the chat call, and no mail is sent.
- The literal instruction text of the prompt is not modelled. It is a parameter (`Briefing.Template`) whose pieces surround the inserted values.
- Console output (`print`) is not modelled.
- `Text.Replace` is modelled only for a non-empty pattern, which is all the script uses.
- Config.TodayStr: writes the year in four digits. For years below 1000 the platform's `strftime` may not pad, so the model does not claim to match that case there.
- Config.ValidDate: bounds the day by 31 without checking month lengths. It only restricts which dates are rendered, and `datetime.date` never produces an invalid one.
