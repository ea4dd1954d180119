/** `send_email`: who receives the briefing, the clean-up of the generated
    text, and delivery over implicit TLS on port 465 with a STARTTLS retry on
    port 587. Each transport attempt is an input outcome; building the MIME
    message and the Markdown-to-HTML conversion are not modelled. */
module Mail {
  import opened Wrappers
  import opened Text
  import opened Config
  import opened Trace

  const Comma: char := ','

  /** A resolved recipient: non-empty, no white space at either end, and no
      comma of either width inside. */
  predicate IsRecipient(r: string) {
    r != [] && !IsSpace(r[0]) && !IsSpace(r[|r| - 1]) && Comma !in r && FullwidthComma !in r
  }

  function StripAll(xs: seq<string>): (r: seq<string>)
    ensures |r| == |xs|
    ensures forall i :: 0 <= i < |xs| ==> r[i] == Strip(xs[i])
  {
    seq(|xs|, i requires 0 <= i < |xs| => Strip(xs[i]))
  }

  /** The pieces of a configured `EMAIL_RECEIVERS`:
      `[r.strip() for r in value.replace('，', ',').split(',') if r.strip()]`. */
  function ParseReceivers(value: string): seq<string> {
    KeepNonEmpty(StripAll(SplitOn(Replace(value, [FullwidthComma], [Comma]), Comma)))
  }

  /** `receivers_list`: the sender alone when `EMAIL_RECEIVERS` is unset or
      empty; otherwise every entry is a clean address. */
  function Recipients(sender: string, receivers: Option<string>): (r: seq<string>)
    ensures !Truthy(receivers) ==> r == [sender]
    ensures Truthy(receivers) ==> forall i :: 0 <= i < |r| ==> IsRecipient(r[i])
  {
    if !Truthy(receivers) then [sender]
    else
      ParseReceiversClean(receivers.value);
      ParseReceivers(receivers.value)
  }

  /** Every entry parsed from a configured value is a clean address. */
  lemma ParseReceiversClean(value: string)
    ensures forall i :: 0 <= i < |ParseReceivers(value)| ==> IsRecipient(ParseReceivers(value)[i])
  {
    var commas := Replace(value, [FullwidthComma], [Comma]);
    ReplaceChar(value, FullwidthComma, Comma);
    assert FullwidthComma !in commas;
    var pieces := SplitOn(commas, Comma);
    var stripped := StripAll(pieces);
    forall j | 0 <= j < |stripped| ensures stripped[j] == [] || IsRecipient(stripped[j]) {
      StripChars(pieces[j]);
      assert forall c :: c in stripped[j] ==> c in pieces[j];
      assert forall c :: c in pieces[j] ==> c in commas;
    }
    var r := KeepNonEmpty(stripped);
    forall i | 0 <= i < |r| ensures IsRecipient(r[i]) {
      assert r[i] in r;
      assert r[i] in stripped;
    }
  }

  predicate IsComma(c: char) {
    c == Comma || c == FullwidthComma
  }

  /** Pieces joined with a comma of either width in each gap, the comma
      chosen gap by gap. */
  function JoinEither(pieces: seq<string>, seps: seq<char>): (r: string)
    requires |pieces| == |seps| + 1
    ensures pieces[0] <= r
  {
    if |seps| == 0 then pieces[0]
    else pieces[0] + [seps[0]] + JoinEither(pieces[1..], seps[1..])
  }

  /** Each address with white space before and after it. */
  function Padded(before: seq<string>, addresses: seq<string>, after: seq<string>): (r: seq<string>)
    requires |before| == |addresses| == |after|
    ensures |r| == |addresses|
    ensures forall k :: 0 <= k < |r| ==> r[k] == before[k] + addresses[k] + after[k]
  {
    seq(|addresses|, k requires 0 <= k < |addresses| => before[k] + addresses[k] + after[k])
  }

  /** A configured list of clean addresses, each padded with white space on
      either side and separated by `,` or `，` as the user typed it, is read
      back as exactly those addresses, in order. */
  lemma RecipientsOfList(sender: string, addresses: seq<string>, before: seq<string>, after: seq<string>,
                         seps: seq<char>)
    requires |addresses| >= 1 && |before| == |addresses| && |after| == |addresses|
    requires |seps| + 1 == |addresses|
    requires forall k :: 0 <= k < |addresses| ==> IsRecipient(addresses[k]) && Blank(before[k]) && Blank(after[k])
    requires forall k :: 0 <= k < |seps| ==> IsComma(seps[k])
    ensures Recipients(sender, Some(JoinEither(Padded(before, addresses, after), seps))) == addresses
  {
    var pieces := Padded(before, addresses, after);
    var value := JoinEither(pieces, seps);
    PaddedHasNoComma(before, addresses, after);
    assert Truthy(Some(value)) by {
      assert |pieces[0]| >= |addresses[0]| > 0;
    }
    assert Replace(value, [FullwidthComma], [Comma]) == Join(pieces, [Comma]) by {
      JoinEitherReplaced(pieces, seps);
    }
    assert KeepNonEmpty(StripAll(SplitOn(Join(pieces, [Comma]), Comma))) == addresses by {
      ParsePadded(before, addresses, after);
    }
  }

  /** Mixed commas and a padded entry, as a user might configure them. */
  lemma RecipientsOfMixedList(sender: string)
    ensures Recipients(sender, Some("a@x.com，b@x.com, c@x.com")) == ["a@x.com", "b@x.com", "c@x.com"]
  {
    var addresses := ["a@x.com", "b@x.com", "c@x.com"];
    var before, after := ["", "", " "], ["", "", ""];
    MixedListJoined();
    assert forall k :: 0 <= k < 3 ==> IsRecipient(addresses[k]) && Blank(before[k]) && Blank(after[k]) by {
      assert IsRecipient("a@x.com") && IsRecipient("b@x.com") && IsRecipient("c@x.com");
      assert Blank(" ");
    }
    RecipientsOfList(sender, addresses, before, after, [FullwidthComma, Comma]);
  }

  lemma MixedListJoined()
    ensures JoinEither(Padded(["", "", " "], ["a@x.com", "b@x.com", "c@x.com"], ["", "", ""]),
                       [FullwidthComma, Comma]) == "a@x.com，b@x.com, c@x.com"
  {
    var pieces := Padded(["", "", " "], ["a@x.com", "b@x.com", "c@x.com"], ["", "", ""]);
    var seps := [FullwidthComma, Comma];
    assert pieces[0] == "a@x.com" && pieces[1] == "b@x.com" by {
      assert "" + "a@x.com" + "" == "a@x.com" && "" + "b@x.com" + "" == "b@x.com";
    }
    assert pieces[2] == " c@x.com";
    assert JoinEither(pieces[2..], seps[2..]) == " c@x.com";
    assert JoinEither(pieces[1..], seps[1..]) == "b@x.com" + [Comma] + " c@x.com" by {
      assert pieces[1..][1..] == pieces[2..] && seps[1..][1..] == seps[2..];
    }
    assert "a@x.com" + [FullwidthComma] + ("b@x.com" + [Comma] + " c@x.com") == "a@x.com，b@x.com, c@x.com";
  }

  /** Splitting comma-joined padded addresses on commas, stripping and
      filtering gives the addresses. */
  lemma ParsePadded(before: seq<string>, addresses: seq<string>, after: seq<string>)
    requires |addresses| >= 1 && |before| == |addresses| && |after| == |addresses|
    requires forall k :: 0 <= k < |addresses| ==> IsRecipient(addresses[k]) && Blank(before[k]) && Blank(after[k])
    ensures KeepNonEmpty(StripAll(SplitOn(Join(Padded(before, addresses, after), [Comma]), Comma))) == addresses
  {
    var pieces := Padded(before, addresses, after);
    PaddedHasNoComma(before, addresses, after);
    SplitOnJoin(pieces, Comma);
    forall k | 0 <= k < |pieces| ensures Strip(pieces[k]) == addresses[k] {
      StripPadded(before[k], addresses[k], after[k]);
    }
    assert StripAll(pieces) == addresses;
    KeepNonEmptyAll(addresses);
  }

  lemma PaddedHasNoComma(before: seq<string>, addresses: seq<string>, after: seq<string>)
    requires |before| == |addresses| && |after| == |addresses|
    requires forall k :: 0 <= k < |addresses| ==> IsRecipient(addresses[k]) && Blank(before[k]) && Blank(after[k])
    ensures forall k :: 0 <= k < |addresses| ==>
              Comma !in Padded(before, addresses, after)[k] && FullwidthComma !in Padded(before, addresses, after)[k]
  {
    forall k | 0 <= k < |addresses|
      ensures Comma !in before[k] + addresses[k] + after[k] && FullwidthComma !in before[k] + addresses[k] + after[k]
    {
      BlankHasNoComma(before[k]);
      BlankHasNoComma(after[k]);
    }
  }

  lemma BlankHasNoComma(s: string)
    requires Blank(s)
    ensures Comma !in s && FullwidthComma !in s
  {
  }

  /** Turning full-width commas into commas in a list of comma-free pieces
      only changes the separators. */
  lemma {:induction false} JoinEitherReplaced(pieces: seq<string>, seps: seq<char>)
    requires |pieces| == |seps| + 1
    requires forall k :: 0 <= k < |pieces| ==> Comma !in pieces[k] && FullwidthComma !in pieces[k]
    requires forall k :: 0 <= k < |seps| ==> IsComma(seps[k])
    ensures Replace(JoinEither(pieces, seps), [FullwidthComma], [Comma]) == Join(pieces, [Comma])
  {
    var a := pieces[0];
    ContainsChar(a, FullwidthComma);
    ReplaceAbsent(a, [FullwidthComma], [Comma]);
    if |seps| > 0 {
      var rest := JoinEither(pieces[1..], seps[1..]);
      assert JoinEither(pieces, seps) == (a + [seps[0]]) + rest;
      assert Join(pieces, [Comma]) == (a + [Comma]) + Join(pieces[1..], [Comma]);
      JoinEitherReplaced(pieces[1..], seps[1..]);
      ReplaceCharAppend(a + [seps[0]], rest, FullwidthComma, Comma);
      ReplaceCharAppend(a, [seps[0]], FullwidthComma, Comma);
      ReplaceChar([seps[0]], FullwidthComma, Comma);
      assert Replace([seps[0]], [FullwidthComma], [Comma]) == [Comma];
    }
  }

  /** A value made only of commas of either width and white space is
      "configured", so the sender is not used, and it resolves to no
      recipient at all. */
  lemma RecipientsOfSeparatorsOnly(sender: string, value: string)
    requires value != []
    requires forall k :: 0 <= k < |value| ==> IsSpace(value[k]) || IsComma(value[k])
    ensures Recipients(sender, Some(value)) == []
  {
    var commas := Replace(value, [FullwidthComma], [Comma]);
    ReplaceChar(value, FullwidthComma, Comma);
    assert forall c :: c in commas ==> IsSpace(c) || c == Comma;
    var pieces := SplitOn(commas, Comma);
    forall j | 0 <= j < |pieces| ensures Strip(pieces[j]) == [] {
      assert forall c :: c in pieces[j] ==> c in commas;
      assert Blank(pieces[j]) by {
        forall k | 0 <= k < |pieces[j]| ensures IsSpace(pieces[j][k]) {
          assert pieces[j][k] in pieces[j];
        }
      }
      StripBlank(pieces[j]);
    }
    KeepNonEmptyNone(StripAll(pieces));
  }

  const HtmlFence: string := "```html"

  /** `.replace("```html", "").replace("```", "")`: afterwards no fence
      marker of either kind is left. */
  function StripFences(s: string): (r: string)
    ensures !Contains(r, Fence) && !Contains(r, HtmlFence)
  {
    var r := Replace(Replace(s, HtmlFence, ""), Fence, "");
    NoFenceAfterRemoval(Replace(s, HtmlFence, ""));
    NoHtmlFenceWithoutFence(r);
    r
  }

  lemma NoHtmlFenceWithoutFence(s: string)
    requires !Contains(s, Fence)
    ensures !Contains(s, HtmlFence)
  {
    if Contains(s, HtmlFence) {
      assert HtmlFence == Fence + "html";
      ContainsPrefixOfPattern(s, Fence, "html");
    }
  }

  /** Stripping twice is stripping once. */
  lemma StripFencesIdempotent(s: string)
    ensures StripFences(StripFences(s)) == StripFences(s)
  {
    var t := StripFences(s);
    ReplaceAbsent(t, HtmlFence, "");
    ReplaceAbsent(t, Fence, "");
  }

  /** What the transport is handed: sender, recipients, subject, and the text
      the HTML body is made from. */
  datatype Message = Message(from: string, to: seq<string>, subject: string, body: string)

  function EmailMessage(sender: string, receivers: Option<string>, subject: string, content: string): Message {
    Message(sender, Recipients(sender, receivers), subject, StripFences(content))
  }

  /** How one transport attempt ended. An exception from `quit()` after
      `sendmail` succeeded counts as a failure although the message went out. */
  datatype Attempt = Delivered | FailedBeforeSending | FailedAfterSending

  /** How `send_email` ended. `Crashed` is an exception raised before any
      connection: the `AttributeError` of calling `.replace` on a `None`
      briefing, or the `UnicodeEncodeError` of `formataddr` for a sender
      address that is not ASCII. */
  datatype Delivery = Skipped | Crashed | SentOn(port: nat) | GaveUp

  const SslPort: nat := 465
  const StartTlsPort: nat := 587
  const RetryPauseSeconds: nat := 3

  function Copies(a: Attempt): nat {
    if a == FailedBeforeSending then 0 else 1
  }

  /** `formataddr` insists on an ASCII address. */
  predicate IsAscii(s: string) {
    forall i :: 0 <= i < |s| ==> s[i] as int < 0x80
  }

  /** What `send_email` promises. Without sender or password nothing is
      attempted. A `None` briefing or a non-ASCII sender raises before any
      connection. Otherwise port 465 is tried first; port 587 is tried, after
      a pause, exactly when 465 did not deliver; there are never more than
      two attempts, and a failed delivery is a result, not an exception.
      `copies` counts the messages that actually went out. */
  predicate Delivers(sender: Option<string>, password: Option<string>, receivers: Option<string>,
                     subject: string, content: Option<string>, smtp: (nat, Message) -> Attempt,
                     result: Delivery, events: seq<Event>, copies: nat)
  {
    && (!Truthy(sender) || !Truthy(password) ==> result == Skipped && events == [] && copies == 0)
    && (Truthy(sender) && Truthy(password) && content.None? ==>
          result == Crashed && events == [] && copies == 0)
    && (Truthy(sender) && Truthy(password) && content.Some? && !IsAscii(sender.value) ==>
          result == Crashed && events == [] && copies == 0)
    && (Truthy(sender) && Truthy(password) && content.Some? && IsAscii(sender.value) ==>
          var m := EmailMessage(sender.value, receivers, subject, content.value);
          var first := smtp(SslPort, m);
          var second := smtp(StartTlsPort, m);
          && (first == Delivered ==>
                result == SentOn(SslPort) && events == [SmtpConnected(SslPort)] && copies == 1)
          && (first != Delivered ==>
                && events == [SmtpConnected(SslPort), Paused(Seconds(RetryPauseSeconds)), SmtpConnected(StartTlsPort)]
                && result == (if second == Delivered then SentOn(StartTlsPort) else GaveUp)
                && copies == Copies(first) + Copies(second)))
  }

  /** `send_email`. */
  method SendEmail(sender: Option<string>, password: Option<string>, receivers: Option<string>,
                   subject: string, content: Option<string>, smtp: (nat, Message) -> Attempt)
    returns (result: Delivery, events: seq<Event>, copies: nat)
    ensures Delivers(sender, password, receivers, subject, content, smtp, result, events, copies)
  {
    if !Truthy(sender) || !Truthy(password) {
      return Skipped, [], 0;
    }
    var from := sender.value;
    var to := Recipients(from, receivers);
    if content.None? {
      return Crashed, [], 0;
    }
    var body := StripFences(content.value);
    if !IsAscii(from) {
      return Crashed, [], 0;
    }
    var m := Message(from, to, subject, body);
    events := [SmtpConnected(SslPort)];
    var first := smtp(SslPort, m);
    if first == Delivered {
      return SentOn(SslPort), events, 1;
    }
    copies := Copies(first);
    events := events + [Paused(Seconds(RetryPauseSeconds)), SmtpConnected(StartTlsPort)];
    var second := smtp(StartTlsPort, m);
    copies := copies + Copies(second);
    result := if second == Delivered then SentOn(StartTlsPort) else GaveUp;
  }

  /** At most two connections are made, to 465 and then 587; a message goes
      out at most twice, and twice only when the first attempt sent it but
      still failed; the run can report failure although a copy went out. */
  lemma DeliveryBounds(sender: Option<string>, password: Option<string>, receivers: Option<string>,
                       subject: string, content: Option<string>, smtp: (nat, Message) -> Attempt,
                       result: Delivery, events: seq<Event>, copies: nat)
    requires Delivers(sender, password, receivers, subject, content, smtp, result, events, copies)
    ensures || events == []
            || events == [SmtpConnected(SslPort)]
            || events == [SmtpConnected(SslPort), Paused(Seconds(RetryPauseSeconds)), SmtpConnected(StartTlsPort)]
    ensures |events| <= 3 && copies <= 2
    ensures events != [] ==> events[0] == SmtpConnected(SslPort)
    ensures result.SentOn? ==> copies >= 1 && (result.port == SslPort || result.port == StartTlsPort)
    ensures result == SentOn(StartTlsPort) ==> |events| == 3 && events[2] == SmtpConnected(StartTlsPort)
    ensures copies == 2 ==>
              && Truthy(sender) && Truthy(password) && content.Some? && IsAscii(sender.value)
              && smtp(SslPort, EmailMessage(sender.value, receivers, subject, content.value)) == FailedAfterSending
              && smtp(StartTlsPort, EmailMessage(sender.value, receivers, subject, content.value)) != FailedBeforeSending
    ensures result == GaveUp ==> |events| == 3 && copies <= 2
  {
  }

  /** A run of `send_email` only connects and pauses. */
  lemma MailSteps(sender: Option<string>, password: Option<string>, receivers: Option<string>,
                  subject: string, content: Option<string>, smtp: (nat, Message) -> Attempt,
                  result: Delivery, events: seq<Event>, copies: nat)
    requires Delivers(sender, password, receivers, subject, content, smtp, result, events, copies)
    ensures forall i :: 0 <= i < |events| ==>
              events[i].SmtpConnected? || events[i] == Paused(Seconds(RetryPauseSeconds))
  {
  }
}
