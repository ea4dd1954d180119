/** The externally visible steps of a run, in the order they happen. */
module Trace {
  import opened Wrappers
  import opened Search

  /** A deliberate wait: the configured Gemini throttle before the chat call,
      or the fixed pause before the second mail transport. */
  datatype Pause = GeminiThrottle | Seconds(n: nat)

  datatype Event =
    | Searched(payload: Payload)
    | Paused(pause: Pause)
    | Chatted(model: Option<string>, prompt: string)
    | SmtpConnected(port: nat)
}
