/**
 * The assistant reply stored after a provider call: the provider's text when the
 * call succeeds, a fixed template around the user's content when it throws.
 */
module Reply {
  import opened Wrappers

  /**
   * What the provider call produced: either it returned (with the first choice's
   * message content, possibly missing) or it threw.
   */
  datatype Completion = Completed(content: Option<string>) | Failed

  const FallbackPrefix: string := "I received your message: \""
  const FallbackSuffix: string :=
    "\". " + "Right now the external AI provider is not responding, "
    + "so this is a fallback response generated by my backend."

  /** The fallback template with the user's content inserted verbatim. */
  function FallbackReply(content: string): (r: string)
    ensures |r| == |FallbackPrefix| + |content| + |FallbackSuffix|
    ensures r[..|FallbackPrefix|] == FallbackPrefix
    ensures r[|FallbackPrefix|..|FallbackPrefix| + |content|] == content
    ensures r[|FallbackPrefix| + |content|..] == FallbackSuffix
  {
    var r := FallbackPrefix + content + FallbackSuffix;
    assert r[..|FallbackPrefix|] == FallbackPrefix;
    assert r[|FallbackPrefix|..|FallbackPrefix| + |content|] == content;
    r
  }

  /** Recovers the user's content from a fallback reply; None for text of any other shape. */
  function FallbackContent(reply: string): (r: Option<string>)
  {
    var p, s := |FallbackPrefix|, |FallbackSuffix|;
    if |reply| >= p + s && reply[..p] == FallbackPrefix && reply[|reply| - s..] == FallbackSuffix
    then Some(reply[p..|reply| - s])
    else None
  }

  /** The fallback reply carries the user's content verbatim: it can be read back exactly. */
  lemma FallbackRoundTrip(content: string)
    ensures FallbackContent(FallbackReply(content)) == Some(content)
  {
  }

  /** Any text that reads back as a fallback for `content` is exactly that fallback. */
  lemma FallbackContentExact(reply: string, content: string)
    requires FallbackContent(reply) == Some(content)
    ensures reply == FallbackReply(content)
  {
  }

  /**
   * `completion.choices[0]?.message?.content || ""`, or the fallback when the call
   * throws. A missing or empty content yields the empty reply, not an error.
   */
  function ReplyText(outcome: Completion, content: string): (r: string)
    ensures outcome.Failed? ==> FallbackContent(r) == Some(content)
    ensures outcome == Completed(None) ==> r == ""
    ensures outcome.Completed? && outcome.content.Some? ==> r == outcome.content.value
  {
    match outcome
    case Failed => FallbackReply(content)
    case Completed(None) => ""
    case Completed(Some(text)) => text
  }
}
