/**
 * Validation of request bodies, and the titles the conversation routes store.
 * A request field is an optional string; JavaScript treats an absent field and
 * the empty string alike as false.
 */
module Requests {
  import opened Wrappers
  import opened Text

  /** The validation errors the routes answer with status 400. */
  datatype Error = ContentRequired | ConversationIdRequired | TitleRequired
  {
    /**
     * The error text sent back with the 400 answer: it names the missing field
     * and says that it is required.
     */
    function Description(): (r: string)
      ensures |r| > |RequiredSuffix| && r[|r| - |RequiredSuffix|..] == RequiredSuffix
    {
      match this
      case ContentRequired => "Message content is required"
      case ConversationIdRequired => "conversationId is required"
      case TitleRequired => "Title is required"
    }
  }

  const RequiredSuffix: string := " is required"

  /** Each validation error has its own text, so the caller can tell which field is missing. */
  lemma DescriptionsDistinct(a: Error, b: Error)
    requires a != b
    ensures a.Description() != b.Description()
  {
  }

  const DefaultTitleText: string := "New chat"

  /** A truthy string field: given, and not the empty string. */
  predicate Present(field: Option<string>) {
    field.Some? && field.value != ""
  }

  /** The content may not be missing or white space only. */
  predicate Blank(field: Option<string>) {
    field.None? || AllSpace(field.value)
  }

  /**
   * The checks of `POST /api/messages`, content first. On success the content is
   * passed on as sent, untrimmed, with the conversation id.
   */
  function ValidateSend(content: Option<string>, conversationId: Option<string>): (r: Result<(string, string), Error>)
    ensures r.Ok? <==> !Blank(content) && Present(conversationId)
    ensures r.Ok? ==> r.value == (content.value, conversationId.value)
    ensures r == Err(ContentRequired) <==> Blank(content)
    ensures r == Err(ConversationIdRequired) <==> !Blank(content) && !Present(conversationId)
  {
    if content.None? || Trim(content.value) == "" then Err(ContentRequired)
    else if !Present(conversationId) then Err(ConversationIdRequired)
    else Ok((content.value, conversationId.value))
  }

  /** The check of `GET /api/messages`: a conversation id is required. */
  function ValidateListing(conversationId: Option<string>): (r: Result<string, Error>)
    ensures r.Ok? <==> Present(conversationId)
    ensures r.Ok? ==> r.value == conversationId.value
    ensures r.Err? ==> r.error == ConversationIdRequired
  {
    if Present(conversationId) then Ok(conversationId.value) else Err(ConversationIdRequired)
  }

  /**
   * `title || "New chat"`: a given non-empty title is kept exactly as sent (even
   * when it is white space only); otherwise the default. Never empty, as the
   * schema's required title demands.
   */
  function DefaultTitle(title: Option<string>): (r: string)
    ensures r != ""
    ensures Present(title) ==> r == title.value
    ensures !Present(title) ==> r == DefaultTitleText
  {
    if Present(title) then title.value else DefaultTitleText
  }

  /**
   * The title a rename stores: rejected when missing or white space only, else
   * trimmed. A stored title is never empty and has no white space at its ends.
   */
  function RenameTitle(title: Option<string>): (r: Result<string, Error>)
    ensures r.Err? <==> Blank(title)
    ensures r.Err? ==> r.error == TitleRequired
    ensures r.Ok? ==> r.value == Trim(title.value) && r.value != "" && Trimmed(r.value)
  {
    if title.None? || title.value == "" || Trim(title.value) == "" then Err(TitleRequired)
    else Ok(Trim(title.value))
  }

  /** Renaming with an already stored title is accepted and stores the same title. */
  lemma RenameStable(title: Option<string>)
    requires RenameTitle(title).Ok?
    ensures RenameTitle(Some(RenameTitle(title).value)) == RenameTitle(title)
  {
  }
}
