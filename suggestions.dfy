/** Turning the chat service's reply into the `suggestions` text. */
module Suggestions {
  import opened PyStr

  /** The reply of the chat call, as the handler probes it: a falsy reply,
      one without a "message" key, a message without a "content" key, or a
      message with content text. */
  datatype ChatReply = NoReply | NoMessage | NoContent | Content(text: string)

  const Fallback: string := "No suggestions generated."

  /** Lines 56-59: the stripped content when the reply has one, otherwise
      the fallback text. Whitespace-only content gives the empty string, not
      the fallback. */
  function ExtractSuggestions(reply: ChatReply): (suggestions: string)
    ensures reply.Content? ==> NoEdgeSpace(suggestions)
    ensures reply.Content? ==> (suggestions == [] <==> AllSpace(reply.text))
    ensures !reply.Content? ==> suggestions == Fallback
  {
    match reply
    case Content(text) => Strip(text)
    case _ => Fallback
  }

  /** Content is returned exactly, whatever whitespace surrounds it. */
  lemma {:induction false} ContentKept(lead: string, body: string, trail: string)
    requires AllSpace(lead) && AllSpace(trail) && NoEdgeSpace(body)
    ensures ExtractSuggestions(Content(lead + body + trail)) == body
  {
    StripUnique(lead, body, trail);
  }

  /** The suggestions never begin or end with whitespace, whatever the reply;
      the fallback text included. */
  lemma {:induction false} SuggestionsTrimmed(reply: ChatReply)
    ensures NoEdgeSpace(ExtractSuggestions(reply))
  {
    if !reply.Content? {
      assert Fallback[0] == 'N' && Fallback[|Fallback| - 1] == '.';
    }
  }

  /** A reply `{"message": {"content": "  Use a corner sofa.  "}}`. */
  lemma ExampleCornerSofa()
    ensures ExtractSuggestions(Content("  Use a corner sofa.  ")) == "Use a corner sofa."
  {
    CornerSofaParts();
    ContentKept("  ", "Use a corner sofa.", "  ");
  }

  lemma CornerSofaParts()
    ensures NoEdgeSpace("Use a corner sofa.") && AllSpace("  ")
    ensures "  " + "Use a corner sofa." + "  " == "  Use a corner sofa.  "
  {
    var body := "Use a corner sofa.";
    assert body[0] == 'U' && body[|body| - 1] == '.';
  }
}
