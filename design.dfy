/** The `POST /design` handler: suggestions from the chat reply, the room
    layout drawn and serialised, and every failure turned into one HTTP 500
    error. The chat call and the image serialisation are outside code; their
    outcomes are inputs here. */
module Design {
  import opened Wrappers
  import opened Furniture
  import opened Suggestions
  import opened Layout

  /** The request body; `length` and `breadth` are Python floats, modelled as
      exact reals. */
  datatype DesignRequest = DesignRequest(
    length: real,
    breadth: real,
    aesthetic: string,
    furniture: string,
    prompt: string)

  /** The response body; both fields are optional in its schema. */
  datatype SuggestionResponse = SuggestionResponse(
    suggestions: Option<string>,
    plotBase64: Option<string>)

  /** `HTTPException(status_code, detail)`. */
  datatype HttpException = HttpException(statusCode: int, detail: string)

  /** How the chat call ended: it raised an exception with this message, or
      it returned a reply. */
  datatype ChatCall = Raised(message: string) | Returned(reply: ChatReply)

  const ErrorPrefix: string := "Error generating design: "

  /** Lines 100-102: any exception becomes a 500 whose detail is the prefix
      followed by the exception's message, from which it can be read back. */
  function ErrorResponse(message: string): (e: HttpException)
    ensures e.statusCode == 500
    ensures |e.detail| == |ErrorPrefix| + |message|
    ensures e.detail[..|ErrorPrefix|] == ErrorPrefix && e.detail[|ErrorPrefix|..] == message
  {
    HttpException(500, ErrorPrefix + message)
  }

  /** Different exceptions give different error details. */
  lemma ErrorResponseInjective(m1: string, m2: string)
    requires ErrorResponse(m1) == ErrorResponse(m2)
    ensures m1 == m2
  {
    assert m1 == ErrorResponse(m1).detail[|ErrorPrefix|..];
  }

  /** What the handler answers, given how the chat call ended and what
      `savefig` followed by base64 encoding makes of the drawn figure (the
      encoded text, or the message of the exception it raised). */
  function Handle(req: DesignRequest, chat: ChatCall, savefig: Figure -> Result<string, string>)
    : (r: Result<SuggestionResponse, HttpException>)
    ensures r.Failure? <==>
      chat.Raised? || savefig(LayoutFigure(ParseFurniture(req.furniture), req.length, req.breadth)).Failure?
    ensures chat.Raised? ==> r == Failure(ErrorResponse(chat.message))
    ensures r.Failure? ==> r.error.statusCode == 500
    ensures r.Success? ==> r.value.suggestions.Some? && r.value.plotBase64.Some?
  {
    match chat
    case Raised(message) => Failure(ErrorResponse(message))
    case Returned(reply) =>
      var figure := LayoutFigure(ParseFurniture(req.furniture), req.length, req.breadth);
      match savefig(figure)
      case Failure(message) => Failure(ErrorResponse(message))
      case Success(encoded) => Success(SuggestionResponse(Some(ExtractSuggestions(reply)), Some(encoded)))
  }

  /** `design_room`: the steps of lines 36-102 in order, on a new axes. */
  method DesignRoom(req: DesignRequest, chat: ChatCall, savefig: Figure -> Result<string, string>)
    returns (r: Result<SuggestionResponse, HttpException>)
    ensures r == Handle(req, chat, savefig)
  {
    if chat.Raised? {
      return Failure(ErrorResponse(chat.message));
    }
    var suggestions := ExtractSuggestions(chat.reply);
    var furniture := ParseFurniture(req.furniture);
    var ax := new Axes();
    DrawLayout(ax, furniture, req.length, req.breadth);
    assert ax.Snapshot() == LayoutFigure(furniture, req.length, req.breadth);
    var plot := savefig(ax.Snapshot());
    if plot.Failure? {
      return Failure(ErrorResponse(plot.error));
    }
    r := Success(SuggestionResponse(Some(suggestions), Some(plot.value)));
  }

  /** A successful response carries the extracted suggestions and the
      encoding of exactly the layout of the parsed furniture list. */
  lemma SuccessContents(req: DesignRequest, chat: ChatCall, savefig: Figure -> Result<string, string>)
    requires Handle(req, chat, savefig).Success?
    ensures chat.Returned?
    ensures Handle(req, chat, savefig).value.suggestions == Some(ExtractSuggestions(chat.reply))
    ensures var figure := LayoutFigure(ParseFurniture(req.furniture), req.length, req.breadth);
      savefig(figure).Success? && Handle(req, chat, savefig).value.plotBase64 == Some(savefig(figure).value)
  {
  }

  /** When the chat call succeeds but drawing or encoding raises, the error
      carries that exception's message. */
  lemma RenderFailure(req: DesignRequest, chat: ChatCall, savefig: Figure -> Result<string, string>)
    requires chat.Returned?
    requires savefig(LayoutFigure(ParseFurniture(req.furniture), req.length, req.breadth)).Failure?
    ensures Handle(req, chat, savefig)
      == Failure(ErrorResponse(savefig(LayoutFigure(ParseFurniture(req.furniture), req.length, req.breadth)).error))
  {
  }
}
