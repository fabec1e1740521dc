# AI-Powered Designer: the `POST /design` handler in Dafny

The backend is one FastAPI handler, `design_room` in `backend/main.py`. It takes a
room's length and breadth, an aesthetic, a comma-separated furniture list and a
free-text prompt. It asks a language model for design suggestions and draws a
top-down layout with matplotlib. Each furniture item gets a square marker at one
of eight fixed anchor points, scaled to the room. The PNG comes back base64-encoded
next to the suggestions. Any exception becomes an HTTP 500.

This project models the logic of that handler:

- `PyStr` (`pystr.dfy`): the Python string operations the handler relies on.
  - `str.isspace` is the full Unicode whitespace set that `strip()` removes.
  - `Strip` is `str.strip()` and `Split` is `str.split(sep)`; `Lead` is the length of the leading whitespace that `strip()` drops.
  - `Count` is the number of occurrences of a separator. The handler never calls `count`; it is here only to state the bound on the number of furniture names.
  - `Join` (`sep.join`) is included as the inverse of `split`.
- `Furniture` (`furniture.dfy`): the furniture list (lines 62-64).
  - It is `[f.strip() for f in text.split(",") if f.strip()]`.
  - If that list is empty, it is `["Sofa", "Bed"]`.
- `Suggestions` (`suggestions.dfy`): the chat reply as a datatype with four cases.
  - The four cases are: no reply, no `message`, no `content`, and content text.
  - The suggestions text is derived from the reply (lines 56-59).
- `Layout` (`layout.dfy`): the anchor table and the layout drawing.
  - The anchor table has eight points (lines 71-80).
  - The plotting axes is a class whose `scatter`, `text`, `xlim` and `ylim` calls append to or set its fields.
  - The placement loop (lines 82-88) is a method, proved against the specification functions `PlacedMarkers`, `PlacedLabels` and `LayoutFigure`.
- `Design` (`design.dfy`): the handler itself.
  - It takes two inputs: how the chat call ended (raised, or returned a reply) and what serialising and encoding the drawn figure gives (the text, or an exception message).
  - It returns the response or the 500 error. `Handle` is the specification function; `DesignRoom` is the method that performs the steps in order.
- `Wrappers` (`wrappers.dfy`): `Option` and `Result`.

Python floats are modelled as exact `real`s. Strings are sequences of Unicode scalar values.

Whitespace-only content: line 56 only tests that the `content` key is present, so `content.strip()` is returned even when it is empty. Whitespace-only content gives `""`, not the fallback text, and `ExtractSuggestions` does the same.

## Model

| member | source | states |
|---|---|---|
| `PyStr.Strip` | backend/main.py:62 | `strip()` leaves no whitespace at either end, is never longer than its input, and is empty exactly when the string is all whitespace |
| `PyStr.StripSlice` | backend/main.py:62 | what `strip()` keeps is the contiguous slice starting after the leading whitespace, with only whitespace dropped before and after it |
| `PyStr.StripUnique` | backend/main.py:62 | for whitespace + body (no edge whitespace) + whitespace, `strip()` gives exactly the body |
| `PyStr.StripIdempotent` | backend/main.py:62 | stripping twice is the same as stripping once |
| `PyStr.StripKeepsOut` | backend/main.py:62 | a character absent from a token is absent from its stripped form |
| `PyStr.CountIsMultiplicity` | backend/main.py:62 | the number of separators counted is the multiplicity of that character in the string |
| `PyStr.Split` | backend/main.py:62 | `split(",")` gives one more piece than there are commas, and no piece contains a comma |
| `PyStr.JoinSplit` | backend/main.py:62 | joining the pieces of `split(sep)` with `sep` gives back the input |
| `PyStr.SplitJoin` | backend/main.py:62 | splitting a join of separator-free pieces gives back the pieces |
| `Furniture.StripNonBlank` | backend/main.py:62 | the comprehension keeps at most one name per token |
| `Furniture.StripNonBlankNames` | backend/main.py:62 | every name the comprehension keeps is non-empty with no whitespace at either end |
| `Furniture.StripNonBlankEmpty` | backend/main.py:62-63 | the comprehension is empty exactly when every token is blank |
| `Furniture.StripNonBlankAppend` | backend/main.py:62 | the comprehension works token by token in input order: the result for a concatenation is the concatenation of the results |
| `Furniture.StripNonBlankFrom` | backend/main.py:62 | every name the comprehension keeps is the stripped form of some non-blank token of the split text |
| `Furniture.StrippedNamesHaveNoComma` | backend/main.py:62 | names stripped from comma-free tokens contain no comma |
| `Furniture.BlankTokens` | backend/main.py:62-63 | every token of `split(",")` is blank exactly when the text holds only commas and whitespace |
| `Furniture.ParseFurniture` | backend/main.py:62-64 | the list is never empty. Every name is non-empty, has no edge whitespace and no comma. For blank text the list is exactly `["Sofa", "Bed"]`. Otherwise it is the comprehension over `split(",")`, with at most one more name than there are commas |
| `Furniture.DefaultIsNames` | backend/main.py:64 | the default names are themselves well-formed names |
| `Furniture.ParseExample` | backend/main.py:62-64 | `"Sofa, Bed ,  Lamp"` parses to exactly `["Sofa", "Bed", "Lamp"]` |
| `Suggestions.ExtractSuggestions` | backend/main.py:56-59 | with content: the stripped content, empty exactly when the content is whitespace-only. Without content (no reply, no message, no content key): exactly `"No suggestions generated."` |
| `Suggestions.ContentKept` | backend/main.py:56-57 | content surrounded by whitespace yields exactly its trimmed body |
| `Suggestions.SuggestionsTrimmed` | backend/main.py:56-59 | the suggestions text never begins or ends with whitespace, fallback included |
| `Suggestions.ExampleCornerSofa` | backend/main.py:56-57 | content `"  Use a corner sofa.  "` gives `"Use a corner sofa."` |
| `Layout.Positions` | backend/main.py:71-80 | the anchor table has eight points, each a fixed fraction of length and breadth |
| `Layout.Axes.constructor` | backend/main.py:66-68 | a new figure's axes has nothing drawn and automatic bounds |
| `Layout.Axes.Scatter` | backend/main.py:84 | a scatter call appends one named marker and changes nothing else |
| `Layout.Axes.Text` | backend/main.py:85 | a text call appends one label and changes nothing else |
| `Layout.Axes.SetXLim` | backend/main.py:87 | `xlim` sets the x bounds and changes nothing else |
| `Layout.Axes.SetYLim` | backend/main.py:88 | `ylim` sets the y bounds and changes nothing else |
| `Layout.DrawLayout` | backend/main.py:82-88 | the loop appends exactly the placed markers and labels, one per item in list order with item `i` at anchor `i % 8`, then sets the bounds to `[0, length] x [0, breadth]` |
| `Layout.OneMarkerPerItem` | backend/main.py:82-85 | one marker and one label per item, both named after the item, the label at the marker's x and `0.03 * breadth` above it |
| `Layout.RoundRobin` | backend/main.py:82-83 | items `i` and `i + 8` get the same anchor |
| `Layout.DistinctAnchors` | backend/main.py:71-83 | in a room of positive size, a list of at most eight items puts every item at a different point |
| `Layout.InsideRoom` | backend/main.py:71-88 | in a room of positive size, every marker and every label lies strictly inside the axis bounds |
| `Design.ErrorResponse` | backend/main.py:100-102 | status 500 and detail `"Error generating design: "` followed by the exception message, which can be read back from the detail |
| `Design.ErrorResponseInjective` | backend/main.py:102 | different exception messages give different error details |
| `Design.Handle` | backend/main.py:36-102 | the request fails exactly when the chat call or the rendering raised, always with status 500. A chat failure carries the chat's message. A success has both fields present: no partial response |
| `Design.DesignRoom` | backend/main.py:34-102 | performing the steps on a new axes (suggestions, parsing, drawing, serialising the drawn figure) gives exactly `Handle`'s answer |
| `Design.SuccessContents` | backend/main.py:56-98 | a success carries the extracted suggestions and the encoding of exactly the layout of the parsed furniture list |
| `Design.RenderFailure` | backend/main.py:92-102 | when the chat succeeds but rendering raises, the error carries the rendering exception's message |

## Left out

- FastAPI application setup, CORS middleware and the pydantic schemas (lines 1-30) are framework wiring. Only the two body shapes are modelled, as datatypes.
- Prompt composition (lines 38-46), the model name (line 32) and the `ollama.chat` call (lines 48-54) are not modelled. The call is a foreign network call: its outcome is the `ChatCall` input, either an exception message or one of the four reply shapes.
- The reply's `content` is taken to be text. A non-string `content` would make `.strip()` raise and end in a 500; the model does not represent it.
- Everything matplotlib and seaborn do beyond recording what is drawn is left out. That covers figure size, style, marker size and shape, font size, alignment, title and legend (lines 66-68, 84-85, 89-90). The axes records markers, labels and bounds only.
- PNG serialisation into `BytesIO`, closing the figure, and base64 encoding (lines 92-96) are library calls. They are the `savefig` input: a function from the drawn figure to the encoded text or to an exception message.
- The diagnostic `print` of the error (line 101) is console output and is not modelled.
- Lone surrogates (U+D800 to U+DFFF), which a Python `str` can hold, are not Dafny `char`s and so cannot appear in the modelled strings. They are not whitespace, so this does not change what `strip()` or `split()` return on the other characters.
- Coordinates are exact reals, so IEEE rounding in products such as `0.1*length` is not modelled.
- Non-positive dimensions are accepted, as in the code. Whether the plotting library then fails is up to `savefig`. The geometric lemmas assume a positive length and breadth.
- The shared global pyplot state and concurrent requests are not modelled: each `DesignRoom` draws on its own new `Axes`.
