/** The language-model gateway (services/gemini.ts): builds the one request
    sent per user turn (the conversation so far plus the new user turn, a fixed
    system instruction and the single `bookEnquiry` tool) and hands back the
    model's response, or rethrows whatever the model call threw. The network
    call itself is the parameter `generate`. */
module Gemini {
  import opened Wrappers

  /** Who produced a turn of the gateway-facing conversation. */
  datatype Role = User | Model

  datatype Part = Part(text: string)

  /** `{ role, parts: [{ text }] }` */
  datatype Turn = Turn(role: Role, parts: seq<Part>)

  function UserTurn(text: string): Turn {
    Turn(User, [Part(text)])
  }

  function ModelTurn(text: string): Turn {
    Turn(Model, [Part(text)])
  }

  /** The two schema types the declaration uses (`Type.OBJECT`, `Type.STRING`). */
  datatype SchemaType = Object | String

  datatype Property = Property(name: string, kind: SchemaType, description: string)

  datatype Parameters = Parameters(
    kind: SchemaType, description: string, properties: seq<Property>, required: seq<string>)

  datatype FunctionDeclaration = FunctionDeclaration(name: string, parameters: Parameters)

  datatype Tool = Tool(functionDeclarations: seq<FunctionDeclaration>)

  datatype Config = Config(systemInstruction: string, tools: seq<Tool>, temperature: real)

  datatype Request = Request(model: string, contents: seq<Turn>, config: Config)

  /** A tool invocation in a response; its arguments are the model's JSON
      object, whose values are taken to be strings. */
  datatype FunctionCall = FunctionCall(name: string, args: map<string, string>)

  /** A response: `text` is absent when the model sent none, and an absent
      `functionCalls` array is the same as an empty one to every caller. */
  datatype Response = Response(text: Option<string>, functionCalls: seq<FunctionCall>)

  /** What the awaited library call did: returned a response or threw. */
  datatype Outcome = Returned(response: Response) | Threw(error: string)

  const ModelId: string := "gemini-3-flash-preview"
  const Temperature: real := 0.7
  const BookEnquiry: string := "bookEnquiry"

  // Long texts in this model are written as sums of short literals, which
  // the verifier handles far more cheaply than one long literal; the texts
  // themselves are character for character those of the site.

  /** Eight spaces: the indentation the instruction text carries. */
  const Indent: string := "        "

  /** The system instruction, line by line; `SystemInstruction` is their
      concatenation. */
  const InstructionPieces: seq<string> := [
    "You are Upliftr's " + "elite Digital " + "Strategy Assistant. " + "Your primary " +
      "mission is to " + "provide information " + "about our agency " + "and help users BOOK " +
      "ENQUIRIES.\n",
    Indent + "\n",
    Indent + "UPLIFTR SERVICES:\n",
    Indent + "- Social Media " + "Management\n",
    Indent + "- Content Creation " + "(Cinematic Reels & " + "Static Posts)\n",
    Indent + "- Production Shoots " + "(Commercial & " + "Product)\n",
    Indent + "- Performance " + "Marketing (Paid Ads " + "& ROI)\n",
    Indent + "- Influencer " + "Marketing (Social " + "Reach & Engagement)\n",
    "\n",
    Indent + "BOOKING PROCESS:\n",
    Indent + "To book an enquiry, " + "you MUST collect:\n",
    Indent + "1. Full Name\n",
    Indent + "2. Email Address\n",
    Indent + "3. Project Type " + "(choose from our " + "services)\n",
    Indent + "4. Brief details " + "about their vision.\n",
    "\n",
    Indent + "When you have these " + "4 items, call the " + "'bookEnquiry' tool " +
      "immediately. Be " + "professional, " + "minimalistic, and " + "energetic. Always " +
      "encourage the user " + "to scale their " + "brand with us."
  ]

  const SystemInstruction: string := Concat(InstructionPieces)

  function Concat(pieces: seq<string>): string {
    if pieces == [] then "" else pieces[0] + Concat(pieces[1..])
  }

  function PropertyNames(ps: seq<Property>): (names: seq<string>)
    ensures |names| == |ps|
    ensures forall i :: 0 <= i < |ps| ==> names[i] == ps[i].name
  {
    seq(|ps|, i requires 0 <= i < |ps| => ps[i].name)
  }

  /** `bookEnquiryDeclaration`: an object of four string properties, every
      one of them required. */
  function BookEnquiryDeclaration(): (d: FunctionDeclaration)
    ensures d.name == BookEnquiry
    ensures d.parameters.kind == Object
    ensures d.parameters.required == ["fullName", "email", "projectType", "details"]
    ensures PropertyNames(d.parameters.properties) == d.parameters.required
    ensures forall p :: p in d.parameters.properties ==> p.kind == String
  {
    FunctionDeclaration(
      BookEnquiry,
      Parameters(
        Object,
        "Book a " + "consultation or " + "enquiry for a " + "potential client. " +
          "Call this only " + "when you have the " + "user's name, " + "email, and a " +
          "description of " + "their project.",
        [ Property("fullName", String, "The full name of " + "the client."),
          Property("email", String, "The contact email " + "address."),
          Property("projectType", String, "The type of " + "service they are " + "interested in " + "(e.g., Social " +
          "Media, " + "Production, " + "Performance " + "Marketing)."),
          Property("details", String, "Specific details " + "about the " + "client's needs or " + "goals.") ],
        ["fullName", "email", "projectType", "details"]))
  }

  /** Names of every function declared across `tools`, in order. */
  function DeclaredNames(tools: seq<Tool>): (names: seq<string>)
    ensures forall t, d :: t in tools && d in t.functionDeclarations ==> d.name in names
  {
    if tools == [] then []
    else DeclarationNames(tools[0].functionDeclarations) + DeclaredNames(tools[1..])
  }

  function DeclarationNames(ds: seq<FunctionDeclaration>): (names: seq<string>)
    ensures forall d :: d in ds ==> d.name in names
  {
    if ds == [] then [] else [ds[0].name] + DeclarationNames(ds[1..])
  }

  /** The `tools` of the request config: the gateway declares exactly one
      function, `bookEnquiry`. */
  function Tools(): (tools: seq<Tool>)
    ensures DeclaredNames(tools) == [BookEnquiry]
    ensures |tools| == 1 && tools[0].functionDeclarations == [BookEnquiryDeclaration()]
  {
    [Tool([BookEnquiryDeclaration()])]
  }

  /** `history` with its default value `[]` applied. */
  function HistoryOrEmpty(history: Option<seq<Turn>>): seq<Turn> {
    history.GetOr([])
  }

  /** The `contents` of the request for one user turn: the caller's history,
      unchanged and in order, followed by exactly one user turn holding the
      message. */
  function Contents(userMessage: string, history: Option<seq<Turn>>): (contents: seq<Turn>)
    ensures |contents| == |HistoryOrEmpty(history)| + 1
    ensures contents[..|HistoryOrEmpty(history)|] == HistoryOrEmpty(history)
    ensures contents[|contents| - 1] == UserTurn(userMessage)
    ensures history.None? ==> contents == [UserTurn(userMessage)]
  {
    HistoryOrEmpty(history) + [UserTurn(userMessage)]
  }

  /** The fixed part of every request: instruction, the one tool, temperature. */
  function GatewayConfig(): (config: Config)
    ensures DeclaredNames(config.tools) == [BookEnquiry]
    ensures config.temperature == Temperature
  {
    Config(SystemInstruction, Tools(), Temperature)
  }

  /** The request for one user turn: its contents, with model and
      configuration fixed. */
  function BuildRequest(userMessage: string, history: Option<seq<Turn>>): (r: Request)
    ensures r.contents == Contents(userMessage, history)
    ensures r.model == ModelId && r.config == GatewayConfig()
  {
    Request(ModelId, Contents(userMessage, history), GatewayConfig())
  }

  /** `getGeminiResponse`: whatever `generate` throws for the built request is
      rethrown and no response is returned; otherwise its response is passed
      on untouched. */
  function GetGeminiResponse(
    userMessage: string, history: Option<seq<Turn>>, generate: Request -> Outcome): (r: Result<Response, string>)
    ensures r.Failure? <==> generate(BuildRequest(userMessage, history)).Threw?
    ensures r.Failure? ==> r.error == generate(BuildRequest(userMessage, history)).error
    ensures r.Success? ==> r.value == generate(BuildRequest(userMessage, history)).response
  {
    match generate(BuildRequest(userMessage, history))
    case Returned(response) => Success(response)
    case Threw(error) => Failure(error)
  }
}
