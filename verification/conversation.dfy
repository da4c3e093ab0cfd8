/**
 * The conversation handed to the language model: the system context (the
 * knowledge text inside a fixed instruction), a fixed greeting from the
 * model, the client's history with normalised roles, and the new message.
 */
module Conversation {

  datatype Role = User | Model

  /** One turn sent to the model; each turn in the source carries exactly one text part. */
  datatype Turn = Turn(role: Role, text: string)

  /** A history entry as the client sends it: `{role, content}` with any role string. */
  datatype Entry = Entry(role: string, content: string)

  /** The template text before the knowledge text. */
  const ContextPrefix: string := "\nEres un asistente virtual sobre el portafolio del desarrollador.\n\n"

  /** The template text after the knowledge text. */
  const ContextSuffix: string := "\n---\nResponde en español y sé preciso.\n"

  /** The canned opening turn attributed to the model. */
  const Greeting: string := "Hola 👋 ¿Qué deseas saber?"

  /** The system context: the knowledge text wrapped in the fixed instruction, recoverable from it. */
  function SystemContext(knowledge: string): (r: string)
    ensures |r| == |ContextPrefix| + |knowledge| + |ContextSuffix|
    ensures r[..|ContextPrefix|] == ContextPrefix
    ensures r[|ContextPrefix|..|r| - |ContextSuffix|] == knowledge
    ensures r[|r| - |ContextSuffix|..] == ContextSuffix
  {
    ContextPrefix + knowledge + ContextSuffix
  }

  /** Two different knowledge texts never give the same system context. */
  lemma SystemContextInjective(k1: string, k2: string)
    requires SystemContext(k1) == SystemContext(k2)
    ensures k1 == k2
  {
  }

  /** A history entry as a turn: the same text, and role user exactly when the client said "user". */
  function ToTurn(e: Entry): (t: Turn)
    ensures t.text == e.content
    ensures t.role == User <==> e.role == "user"
  {
    Turn(if e.role == "user" then User else Model, e.content)
  }

  /** `history.map(...)`: every entry turned into a turn, in the client's order. */
  function Normalise(history: seq<Entry>): (r: seq<Turn>)
    ensures |r| == |history|
    ensures forall i :: 0 <= i < |history| ==>
      r[i].text == history[i].content && (r[i].role == User <==> history[i].role == "user")
  {
    if history == [] then [] else [ToTurn(history[0])] + Normalise(history[1..])
  }

  /** The `contents` array passed to the model. */
  function Contents(knowledge: string, message: string, history: seq<Entry>): (r: seq<Turn>)
    ensures |r| == |history| + 3
    ensures r[0] == Turn(User, SystemContext(knowledge))
    ensures r[1] == Turn(Model, Greeting)
    ensures r[|r| - 1] == Turn(User, message)
    ensures forall i :: 0 <= i < |history| ==>
      r[i + 2].text == history[i].content && (r[i + 2].role == User <==> history[i].role == "user")
  {
    [Turn(User, SystemContext(knowledge)), Turn(Model, Greeting)] + Normalise(history) + [Turn(User, message)]
  }
}
