/**
 * The host chat pipeline's data as the filter sees it: the messages of a request body, the
 * choices of a streamed event, and the texts the filter writes into them.
 */
module Pipeline {
  import opened Wrappers
  import opened PyText

  /** A message's `content` value: a string, or anything else (a list of parts, `null`, ...). */
  datatype Content = Text(text: string) | NonText

  /** One chat message; `content` is `None` when the key is absent. */
  datatype Message = Message(role: string, content: Option<Content>)

  /** The `delta` of a streamed choice; `content` is `None` when the key is absent. */
  datatype Delta = Delta(role: Option<string>, content: Option<Content>)

  /** One streamed choice; `delta` is `None` when the key is absent. */
  datatype Choice = Choice(index: int, delta: Option<Delta>)

  const Command := "/firefly"

  const UsageText := "Please provide a prompt for image generation. Usage: /firefly your prompt here"
  const ClientIdError := "Adobe Firefly client_id is missing or invalid. Please set FIREFLY_CLIENT_ID environment variable or configure in valves."
  const ClientSecretError := "Adobe Firefly client_secret is missing or invalid. Please set FIREFLY_CLIENT_SECRET environment variable or configure in valves."

  const ErrorLead := "Error generating image: "
  const ErrorAdvice := "\n\nPlease check that your Adobe Firefly API credentials are valid and have sufficient permissions."

  /** The text that replaces the user's message when generation raised `message`. */
  function GenerationErrorText(message: string): string {
    ErrorLead + message + ErrorAdvice
  }

  /** The markdown that `outlet` puts in place of the assistant's reply. */
  function ImageMarkdown(url: string): string {
    "![image](" + url + ")\n"
  }

  /**
   * The prompt of a `/firefly` command, when the last message holds one: its content is a
   * string whose lower-cased form starts with `/firefly`, and the prompt is the rest of the
   * original string with surrounding whitespace removed. An absent content reads as `""`.
   */
  function CommandPrompt(messages: seq<Message>): (p: Option<string>)
    ensures p.Some? ==> messages != []
  {
    if messages == [] then None
    else
      match messages[|messages| - 1].content.GetOr(Text(""))
      case Text(s) => if LowerStartsWith(s, Command) then Some(Strip(s[|Command|..])) else None
      case NonText => None
  }

  /**
   * A command is recognised exactly when the last message's content is a string starting
   * with `/firefly` in any letter case; its prompt has no surrounding whitespace and is
   * empty exactly when nothing but whitespace follows the command.
   */
  lemma CommandRecognised(messages: seq<Message>)
    ensures CommandPrompt(messages).Some? <==>
              && messages != []
              && messages[|messages| - 1].content.Some?
              && messages[|messages| - 1].content.value.Text?
              && LowerStartsWith(messages[|messages| - 1].content.value.text, Command)
    ensures CommandPrompt(messages).Some? ==>
              var rest := messages[|messages| - 1].content.value.text[|Command|..];
              && CommandPrompt(messages).value == Strip(rest)
              && (CommandPrompt(messages).value == "" <==> AllSpace(rest))
  {
    if CommandPrompt(messages).Some? {
      StripProperties(messages[|messages| - 1].content.value.text[|Command|..]);
    }
  }

  /**
   * `body["messages"][-1]["content"] = text`: the last message gets a string content, its
   * role is kept, and every other message is left as it is.
   */
  function SetLastContent(messages: seq<Message>, text: string): (r: seq<Message>)
    requires messages != []
    ensures |r| == |messages|
    ensures r[..|r| - 1] == messages[..|messages| - 1]
    ensures r[|r| - 1] == Message(messages[|messages| - 1].role, Some(Text(text)))
  {
    messages[|messages| - 1 := messages[|messages| - 1].(content := Some(Text(text)))]
  }

  /** `delta["content"] = ""` when the choice has a delta holding a `content` key. */
  function Blank(c: Choice): (r: Choice)
    ensures r.index == c.index && r.delta.Some? == c.delta.Some?
    ensures r.delta.Some? ==> r.delta.value.role == c.delta.value.role
    ensures r.delta.Some? ==> r.delta.value.content.Some? == c.delta.value.content.Some?
    ensures r.delta.Some? && r.delta.value.content.Some? ==> r.delta.value.content.value == Text("")
    ensures c.delta.None? || c.delta.value.content.None? ==> r == c
  {
    match c.delta
    case Some(d) => if d.content.Some? then c.(delta := Some(d.(content := Some(Text(""))))) else c
    case None => c
  }

  /** The choices of a streamed event after `stream`: all blanked while the filter is on, else untouched. */
  function StreamedChoices(applyFilter: bool, choices: seq<Choice>): (r: seq<Choice>)
    ensures |r| == |choices|
    ensures forall i | 0 <= i < |r| :: r[i] == if applyFilter then Blank(choices[i]) else choices[i]
  {
    if applyFilter then seq(|choices|, i requires 0 <= i < |choices| => Blank(choices[i])) else choices
  }

  /** Blanking is idempotent, so a replayed event is not changed a second time. */
  lemma StreamIdempotent(applyFilter: bool, choices: seq<Choice>)
    ensures StreamedChoices(applyFilter, StreamedChoices(applyFilter, choices)) == StreamedChoices(applyFilter, choices)
  {
    var once := StreamedChoices(applyFilter, choices);
    var twice := StreamedChoices(applyFilter, once);
    assert forall i | 0 <= i < |once| :: twice[i] == once[i];
  }

  /** While the filter is on, no streamed delta carries any text. */
  lemma StreamShowsNothing(choices: seq<Choice>, i: int)
    requires 0 <= i < |choices|
    ensures var c := StreamedChoices(true, choices)[i];
      c.delta.Some? && c.delta.value.content.Some? ==> c.delta.value.content.value == Text("")
  {
  }
}
