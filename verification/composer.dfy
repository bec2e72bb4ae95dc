/** `PromptComposer`: holds a sanitized system text, a sanitized user text and a markup
    dialect, and renders them as one prompt string. */
module Composer {
  import opened Text
  import opened Sanitizer

  /** The two supported dialects: ChatML (Qwen, Mistral, ...) and Llama-3 headers. */
  datatype PromptFormat = ChatML | Llama3

  /** The composer's stored state. */
  datatype PromptComposer = PromptComposer(system: string, user: string, format: PromptFormat)

  /** `SetSystem`: store the sanitized system text; the rest is kept. */
  function SetSystem(c: PromptComposer, s: string): (r: PromptComposer)
    ensures r.user == c.user && r.format == c.format
    ensures r.system == Sanitize(s)
  {
    c.(system := Sanitize(s))
  }

  /** `SetUser`: store the sanitized user text; the rest is kept. */
  function SetUser(c: PromptComposer, u: string): (r: PromptComposer)
    ensures r.system == c.system && r.format == c.format
    ensures r.user == Sanitize(u)
  {
    c.(user := Sanitize(u))
  }

  /** The constructor, with the source's defaults; it behaves like an empty Llama-3
      composer (or one of the given format) on which both setters were called. */
  function NewComposer(system: string := "", user: string := "", format: PromptFormat := Llama3): (c: PromptComposer)
    ensures c == SetUser(SetSystem(PromptComposer("", "", format), system), user)
  {
    PromptComposer(Sanitize(system), Sanitize(user), format)
  }

  lemma DefaultFormatIsLlama3()
    ensures NewComposer().format == Llama3
    ensures NewComposer() == PromptComposer("", "", Llama3)
  {
  }

  /** A later `SetUser` overrides an earlier one entirely. */
  lemma SetUserLastWins(c: PromptComposer, a: string, b: string)
    ensures SetUser(SetUser(c, a), b) == SetUser(c, b)
  {
  }

  /** Setting the system text and the user text are independent. */
  lemma SettersCommute(c: PromptComposer, s: string, u: string)
    ensures SetUser(SetSystem(c, s), u) == SetSystem(SetUser(c, u), s)
  {
  }

  /** The roles a rendered conversation can hold. */
  datatype Role = SystemRole | UserRole | AssistantRole

  function RoleName(role: Role): string {
    match role
    case SystemRole => "system"
    case UserRole => "user"
    case AssistantRole => "assistant"
  }

  /** The opening of a turn of `role` in `format`. */
  function Header(format: PromptFormat, role: Role): string {
    match format
    case ChatML => ImStart + RoleName(role) + "\n"
    case Llama3 => StartHeaderId + RoleName(role) + EndHeaderId + "\n\n"
  }

  /** The close of a turn in `format`. */
  function TurnEnd(format: PromptFormat): string {
    match format
    case ChatML => ImEnd + "\n"
    case Llama3 => EotId
  }

  datatype Message = Message(role: Role, content: string)

  /** A closed turn: header, content, turn end. */
  function Turn(format: PromptFormat, m: Message): string {
    Header(format, m.role) + (m.content + TurnEnd(format))
  }

  /** A sequence of closed turns, as a chat template renders them. */
  function Render(format: PromptFormat, msgs: seq<Message>): string
    decreases |msgs|
  {
    if |msgs| == 0 then [] else Render(format, msgs[..|msgs| - 1]) + Turn(format, msgs[|msgs| - 1])
  }

  /** The conversation a composer stands for: the system turn only when there is system
      text, then the user turn. */
  function Conversation(system: string, user: string): seq<Message> {
    (if system == [] then [] else [Message(SystemRole, system)]) + [Message(UserRole, user)]
  }

  /** The system turn, present only when there is system text. */
  function SystemPart(format: PromptFormat, system: string): string {
    if system == [] then [] else Turn(format, Message(SystemRole, system))
  }

  /** `BuildChatML`, with the source's string literals. */
  function BuildChatML(system: string, user: string): (r: string)
    ensures r == SystemPart(ChatML, system) + Turn(ChatML, Message(UserRole, user)) + Header(ChatML, AssistantRole)
  {
    var out := if system != [] then ImStart + "system" + "\n" + (system + (ImEnd + "\n")) else [];
    var out := out + (ImStart + "user" + "\n" + (user + (ImEnd + "\n")));
    out + (ImStart + "assistant" + "\n")
  }

  /** `BuildLlama3`, with the source's string literals; no document-start marker. */
  function BuildLlama3(system: string, user: string): (r: string)
    ensures r == SystemPart(Llama3, system) + Turn(Llama3, Message(UserRole, user)) + Header(Llama3, AssistantRole)
  {
    var out := if system != [] then StartHeaderId + "system" + EndHeaderId + "\n\n" + (system + EotId) else [];
    var out := out + (StartHeaderId + "user" + EndHeaderId + "\n\n" + (user + EotId));
    out + (StartHeaderId + "assistant" + EndHeaderId + "\n\n")
  }

  lemma RenderOne(format: PromptFormat, m: Message)
    ensures Render(format, [m]) == Turn(format, m)
  {
    assert [m][..0] == [];
  }

  lemma RenderTwo(format: PromptFormat, a: Message, b: Message)
    ensures Render(format, [a, b]) == Turn(format, a) + Turn(format, b)
  {
    assert [a, b][..1] == [a];
    RenderOne(format, a);
  }

  /** The template of a composer's conversation: the optional system turn, then the user turn. */
  lemma RenderConversation(format: PromptFormat, system: string, user: string)
    ensures Render(format, Conversation(system, user)) == SystemPart(format, system) + Turn(format, Message(UserRole, user))
  {
    var um := Message(UserRole, user);
    if system == [] {
      assert Conversation(system, user) == [um];
      RenderOne(format, um);
      assert SystemPart(format, system) + Turn(format, um) == Turn(format, um);
    } else {
      var sm := Message(SystemRole, system);
      assert Conversation(system, user) == [sm, um];
      RenderTwo(format, sm, um);
    }
  }

  /** `Build`: Llama-3 goes to `BuildLlama3`, every other format to `BuildChatML`; either
      way the prompt is the optional system turn, the user turn and an open assistant
      header. */
  function Build(c: PromptComposer): (r: string)
    ensures r == SystemPart(c.format, c.system) + Turn(c.format, Message(UserRole, c.user)) + Header(c.format, AssistantRole)
  {
    if c.format == Llama3 then BuildLlama3(c.system, c.user) else BuildChatML(c.system, c.user)
  }

  /** The prompt is the generic chat template of the stored conversation, followed by an
      open assistant header. */
  lemma BuildIsTemplate(c: PromptComposer)
    ensures Build(c) == Render(c.format, Conversation(c.system, c.user)) + Header(c.format, AssistantRole)
  {
    RenderConversation(c.format, c.system, c.user);
  }

  lemma Assoc(a: string, b: string, c: string)
    ensures a + b + c == a + (b + c)
  {
  }

  lemma StartsWithConcat(a: string, b: string)
    ensures StartsWith(a + b, a)
  {
    assert (a + b)[..|a|] == a;
  }

  lemma EndsWithConcat(a: string, b: string)
    ensures EndsWith(a + b, b)
  {
    assert (a + b)[|a|..] == b;
  }

  /** The user turn is always present, right before the open assistant header, which
      ends every prompt. */
  lemma BuildEndsWithUserThenAssistant(c: PromptComposer)
    ensures EndsWith(Build(c), Turn(c.format, Message(UserRole, c.user)) + Header(c.format, AssistantRole))
    ensures EndsWith(Build(c), Header(c.format, AssistantRole))
  {
    var u := Turn(c.format, Message(UserRole, c.user));
    var h := Header(c.format, AssistantRole);
    var s := SystemPart(c.format, c.system);
    Assoc(s, u, h);
    EndsWithConcat(s, u + h);
    EndsWithConcat(s + u, h);
  }

  /** Where the role name starts inside a header. */
  function RoleOffset(format: PromptFormat): nat {
    if format == ChatML then |ImStart| else |StartHeaderId|
  }

  lemma HeaderRoleChar(format: PromptFormat, role: Role)
    ensures RoleOffset(format) < |Header(format, role)|
    ensures Header(format, role)[RoleOffset(format)] == RoleName(role)[0]
  {
  }

  /** A turn, and anything after it, opens with the turn's header. */
  lemma TurnOpensWithHeader(format: PromptFormat, m: Message, rest: string)
    ensures StartsWith(Turn(format, m) + rest, Header(format, m.role))
  {
    var hd := Header(format, m.role);
    var tail := m.content + TurnEnd(format);
    Assoc(hd, tail, rest);
    StartsWithConcat(hd, tail + rest);
  }

  /** Every prompt opens with the header of its first turn. */
  lemma BuildOpensWithFirstHeader(c: PromptComposer)
    ensures StartsWith(Build(c), Header(c.format, if c.system == [] then UserRole else SystemRole))
  {
    var u := Turn(c.format, Message(UserRole, c.user));
    var h := Header(c.format, AssistantRole);
    if c.system == [] {
      assert Build(c) == u + h;
      TurnOpensWithHeader(c.format, Message(UserRole, c.user), h);
    } else {
      var st := Turn(c.format, Message(SystemRole, c.system));
      Assoc(st, u, h);
      TurnOpensWithHeader(c.format, Message(SystemRole, c.system), u + h);
    }
  }

  /** The prompt opens with a system header exactly when the system text is non-empty;
      otherwise it opens with the user header. */
  lemma BuildSystemTurnIff(c: PromptComposer)
    ensures StartsWith(Build(c), Header(c.format, SystemRole)) <==> c.system != []
    ensures c.system == [] ==> StartsWith(Build(c), Header(c.format, UserRole))
  {
    BuildOpensWithFirstHeader(c);
    var k := RoleOffset(c.format);
    HeaderRoleChar(c.format, SystemRole);
    HeaderRoleChar(c.format, UserRole);
    if c.system == [] {
      var hu := Header(c.format, UserRole);
      assert Build(c)[k] == hu[k];
    }
  }

  /** A Llama-3 prompt opens with a header marker, so never with `<|begin_of_text|>`:
      the engine adds that itself when tokenizing. */
  lemma Llama3NoBeginOfText(c: PromptComposer)
    requires c.format == Llama3
    ensures StartsWith(Build(c), StartHeaderId)
    ensures !StartsWith(Build(c), BeginOfText)
  {
    var first := if c.system == [] then UserRole else SystemRole;
    BuildOpensWithFirstHeader(c);
    var hd := Header(Llama3, first);
    assert hd == StartHeaderId + (RoleName(first) + EndHeaderId + "\n\n");
    StartsWithConcat(StartHeaderId, RoleName(first) + EndHeaderId + "\n\n");
    assert Build(c)[2] == hd[2] == 's' && BeginOfText[2] == 'b';
  }
}
