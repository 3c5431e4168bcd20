/**
 * The chat provider: the text box's `input`, the submit guard that sends it,
 * the recorder of anonymous work, the forwarding of tool calls, and the body
 * attached to each outbound request. The calls it makes into collaborators it
 * does not own (`sendMessage`, `setHasAnonWork`, `handleToolCall`) are recorded,
 * in order, in an effect log; the file system's `serialize()` result is passed
 * in as a value.
 */
module ChatContext {
  import opened Wrappers
  import opened JsString
  import opened ChatTypes

  /** A tool call as the chat stream delivers it; the provider never looks inside. */
  datatype ToolCall = ToolCall(toolCallId: string, toolName: string, input: string)

  /** The extra body of every outbound chat request. */
  datatype RequestBody = RequestBody(files: Snapshot, projectId: Option<string>)

  /** One call the provider makes into a collaborator; a sent message goes with the transport's body. */
  datatype ChatEffect =
    | SendMessage(text: string, body: RequestBody)
    | SetHasAnonWork(messages: seq<UIMessage>, files: Snapshot)
    | HandleToolCall(call: ToolCall)

  /** `input.trim()` is truthy: the text holds something other than white space. */
  predicate HasText(input: string) {
    Trim(input) != ""
  }

  /** Text counts as a message exactly when some character of it is not white space. */
  lemma HasTextIff(input: string)
    ensures HasText(input) <==> exists i :: 0 <= i < |input| && !IsWhiteSpace(input[i])
  {
  }

  /** `!projectId && messages.length > 0`: work is anonymous while no project is bound. */
  predicate ShouldTrackAnonWork(projectId: Option<string>, messages: seq<UIMessage>) {
    Falsy(projectId) && |messages| > 0
  }

  /**
   * `{ files: fileSystem.serialize(), projectId }`, computed when the transport
   * is built: the snapshot is the one serialized at that moment.
   */
  function TransportBody(files: Snapshot, projectId: Option<string>): RequestBody {
    RequestBody(files, projectId)
  }

  /**
   * A request that names a project and the anonymous-work record never go
   * together: when the body carries a project id, no transcript is recorded as
   * anonymous work; when it carries none, every non-empty transcript is.
   */
  lemma BoundProjectExcludesAnonWork(files: Snapshot, projectId: Option<string>, messages: seq<UIMessage>)
    ensures !Falsy(TransportBody(files, projectId).projectId) ==> !ShouldTrackAnonWork(projectId, messages)
    ensures Falsy(TransportBody(files, projectId).projectId) ==> (ShouldTrackAnonWork(projectId, messages) <==> messages != [])
  {
  }

  /** What the provider exposes to the components below it. */
  datatype ChatContextValue = ChatContextValue(messages: seq<UIMessage>, input: string, status: string)

  /**
   * `useChat()`: the provider's value when there is one, and the error
   * "useChat must be used within a ChatProvider" otherwise.
   */
  function UseChat(context: Option<ChatContextValue>): (r: Result<ChatContextValue, string>)
    ensures r.Ok? <==> context.Some?
    ensures r.Ok? ==> r.value == context.value
    ensures r.Err? ==> r.error == "useChat must be used within a ChatProvider"
  {
    if context.None? then Err("useChat must be used within a ChatProvider") else Ok(context.value)
  }

  /** One mounted chat provider. */
  class ChatProvider {
    const projectId: Option<string>
    var transport: RequestBody
    var input: string
    var effects: seq<ChatEffect>

    /** The transport's body always names this provider's project. */
    predicate Valid()
      reads this
    {
      transport.projectId == projectId
    }

    /**
     * A provider starts with an empty text box, has called nothing yet, and has
     * a transport whose body holds the files serialized at mount.
     */
    constructor (projectId: Option<string>, files: Snapshot)
      ensures Valid()
      ensures this.projectId == projectId && transport == TransportBody(files, projectId)
      ensures input == "" && effects == []
    {
      this.projectId := projectId;
      transport := TransportBody(files, projectId);
      input := "";
      effects := [];
    }

    /**
     * The memoised transport built again, as happens when the file system
     * changes: its body takes the snapshot serialized now.
     */
    method RebuildTransport(files: Snapshot)
      modifies this`transport
      ensures Valid()
      ensures transport == TransportBody(files, projectId)
    {
      transport := TransportBody(files, projectId);
    }

    /** `handleInputChange`: the text box takes exactly the typed value; nothing is sent. */
    method HandleInputChange(value: string)
      requires Valid()
      modifies this`input
      ensures Valid()
      ensures input == value
      ensures effects == old(effects)
    {
      input := value;
    }

    /**
     * `handleSubmit`: when the text holds something other than white space it is
     * sent once, untrimmed, with the transport's body, which names the provider's
     * project, and the text box is cleared; otherwise nothing is sent and the
     * text box keeps its text.
     */
    method HandleSubmit()
      requires Valid()
      modifies this`input, this`effects
      ensures Valid()
      ensures HasText(old(input)) ==> effects == old(effects) + [SendMessage(old(input), transport)] && input == ""
      ensures !HasText(old(input)) ==> effects == old(effects) && input == old(input)
      ensures HasText(old(input)) ==> effects[|effects| - 1].body.projectId == projectId
    {
      if HasText(input) {
        effects := effects + [SendMessage(input, transport)];
        input := "";
      }
    }

    /**
     * The anonymous-work effect, run with the current transcript and snapshot:
     * it records both exactly when no project is bound and the transcript is not
     * empty.
     */
    method TrackAnonWork(messages: seq<UIMessage>, files: Snapshot)
      requires Valid()
      modifies this`effects
      ensures Valid()
      ensures input == old(input)
      ensures ShouldTrackAnonWork(projectId, messages) ==> effects == old(effects) + [SetHasAnonWork(messages, files)]
      ensures !ShouldTrackAnonWork(projectId, messages) ==> effects == old(effects)
    {
      if ShouldTrackAnonWork(projectId, messages) {
        effects := effects + [SetHasAnonWork(messages, files)];
      }
    }

    /** `onToolCall`: every tool call goes to the file system's handler unchanged. */
    method OnToolCall(call: ToolCall)
      requires Valid()
      modifies this`effects
      ensures Valid()
      ensures input == old(input)
      ensures effects == old(effects) + [HandleToolCall(call)]
    {
      effects := effects + [HandleToolCall(call)];
    }

    /** The value the provider hands down: its own input, and the chat stream's transcript and status unchanged. */
    function Value(messages: seq<UIMessage>, status: string): (value: ChatContextValue)
      reads this
      ensures value.input == input
      ensures value.messages == messages && value.status == status
    {
      ChatContextValue(messages, input, status)
    }
  }

  /** A fresh provider offers an empty text box and the stream's transcript and status unchanged. */
  method DefaultsScenario(status: string) returns (value: ChatContextValue)
    ensures value == ChatContextValue([], "", status)
  {
    var provider := new ChatProvider(None, map[]);
    value := provider.Value([], status);
  }

  /** Typing "Hello" and submitting sends "Hello" once, with the mounted files, and clears the text box. */
  method TypeAndSubmitScenario(files: Snapshot) returns (sent: seq<ChatEffect>, input: string)
    ensures sent == [SendMessage("Hello", RequestBody(files, None))] && input == ""
  {
    var provider := new ChatProvider(None, files);
    provider.HandleInputChange("Hello");
    assert !IsWhiteSpace("Hello"[0]);
    provider.HandleSubmit();
    sent, input := provider.effects, provider.input;
  }

  /** Submitting text that is only white space sends nothing and keeps the text. */
  method BlankSubmitScenario() returns (sent: seq<ChatEffect>, input: string)
    ensures sent == [] && input == " \t\n"
  {
    var provider := new ChatProvider(None, map[]);
    provider.HandleInputChange(" \t\n");
    provider.HandleSubmit();
    sent, input := provider.effects, provider.input;
  }

  /** Without a project id, a non-empty transcript is recorded with the current snapshot. */
  method AnonWorkScenario(messages: seq<UIMessage>, files: Snapshot) returns (recorded: seq<ChatEffect>)
    requires messages != []
    ensures recorded == [SetHasAnonWork(messages, files)]
  {
    var provider := new ChatProvider(None, files);
    provider.TrackAnonWork(messages, files);
    recorded := provider.effects;
  }

  /** With a project id nothing is recorded, whatever the transcript. */
  method BoundProjectScenario(messages: seq<UIMessage>, files: Snapshot) returns (recorded: seq<ChatEffect>)
    ensures recorded == []
  {
    var provider := new ChatProvider(Some("test-project"), files);
    provider.TrackAnonWork(messages, files);
    recorded := provider.effects;
  }

  /** A tool call from the stream reaches the file system's handler as it came. */
  method ToolCallScenario(call: ToolCall) returns (forwarded: seq<ChatEffect>)
    ensures forwarded == [HandleToolCall(call)]
  {
    var provider := new ChatProvider(None, map[]);
    provider.OnToolCall(call);
    forwarded := provider.effects;
  }

  /**
   * A message sent after the files change but before the transport is built
   * again carries the snapshot from mount; once it is rebuilt, the new one.
   */
  method StaleSnapshotScenario(mounted: Snapshot, edited: Snapshot) returns (sent: seq<ChatEffect>)
    ensures sent == [SendMessage("Hi", RequestBody(mounted, None)), SendMessage("Hi", RequestBody(edited, None))]
  {
    var provider := new ChatProvider(None, mounted);
    assert !IsWhiteSpace("Hi"[0]);
    provider.HandleInputChange("Hi");
    provider.HandleSubmit();
    provider.RebuildTransport(edited);
    provider.HandleInputChange("Hi");
    provider.HandleSubmit();
    sent := provider.effects;
  }
}
