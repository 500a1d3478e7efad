/** The chat-completion agent and the fixed four-stage pipeline
    (fixed_agents.py). The chat endpoint and base64 encoding are parameters:
    `Chat` answers a request or fails (a raised exception), `Encoder` turns
    image bytes into base64 text. */
module FixedAgents {
  import opened Wrappers
  import opened Tasks

  /** One part of the user message's content. */
  datatype ContentPart = TextPart(text: string) | ImageUrlPart(url: string)

  /** A message's content: plain text, or a list of parts. */
  datatype Content = Plain(text: string) | Parts(parts: seq<ContentPart>)

  /** A `{"role": ..., "content": ...}` chat message. */
  datatype ChatMessage = ChatMessage(role: string, content: Content)

  /** A chat-completion request; the temperature is in hundredths. */
  datatype ChatRequest = ChatRequest(model: string, messages: seq<ChatMessage>, maxTokens: nat, temperature: nat)

  type Chat = ChatRequest -> Result<string, string>
  type Encoder = Image -> string

  /** A `SimpleAzureAgent`: its name, system instructions and deployment. */
  datatype Agent = Agent(name: string, instructions: string, deployment: string)

  const MaxImages: nat := 3
  const ReplyMaxTokens: nat := 1500
  const ReplyTemperature: nat := 70
  const ImageUrlPrefix: string := "data:image/png;base64,"
  const ErrorMark: string := "❌ Error in "

  /** The data URL an image is sent as. */
  function ImageUrl(encode: Encoder, image: Image): string
  {
    ImageUrlPrefix + encode(image)
  }

  function Min(a: nat, b: nat): nat
  {
    if a < b then a else b
  }

  /** One image part per image, in order. */
  function ImageParts(images: seq<Image>, encode: Encoder): (parts: seq<ContentPart>)
    ensures |parts| == |images|
    ensures forall i :: 0 <= i < |images| ==> parts[i] == ImageUrlPart(ImageUrl(encode, images[i]))
  {
    if |images| == 0 then [] else [ImageUrlPart(ImageUrl(encode, images[0]))] + ImageParts(images[1..], encode)
  }

  /** The user content: the text, then the first three images at most. */
  function UserContent(message: string, images: seq<Image>, encode: Encoder): seq<ContentPart>
  {
    [TextPart(message)] + ImageParts(images[..Min(|images|, MaxImages)], encode)
  }

  /** The messages an agent sends: its instructions, the context when there
      is one (an absent context is the empty string), then the user content. */
  function Messages(agent: Agent, message: string, images: seq<Image>, context: string, encode: Encoder)
    : seq<ChatMessage>
  {
    [ChatMessage("system", Plain(agent.instructions))]
    + (if |context| > 0 then [ChatMessage("system", Plain("Context: " + context))] else [])
    + [ChatMessage("user", Parts(UserContent(message, images, encode)))]
  }

  /** The message list always opens with the agent's instructions, carries
      the context message exactly when the context is non-empty, and ends
      with the user content: the text, then one data URL for each of the
      first three images, in order. */
  lemma MessagesShape(agent: Agent, message: string, images: seq<Image>, context: string, encode: Encoder)
    ensures var ms := Messages(agent, message, images, context, encode);
      && |ms| == (if |context| > 0 then 3 else 2)
      && ms[0] == ChatMessage("system", Plain(agent.instructions))
      && (|context| > 0 ==> ms[1] == ChatMessage("system", Plain("Context: " + context)))
      && ms[|ms| - 1].role == "user" && ms[|ms| - 1].content.Parts?
      && var parts := ms[|ms| - 1].content.parts;
         && |parts| == 1 + Min(|images|, MaxImages)
         && parts[0] == TextPart(message)
         && forall i :: 1 <= i < |parts| ==> parts[i] == ImageUrlPart(ImageUrlPrefix + encode(images[i - 1]))
  {
    var n := Min(|images|, MaxImages);
    var parts := UserContent(message, images, encode);
    forall i | 1 <= i < |parts|
      ensures parts[i] == ImageUrlPart(ImageUrlPrefix + encode(images[i - 1]))
    {
      assert parts[i] == ImageParts(images[..n], encode)[i - 1];
      assert images[..n][i - 1] == images[i - 1];
    }
  }

  /** The reply an agent gives: the completion, or the error text naming
      the agent when the call raises. */
  function AgentReply(agent: Agent, message: string, images: seq<Image>, context: string,
                      chat: Chat, encode: Encoder): string
  {
    var request := ChatRequest(agent.deployment, Messages(agent, message, images, context, encode),
                               ReplyMaxTokens, ReplyTemperature);
    match chat(request)
    case Success(reply) => reply
    case Failure(e) => ErrorMark + agent.name + ": " + e
  }

  /** A request to the agent's deployment with 1500 tokens and temperature
      0.7 either returns the completion unchanged or becomes an error text
      that starts with the error mark and the agent's name. */
  lemma AgentReplyCases(agent: Agent, message: string, images: seq<Image>, context: string,
                        chat: Chat, encode: Encoder)
    ensures var request := ChatRequest(agent.deployment, Messages(agent, message, images, context, encode), 1500, 70);
      var reply := AgentReply(agent, message, images, context, chat, encode);
      && (chat(request).Success? ==> reply == chat(request).value)
      && (chat(request).Failure? ==>
            && reply[..|ErrorMark| + |agent.name| + 2] == ErrorMark + agent.name + ": "
            && reply[|ErrorMark| + |agent.name| + 2..] == chat(request).error)
  {
    var request := ChatRequest(agent.deployment, Messages(agent, message, images, context, encode), 1500, 70);
    if chat(request).Failure? {
      var prefix := ErrorMark + agent.name + ": ";
      assert AgentReply(agent, message, images, context, chat, encode) == prefix + chat(request).error;
    }
  }

  /** Builds the user content part by part, as the agent does. */
  method BuildUserContent(message: string, images: seq<Image>, encode: Encoder) returns (content: seq<ContentPart>)
    ensures content == UserContent(message, images, encode)
  {
    content := [TextPart(message)];
    if |images| > 0 {
      var shown := images[..Min(|images|, MaxImages)];
      for i := 0 to |shown|
        invariant content == [TextPart(message)] + ImageParts(shown[..i], encode)
      {
        assert ImageParts(shown[..i + 1], encode) == ImageParts(shown[..i], encode) + [ImageUrlPart(ImageUrl(encode, shown[i]))];
        content := content + [ImageUrlPart(ImageUrl(encode, shown[i]))];
      }
      assert shown[..|shown|] == shown;
    }
  }

  /** `SimpleAzureAgent.process_request`: assembles the messages, calls the
      chat endpoint and never raises. */
  method ProcessRequest(agent: Agent, message: string, images: seq<Image>, context: string,
                        chat: Chat, encode: Encoder) returns (reply: string)
    ensures reply == AgentReply(agent, message, images, context, chat, encode)
  {
    var messages := [ChatMessage("system", Plain(agent.instructions))];
    if |context| > 0 {
      messages := messages + [ChatMessage("system", Plain("Context: " + context))];
    }
    var content := BuildUserContent(message, images, encode);
    messages := messages + [ChatMessage("user", Parts(content))];
    assert messages == Messages(agent, message, images, context, encode);
    var response := chat(ChatRequest(agent.deployment, messages, ReplyMaxTokens, ReplyTemperature));
    match response
    case Success(r) => reply := r;
    case Failure(e) => reply := ErrorMark + agent.name + ": " + e;
  }

  // ---------------------------------------------------------------------
  // The fixed pipeline

  /** The four agents of `FixedAzureOrchestrator`. */
  datatype Pipeline = Pipeline(vision: Agent, expert: Agent, promptEngineer: Agent, qualityAssurance: Agent)

  /** The deployment the agents run on, and the premium one reserved for
      quality assurance. */
  const StandardDeployment: string := "gpt-4o"
  const PremiumDeployment: string := "gpt-5-model"

  /** The four agents' system instructions, which are descriptive text. */
  datatype PipelineInstructions = PipelineInstructions(
    vision: string, expert: string, promptEngineer: string, qualityAssurance: string)

  /** The agents `FixedAzureOrchestrator.__init__` creates: their names and
      deployments, with the given instructions. */
  function FixedPipeline(instr: PipelineInstructions): Pipeline
  {
    Pipeline(
      Agent("Vision Analyst", instr.vision, StandardDeployment),
      Agent("Architectural Expert", instr.expert, StandardDeployment),
      Agent("Prompt Engineer", instr.promptEngineer, StandardDeployment),
      Agent("Quality Assurance", instr.qualityAssurance, PremiumDeployment))
  }

  /** Only quality assurance runs on the premium deployment; each agent
      carries its own instructions; no two agents share a name, so an error
      reply tells which stage failed. */
  lemma FixedPipelineAgents(instr: PipelineInstructions)
    ensures var p := FixedPipeline(instr);
      var agents := [p.vision, p.expert, p.promptEngineer, p.qualityAssurance];
      && (forall i :: 0 <= i < 4 ==> (agents[i].deployment == PremiumDeployment <==> i == 3))
      && (forall i :: 0 <= i < 3 ==> agents[i].deployment == StandardDeployment)
      && (forall i, j :: 0 <= i < j < 4 ==> agents[i].name != agents[j].name)
      && [p.vision.instructions, p.expert.instructions, p.promptEngineer.instructions, p.qualityAssurance.instructions]
         == [instr.vision, instr.expert, instr.promptEngineer, instr.qualityAssurance]
  {
    var p := FixedPipeline(instr);
    var agents := [p.vision, p.expert, p.promptEngineer, p.qualityAssurance];
    assert StandardDeployment[4] != PremiumDeployment[4];
    forall i, j | 0 <= i < j < 4 ensures agents[i].name != agents[j].name {
      assert agents[i].name[0] != agents[j].name[0] || |agents[i].name| != |agents[j].name|;
    }
  }

  /** The fields of the pipeline's `final_output`; confidence in hundredths. */
  datatype FinalFields = FinalFields(
    architecturalAnalysis: string,
    expertConsultation: string,
    optimizedPrompt: string,
    qualityReview: string,
    confidence: nat)

  /** The pipeline's result: each stage's reply and the final output, or the
      error record of the `except` branch. */
  datatype PipelineResult =
    | Completed(visionAnalysis: Option<string>, architecturalConsultation: string,
                fluxPrompt: string, finalOutput: FinalFields)
    | Failed(error: string, finalOutput: FinalFields)

  const ErrorOccurred: string := "Error occurred during processing"

  /** The record returned when the pipeline raises: zero confidence, and the
      user's message handed back as the prompt. */
  function FailedResult(message: string, error: string): (r: PipelineResult)
    ensures r.Failed? && r.error == error
    ensures r.finalOutput.confidence == 0 && r.finalOutput.optimizedPrompt == message
    ensures r.finalOutput.architecturalAnalysis == r.finalOutput.expertConsultation
            == r.finalOutput.qualityReview == ErrorOccurred
  {
    Failed(error, FinalFields(ErrorOccurred, ErrorOccurred, message, ErrorOccurred, 0))
  }

  /** A labelled stage output as it is added to the running context. */
  function ContextBlock(heading: string, output: string): string
  {
    heading + ": " + output + "\n\n"
  }

  /** The context after the vision stage: its block, or nothing without images. */
  function VisionContext(vision: Option<string>): string
  {
    match vision
    case Some(v) => ContextBlock("Vision Analysis", v)
    case None => ""
  }

  /** `FixedAzureOrchestrator.process_request`: vision (only with images),
      consultation, prompt engineering and quality review, in that order,
      each stage seeing the blocks of all earlier stages in its context. */
  method RunPipeline(instr: PipelineInstructions, message: string, images: seq<Image>, chat: Chat, encode: Encoder)
    returns (r: PipelineResult)
    ensures r.Completed?
    ensures r.visionAnalysis.Some? <==> |images| > 0
    ensures r.visionAnalysis.Some? ==>
      r.visionAnalysis.value == AgentReply(FixedPipeline(instr).vision,
        "Analyze these architectural images and provide detailed insights: " + message, images, "", chat, encode)
    ensures var context1 := VisionContext(r.visionAnalysis);
      && r.architecturalConsultation == AgentReply(FixedPipeline(instr).expert, message, [], context1, chat, encode)
      && var context2 := context1 + ContextBlock("Architectural Expert", r.architecturalConsultation);
         && r.fluxPrompt == AgentReply(FixedPipeline(instr).promptEngineer,
              "Create an optimized FLUX prompt for: " + message, [], context2, chat, encode)
         && var context3 := context2 + ContextBlock("FLUX Prompt", r.fluxPrompt);
            r.finalOutput.qualityReview == AgentReply(FixedPipeline(instr).qualityAssurance,
              "Review and enhance this architectural consultation: " + message, [], context3, chat, encode)
    ensures r.finalOutput.architecturalAnalysis == (if |images| > 0 then r.visionAnalysis.value else "")
    ensures r.finalOutput.expertConsultation == r.architecturalConsultation
    ensures r.finalOutput.optimizedPrompt == r.fluxPrompt
    ensures r.finalOutput.confidence == 90
  {
    var p := FixedPipeline(instr);
    var context := "";
    var vision: Option<string> := None;
    if |images| > 0 {
      var v := ProcessRequest(p.vision,
        "Analyze these architectural images and provide detailed insights: " + message, images, "", chat, encode);
      vision := Some(v);
      context := context + ContextBlock("Vision Analysis", v);
    }
    assert context == VisionContext(vision);
    var arch := ProcessRequest(p.expert, message, [], context, chat, encode);
    context := context + ContextBlock("Architectural Expert", arch);
    var prompt := ProcessRequest(p.promptEngineer, "Create an optimized FLUX prompt for: " + message, [], context, chat, encode);
    context := context + ContextBlock("FLUX Prompt", prompt);
    var qa := ProcessRequest(p.qualityAssurance,
      "Review and enhance this architectural consultation: " + message, [], context, chat, encode);
    var analysis := if vision.Some? then vision.value else "";
    r := Completed(vision, arch, prompt, FinalFields(analysis, arch, prompt, qa, 90));
  }
}
