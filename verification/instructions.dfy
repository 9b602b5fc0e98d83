/**
  The configuration choices made before any message is sent: which system
  instruction the model receives, which client tools an agent gets, and which
  tool-prompt format suits the chosen model.
 */
module Instructions {
  import opened Messages

  // The built-in tool-calling prompt of the plain-chat path, split around the
  // places where the formatted date and the function definitions are spliced in.
  // The text is kept exactly as the raw string literal produces it, indentation
  // included; `\\n` is a literal backslash followed by `n`, since raw strings do
  // not process escapes.

  const TemplateBeforeDate: string :=
    "\n" +
    "                            Today Date: "

  const TemplateBeforeHeading: string :=
    "\n" +
    "                    \n" +
    "                            "

  const ToolInstructionsHeading: string := "Tool Instructions:"

  const TemplateBeforeFunctions: string :=
    "\n" +
    "                            - When user is asking a question that requires your reasoning, do not use a function call or generate functions.\n" +
    "                            - Only function call if user's intention matches the function that you have access to.\n" +
    "                            - When looking for real time information use relevant functions if available.\n" +
    "                            - Ignore previous conversation history if you are making a tool call.\n" +
    "\n" +
    "                                           \n" +
    "                            You have access to the following functions:\n" +
    "                            {"

  const TemplateAfterFunctions: string :=
    "}\n" +
    "                                      \n" +
    "                            If you decide to invoke any of the function(s), you MUST put it in the format of [func_name1(params_name1=params_value1, params_name2=params_value2...), func_name2(params)]\\n\n" +
    "                            You SHOULD NOT include any other text in the response.\n" +
    "                    \n" +
    "                            Reminder:                          \n" +
    "                            - Function calls MUST follow the specified format\n" +
    "                            - Required parameters MUST be specified\n" +
    "                            - Only call one function at a time\n" +
    "                            - Put the entire function call reply on one line\n" +
    "                            - When returning a function call, don't add anything else to your response\n" +
    "                            - When scheduling the events, make sure you set the date and time right. Use step by step reasoning for date such as next Tuesday\n" +
    "                         "

  /**
    The default plain-chat system prompt. `date` is the local time formatted as
    `yyyy-MM-dd HH:mm`; `functionDefinitions` is the rendering of the registered
    functions. Both come from outside the model.
   */
  function DefaultChatInstruction(date: string, functionDefinitions: string): (r: string)
    ensures Contains(r, ToolInstructionsHeading)
    ensures Contains(r, date)
    ensures Contains(r, functionDefinitions)
  {
    SplicedPiecesOccur(TemplateBeforeDate, date, TemplateBeforeHeading, ToolInstructionsHeading,
                       TemplateBeforeFunctions, functionDefinitions, TemplateAfterFunctions);
    TemplateBeforeDate + date + TemplateBeforeHeading + ToolInstructionsHeading
    + TemplateBeforeFunctions + functionDefinitions + TemplateAfterFunctions
  }

  /** Each spliced-in piece of a seven-part concatenation occurs in it. */
  lemma SplicedPiecesOccur(a: string, x: string, b: string, y: string, c: string, z: string, d: string)
    ensures Contains(a + x + b + y + c + z + d, x)
    ensures Contains(a + x + b + y + c + z + d, y)
    ensures Contains(a + x + b + y + c + z + d, z)
  {
    var s := a + x + b + y + c + z + d;
    assert s == a + x + (b + y + c + z + d);
    ContainsMiddle(a, x, b + y + c + z + d);
    assert s == (a + x + b) + y + (c + z + d);
    ContainsMiddle(a + x + b, y, c + z + d);
    assert s == (a + x + b + y + c) + z + d;
    ContainsMiddle(a + x + b + y + c, z, d);
  }

  /**
    The system instruction of the plain-chat path: the user's own prompt when
    they configured one, the default tool-calling prompt otherwise.
   */
  function ChatInstruction(userPrompt: string, date: string, functionDefinitions: string): (r: string)
    ensures userPrompt != "" ==> r == userPrompt
    ensures userPrompt == "" ==>
      && Contains(r, ToolInstructionsHeading)
      && Contains(r, date)
      && Contains(r, functionDefinitions)
    ensures r != ""
  {
    if userPrompt == "" then
      DefaultChatInstruction(date, functionDefinitions)
    else
      userPrompt
  }

  const AgentInstructionPrefix: string :=
    "Think step by step to decide if you need to generate a tool call based on tools available to you. If not, just answer the question. If you decide to generate function, reply with the function you only. For your reference, Today Date is "

  /** The default agent instruction, which embeds the formatted date and ends the sentence. */
  function DefaultAgentInstruction(date: string): (r: string)
    ensures Contains(r, date)
    ensures |r| > |date| && r[|r| - 1] == '.'
  {
    ContainsMiddle(AgentInstructionPrefix, date, ".");
    AgentInstructionPrefix + date + "."
  }

  /** The format in which the model is told to write its tool calls. */
  datatype ToolPromptFormat = Json | PythonList

  /** The models that only accept tool calls written as JSON. */
  const JsonFormatModels: set<string> := {
    "meta-llama/Llama-3.1-8B-Instruct",
    "meta-llama/Llama-3.2-11B-Vision-Instruct",
    "meta-llama/Llama-3.2-90B-Vision-Instruct"
  }

  function ToolPromptFormatFor(modelName: string): (f: ToolPromptFormat)
    ensures f == Json <==> modelName in JsonFormatModels
    ensures f == PythonList <==> modelName !in JsonFormatModels
  {
    if modelName == "meta-llama/Llama-3.1-8B-Instruct"
       || modelName == "meta-llama/Llama-3.2-11B-Vision-Instruct"
       || modelName == "meta-llama/Llama-3.2-90B-Vision-Instruct"
    then Json
    else PythonList
  }

  /** A client-side tool definition handed to the agent. */
  datatype ToolDef = ToolDef(name: string, description: string)

  /**
    The agent configuration. Sampling is always greedy and the tool choice is
    always automatic, so neither is carried.
   */
  datatype AgentConfig = AgentConfig(
    model: string,
    instructions: string,
    clientTools: seq<ToolDef>,
    toolPromptFormat: ToolPromptFormat,
    maxInferIters: nat,
    enableSessionPersistence: bool)

  const MaxInferIters: nat := 100

  /**
    Builds the agent configuration. `calendarTool` is the calendar-event tool
    definition; it is offered only together with the default instruction.
   */
  function CreateAgentConfig(modelName: string, userPrompt: string, date: string, calendarTool: ToolDef): (c: AgentConfig)
    ensures c.model == modelName
    ensures userPrompt != "" ==> c.instructions == userPrompt && c.clientTools == []
    ensures userPrompt == "" ==> Contains(c.instructions, date) && c.clientTools == [calendarTool]
    ensures c.instructions != ""
    ensures c.toolPromptFormat == Json <==> modelName in JsonFormatModels
    ensures c.maxInferIters == 100 && !c.enableSessionPersistence
  {
    var tools := if userPrompt == "" then [calendarTool] else [];
    var instruction :=
      if userPrompt == "" then DefaultAgentInstruction(date) else userPrompt;
    AgentConfig(modelName, instruction, tools, ToolPromptFormatFor(modelName), MaxInferIters, false)
  }
}
