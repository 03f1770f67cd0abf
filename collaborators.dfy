/** The two services the tools depend on and cannot see into: a language model
    and a retriever over course materials. Both are modelled as total functions
    whose result is either a value or the exception the calling tool catches.
    The prompts the tools build are long fixed texts with a few interpolated
    values; a `Prompt` keeps only those values. */
module Collaborators {

  /** The message a tool sends to the language model, by the tool that sends
      it and the values it interpolates into its fixed prompt text. */
  datatype Prompt =
    | HintPrompt(problem: string, misconception: string, level: int, levelName: string, teachingContext: string)
    | LevelPrompt(misconception: string, severity: string)
    | AnalysisPrompt(problem: string, studentWork: string, courseContext: string)
    | SynthesisPrompt(concept: string, materials: string)
    | RevelationPrompt(problem: string, correctAnswer: string, proposedResponse: string)
    | SimilarityPrompt(correctAnswer: string, proposedResponse: string)

  /** `llm.invoke(messages)`: the reply's `content`, or an exception whose
      `str(e)` is `message`. */
  datatype Completion = Reply(text: string) | Raised(message: string)

  /** `retriever.retrieve(query, k=...)`: the `page_content` of each document
      found, or an exception whose `str(e)` is `message`. */
  datatype Retrieval = Retrieved(docs: seq<string>) | RetrievalRaised(message: string)

  type Llm = Prompt -> Completion

  type Retriever = (string, int) -> Retrieval

  /** One call a tool made to a collaborator, in the order made. */
  datatype Call = Retrieve(query: string, k: int) | Invoke(prompt: Prompt)

  /** How many documents every tool asks the retriever for (`k=3`). */
  const RetrievalCount := 3
}
