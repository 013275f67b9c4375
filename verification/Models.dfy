/**
 Values shared by the scheduler, the limiters and the engine: priorities, prompts, work
 items, results and job states.
 */
module Models {

  type JobId = string

  datatype Option<+T> = None | Some(value: T)

  datatype Priority = High | Normal | Low

  datatype JobState = Pending | Running | Completed | Failed | Cancelled

  /** What a caller submits: the id is optional. */
  datatype PromptItem = PromptItem(id: Option<string>, prompt: string)

  /** A unit of work; `index` is the position of its prompt in the batch. */
  datatype WorkItem = WorkItem(index: nat, id: string, prompt: string)

  datatype InferenceResult = InferenceResult(
    id: string, prompt: string, success: bool, output: Option<string>, error: Option<string>,
    attempts: nat, inputTokens: int, outputTokens: int, cost: real)

  /** Anything the inference provider may answer: a completion, a 429 with its hint, another error. */
  datatype Outcome =
    | Completion(output: string)
    | RateLimited(retryAfter: real, reason: string)
    | Fault(message: string)

  function Max(a: int, b: int): int {
    if a >= b then a else b
  }

  function Min(a: int, b: int): int {
    if a <= b then a else b
  }

  function MinReal(a: real, b: real): real {
    if a <= b then a else b
  }

  function MaxReal(a: real, b: real): real {
    if a >= b then a else b
  }

  lemma MulLe(a: int, b: int, n: nat)
    requires a <= b
    ensures a * n <= b * n && n * a <= n * b
  {
  }

  lemma MulLeReal(a: real, b: real, c: real)
    requires a <= b && c >= 0.0
    ensures a * c <= b * c && c * a <= c * b
  {
  }

  lemma MulLtReal(a: real, b: real, c: real)
    requires a < b && c > 0.0
    ensures a * c < b * c && c * a < c * b
  {
  }
}
