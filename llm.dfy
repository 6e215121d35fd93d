/**
 * The language-model service seen from the program: a chat completion either
 * raises (network error, missing message content, ...) or yields some text.
 * The service itself is an oracle; every caller receives its replies as a
 * parameter `nat -> Reply`, the reply to the n-th call it makes.
 */
module Llm {
  datatype Reply = Raised | Text(content: string)
}
