# SVO protocol verification route — Dafny model

This project models the deterministic part of the SVO (Syverson–van Oorschot
logic) verification endpoint, `POST /api/v1/verify/svo`. The endpoint takes a
Mermaid protocol diagram, builds a prompt from a fixed template, adds
verification examples found by a similarity search, asks a language model for
a proof, and returns the proof once it passes the verification-output schema.
The proof is a list of typed steps.

The model has three parts:

- **The step and proof schema** (`steps.dfy`, `step_ids.dfy`). zod applies it to
  a decoded JSON value (`json.dfy`):
  - a step object needs an `id` matching `^[AGHNPCD]\d+$`;
  - its `type` is one of seven names;
  - `derivation` and `reason` are strings;
  - `rules` is a list of strings;
  - `dependencies` is an optional list of strings;
  - undeclared keys are stripped;
  - a proof is an array of such steps.

  The id pattern is written twice and proved equal. One version is a finite
  automaton, read character by character, that accepts the same strings as
  the pattern. The other is a declarative predicate.
- **Prompt assembly** (`prompt.dfy`). With no retrieved examples, the formatted
  prompt goes out as it is. Otherwise the header
  `"\n\nSimilar verification examples:\n"` is appended, then the examples'
  contents joined by newlines, in retrieval order.
- **The handler's outcome** (`route.dfy`). Every external call is a parameter,
  and a call that throws is a `None`. The possible replies are:
  - 400 "No Mermaid diagram provided" when the diagram field is falsy; the
    model is not called;
  - 500 "Failed to verify protocol" for every other failure;
  - 200 with the schema's reading of the model's output.

The schema checks each step's shape and nothing else. It does not check that
an id's letter agrees with its type. It does not check that ids are unique. It
does not check that dependencies refer to existing or earlier steps. There is
no repair loop. The model follows the code here: `Steps.NoCrossStepChecks`
exhibits an accepted proof that breaks all three rules.

Also modelled, all as the route's code behaves:

- The database client is created before the diagram check. If creating it
  fails, a missing diagram gets 500, not 400.
- A JSON body of `null` throws when it is destructured, so it gets 500.
- A body that is a non-object (a string, a number, an array) has no diagram
  field, so it gets 400.
- An error from the similarity search is only logged. The prompt then goes out
  without examples.

## Model

| member | source | states |
|---|---|---|
| `StepIds.MatchesIdPatternIff` | src/app/api/v1/verify/svo/route.ts:10 | the finite automaton for `^[AGHNPCD]\d+$` accepts an id iff it is one of the seven category letters followed by one or more ASCII digits, with nothing before or after |
| `StepIds.IdExamples` | src/app/api/v1/verify/svo/route.ts:10 | "D12" and "A0" are accepted; "", "D", "X1", "a1", "D1x", "D1" plus a newline, and a non-ASCII digit are rejected |
| `Steps.ParseStepType` | src/app/api/v1/verify/svo/route.ts:11-19 | the type enum accepts a string iff it is one of the seven names assumption, goal, hypothesis, annotation, comprehension, interpretation, derivation, and the accepted type has that name |
| `Steps.ParseName` | src/app/api/v1/verify/svo/route.ts:11-19 | every step type's name is accepted as that same type |
| `Steps.StringItems` | src/app/api/v1/verify/svo/route.ts:22-23 | the items of a string array are accepted iff every item is a string, and the result is those strings in order |
| `Steps.DependenciesField` | src/app/api/v1/verify/svo/route.ts:23 | a missing `dependencies` key is accepted as absent; a present value is accepted iff it is an array whose items are all strings (so `null` is rejected), and the accepted list is exactly those strings |
| `Steps.ValidateStep` | src/app/api/v1/verify/svo/route.ts:9-24 | a validated step always has an id matching the pattern |
| `Steps.UndeclaredKeysIgnored` | src/app/api/v1/verify/svo/route.ts:9-24 | the step schema's verdict and output depend only on the six declared keys of the object |
| `Steps.ValidateStepToJson` | src/app/api/v1/verify/svo/route.ts:9-24 | a written-out step validates to itself iff its id matches the pattern; this holds for any type, any derivation and reason string, any rules (including none), and dependencies either absent or any list of strings |
| `Steps.ValidateStepStrips` | src/app/api/v1/verify/svo/route.ts:9-24 | the validated step is exactly the declared part of the input object, decoded; other keys are stripped |
| `Steps.ValidateStepIff` | src/app/api/v1/verify/svo/route.ts:9-24 | the step schema returns `s` iff the input is an object whose declared part is `s` written out and `s`'s id matches the pattern |
| `Steps.RejectedShapes` | src/app/api/v1/verify/svo/route.ts:11-23 | a `type` outside the enum is rejected; a `null` in place of the optional `dependencies` is rejected |
| `Steps.ValidateSteps` | src/app/api/v1/verify/svo/route.ts:26 | the array schema accepts the items iff every item validates; the result has the same length, and each item's validated step sits at that item's position |
| `Steps.ValidateProof` | src/app/api/v1/verify/svo/route.ts:26 | only an array is accepted, and an accepted proof is valid (every step's id matches) |
| `Steps.ValidateProofToJson` | src/app/api/v1/verify/svo/route.ts:26 | a written-out proof validates to itself iff every step's id matches the pattern |
| `Steps.RevalidateProof` | src/app/api/v1/verify/svo/route.ts:176-177 | validating an already validated proof once more gives it back unchanged, so the route's second schema check cannot fail or alter the output parser's result |
| `Steps.EmptyProofAccepted` | src/app/api/v1/verify/svo/route.ts:26 | the empty array is an accepted proof |
| `Steps.ReorderPreservesAcceptance` | src/app/api/v1/verify/svo/route.ts:26 | two arrays with the same items as a multiset are both accepted or both rejected |
| `Steps.RemovalPreservesAcceptance` | src/app/api/v1/verify/svo/route.ts:26 | removing one item from an accepted proof gives an accepted proof: the same steps without the removed one |
| `Steps.NoCrossStepChecks` | src/app/api/v1/verify/svo/route.ts:9-26 | a proof whose id letter disagrees with its type, whose ids repeat, and whose dependencies are self or nonexistent references is accepted unchanged |
| `PromptAssembly.PromptWithExamples` | src/app/api/v1/verify/svo/route.ts:169-171 | the formatted prompt is always a prefix of the prompt sent |
| `PromptAssembly.PromptUnchangedIff` | src/app/api/v1/verify/svo/route.ts:169-171 | the prompt is sent unchanged iff the retrieved rows are missing or empty |
| `PromptAssembly.JoinAt` | src/app/api/v1/verify/svo/route.ts:170 | in `join`'s result, each element starts at its offset, followed by the separator when another element follows |
| `PromptAssembly.ExamplesInOrder` | src/app/api/v1/verify/svo/route.ts:170 | the sent prompt starts with the prompt and then the header; each example's content appears at its offset after them, in retrieval order, followed by a newline when another example follows; later examples start further on |
| `PromptAssembly.JoinLength` | src/app/api/v1/verify/svo/route.ts:170 | `join`'s result ends right after its last element, at that element's offset plus its length |
| `PromptAssembly.ExamplesEnd` | src/app/api/v1/verify/svo/route.ts:170 | with at least one example, the sent prompt ends right after the last example's content; nothing else follows it |
| `PromptAssembly.SplitJoin` | src/app/api/v1/verify/svo/route.ts:170 | splitting the newline-joined contents at newlines gives them back when there is at least one and none contains a newline |
| `PromptAssembly.ExamplesRecoverable` | src/app/api/v1/verify/svo/route.ts:170 | with examples whose contents hold no newline, the text after the prompt and header splits back into exactly the examples' contents |
| `JsonValues.FalsyValues` | src/app/api/v1/verify/svo/route.ts:134 | the values the guard treats as missing are exactly `undefined`, `null`, `false`, `0` and `""` |
| `VerifyRoute.Prepare` | src/app/api/v1/verify/svo/route.ts:130-171 | before the model is called, the handler replies 400 iff the body decodes to a non-null value with a falsy diagram and the client was created; every other early reply is the 500 failure; the prompt is sent iff the body decodes to a non-null value, the client is created, the diagram is truthy, and formatting and embedding succeed; the prompt sent is then the formatted prompt with the examples that the ten-row, unfiltered, zero-threshold search returned for the fixed query |
| `VerifyRoute.Complete` | src/app/api/v1/verify/svo/route.ts:173-179 | after the prompt is sent, the reply is 200 iff the model answered, its text decoded, and the decoded value passes the proof schema, and then it carries exactly the steps the schema returned; every other outcome is the 500 failure |
| `VerifyRoute.Post` | src/app/api/v1/verify/svo/route.ts:129-188 | the reply is 200, 400 or 500; 400 iff the body decoded to a non-null value whose diagram field is falsy and the database client was created, and then the body is "No Mermaid diagram provided" and the model is not called; 500 iff the body is "Failed to verify protocol"; 200 iff the model was called and its decoded output passes the proof schema, and then the reply carries exactly the validated steps, which form a valid proof |
| `VerifyRoute.MissingDiagramIgnoresServices` | src/app/api/v1/verify/svo/route.ts:134-139 | a missing diagram gets the same 400 reply whatever the formatter, embedding service, search, model and parser would do |
| `VerifyRoute.NoExamplesPromptUnchanged` | src/app/api/v1/verify/svo/route.ts:158-171 | the model receives the formatted prompt itself iff the search gave no rows (it failed or found none) |

## Left out

- JSON decoding of the request body (`request.json()`): the body is given already decoded, or as "not JSON".
- The output parser's extraction of JSON from the model's free text (`StructuredOutputParser.parse`) and its format instructions: the extraction is a parameter. Its schema check is modelled, being the same schema as the route's own.
- The prompt template text and its placeholder substitution (`PromptTemplate.format`): formatting is a parameter that may fail. The template is fixed text with no behaviour.
- The language model, the embedding service and the database's `match_documents` function: these are network services, so they are parameters. Embedding vectors are opaque sequences of reals. Floating point is not modelled.
- The model settings (model name, temperature 0.5, at most 10000 tokens) and the route's `config` export: configuration passed to external code.
- Console logging.
- zod's error reports: a rejection is `None`. The route discards the details and replies 500.
- PromptAssembly.Contents: a content that is neither a string nor null/undefined (JavaScript would stringify it) is not modelled; contents are strings or missing.
- A model reply whose content is not a string (`response.content as string`) is covered only through the parameter's failure case.
- Strings: JavaScript strings are sequences of UTF-16 code units, while a Dafny `string` holds Unicode scalar values. So a decoded string holding a lone surrogate (JSON `"\ud800"`) cannot be represented. `z.string()` would accept one in `derivation` or `reason`. The offsets in `PromptAssembly.ExamplesInOrder` and `PromptAssembly.JoinAt` count characters as Dafny sequence indices, not JavaScript string indices; the two differ for characters outside the Basic Multilingual Plane.
- VerifyRoute.DiagramField models reading only the `mermaidDiagram` key. No JSON value's prototype defines this key, so it is an own-key lookup; general JavaScript property access (`length`, array indices, inherited keys) is not modelled.
- JSON numbers are reals. Only zero matters to the route, for truthiness.
- src/lib/schema.ts, src/lib/supabase.ts, src/app/api/v1/train/route.ts, the pages and the upload component are not part of this model. They hold data shapes without operations, client construction, a logging-only upload handler, and UI.
- No chunker, vector-store filtering or ordering, cross-reference check or repair loop exists in this code, so none is modelled.
