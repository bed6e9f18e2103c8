# Z3 DSL program generation: schema normalisation and reply extraction

This project models the part of the proof-of-thought reasoner that produces the
JSON program handed to the Z3 DSL interpreter:

- **The structured-output schema** (`z3dsl/reasoning/structured_program.py`).
  Each pydantic record is a closed Dafny datatype, with its defaults: `None` for
  optional fields, the empty list for list fields, and `value := true` for a
  knowledge assertion. A record lists its fields in declaration order, and
  `DumpModel` is `model_dump(exclude_none=True)` over that list.
  `StructuredProgram.DslDict` is the dictionary `to_dsl_dict` builds.
  `StructuredProgram.ToDslDict` is the method that builds it the way the source
  does, with the knowledge-base loop in `KnowledgeEntries`. Three schema field
  names are Dafny keywords, so they are renamed in the datatypes: `type` becomes
  `sortType` (sorts) and `direction` (objectives); `forall` and `exists` become
  `forallVars` and `existsVars`. The dumped keys keep the schema's names.
- **The generator** (`z3dsl/reasoning/program_generator.py`).
  - `Z3ProgramGenerator` is a datatype: its client and model name are set once
    and never change.
  - The message builders, `_extract_json`, `_call_structured_api`, `generate`
    and `generate_with_feedback` are functions.
  - The model client (`LlmClient`) and the library calls (`Library`:
    `build_prompt`, `json.loads`, `model_dump_json`) are function parameters.
  - The two regular expressions of `_extract_json` are modelled as scans
    (`FindFence`, `FindBraces`). Declarative predicates (`FenceMatch`,
    `GreedyBraces`) state what each pattern matches. The scans are proved to
    return the match `re.search` returns: the leftmost start, then the
    shortest lazy body or the longest greedy body.
  - `\s` is Python's Unicode whitespace class.

JSON values are the datatype `JsonValue.Value`. Python's truth test (`if x:`) is
`JsonValue.Truthy`.

## Model

| member | source | states |
|---|---|---|
| `StructuredOutput.DumpModel` | z3dsl/reasoning/structured_program.py:156-157 | a key is in the dump exactly when some field has that name and its value is not None; each such key maps to that field's value |
| `StructuredOutput.SortDefinition.Dump` | z3dsl/reasoning/structured_program.py:11-19 | keys are among name, type, values, description; name and type always present; values and description present exactly when set; values dumped as the string list |
| `StructuredOutput.FunctionDefinition.Dump` | z3dsl/reasoning/structured_program.py:22-30 | name, domain (as the string list) and range always present; description exactly when set; no other key |
| `StructuredOutput.VariableDefinition.Dump` | z3dsl/reasoning/structured_program.py:33-40 | name and sort always present; description exactly when set; no other key |
| `StructuredOutput.KnowledgeAssertion.Dump` | z3dsl/reasoning/structured_program.py:43-50 | assertion and value always present (value is a bool, never None); description exactly when set |
| `StructuredOutput.QuantifiedVariable.Dump` | z3dsl/reasoning/structured_program.py:56-62 | exactly the keys name and sort, holding the two strings |
| `StructuredOutput.RuleImplication.Dump` | z3dsl/reasoning/structured_program.py:65-71 | exactly the keys antecedent and consequent, holding the two strings |
| `StructuredOutput.RuleDefinition.Dump` | z3dsl/reasoning/structured_program.py:74-83 | each of name, forall, implies, constraint, description is present exactly when set, and no other key; forall is the list of variable dumps in order; implies is the nested dump |
| `StructuredOutput.VerificationImplication.Dump` | z3dsl/reasoning/structured_program.py:86-92 | exactly the keys antecedent and consequent, holding the two strings |
| `StructuredOutput.VerificationDefinition.Dump` | z3dsl/reasoning/structured_program.py:95-105 | each of name, constraint, exists, forall, implies, description is present exactly when set, and no other key; binder lists and implication dumped recursively |
| `StructuredOutput.ParseDirection` | z3dsl/reasoning/structured_program.py:111 | the objective type literal accepts exactly "maximize" and "minimize", and the accepted direction's name is the text given |
| `StructuredOutput.DirectionRoundTrip` | z3dsl/reasoning/structured_program.py:111 | every direction's name is "maximize" or "minimize" and parses back to the same direction |
| `StructuredOutput.ObjectiveDefinition.Dump` | z3dsl/reasoning/structured_program.py:108-114 | exactly the keys type and expression; type is "maximize" or "minimize" and parses back to the objective's direction |
| `StructuredOutput.OptimizationConfig.Dump` | z3dsl/reasoning/structured_program.py:117-125 | variables, constraints and objectives are always present, even when empty, as element-wise dumps; description exactly when set |
| `StructuredOutput.Members.Dump` | z3dsl/reasoning/structured_program.py:132 | a member list becomes the string array; a member dictionary becomes an object with the same keys, each holding its string |
| `StructuredOutput.ConstantDefinition.Dump` | z3dsl/reasoning/structured_program.py:128-135 | sort and members always present (members as above); description exactly when set; no other key |
| `StructuredOutput.StructuredProgram.DslDict` | z3dsl/reasoning/structured_program.py:175-190 | the keys are exactly sorts, functions, constants, variables, knowledge_base, rules, verifications and actions, plus optimization exactly when it is set; optimization holds its dump |
| `StructuredOutput.StructuredProgram.ToDslDict` | z3dsl/reasoning/structured_program.py:153-192 | the dictionary built step by step, with the knowledge-base loop and the conditional optimization insertion, equals `DslDict` |
| `StructuredOutput.KnowledgeEntries` | z3dsl/reasoning/structured_program.py:163-168 | the loop yields one entry per knowledge entry, in order; a plain string is kept unchanged and an assertion becomes its dump |
| `StructuredOutput.ActionsDefault` | z3dsl/reasoning/structured_program.py:173 | with no actions the output actions are exactly ["verify_conditions"]; otherwise they are the program's actions, same length and order |
| `StructuredOutput.SectionsElementwise` | z3dsl/reasoning/structured_program.py:159-171 | sorts, functions, variables, rules and verifications each keep the input's length and order, element i being the dump of input element i |
| `StructuredOutput.KnowledgeElementwise` | z3dsl/reasoning/structured_program.py:163-168 | the knowledge_base section keeps length and order; strings pass through, assertions are dumped |
| `StructuredOutput.ConstantsKeys` | z3dsl/reasoning/structured_program.py:178-181 | the constants object has exactly the program's group names as keys, each holding that group's dump |
| `StructuredOutput.AssertionValueDefault` | z3dsl/reasoning/structured_program.py:46-47 | an assertion built without a truth value is dumped with "value": true |
| `ProgramGenerator.SkipSpaces` | z3dsl/reasoning/program_generator.py:228 | a greedy `\s*`: the returned position ends a run of whitespace and is the end of the text or a non-space character |
| `ProgramGenerator.FindClose` | z3dsl/reasoning/program_generator.py:228 | the lazy `[\s\S]*?\}\s*```: the first brace at or after the start that is followed by optional whitespace and a closing fence, or None when no brace is |
| `ProgramGenerator.MatchAt` | z3dsl/reasoning/program_generator.py:228-229 | a fenced match starting exactly at the given position, with the shortest group; None exactly when no fenced match starts there |
| `ProgramGenerator.FindFenceFrom` | z3dsl/reasoning/program_generator.py:228-229 | the leftmost fenced match at or after a position, with its shortest group; None exactly when there is none |
| `ProgramGenerator.FindFence` | z3dsl/reasoning/program_generator.py:229 | a found group lies inside the text, opening brace before closing brace |
| `ProgramGenerator.FirstIndexOf` | z3dsl/reasoning/program_generator.py:243 | the first occurrence of a character from a position, or None when there is none |
| `ProgramGenerator.LastIndexOf` | z3dsl/reasoning/program_generator.py:243 | the last occurrence of a character before a position, or None when there is none |
| `ProgramGenerator.FindBraces` | z3dsl/reasoning/program_generator.py:242-243 | the greedy brace match runs from the first "{" to the last "}"; None exactly when no "}" follows a "{" |
| `ProgramGenerator.Z3ProgramGenerator.InitialMessages` | z3dsl/reasoning/program_generator.py:198-204 | exactly two messages: system with the fixed structured prompt, then user with the prompt |
| `ProgramGenerator.Z3ProgramGenerator.FeedbackMessages` | z3dsl/reasoning/program_generator.py:206-216 | exactly four messages: the two initial messages, then assistant with the previous response, then user with the feedback |
| `ProgramGenerator.Z3ProgramGenerator.ExtractJson` | z3dsl/reasoning/program_generator.py:218-249 | any result is the decoding of a substring that starts with "{" and ends with "}" |
| `ProgramGenerator.Z3ProgramGenerator.ExtractFenced` | z3dsl/reasoning/program_generator.py:228-237 | with a fenced match, the result is the decoding of the shortest group after the leftmost fence; a decode failure there gives None, with no fallback |
| `ProgramGenerator.Z3ProgramGenerator.ExtractUnfenced` | z3dsl/reasoning/program_generator.py:239-245 | without a fenced match, the result is the decoding of the text from the first "{" to the last "}" inclusive |
| `ProgramGenerator.Z3ProgramGenerator.ExtractNothing` | z3dsl/reasoning/program_generator.py:240-249 | without a fenced match and with no "}" after a "{", the result is None |
| `ProgramGenerator.Z3ProgramGenerator.CallStructuredApi` | z3dsl/reasoning/program_generator.py:149-184 | None when the client has no parse API, when parse raises, or when nothing was parsed; otherwise the parsed program's interpreter dictionary and its JSON text, a non-empty dictionary holding all eight sections |
| `ProgramGenerator.Z3ProgramGenerator.Respond` | z3dsl/reasoning/program_generator.py:63-91 | every outcome is consistent: success exactly when a program is returned, exactly when there is no error, and a returned program is truthy |
| `ProgramGenerator.Z3ProgramGenerator.Generate` | z3dsl/reasoning/program_generator.py:44-91 | a consistent result, obtained by sending the two initial messages built from the prompt, with "Failed to extract valid JSON from response" as the extraction error |
| `ProgramGenerator.Z3ProgramGenerator.GenerateWithFeedback` | z3dsl/reasoning/program_generator.py:93-147 | a consistent result, obtained by sending the four feedback messages (the feedback text wraps the error trace), with "Failed to extract valid JSON from feedback response" as the extraction error |
| `ProgramGenerator.Z3ProgramGenerator.StructuredFirst` | z3dsl/reasoning/program_generator.py:64-67 | when the structured API yields a program, the result is success with that program and its JSON text, and replacing the chat API changes nothing |
| `ProgramGenerator.Z3ProgramGenerator.ChatRaisedFails` | z3dsl/reasoning/program_generator.py:70-79 | when the chat call raises, the result is failure with no program, raw response "" and the exception text as error |
| `ProgramGenerator.Z3ProgramGenerator.ReplyExtracted` | z3dsl/reasoning/program_generator.py:81-91 | a chat reply is kept as the raw response; success exactly when extraction yields a truthy value, which is then the program; otherwise the fixed extraction error |
| `ProgramGenerator.Z3ProgramGenerator.EmptyObjectFails` | z3dsl/reasoning/program_generator.py:82 | a reply "{}" that decodes to the empty object is reported as failure, because the empty dictionary is falsy |

## Left out

- Dictionary key order: dictionaries are Dafny maps. Python's insertion order, which `model_dump_json` and `json.dumps` would follow, is not modelled.
- pydantic validation and coercion of model replies into the schema records. Records are taken as already valid; only the objective-type literal check (`ParseDirection`) is modelled.
- `json.loads`, `model_dump_json` and `build_prompt` are parameters (`Library`). `json.loads` returns None where it raises `JSONDecodeError`. The prompt template is not part of this model.
- The model client is a parameter (`LlmClient`) with one answer per request. Its nondeterminism across calls, and the network behind it, are not modelled. A chat reply whose `content` is None makes Python's `re.search` raise outside any handler; the model does not cover that case, because a reply's content is always a string here.
- Exceptions the source does not catch, such as `to_dsl_dict` or `model_dump_json` raising inside `_call_structured_api`, are not modelled.
- Temperature is passed through as a `real`. JSON numbers are integers only, so floats are not modelled.
- Logging calls have no behavioural content and are omitted.
- The interpreter, solver and verifier modules that consume the program are not part of this model. `z3dsl/__init__.py` only re-exports names.
- `examples/with_second_llm_verification.py` and `examples/bench_strategyqa.py` are left out. They are scripts around network calls, temporary files, thread pools and metric printing.
