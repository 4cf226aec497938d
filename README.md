# Prompt-optimisation LLM utilities in Dafny

This project models the helper layer in `src/utils/llm_utils.py` that calls a large
language model and cleans up its replies:

- **`extract_answer`** (module `AnswerExtractor`). It returns the text between the first
  `<tag>` and the nearest `</tag>` after it, which is what
  `re.search('<tag>(.*?)</tag>', text, re.DOTALL)` reports. If there is no such pair it
  returns `None`. The model is a search over `seq<char>` (`Strings.FindFrom`). It is proved
  equal to a declarative description of the regular-expression match: the leftmost start
  that can succeed, then the shortest group.
- **`converse_api_call_no_tool`** (module `Conversation`). This is imperative code, and the
  model keeps that shape:
  - `History` is a class whose `turns` are appended to in place. As in the source, a
    non-empty caller history is extended itself, and an empty one is replaced by a fresh list.
  - `Client` is the remote endpoint. Its replies come from an oracle fixed up front: the
    reply to the `n`-th request it receives is `reply(n, request)`. It logs every request
    in `sent`.
  - The method builds the messages and sends the main request. It joins the prefill to the
    reply and, when the result holds `<answer>`, keeps only the tag's content.
  - When `json_check` is set, `CheckJson` runs the `try` and the `while (not fixed and
    counter > 0)` repair loop. Both keep their `fixed` flag and `counter`.
  - Each method is proved against pure specification functions: `Messages`, `MainRequest`,
    `PostProcess`, `Checked` and the recursive `Repair`. Lemmas then state what those
    functions promise.
- **`get_elts_from_prompt_get_response`** (module `PromptDescriptor`). It projects six
  fields out of the nested "get prompt" response. Each Python subscript chain is a
  `Lookup` returning a `Result`. A failure carries the steps up to the one that raised.

JSON values are the datatype `JsonValue.Json`. `json.loads` and `json.dumps` are abstract
functions supplied by the caller (`JsonValue.JsonLib`). A failed `loads` is `None`.

A modelled quirk: a failed repair attempt sets `response_text` to `None`. The second and
third repair prompts therefore embed the text `None`, not the malformed JSON
(`RepairRequestsEmbed`).

## Model

| member | source | states |
|---|---|---|
| AnswerExtractor.ExtractAnswerIsRegexSearch | src/utils/llm_utils.py:28-34 | `extract_answer` is `None` exactly when no open tag is followed, at or after its end, by a close tag. Otherwise it is the group of the regex match: the leftmost possible start, then the nearest close tag after the open tag, line feeds included. |
| AnswerExtractor.RegexMatchUnique | src/utils/llm_utils.py:29-30 | At most one (start, end) pair is the match `re.search` reports, so the returned group is determined. |
| AnswerExtractor.ExtractWrapped | src/utils/llm_utils.py:28-32 | For `pre + <tag> + X + </tag> + post`, with no `<tag>` in `pre` and no `</tag>` in X, the result is exactly X. |
| AnswerExtractor.ExtractMissingClose | src/utils/llm_utils.py:29-34 | When an open tag is present but no close tag occurs anywhere, the result is `None`, not a failure. |
| Strings.ContainsSpec | src/utils/llm_utils.py:99 | The `"<answer>" in response_text` test holds exactly when the pattern occurs at some position. |
| Strings.RemoveNewlines | src/utils/llm_utils.py:108 | `replace("\n", "")` leaves no line feed, never lengthens the text, and leaves newline-free text unchanged. |
| Strings.RemoveNewlinesAppend | src/utils/llm_utils.py:151 | Removing line feeds distributes over concatenation, so a reply split anywhere is cleaned the same way. |
| PromptDescriptor.Lookup | src/utils/llm_utils.py:9-14 | A subscript chain that raises reports a non-empty prefix of its own path: the steps up to the one that raised. |
| PromptDescriptor.LookupFailsAt | src/utils/llm_utils.py:9-14 | In a failed chain every step before the reported one succeeds, and the reported step itself raises. |
| PromptDescriptor.GetEltsFromPromptGetResponse | src/utils/llm_utils.py:7-15 | The projection fails exactly when one of the six lookups raises, and it reports the first such lookup in assignment order. On success each field equals its lookup: temperature, topP and maxTokens under `variants[0].inferenceConfiguration.text`, `modelId` under `variants[0]`, and the prompt text and input variables under `variants[0].templateConfiguration.text`. |
| PromptDescriptor.MissingModelId | src/utils/llm_utils.py:12 | A response whose first variant has no `modelId` is rejected, not given a default. |
| PromptDescriptor.MissingVariants | src/utils/llm_utils.py:9 | A response with no `variants` key fails at that first subscript. |
| Conversation.History.Append | src/utils/llm_utils.py:63-73 | `message.append` adds exactly one turn at the end of the list, in place. |
| Conversation.Client.Converse | src/utils/llm_utils.py:76-91 | A `converse` call logs its request and answers with the oracle's reply for that position in the log. |
| Conversation.Messages | src/utils/llm_utils.py:50-73 | The outgoing messages are the history unchanged, then the user turn holding `json.dumps(user_input)`, then the prefill verbatim as an assistant turn, present exactly when the prefill is not empty. |
| AnswerExtractor.ExtractAnswer | src/utils/llm_utils.py:28-34 | Finds the first `<tag>`, then the first `</tag>` at or after its end, and returns the text between them, or `None` when either search fails. |
| Strings.FindFrom | src/utils/llm_utils.py:29-30 | The first position at or after `from` where the pattern occurs, or `None`; the search the pattern performs for each tag. |
| Strings.FindFromSpec | src/utils/llm_utils.py:29-30 | A found position holds the pattern, with no occurrence between `from` and it; `None` means no occurrence at or after `from`. |
| Strings.Contains | src/utils/llm_utils.py:99 | Python's `in` on strings, as a search from the start. |
| Strings.RemoveNewlinesUnit | src/utils/llm_utils.py:108 | On one character, a line feed is dropped and any other character is kept. With `RemoveNewlinesAppend` this fixes the result on every string. |
| PromptDescriptor.Select | src/utils/llm_utils.py:9-14 | One subscript: a key of a dictionary, an index of a list, or a position in a string; `None` where Python raises. |
| PromptDescriptor.FirstFailure | src/utils/llm_utils.py:9-14 | The error of the first of a list of lookups that raises, in the order the assignments run. |
| Conversation.MainRequest | src/utils/llm_utils.py:76-85 | The main `converse` request: the caller's model, the assembled messages, `maxTokens`, `temperature` and `topP` as given, and the dumped system prompt. |
| Conversation.PostProcess | src/utils/llm_utils.py:91-100 | The prefill joined to the reply text; when that holds `<answer>`, the result of `extract_answer` on it instead, `None` included. |
| Conversation.TryLoads | src/utils/llm_utils.py:107-109 | `json.loads` after dropping line feeds; `None` when it raises, including when `response_text` is `None` and `replace` raises. |
| Conversation.ParsedNullEndsAtOnce | src/utils/llm_utils.py:107-109 | An answer that parses to JSON `null` ends the JSON check with no repair request. |
| Conversation.Str | src/utils/llm_utils.py:124 | The text `format` puts in place of `{json}`: the string itself, or `None` for `None`. |
| Conversation.FixPrompt | src/utils/llm_utils.py:119-124 | The repair template, whitespace included, with that text in place of `{json}`. |
| Conversation.RepairRequest | src/utils/llm_utils.py:127-143 | A repair request: one user turn with the dumped repair prompt, `maxTokens` 4096, `temperature` 0, `topP` 0.8 and the dumped JSON-expert system prompt. |
| Conversation.Embedded | src/utils/llm_utils.py:150-156 | The `response_text` the `i`-th attempt formats: the failed answer first, and `None` after each failed attempt. |
| Conversation.RepairParse | src/utils/llm_utils.py:148-151 | The parse of the reply to the `i`-th repair request, line feeds dropped. |
| Conversation.RepairRequests | src/utils/llm_utils.py:111-156 | The first `n` repair requests, in the order they are sent: `n` of them, the `i`-th being attempt `i`'s. |
| Conversation.Repair | src/utils/llm_utils.py:111-156 | The loop from attempt `i` on: it ends at the first attempt whose reply parses, with that parse, or after attempt 3 with `None`, and counts the attempts made. |
| Conversation.Checked | src/utils/llm_utils.py:105-156 | The JSON check: the parse of the answer with no further request when it parses, otherwise the loop's result and its requests. |
| Conversation.ConverseApiCallNoTool | src/utils/llm_utils.py:38-158 | One main request with the caller's model, sampling parameters, messages and dumped system prompt. The reply is post-processed: prefill joined, then the `<answer>` extraction. Without `json_check` that text is the result after exactly one call. With it, the result and the further requests are those of `Checked`. Between 1 and 4 calls are made in all. With `json_check` the result is a parse or `None`. A non-empty caller history gains exactly the new turns; an empty one is left empty. |
| Conversation.CheckJson | src/utils/llm_utils.py:105-156 | The `try` and the repair loop send exactly the requests of `Checked` and return its result: the parse of the answer when it parses, otherwise the outcome of `Repair`. |
| Conversation.RepairStopsAtFirstParse | src/utils/llm_utils.py:111-156 | The repair loop makes at most 3 attempts. It stops at the first attempt whose line-feed-stripped reply parses and returns that parse. If none parses, it makes all 3 attempts and returns `None`. A parsed `null` is a parse here, although Python returns it as `None` too. |
| Conversation.CheckedOutcome | src/utils/llm_utils.py:105-156 | With the JSON check on, the result is a parse or `None`. No repair request is sent exactly when the answer parses; otherwise between 1 and 3 are sent. A parsing answer is returned as its parse. |
| Conversation.RepairRequestsEmbed | src/utils/llm_utils.py:118-156 | Each repair request is a fresh one-message request for the same model. Its user turn is the dumped template with the current `response_text` in place of `{json}`: the failed answer on the first attempt and `None` on every later one. |
| Conversation.PostProcessWrapped | src/utils/llm_utils.py:91-100 | When the prefill joined to the reply is `pre<answer>X</answer>post`, with no `<answer>` in `pre` and no `</answer>` in X, the post-processed text is exactly X. |
| Conversation.PostProcessUnclosed | src/utils/llm_utils.py:91-100 | An `<answer>` tag that is never closed leaves `None` as the post-processed text. |

## Left out

- `bedrock_client.converse` and `get_prompt` are calls into a remote service. `converse`
  is an oracle on the request and its position in the log, and the oracle is total. A
  request that raises, which would propagate out of the loop without using up a retry, is
  not modelled.
- The reply envelope `response['output']['message']['content'][0]['text']` is reduced to
  that one string. A reply without it would raise in Python; the model cannot produce one.
- `json.loads` and `json.dumps` are abstract functions supplied by the caller. Their
  grammar is not modelled. A failed `loads` and a `replace` called on `None` (a missing
  `</answer>`) are both a failed parse, as the bare `except` treats them.
- `load_jsonlines_file`, `save_dict_to_json` and `load_dict_from_json` (lines 19-24 and
  192-201) are file I/O.
- `retrieve_prompt_and_inference` (lines 163-188) is orchestration over the remote client
  and `str.format`. It also refers to names the file does not define.
- The `debug` flag and every `print` (lines 94-96, 101-102, 116, 154) are diagnostics
  only. `debug` is accepted and ignored.
- Temperature and topP are Python numbers passed through untouched. The model uses `real`
  values and never computes with them.
- AnswerExtractor.ExtractAnswer: a `tag` is taken as literal text. Regular-expression
  metacharacters in a caller's tag are not modelled.
- AnswerExtractor.ExtractWrapped: requires a tag without `<`, which the default `answer`
  meets.
- PromptDescriptor.Lookup: a failure does not say which Python exception it was: a
  `KeyError`, an `IndexError` or a `TypeError`. Negative indices are not modelled; the
  source uses only index 0.
- Conversation.PyValue: keeps a parse apart from Python's other values. `PyJson(JNull)` is
  Python's `None` and `PyJson(JString(s))` is the string `s`, but the model does not equate
  them.
- Conversation.ConverseApiCallNoTool: a reply of `null` returns `None` after one call. The
  source's caller cannot tell that apart from used-up repairs; the model can, because
  the result is `PyJson(JNull)` (`ParsedNullEndsAtOnce`).
- Conversation.RepairStopsAtFirstParse: its `None` means that every attempt failed. A
  repair reply of `null` is a success here, with result `PyJson(JNull)`, although Python
  returns `None` for it as well.
- The shared mutable default `conversation_history=[]` needs no model. An empty history is
  never appended to, because the call starts a fresh list instead.
