# CodeGenerator prompt shim, in Dafny

`CodeGenerator.generate_code` (code_generator.py) takes a free-text request,
strips it, and works out a generation budget. It picks one of four prompt
styles ("Fill in the Middle", "Function Signature", "Comment", "Docstring"),
renders the text into that style's prompt template and hands the prompt to a
causal language model. Whatever the model decodes is written to the output
file.

This project models that pipeline as pure functions over strings and proves
what it does. The model library and its tokenizer are function-typed
parameters:

- `Model` maps a prompt and a `max_length` to a decoded string or a failure
  message.
- `TokenCount` maps a text to its number of token ids.

Modules:

- `Results`: `Option` and `Result`.
- `PyStr`: the parts of Python `str` the code relies on.
  - `isspace`/`strip()`, characterised as "the unique trimmed piece framed by
    whitespace".
  - `startswith`.
  - Slicing with negative and out-of-range bounds, which clamps instead of
    raising.
- `Prompt`: the `Style` datatype and the `prompt_methods` keys in insertion
  order. Also the classifier `_extract_prompt_type`, which returns the first
  key that the stripped input starts with, else "Fill in the Middle".
- `Templates`: the prompts built by the four `_generate_*` methods.
- `Generator`:
  - the token budget `min(n + 8000, 8000)`;
  - `generate` with `max_length = max_new_tokens + prompt tokens`;
  - the error wrapping of the three named-style methods;
  - `generate_code` up to the file write.

The model follows what the code does, including where its own comments
suggest otherwise:

- **Classifier.** It tests whether the stripped input starts with a key name
  ("Function Signature", "Comment", …). It does not look for the `def `, `# `
  or `"""` markers that the templates cut off.
  - The comments at code_generator.py:119, :124 and :129 present the
    example inputs as "Function Signature", "Comment" and "Docstring" style.
    Those inputs start with `def `, `# ` and `"""`, not with a key name, so
    they are classified as "Fill in the Middle" (`Prompt.ExampleInputsDefault`).
  - An input that does start with a key name reaches its template with part
    of that name still in the body (`Templates.ClassifiedSignature` and the
    two similar lemmas).
- **Short inputs.** Python slices clamp their bounds to the string. A cut
  longer than the input therefore leaves an empty body, and the template is
  filled around nothing (`Templates.ShortInputsEmptyBody`).
- **Token budget.** The comment at code_generator.py:58 describes a cap at
  8000 tokens. In fact `min(n + 8000, 8000)` is 8000 for every token count, so
  the budget never depends on the input (`Generator.MaxNewTokens`,
  `Generator.InputTokenCountIrrelevant`).
- **Signature template.** It keeps a trailing colon. If `def multiply(a, b):`
  reached the signature template, it would render as `def multiply(a, b)::`
  (`Templates.SignatureExample`). The classifier sends that input to
  fill-in-the-middle instead.

## Model

| member | source | states |
|---|---|---|
| PyStr.IsSpace | code_generator.py:53 | Python's whitespace set for one code point, the characters that argument-less `strip()` removes |
| PyStr.LStrip | code_generator.py:53 | the result is a suffix of the input, everything dropped is whitespace, and it does not start with whitespace |
| PyStr.RStrip | code_generator.py:53 | the result is a prefix of the input, everything dropped is whitespace, and it does not end with whitespace |
| PyStr.Strip | code_generator.py:53 | the stripped text has no whitespace at either end and is a piece of the input with nothing but whitespace around it |
| PyStr.StripUnique | code_generator.py:53 | any trimmed piece of a string that only whitespace surrounds is exactly what strip returns |
| PyStr.StripIdempotent | code_generator.py:71 | stripping a stripped text changes nothing, so the second strip in the classifier is a no-op after the one in generate_code |
| PyStr.StripSkipsLeadingSpace | code_generator.py:53 | whitespace in front of a string never changes what strip returns |
| PyStr.StripPadded | code_generator.py:84 | whitespace added around a trimmed string is exactly what strip removes again |
| PyStr.StartsWith | code_generator.py:74 | `startswith`: the prefix is no longer than the text and equals its first characters (used by every classifier lemma) |
| PyStr.ClampIndex | code_generator.py:102 | a negative slice bound counts from the end, and an out-of-range bound is clamped to the string, never an error |
| PyStr.Slice | code_generator.py:102 | the slice is never longer than the string; in-range bounds give the plain subsequence; each character comes from the clamped start onward; its length is the distance between the clamped bounds, and it is empty when they cross |
| PyStr.SliceFrom | code_generator.py:84 | `s[k:]` is a suffix of `s`: the part from `k` when `k` is in range, empty when `k` is past the end |
| PyStr.SliceInner | code_generator.py:102 | `s[k:-k]` is the middle of `s` when `s` has at least 2k characters, and empty otherwise |
| Prompt.Key | code_generator.py:16-21 | the four dictionary keys, kept in insertion order in `KeyOrder`; `KeysTrimmed`, `KeysPrefixFree` and `KeyOrderIndex` state their properties |
| Prompt.KeyOrderIndex | code_generator.py:16-21 | every style appears among the dictionary keys in insertion order |
| Prompt.FirstMatch | code_generator.py:72-75 | the position found is a key the text starts with, and no earlier key matches; when none is found, no key matches |
| Prompt.ClassifyText | code_generator.py:70-76 | the result is one of the four styles (by its type); a named style is returned only if the text starts with its key; any key the text starts with is the one returned |
| Prompt.Classify | code_generator.py:70-76 | `_extract_prompt_type` itself: strip the input, then walk the keys; `ClassifyNamedStyle`, `ClassifyDefault` and `ClassifyIgnoresWhitespace` characterise its result for every input |
| Prompt.KeysTrimmed | code_generator.py:73 | no key has surrounding whitespace, so stripping the key before the prefix test changes nothing |
| Prompt.KeysPrefixFree | code_generator.py:16-21 | no key is a prefix of another key |
| Prompt.KeyMatchUnique | code_generator.py:72-75 | at most one key can start a given text |
| Prompt.ClassifyNamedStyle | code_generator.py:72-75 | a named style is chosen if and only if the stripped text starts with its key |
| Prompt.ClassifyDefault | code_generator.py:76 | "Fill in the Middle" is chosen if and only if the text starts with that key or with no key at all |
| Prompt.ClassifyOrderIrrelevant | code_generator.py:72 | walking the keys in any order that lists all four gives the same style as insertion order |
| Prompt.ClassifyIgnoresWhitespace | code_generator.py:71 | classifying the stripped input gives the same style as classifying the input |
| Prompt.UnnamedInputsDefault | code_generator.py:76 | any input whose first non-whitespace character is not F, C or D, whatever whitespace comes before it, falls through to "Fill in the Middle" |
| Prompt.MarkedInputsDefault | code_generator.py:115-130 | inputs that open with `<fim_prefix>`, `def `, `# ` or `"""` classify as "Fill in the Middle", whatever follows |
| Prompt.ExampleInputsDefault | code_generator.py:115-130 | all four example requests classify as "Fill in the Middle" |
| Templates.Fragment | code_generator.py:84-102 | the piece each style cuts from the input is never longer than the input |
| Templates.Body | code_generator.py:84-102 | the `signature`, `comment` or `docstring` local: the cut piece, stripped; `RenderShape` and the template lemmas say where it sits in the prompt |
| Templates.Render | code_generator.py:80-104 | the prompt each method hands to `generate`: the input itself for fill-in-the-middle, otherwise opener, body and closer; `RenderShape`, the three template lemmas and `ShortInputsEmptyBody` characterise it on every input |
| Templates.RenderShape | code_generator.py:83-104 | a named-style prompt is the template's opener and closer around a trimmed piece of the cut input that has only whitespace around it there |
| Templates.SignatureTemplate | code_generator.py:84-86 | any four leading characters are dropped, and whatever signature sits between whitespace after them becomes `def <signature>:` |
| Templates.CommentTemplate | code_generator.py:93-95 | any two leading characters are dropped, and the whitespace-framed comment after them becomes `# <comment>` plus a newline |
| Templates.DocstringTemplate | code_generator.py:102-104 | any three characters at each end are dropped, and the whitespace-framed docstring between them is wrapped in triple quotes with single spaces inside |
| Templates.ShortInputsEmptyBody | code_generator.py:84-104 | inputs of at most 4, 2 or 6 characters give `def :`, `# ` plus newline, and two triple quotes around two spaces, instead of an error |
| Templates.SignatureExample | code_generator.py:120 | the signature example keeps its own colon and gains a second one |
| Templates.DocstringExample | code_generator.py:130 | the docstring example loses its own quotes and is re-wrapped by the template |
| Templates.ClassifiedSignature | code_generator.py:84 | text that classifies as "Function Signature" reaches the template with "tion Signature" at the start of its signature |
| Templates.ClassifiedComment | code_generator.py:93 | text that classifies as "Comment" reaches the template with "mment" at the start of its comment |
| Templates.ClassifiedDocstring | code_generator.py:102 | text that classifies as "Docstring" reaches the template with "str" at the start of its docstring |
| Generator.MaxNewTokens | code_generator.py:59 | the capped budget is 8000 for every non-negative input token count |
| Generator.Generate | code_generator.py:32-48 | generation succeeds exactly when the model call does, returns its output unchanged, and otherwise fails with the model's message; the model sees the text and the budget plus the text's token count |
| Generator.RunPromptMethod | code_generator.py:80-108 | the chosen method calls the model once on its rendered prompt; named styles wrap a failure with the body they used, fill-in-the-middle passes it through |
| Generator.GenerateCode | code_generator.py:52-63 | the model is called once, on the prompt that the classified style renders from the stripped input, with max_length 8000 plus the prompt's token count; its output or failure comes back as the method returns it |
| Generator.GenerateCodeIgnoresWhitespace | code_generator.py:53 | surrounding whitespace in the request never changes the result |
| Generator.GenerateCodeAtCap | code_generator.py:56-63 | whatever the input's token count, the prompt method runs with a budget of 8000 |
| Generator.PromptTokensOnly | code_generator.py:38 | a prompt method depends on the tokenizer only through the token count of its own prompt |
| Generator.InputTokenCountIrrelevant | code_generator.py:56-59 | two tokenizers that agree on the rendered prompt give the same result, however much they disagree about the input |
| Generator.FillInTheMiddlePassesInput | code_generator.py:80-81 | a fill-in-the-middle request reaches the model as the stripped input itself, with the 8000 budget |

## Left out

- Model and tokenizer loading and device placement (code_generator.py:10-14) are calls into the model library. The model and the token counter are parameters instead.
- Tokenization, `model.generate` and `decode` (code_generator.py:32-44, 56) are not modelled. Generation is an arbitrary function from prompt and `max_length` to text or failure. Tokenization is an arbitrary count.
- Generation is assumed to be one fixed draw of the model for each prompt and `max_length`. The source passes `temperature`, `top_k` and `top_p` (code_generator.py:39-41), and whether the model library samples with them cannot be seen from this code. Lemmas that compare two runs, such as `GenerateCodeIgnoresWhitespace` and `InputTokenCountIrrelevant`, hold for that fixed draw.
- The sampling arguments `temperature`, `top_k`, `top_p` and `repetition_penalty` (code_generator.py:27-30) are fixed defaults handed to the model library, and three of them are floats. They are folded into the `Model` parameter.
- Generator.Generate: a failure of the tokenizer's `encode` at code_generator.py:32 happens outside the `try`, so it is not wrapped. The model treats token counting as total.
- One token counter stands for both `tokenizer(...)["input_ids"]` (code_generator.py:56) and `tokenizer.encode` (code_generator.py:32), because both give the same ids for a text.
- Generator.RunPromptMethod keeps the style and body that an error message names, not its formatted text. It leaves out `traceback.print_exc` (code_generator.py:45-48, 87-108), which is diagnostic output.
- The file write (code_generator.py:66-67) is output. `GenerateCode` returns the text that would be written. A failure means nothing is written.
- `.env` loading (code_generator.py:2, 6) and the module-level example script (code_generator.py:111-132) are start-up side effects. The script's inputs appear only as concrete cases in the example lemmas.
- PyStr.IsSpace follows Python's whitespace table for code points. Dafny's `char` has no surrogate-pair or encoding behaviour to model.
