# Question router: a Dafny model

The system answers a free-text question in one of two ways. A question containing
an arithmetic character goes to a symbolic math engine. Any other question goes to a
text generator, with a fixed prompt that carries the question's tag (`opinion` when
the lower-cased question mentions `think`, `feel`, `opinion` or `believe`, `factual`
otherwise). Both paths fold failures into strings with fixed prefixes, so
answering a question never raises.

The model has four modules:

- `Wrappers` (wrappers.dfy): `Option` and `Result`. An exception becomes `Err(message)`.
- `Text` (text.dfy): Python's substring test `w in s`, as a left-to-right scan proved
  equal to "occurs at some index", and `str.lower()` restricted to ASCII.
- `Classifier` (classifier.dfy): `classify_question`. The regular-expression search and
  the `any(...)` keyword test are executable scans. Each is proved equal to a
  declarative predicate (`MathSpec`, `KeywordSpec`). `Classify` is specified by those
  predicates, in the order in which `classify_question` (assignment.py) makes its checks.
- `Dispatcher` (dispatcher.dfy): `handle_math`, `handle_with_llm` and `answer_question`.
  The math engine (`sympify`, `simplify`, and `str` of the result) and the text generator
  (`client.invoke`) are function-valued parameters. Each call returns `Ok` or `Err`.

Classification is a function, so it is deterministic by construction: equal
questions always get equal tags.

## Model

| member | source | states |
|---|---|---|
| `Classifier.Classify` | assignment.py:6-17 | The tag is `Math` iff some character is a digit or one of `+ - * / ^ = ( )`. It is `Opinion` iff there is no such character and some keyword occurs in the lower-cased text. It is `Factual` iff neither holds. This makes the function total, with exactly one of three tags and the math test checked first. |
| `Classifier.Name` | assignment.py:13-17 | The tag strings `math`, `opinion`, `factual`: each has at least four characters and a distinct first letter. |
| `Classifier.HasMathCharIff` | assignment.py:10-12 | The left-to-right search for a character of the class succeeds iff some index holds such a character. |
| `Classifier.MentionsAnyIff` | assignment.py:14 | `any(word in text for word in words)` holds iff some word of the list occurs at some index of the text. |
| `Classifier.LowerKeepsMathChars` | assignment.py:10-14 | Lower-casing a question neither creates nor removes a math character. |
| `Classifier.ClassifyCaseInsensitive` | assignment.py:10-17 | A question and its lower-cased form get the same tag. |
| `Classifier.MathBeatsKeyword` | assignment.py:12-15 | `"I think 3+3"` is a math question although it contains a keyword. |
| `Classifier.DigitMeansMath` | assignment.py:10-13 | `"What happened in 1969"` is a math question because of its digits. |
| `Classifier.UpperCaseKeywordIsOpinion` | assignment.py:14-15 | `"Do you BELIEVE it?"` is an opinion question: the keyword test ignores case. |
| `Text.ContainsSubstringIff` | assignment.py:14 | The substring scan finds `w` in `s` iff `s[i..i+|w|] == w` for some `i`. |
| `Text.ToLower` | assignment.py:14 | Lower-casing keeps the length and lower-cases each character where it stands. |
| `Text.LowerChar` | assignment.py:14 | A lower-cased character is never an upper-case letter; an upper-case letter becomes a lower-case one, and any other character is unchanged. |
| `Text.ToLowerIdempotent` | assignment.py:14 | Lower-casing twice is the same as lower-casing once. |
| `Dispatcher.Evaluate` | assignment.py:23-25 | Parsing and then simplifying: a parse error is returned as it is; a simplify error is returned when parsing succeeded; the outcome is a success exactly when both steps succeed, and then it is the rendering of the simplified expression. |
| `Dispatcher.Fold` | assignment.py:26-28 | Folding an outcome gives a string that starts with the success prefix and continues with the value, or starts with the error prefix and continues with the message. |
| `Dispatcher.Unfold` | assignment.py:26-28 | Reading a folded string back gives nothing exactly when neither prefix starts it. |
| `Dispatcher.UnfoldFold` | assignment.py:26-28 | When neither prefix is a prefix of the other, reading back a folded outcome returns that outcome. |
| `Dispatcher.HandleMath` | assignment.py:19-28 | The math reply always starts with `Math result: ` or `Error evaluating math: `. When parsing and simplifying both succeed, it is `Math result: ` followed by the rendered simplified expression. A parse failure gives `Error evaluating math: ` followed by the parser's message, and a simplify failure gives the same prefix followed by the simplifier's message. |
| `Dispatcher.MathReplyDecodes` | assignment.py:23-28 | The math reply determines the engine's outcome: its prefix tells success from failure, and the rest is the rendered result or the message. |
| `Dispatcher.Prompt` | assignment.py:34 | The prompt is 66 characters longer than the question and the tag together: the template text around them. |
| `Dispatcher.PromptInjective` | assignment.py:34 | Two prompts built from dispatcher tags are equal only when their questions and tags are equal. |
| `Dispatcher.HandleWithLlm` | assignment.py:30-39 | When the generator succeeds on the prompt, the reply is its response, unchanged. When it fails, the reply is `LLM error: ` followed by its message. |
| `Dispatcher.LlmReplyAmbiguous` | assignment.py:35-39 | A successful response `LLM error: m` and a failure with message `m` give the same reply, so the generator path cannot always be read back. |
| `Dispatcher.Answer` | assignment.py:41-50 | A question with a math character is answered by the math handler. A question without one is sent to the generator, tagged `opinion` when it mentions a keyword and `factual` otherwise. |
| `Dispatcher.MathAnswerIgnoresLlm` | assignment.py:47-48 | For a math question, the answer does not depend on the generator. It starts with one of the two math prefixes. |
| `Dispatcher.OtherAnswerUsesOnlyPrompt` | assignment.py:49-50 | For any other question, the answer does not depend on the math engine. It depends on the generator only through its reply to the one prompt built from the question and its tag. |

## Left out

- The interactive loop (assignment.py:52-57): reading a line, the case-insensitive `quit` check and printing are I/O.
- Building the generator client (assignment.py:3-4): the client is the `llm` parameter, and its model name and temperature are not modelled.
- `Dispatcher.HandleWithLlm`: the client samples at temperature 0.5, so asking it twice can give different replies. The `llm` parameter stands for the outcome of the one call that `answer_question` makes, not for a deterministic generator.
- What sympy does: parsing, simplification and rendering are uninterpreted parameters. The model does not know, for example, that `2+2` renders as `4`.
- `Dispatcher.Evaluate`: rendering the simplified expression (`str(result)` inside the f-string) is modelled as a call that cannot fail, although in Python an exception raised there would also be caught.
- Exception objects: `str(e)` is modelled as an opaque message string. Errors that are not `Exception`s, such as a keyboard interrupt, are not modelled; in Python they would propagate.
- `Classifier.Classify`: `\d` is read as the ASCII digits `0`-`9`, although Python's `\d` matches every Unicode decimal digit.
- `Text.ToLower`: only `A`-`Z` are lower-cased. Python's `str.lower()` also lower-cases other scripts and can change the length of a string (for example `İ`).
