/** The handlers and the top-level `answer_question` of assignment.py.
    The symbolic math engine and the text generator are foreign: each is a
    parameter whose calls either succeed with a value or fail with the text of
    the exception they raised. */
module Dispatcher {
  import opened Wrappers
  import opened Text
  import opened Classifier

  /** The symbolic math engine, as three calls: parse a string into an
      expression (`sympify`), simplify an expression (`simplify`), and render an
      expression as text (`str`). `Expr` is the engine's own expression type. */
  datatype MathEngine<!Expr> = MathEngine(
    sympify: string -> Result<Expr, string>,
    simplify: Expr -> Result<Expr, string>,
    render: Expr -> string)

  /** The text generator: one call from a prompt to a reply or an error message. */
  type Llm = string -> Result<string, string>

  const MathOk := "Math result: "
  const MathErr := "Error evaluating math: "
  const LlmErr := "LLM error: "

  /** The body of the `try` in `handle_math`: parse, then simplify, then render;
      the first step that raises decides the message. */
  function Evaluate<Expr>(q: string, engine: MathEngine<Expr>): (r: Result<string, string>)
    ensures engine.sympify(q).Err? ==> r == Err(engine.sympify(q).error)
    ensures engine.sympify(q).Ok? && engine.simplify(engine.sympify(q).value).Err? ==>
      r == Err(engine.simplify(engine.sympify(q).value).error)
    ensures r.Ok? <==> engine.sympify(q).Ok? && engine.simplify(engine.sympify(q).value).Ok?
    ensures engine.sympify(q).Ok? && engine.simplify(engine.sympify(q).value).Ok? ==>
      r == Ok(engine.render(engine.simplify(engine.sympify(q).value).value))
  {
    match engine.sympify(q)
    case Err(m) => Err(m)
    case Ok(expr) =>
      match engine.simplify(expr)
      case Err(m) => Err(m)
      case Ok(simple) => Ok(engine.render(simple))
  }

  /** A `try`/`except` that turns an outcome into one string: the value after
      `okPrefix`, or the message after `errPrefix`. */
  function Fold(res: Result<string, string>, okPrefix: string, errPrefix: string): (r: string)
    ensures res.Ok? ==> IsPrefix(okPrefix, r) && r[|okPrefix|..] == res.value
    ensures res.Err? ==> IsPrefix(errPrefix, r) && r[|errPrefix|..] == res.error
  {
    match res
    case Ok(v) =>
      assert (okPrefix + v)[..|okPrefix|] == okPrefix;
      okPrefix + v
    case Err(m) =>
      assert (errPrefix + m)[..|errPrefix|] == errPrefix;
      errPrefix + m
  }

  /** Reads an outcome back from a folded string by its prefix. */
  function Unfold(r: string, okPrefix: string, errPrefix: string): (res: Option<Result<string, string>>)
    ensures res.None? <==> !IsPrefix(okPrefix, r) && !IsPrefix(errPrefix, r)
  {
    if IsPrefix(okPrefix, r) then Some(Ok(r[|okPrefix|..]))
    else if IsPrefix(errPrefix, r) then Some(Err(r[|errPrefix|..]))
    else None
  }

  /** A prefix of `b + m` is a prefix of `b` or has `b` as a prefix. */
  lemma PrefixOfConcat(a: string, b: string, m: string)
    ensures IsPrefix(a, b + m) ==> IsPrefix(a, b) || IsPrefix(b, a)
  {
    if !IsPrefix(a, b + m) {
    } else if |a| <= |b| {
      assert b[..|a|] == (b + m)[..|a|];
    } else {
      assert a[..|b|] == (b + m)[..|b|];
    }
  }

  /** When neither prefix starts the other, folding loses nothing. */
  lemma UnfoldFold(res: Result<string, string>, okPrefix: string, errPrefix: string)
    requires !IsPrefix(okPrefix, errPrefix) && !IsPrefix(errPrefix, okPrefix)
    ensures Unfold(Fold(res, okPrefix, errPrefix), okPrefix, errPrefix) == Some(res)
  {
    if res.Err? {
      var r := Fold(res, okPrefix, errPrefix);
      assert r == errPrefix + res.error;
      PrefixOfConcat(okPrefix, errPrefix, res.error);
    }
  }

  /** `handle_math`: never raises; reports the rendered simplified expression
      or the engine's error message under their fixed prefixes. */
  function HandleMath<Expr>(q: string, engine: MathEngine<Expr>): (r: string)
    ensures IsPrefix(MathOk, r) || IsPrefix(MathErr, r)
    ensures engine.sympify(q).Err? ==> r == MathErr + engine.sympify(q).error
    ensures engine.sympify(q).Ok? && engine.simplify(engine.sympify(q).value).Err? ==>
      r == MathErr + engine.simplify(engine.sympify(q).value).error
    ensures engine.sympify(q).Ok? && engine.simplify(engine.sympify(q).value).Ok? ==>
      r == MathOk + engine.render(engine.simplify(engine.sympify(q).value).value)
  {
    Fold(Evaluate(q, engine), MathOk, MathErr)
  }

  /** The math reply can be read back: its prefix tells success from failure and
      the rest is exactly the engine's rendering or message. */
  lemma MathReplyDecodes<Expr>(q: string, engine: MathEngine<Expr>)
    ensures Unfold(HandleMath(q, engine), MathOk, MathErr) == Some(Evaluate(q, engine))
  {
    assert MathOk[0] != MathErr[0];
    UnfoldFold(Evaluate(q, engine), MathOk, MathErr);
  }

  /** The prompt template of `handle_with_llm`. */
  function Prompt(q: string, qtype: string): (p: string)
    ensures |p| == |q| + |qtype| + 66
  {
    "Classified as " + qtype + " question. User asked: " + q + ". Provide a helpful response."
  }

  /** The generator sees enough to tell questions and tags apart: two prompts
      built from the tags the dispatcher uses are equal only when both the
      questions and the tags are. */
  lemma PromptInjective(q1: string, c1: Category, q2: string, c2: Category)
    requires Prompt(q1, Name(c1)) == Prompt(q2, Name(c2))
    ensures q1 == q2 && c1 == c2
  {
    var p1, p2 := Prompt(q1, Name(c1)), Prompt(q2, Name(c2));
    assert p1[14] == Name(c1)[0] && p2[14] == Name(c2)[0];
    assert c1 == c2;
    var n := 14 + |Name(c1)| + 23;
    assert p1[n..n + |q1|] == q1;
    assert p2[n..n + |q2|] == q2;
  }

  /** `handle_with_llm`: the reply to the prompt verbatim, or the error message
      under the `LLM error: ` prefix. */
  function HandleWithLlm(q: string, qtype: string, llm: Llm): (r: string)
    ensures llm(Prompt(q, qtype)).Ok? ==> r == llm(Prompt(q, qtype)).value
    ensures llm(Prompt(q, qtype)).Err? ==> IsPrefix(LlmErr, r) && r[|LlmErr|..] == llm(Prompt(q, qtype)).error
  {
    Fold(llm(Prompt(q, qtype)), "", LlmErr)
  }

  /** Unlike the math reply, the generator's reply cannot always be read back:
      a successful reply that happens to start with the error prefix looks like
      a failure. */
  lemma LlmReplyAmbiguous(q: string, qtype: string, llm1: Llm, llm2: Llm, m: string)
    requires llm1(Prompt(q, qtype)) == Ok(LlmErr + m)
    requires llm2(Prompt(q, qtype)) == Err(m)
    ensures HandleWithLlm(q, qtype, llm1) == HandleWithLlm(q, qtype, llm2)
  {
    var r2 := HandleWithLlm(q, qtype, llm2);
    assert r2 == r2[..|LlmErr|] + r2[|LlmErr|..];
  }

  /** `answer_question`: a question with a math character goes to the math
      handler; every other question goes to the generator, tagged "opinion"
      when it mentions a keyword and "factual" otherwise. */
  function Answer<Expr>(q: string, engine: MathEngine<Expr>, llm: Llm): (r: string)
    ensures MathSpec(q) ==> r == HandleMath(q, engine)
    ensures !MathSpec(q) && KeywordSpec(q) ==> r == HandleWithLlm(q, "opinion", llm)
    ensures !MathSpec(q) && !KeywordSpec(q) ==> r == HandleWithLlm(q, "factual", llm)
  {
    var qtype := Classify(q);
    if qtype == Math then HandleMath(q, engine)
    else HandleWithLlm(q, Name(qtype), llm)
  }

  /** A math question never reaches the generator: the answer is the same
      whatever the generator would have said. */
  lemma MathAnswerIgnoresLlm<Expr>(q: string, engine: MathEngine<Expr>, llm1: Llm, llm2: Llm)
    requires Classify(q) == Math
    ensures Answer(q, engine, llm1) == Answer(q, engine, llm2)
    ensures IsPrefix(MathOk, Answer(q, engine, llm1)) || IsPrefix(MathErr, Answer(q, engine, llm1))
  {
  }

  /** Any other question never reaches the math engine, and the generator is
      asked exactly one thing: the prompt built from the question and its tag. */
  lemma OtherAnswerUsesOnlyPrompt<E1, E2>(q: string, engine1: MathEngine<E1>, engine2: MathEngine<E2>, llm1: Llm, llm2: Llm)
    requires Classify(q) != Math
    requires llm1(Prompt(q, Name(Classify(q)))) == llm2(Prompt(q, Name(Classify(q))))
    ensures Answer(q, engine1, llm1) == Answer(q, engine2, llm2)
  {
  }
}
