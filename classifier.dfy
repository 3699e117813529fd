/** The question classifier of assignment.py: a character test for arithmetic,
    then a keyword test on the lower-cased text, then the fallback. */
module Classifier {
  import opened Text

  /** The three tags a question can receive. */
  datatype Category = Math | Opinion | Factual

  /** The tag as `classify_question` spells it; it is what the prompt template receives. */
  function Name(c: Category): (t: string)
    ensures |t| >= 4
    ensures t[0] == (match c case Math => 'm' case Opinion => 'o' case Factual => 'f')
  {
    match c
    case Math => "math"
    case Opinion => "opinion"
    case Factual => "factual"
  }

  /** Members of the character class `[\d+\-*\/^=()]`, with `\d` read as ASCII digits. */
  predicate IsMathChar(c: char) {
    '0' <= c <= '9' || c == '+' || c == '-' || c == '*' || c == '/'
    || c == '^' || c == '=' || c == '(' || c == ')'
  }

  /** The words whose presence makes a question an opinion question, in the order `classify_question` lists them. */
  const Keywords: seq<string> := ["think", "feel", "opinion", "believe"]

  /** Some character of `q` belongs to the arithmetic character class. */
  ghost predicate MathSpec(q: string) {
    exists i :: 0 <= i < |q| && IsMathChar(q[i])
  }

  /** Some keyword occurs in the lower-cased text of `q`. */
  ghost predicate KeywordSpec(q: string) {
    exists k, i :: 0 <= k < |Keywords| && OccursAt(ToLower(q), Keywords[k], i)
  }

  /** The regular-expression search: scan left to right for a math character. */
  predicate HasMathChar(s: string) {
    |s| > 0 && (IsMathChar(s[0]) || HasMathChar(s[1..]))
  }

  lemma {:induction false} HasMathCharIff(s: string)
    ensures HasMathChar(s) <==> MathSpec(s)
  {
    if |s| > 0 {
      HasMathCharIff(s[1..]);
      if MathSpec(s[1..]) {
        var i :| 0 <= i < |s[1..]| && IsMathChar(s[1..][i]);
        assert IsMathChar(s[i + 1]);
      }
      if MathSpec(s) && !IsMathChar(s[0]) {
        var i :| 0 <= i < |s| && IsMathChar(s[i]);
        assert IsMathChar(s[1..][i - 1]);
      }
    }
  }

  /** The `any(word in text for word in words)` generator: some word of `words` is in `text`. */
  predicate MentionsAny(text: string, words: seq<string>) {
    |words| > 0 && (ContainsSubstring(text, words[0]) || MentionsAny(text, words[1..]))
  }

  lemma {:induction false} MentionsAnyIff(text: string, words: seq<string>)
    ensures MentionsAny(text, words) <==> exists k, i :: 0 <= k < |words| && OccursAt(text, words[k], i)
  {
    if |words| > 0 {
      ContainsSubstringIff(text, words[0]);
      MentionsAnyIff(text, words[1..]);
      if exists k, i :: 0 <= k < |words[1..]| && OccursAt(text, words[1..][k], i) {
        var k, i :| 0 <= k < |words[1..]| && OccursAt(text, words[1..][k], i);
        assert OccursAt(text, words[k + 1], i);
      }
      if exists k, i :: 0 <= k < |words| && OccursAt(text, words[k], i) {
        var k, i :| 0 <= k < |words| && OccursAt(text, words[k], i);
        if k > 0 {
          assert OccursAt(text, words[1..][k - 1], i);
        }
      }
    }
  }

  /** `classify_question`: the math test first, then the keyword test, else factual. */
  function Classify(q: string): (c: Category)
    ensures c == Math <==> MathSpec(q)
    ensures c == Opinion <==> !MathSpec(q) && KeywordSpec(q)
    ensures c == Factual <==> !MathSpec(q) && !KeywordSpec(q)
  {
    HasMathCharIff(q);
    MentionsAnyIff(ToLower(q), Keywords);
    if HasMathChar(q) then Math
    else if MentionsAny(ToLower(q), Keywords) then Opinion
    else Factual
  }

  /** Lower-casing never creates or removes a math character. */
  lemma LowerKeepsMathChars(q: string)
    ensures MathSpec(ToLower(q)) <==> MathSpec(q)
  {
    var lq := ToLower(q);
    if MathSpec(q) {
      var i :| 0 <= i < |q| && IsMathChar(q[i]);
      assert lq[i] == LowerChar(q[i]);
      assert IsMathChar(lq[i]);
    }
    if MathSpec(lq) {
      var i :| 0 <= i < |lq| && IsMathChar(lq[i]);
      assert lq[i] == LowerChar(q[i]);
      assert IsMathChar(q[i]);
    }
  }

  /** The tag depends on the question only through its lower-cased text. */
  lemma ClassifyCaseInsensitive(q: string)
    ensures Classify(ToLower(q)) == Classify(q)
  {
    ToLowerIdempotent(q);
    LowerKeepsMathChars(q);
    assert KeywordSpec(ToLower(q)) == KeywordSpec(q);
  }

  /** The math test wins over the keyword test: a keyword next to an arithmetic
      sign is still a math question. */
  lemma MathBeatsKeyword()
    ensures Classify("I think 3+3") == Math
  {
    assert IsMathChar("I think 3+3"[8]);
  }

  /** An incidental digit makes a question a math question. */
  lemma DigitMeansMath()
    ensures Classify("What happened in 1969") == Math
  {
    assert IsMathChar("What happened in 1969"[17]);
  }

  /** A keyword in capitals still makes an opinion question. */
  lemma UpperCaseKeywordIsOpinion(q: string)
    requires q == "Do you BELIEVE it?"
    ensures Classify(q) == Opinion
  {
    assert forall i :: 0 <= i < |q| ==> !IsMathChar(q[i]);
    var lq := ToLower(q);
    assert lq[7] == LowerChar(q[7]) == 'b';
    assert lq[8] == 'e' && lq[9] == 'l' && lq[10] == 'i';
    assert lq[11] == 'e' && lq[12] == 'v' && lq[13] == 'e';
    assert lq[7..14] == "believe";
    assert OccursAt(lq, Keywords[3], 7);
  }
}
