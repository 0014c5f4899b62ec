/** The instruction text `buildPrompt` renders (src/index.ts:69-98). */
module Prompt {
  import opened Wrappers
  import opened Strings

  /** The three values the `tone` option can take. */
  datatype Tone = Friendly | Professional | Casual

  /** The tone table: the Spanish wording substituted for each tone. */
  function TonePhrase(t: Tone): (phrase: string)
    ensures |phrase| > 0
  {
    match t
    case Friendly => "amistoso y cálido"
    case Professional => "profesional y formal"
    case Casual => "relajado y casual"
  }

  /** Reviews are separated by a blank line. */
  const ReviewSeparator: string := "\n\n"
  const ContextLabel: string := "\nContexto adicional: "

  const TaskPrefix: string := "TAREA: Generar un resumen "
  const TaskSuffix: string := " de reseñas de clientes.\n\nRESEÑAS A RESUMIR:\n"
  const RulesHead: string :=
    "\n\nREGLAS ESTRICTAS:\n"
    + "1. Genera ÚNICAMENTE un resumen conciso de las reseñas proporcionadas\n"
    + "2. NO agregues saludos, despedidas o comentarios adicionales\n"
    + "3. NO incluyas información que no esté en las reseñas originales\n"
    + "4. Mantén un tono "
  const RuleFivePrefix: string := "\n5. Máximo "
  const RulesTail: string :=
    " caracteres\n"
    + "6. Enfócate en los puntos más mencionados por los clientes\n"
    + "7. Si hay críticas, preséntalas de manera constructiva\n"
    + "8. Usa lenguaje claro y directo\n"
    + "9. Responde SOLO con el resumen, sin texto adicional\n"
    + "\n"
    + "RESUMEN:"

  /** The context line: present only when the context is a non-empty string. */
  function ContextText(context: Option<string>): (r: string)
    ensures r == "" <==> context.None? || context.value == ""
    ensures r != "" ==> r == ContextLabel + context.value
  {
    if context.Some? && context.value != "" then ContextLabel + context.value else ""
  }

  /** The reviews, in order, joined by a blank line. */
  function ReviewsText(reviews: seq<string>): string {
    Join(reviews, ReviewSeparator)
  }

  /** Everything before the reviews: the task line with the tone, then the reviews header. */
  function Header(t: Tone): string {
    TaskPrefix + TonePhrase(t) + TaskSuffix
  }

  /** Everything after the context line: the nine rules, the tone in rule 4, the length in rule 5. */
  function Footer(t: Tone, maxCharacters: nat): string {
    RulesHead + TonePhrase(t) + RuleFivePrefix + NatToDecimal(maxCharacters) + RulesTail
  }

  /** The text between the header and the rules: the reviews, then the context line. */
  function Section(reviews: seq<string>, context: Option<string>): string {
    ReviewsText(reviews) + ContextText(context)
  }

  function BuildPrompt(tone: Tone, maxCharacters: nat, reviews: seq<string>, context: Option<string>): string {
    Header(tone) + Section(reviews, context) + Footer(tone, maxCharacters)
  }

  /** What a rendered prompt carries: the tone, the text between the header
      and the rules (reviews plus context line), and the rule-5 number. */
  datatype PromptFields = PromptFields(tone: Tone, section: string, maxCharacters: nat)

  predicate IsPrefix(p: string, s: string) {
    |p| <= |s| && s[..|p|] == p
  }

  predicate IsSuffix(p: string, s: string) {
    |p| <= |s| && s[|s| - |p|..] == p
  }

  /** The tone whose phrase follows the task-line prefix. */
  function ToneOfTaskLine(p: string): Option<Tone> {
    if IsPrefix(TaskPrefix + TonePhrase(Friendly), p) then Some(Friendly)
    else if IsPrefix(TaskPrefix + TonePhrase(Professional), p) then Some(Professional)
    else if IsPrefix(TaskPrefix + TonePhrase(Casual), p) then Some(Casual)
    else None
  }

  /** The number written at the end of `p`, just before `tail`. */
  function NumberBefore(p: string, tail: string): Option<nat> {
    if !IsSuffix(tail, p) then None
    else
      var digits := TrailingDigits(p[..|p| - |tail|]);
      if digits == "" then None else Some(ParseDecimal(digits))
  }

  /** The number written in rule 5, read from the end of the prompt. */
  function RuleFiveNumber(p: string): Option<nat> {
    NumberBefore(p, RulesTail)
  }

  /** Reads a prompt back into its fields; `None` when it is not a rendered prompt. */
  function ParsePrompt(p: string): Option<PromptFields> {
    var tone :- ToneOfTaskLine(p);
    var maxCharacters :- RuleFiveNumber(p);
    var header, footer := Header(tone), Footer(tone, maxCharacters);
    if |header| + |footer| <= |p| && IsPrefix(header, p) && IsSuffix(footer, p) then
      Some(PromptFields(tone, p[|header|..|p| - |footer|], maxCharacters))
    else
      None
  }

  /** Splitting a string at two cut points and gluing it back is the identity. */
  lemma SplitThree(p: string, i: nat, j: nat)
    requires i <= j <= |p|
    ensures p == p[..i] + p[i..j] + p[j..]
  {
  }

  /** The three pieces of `a + b + c` are read back by slicing. */
  lemma SliceThree(a: string, b: string, c: string)
    ensures (a + b + c)[..|a|] == a
    ensures (a + b + c)[|a|..|a| + |b|] == b
    ensures (a + b + c)[|a| + |b|..] == c
  {
  }

  /** Two strings that differ at position `k` are not prefixes of each other. */
  lemma NotPrefixAt(q: string, p: string, k: nat)
    requires k < |q| && k < |p| && q[k] != p[k]
    ensures !IsPrefix(q, p)
  {
    if |q| <= |p| {
      assert p[..|q|][k] == p[k];
    }
  }

  /** A prompt that parses is exactly the template around its fields:
      the tone in the task line and in rule 4, the number in rule 5. */
  lemma ParsedPromptIsRendered(p: string, f: PromptFields)
    requires ParsePrompt(p) == Some(f)
    ensures p == Header(f.tone) + f.section + Footer(f.tone, f.maxCharacters)
  {
    var h, ft := Header(f.tone), Footer(f.tone, f.maxCharacters);
    SplitThree(p, |h|, |p| - |ft|);
  }

  /** A prompt that reads back is what `BuildPrompt` renders from its fields,
      taking the section as a batch of one review and no context. */
  lemma ParsedPromptIsBuilt(p: string, f: PromptFields)
    requires ParsePrompt(p) == Some(f)
    ensures p == BuildPrompt(f.tone, f.maxCharacters, [f.section], None)
  {
    ParsedPromptIsRendered(p, f);
    assert Section([f.section], None) == f.section;
  }

  lemma Associate(x: string, y: string, z: string)
    ensures x + (y + z) == (x + y) + z
  {
  }

  lemma PrefixOfConcat(a: string, b: string)
    ensures IsPrefix(a, a + b)
  {
    assert (a + b)[..|a|] == a;
  }

  lemma LastOfConcat(a: string, b: string)
    requires |b| > 0
    ensures (a + b)[|a + b| - 1] == b[|b| - 1]
  {
  }

  /** The reader recognises exactly the tone whose phrase follows the task-line
      prefix; the phrases of the other two tones do not match there. */
  lemma TaskLineTone(t: Tone, p: string)
    requires IsPrefix(TaskPrefix + TonePhrase(t), p)
    ensures ToneOfTaskLine(p) == Some(t)
    ensures forall u :: u != t ==> !IsPrefix(TaskPrefix + TonePhrase(u), p)
  {
    var k := |TaskPrefix|;
    assert p[..k + |TonePhrase(t)|][k] == p[k];
    assert p[k] == TonePhrase(t)[0];
    forall u | u != t
      ensures !IsPrefix(TaskPrefix + TonePhrase(u), p)
    {
      var q := TaskPrefix + TonePhrase(u);
      assert q[k] == TonePhrase(u)[0];
      assert TonePhrase(u)[0] != TonePhrase(t)[0];
      NotPrefixAt(q, p, k);
    }
  }

  /** Digits written after a non-digit and before `tail` are read back. */
  lemma NumberBeforeTail(lead: string, digits: string, tail: string)
    requires |lead| > 0 && !IsDigit(lead[|lead| - 1])
    requires |digits| > 0 && AllDigits(digits)
    ensures NumberBefore(lead + digits + tail, tail) == Some(ParseDecimal(digits))
  {
    SliceThree(lead, digits, tail);
    var p := lead + digits + tail;
    assert p[..|p| - |tail|] == lead + digits;
    TrailingDigitsAfter(lead, digits);
  }

  lemma RuleFiveOfFooter(prefix: string, t: Tone, m: nat)
    ensures RuleFiveNumber(prefix + Footer(t, m)) == Some(m)
  {
    var digits := NatToDecimal(m);
    var rules := RulesHead + TonePhrase(t) + RuleFivePrefix;
    assert Footer(t, m) == (rules + digits) + RulesTail;
    Associate(prefix, rules + digits, RulesTail);
    Associate(prefix, rules, digits);
    var lead := prefix + rules;
    assert RuleFivePrefix[|RuleFivePrefix| - 1] == ' ';
    LastOfConcat(RulesHead + TonePhrase(t), RuleFivePrefix);
    LastOfConcat(prefix, rules);
    NumberBeforeTail(lead, digits, RulesTail);
    DecimalRoundTrip(m);
  }

  /** The task line, with its tone phrase, opens every prompt. */
  lemma TaskLineOpensPrompt(t: Tone, rest: string)
    ensures IsPrefix(TaskPrefix + TonePhrase(t), Header(t) + rest)
  {
    var q := TaskPrefix + TonePhrase(t);
    Associate(q, TaskSuffix, rest);
    PrefixOfConcat(q, TaskSuffix + rest);
  }

  lemma ParseOfParts(p: string, tone: Tone, section: string, m: nat)
    requires ToneOfTaskLine(p) == Some(tone) && RuleFiveNumber(p) == Some(m)
    requires p == Header(tone) + section + Footer(tone, m)
    ensures ParsePrompt(p) == Some(PromptFields(tone, section, m))
  {
    SliceThree(Header(tone), section, Footer(tone, m));
  }

  /** Rendering then parsing gives back the tone, the reviews with the
      context line, and `maxCharacters`. */
  lemma {:induction false} ParseBuildPrompt(tone: Tone, maxCharacters: nat, reviews: seq<string>, context: Option<string>)
    ensures ParsePrompt(BuildPrompt(tone, maxCharacters, reviews, context))
         == Some(PromptFields(tone, Section(reviews, context), maxCharacters))
  {
    var section := Section(reviews, context);
    var p := BuildPrompt(tone, maxCharacters, reviews, context);
    Associate(Header(tone), section, Footer(tone, maxCharacters));
    TaskLineOpensPrompt(tone, section + Footer(tone, maxCharacters));
    TaskLineTone(tone, p);
    RuleFiveOfFooter(Header(tone) + section, tone, maxCharacters);
    ParseOfParts(p, tone, section, maxCharacters);
  }
}
