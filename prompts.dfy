/** The instruction templates the buttons put in front of the user's text
    (`Prompts` in the source). Each template is the concatenation of its
    sentences, with the placeholder and the closing blank lines as
    constants of their own; the value of each is the source's literal. */
module Prompts {
  /** The end of every template but PERSONALITY: a blank line. */
  const BlankLine := "\n\n"
  /** The end of PERSONALITY: three blank lines. */
  const ThreeBlankLines := "\n\n\n\n"

  /** PROOFREAD. */
  const ProofreadTask :=
    "Your first task "
    + "is to correct "
    + "spelling & "
    + "grammar of the "
    + "proceeding "
    + "text. "
  const ProofreadLimits :=
    "Your second "
    + "task is to keep "
    + "it concise. "
    + "Respond in the "
    + "same language. "
    + "Don't fix facts "
    + "and "
    + "inaccuracies. "
  const ProofreadOutput :=
    "Respond only "
    + "with corrected, "
    + "concise plain "
    + "text (don't "
    + "prepend or "
    + "append any "
    + "extra "
    + "context)."
  const Proofread := ProofreadTask + ProofreadLimits + ProofreadOutput + BlankLine

  /** SHORTEN; note the two spaces before "Respond only". */
  const ShortenTask :=
    "Your task is to "
    + "reduce the "
    + "length of the "
    + "following text "
    + "by half. "
  const ShortenStyle :=
    "Use acronyms "
    + "and "
    + "abbreviations "
    + "where "
    + "appropriate. "
    + "Respond in the "
    + "same language.  "
  const ShortenOutput :=
    "Respond only "
    + "with shortened, "
    + "concise plain "
    + "text."
  const Shorten := ShortenTask + ShortenStyle + ShortenOutput + BlankLine

  /** TRANSLATE, around its placeholder. */
  const LanguageToken := "{TARGET_LANGUAGE}"
  const TranslateHead :=
    "Translate the "
    + "following text "
    + "to "
  const TranslateTail :=
    ". Maintain the "
    + "original "
    + "meaning and "
    + "tone. Respond "
    + "only with the "
    + "translated "
    + "text."
  const Translate := TranslateHead + LanguageToken + TranslateTail + BlankLine

  /** PERSONALITY, around its placeholder. */
  const CharacterToken := "{TARGET_CHARACTER}"
  const PersonalityHead :=
    "With this "
    + "character "
    + "accent and "
    + "personality "
    + "stereotype:\n"
  const PersonalityRule :=
    "\nRule: Reply "
    + "with only the "
    + "rewritten text, "
    + "don't output "
    + "the name of the "
    + "character.\n"
  const PersonalityTask :=
    " Task: Rewrite "
    + "as a condensed, "
    + "exaggerated "
    + "caricature "
    + "version of the "
    + "following "
    + "text:"
  const PersonalityTail := PersonalityRule + PersonalityTask + ThreeBlankLines
  const Personality := PersonalityHead + CharacterToken + PersonalityTail
}

/** What the templates promise about their placeholders and endings. */
module PromptFacts {
  import Text
  import Prompts

  // No piece of text around or between the placeholders holds an opening brace.

  lemma ProofreadTaskLacksBrace()
    ensures '{' !in Prompts.ProofreadTask
  {
  }

  lemma ProofreadLimitsLacksBrace()
    ensures '{' !in Prompts.ProofreadLimits
  {
  }

  lemma ProofreadOutputLacksBrace()
    ensures '{' !in Prompts.ProofreadOutput
  {
  }

  lemma ShortenTaskLacksBrace()
    ensures '{' !in Prompts.ShortenTask
  {
  }

  lemma ShortenStyleLacksBrace()
    ensures '{' !in Prompts.ShortenStyle
  {
  }

  lemma ShortenOutputLacksBrace()
    ensures '{' !in Prompts.ShortenOutput
  {
  }

  lemma TranslateHeadLacksBrace()
    ensures '{' !in Prompts.TranslateHead
  {
  }

  lemma TranslateTailLacksBrace()
    ensures '{' !in Prompts.TranslateTail
  {
  }

  lemma PersonalityHeadLacksBrace()
    ensures '{' !in Prompts.PersonalityHead
  {
  }

  lemma PersonalityRuleLacksBrace()
    ensures '{' !in Prompts.PersonalityRule
  {
  }

  lemma PersonalityTaskLacksBrace()
    ensures '{' !in Prompts.PersonalityTask
  {
  }

  /** `{TARGET_LANGUAGE}` occurs in TRANSLATE exactly once. */
  lemma TranslateHasOneLanguageToken()
    ensures Text.CountOccurrences(Prompts.Translate, Prompts.LanguageToken) == 1
  {
    TranslateHeadLacksBrace();
    TranslateTailLacksBrace();
    assert '{' !in Prompts.BlankLine;
    var tail := Prompts.TranslateTail + Prompts.BlankLine;
    assert Prompts.Translate == Prompts.TranslateHead + Prompts.LanguageToken + tail;
    Text.CountSingleToken(Prompts.TranslateHead, Prompts.LanguageToken, tail);
  }

  /** `{TARGET_CHARACTER}` occurs in PERSONALITY exactly once. */
  lemma PersonalityHasOneCharacterToken()
    ensures Text.CountOccurrences(Prompts.Personality, Prompts.CharacterToken) == 1
  {
    PersonalityHeadLacksBrace();
    PersonalityRuleLacksBrace();
    PersonalityTaskLacksBrace();
    assert '{' !in Prompts.ThreeBlankLines;
    Text.CountSingleToken(Prompts.PersonalityHead, Prompts.CharacterToken, Prompts.PersonalityTail);
  }

  /** PROOFREAD and SHORTEN hold no placeholder: not even an opening brace,
      so neither placeholder token occurs in them. */
  lemma NoPlaceholderInProofreadOrShorten()
    ensures '{' !in Prompts.Proofread && '{' !in Prompts.Shorten
    ensures !Text.Contains(Prompts.Proofread, Prompts.LanguageToken) && !Text.Contains(Prompts.Proofread, Prompts.CharacterToken)
    ensures !Text.Contains(Prompts.Shorten, Prompts.LanguageToken) && !Text.Contains(Prompts.Shorten, Prompts.CharacterToken)
  {
    ProofreadTaskLacksBrace();
    ProofreadLimitsLacksBrace();
    ProofreadOutputLacksBrace();
    ShortenTaskLacksBrace();
    ShortenStyleLacksBrace();
    ShortenOutputLacksBrace();
    assert '{' !in Prompts.BlankLine;
    Text.MissingCharNotContained(Prompts.Proofread, Prompts.LanguageToken, 0);
    Text.MissingCharNotContained(Prompts.Proofread, Prompts.CharacterToken, 0);
    Text.MissingCharNotContained(Prompts.Shorten, Prompts.LanguageToken, 0);
    Text.MissingCharNotContained(Prompts.Shorten, Prompts.CharacterToken, 0);
  }

  // Appended text starts a new paragraph: three templates end with a blank
  // line, PERSONALITY with three.

  lemma ProofreadEndsWithBlankLine()
    ensures Text.EndsWith(Prompts.Proofread, "\n\n")
  {
    Text.EndsWithConcat(Prompts.ProofreadTask + Prompts.ProofreadLimits + Prompts.ProofreadOutput, Prompts.BlankLine);
  }

  lemma ShortenEndsWithBlankLine()
    ensures Text.EndsWith(Prompts.Shorten, "\n\n")
  {
    Text.EndsWithConcat(Prompts.ShortenTask + Prompts.ShortenStyle + Prompts.ShortenOutput, Prompts.BlankLine);
  }

  lemma TranslateEndsWithBlankLine()
    ensures Text.EndsWith(Prompts.Translate, "\n\n")
  {
    Text.EndsWithConcat(Prompts.TranslateHead + Prompts.LanguageToken + Prompts.TranslateTail, Prompts.BlankLine);
  }

  lemma PersonalityEndsWithThreeBlankLines()
    ensures Text.EndsWith(Prompts.Personality, "\n\n\n\n")
  {
    var front := Prompts.PersonalityHead + Prompts.CharacterToken + (Prompts.PersonalityRule + Prompts.PersonalityTask);
    assert Prompts.Personality == front + Prompts.ThreeBlankLines;
    Text.EndsWithConcat(front, Prompts.ThreeBlankLines);
  }
}
