/** Prompt assembly for the two user-facing operations: building a fresh
    logo prompt from a company name, a preset style and free text, and
    extending an earlier prompt with a refinement. */
module Prompt {
  import opened Wrappers
  import opened Text

  /** The fixed text around the company name in the base sentence. */
  const BaseOpen: string := "Создай логотип для компании \""
  const BaseClose: string := "\"."

  /** The literal joining an earlier prompt and its refinement. */
  const RefineSeparator: string := " Дополнительно: "

  /** Why a request was rejected before any generation was attempted. */
  datatype ValidationError =
    | MissingCompanyName      // blank company name on create
    | MissingRefinementInput  // blank earlier prompt or blank refinement

  /** The sentence naming the company that every fresh prompt starts with. */
  function BaseSentence(name: string): string {
    BaseOpen + name + BaseClose
  }

  /** How the style phrase and the custom text are appended: a space, the
      text, a full stop. */
  function Sentence(text: string): string {
    " " + text + "."
  }

  /** A style selects a phrase only when it is a non-empty key of the
      catalog; the handler tests emptiness before membership. */
  predicate IsStyle(catalog: map<string, string>, style: string) {
    style != "" && style in catalog
  }

  /** The style's contribution: its catalog phrase as a sentence, or
      nothing when the key is empty or not in the catalog. */
  function StyleSegment(catalog: map<string, string>, style: string): (r: string)
    ensures r == "" <==> !IsStyle(catalog, style)
    ensures r != "" ==> r == " " + catalog[style] + "."
  {
    if IsStyle(catalog, style) then Sentence(catalog[style]) else ""
  }

  /** The custom text's contribution: the stripped text as a sentence, or
      nothing when it is blank. */
  function CustomSegment(customPrompt: string): (r: string)
    ensures r == "" <==> IsBlank(customPrompt)
    ensures r != "" ==> r == " " + Strip(customPrompt) + "."
  {
    var c := Strip(customPrompt);
    if c == "" then "" else Sentence(c)
  }

  /** Empty, or ending in a full stop: true of every prompt part. */
  predicate EndsInFullStop(text: string) {
    text == "" || text[|text| - 1] == '.'
  }

  /** Joining two parts that end in a full stop keeps that property. */
  lemma EndsInFullStopJoin(first: string, second: string)
    requires EndsInFullStop(first) && EndsInFullStop(second)
    ensures EndsInFullStop(first + second)
  {
    if second == "" {
      assert first + second == first;
    } else {
      assert (first + second)[|first + second| - 1] == second[|second| - 1];
    }
  }

  /** Every assembled prompt starts with the base sentence, names the
      company right after the opening text, and is trimmed: it starts with
      a letter and ends in a full stop. */
  lemma AssembledPromptShape(name: string, styleSegment: string, customPrompt: string)
    requires EndsInFullStop(styleSegment)
    ensures var p := BaseSentence(name) + styleSegment + CustomSegment(customPrompt);
      && BaseSentence(name) <= p
      && p[|BaseOpen|..|BaseOpen| + |name|] == name
      && Trimmed(p) && p != ""
  {
    var base := BaseSentence(name);
    var tail := styleSegment + CustomSegment(customPrompt);
    EndsInFullStopJoin(styleSegment, CustomSegment(customPrompt));
    EndsInFullStopJoin(base, tail);
    var p := base + tail;
    assert p == BaseSentence(name) + styleSegment + CustomSegment(customPrompt);
    assert p[|p| - 1] == '.';
    assert p[0] == base[0] == 'С';
    assert base <= p;
    assert base[|BaseOpen|..|BaseOpen| + |name|] == name;
    assert p[|BaseOpen|..|BaseOpen| + |name|] == base[|BaseOpen|..|BaseOpen| + |name|];
  }

  /** The prompt the create handler sends: rejected when the company name
      is blank; otherwise the base sentence around the stripped name, then
      the style phrase, then the stripped custom text. */
  function BuildPrompt(companyName: string, customPrompt: string, catalog: map<string, string>, style: string): (r: Result<string, ValidationError>)
    ensures r.Err? <==> IsBlank(companyName)
    ensures r.Err? ==> r.error == MissingCompanyName
    ensures r.Ok? ==> BaseSentence(Strip(companyName)) <= r.value
    ensures r.Ok? ==> r.value[|BaseOpen|..|BaseOpen| + |Strip(companyName)|] == Strip(companyName)
    ensures r.Ok? ==> Trimmed(r.value) && r.value != ""
  {
    var name := Strip(companyName);
    assert name == "" <==> IsBlank(companyName);
    if name == "" then Err(MissingCompanyName)
    else
      AssembledPromptShape(name, StyleSegment(catalog, style), customPrompt);
      Ok(BaseSentence(name) + StyleSegment(catalog, style) + CustomSegment(customPrompt))
  }

  /** The prompt the refine handler sends: rejected unless both the earlier
      prompt and the refinement are non-blank; otherwise the two stripped
      texts around the separator. */
  function RefinePrompt(originalPrompt: string, refinement: string): (r: Result<string, ValidationError>)
    ensures r.Err? <==> IsBlank(originalPrompt) || IsBlank(refinement)
    ensures r.Err? ==> r.error == MissingRefinementInput
    ensures r.Ok? ==> r.value == Strip(originalPrompt) + RefineSeparator + Strip(refinement)
    ensures r.Ok? ==> Trimmed(r.value) && r.value != ""
  {
    var original := Strip(originalPrompt);
    var extra := Strip(refinement);
    if original == "" || extra == "" then Err(MissingRefinementInput)
    else
      TrimmedJoin(original, RefineSeparator, extra);
      Ok(original + RefineSeparator + extra)
  }

  /** An accepted prompt is its three parts in order. */
  lemma BuildPromptParts(companyName: string, customPrompt: string, catalog: map<string, string>, style: string)
    requires !IsBlank(companyName)
    ensures BuildPrompt(companyName, customPrompt, catalog, style)
      == Ok(BaseSentence(Strip(companyName)) + StyleSegment(catalog, style) + CustomSegment(customPrompt))
  {
  }

  /** With no catalog style and no custom text the prompt is exactly the
      base sentence around the stripped company name. */
  lemma BuildPromptPlain(companyName: string, customPrompt: string, catalog: map<string, string>, style: string)
    requires !IsBlank(companyName)
    requires IsBlank(customPrompt) && !IsStyle(catalog, style)
    ensures BuildPrompt(companyName, customPrompt, catalog, style) == Ok(BaseSentence(Strip(companyName)))
  {
    assert BaseSentence(Strip(companyName)) + "" + "" == BaseSentence(Strip(companyName));
  }

  /** An unknown or empty style key changes nothing: the prompt is the one
      built with no style at all. */
  lemma BuildPromptIgnoresUnknownStyle(companyName: string, customPrompt: string, catalog: map<string, string>, style: string)
    requires !IsStyle(catalog, style)
    ensures BuildPrompt(companyName, customPrompt, catalog, style) == BuildPrompt(companyName, customPrompt, catalog, "")
  {
  }

  /** With a catalog style and custom text the prompt is the base sentence,
      then the style phrase, then the custom text, each appended as a
      `Sentence` — the style phrase never after the custom text. */
  lemma BuildPromptOrder(companyName: string, customPrompt: string, catalog: map<string, string>, style: string)
    requires !IsBlank(companyName) && !IsBlank(customPrompt) && IsStyle(catalog, style)
    ensures BuildPrompt(companyName, customPrompt, catalog, style)
      == Ok(BaseSentence(Strip(companyName)) + Sentence(catalog[style]) + Sentence(Strip(customPrompt)))
  {
    BuildPromptParts(companyName, customPrompt, catalog, style);
  }

  /** A catalog style without custom text adds exactly its phrase, as a
      sentence, after the base sentence. */
  lemma BuildPromptStyleOnly(companyName: string, customPrompt: string, catalog: map<string, string>, style: string)
    requires !IsBlank(companyName) && IsBlank(customPrompt) && IsStyle(catalog, style)
    ensures BuildPrompt(companyName, customPrompt, catalog, style)
      == Ok(BaseSentence(Strip(companyName)) + Sentence(catalog[style]))
  {
    BuildPromptParts(companyName, customPrompt, catalog, style);
    var b := BaseSentence(Strip(companyName)) + Sentence(catalog[style]);
    assert b + "" == b;
  }

  /** Custom text without a catalog style adds exactly the stripped text,
      as a sentence, after the base sentence. */
  lemma BuildPromptCustomOnly(companyName: string, customPrompt: string, catalog: map<string, string>, style: string)
    requires !IsBlank(companyName) && !IsBlank(customPrompt) && !IsStyle(catalog, style)
    ensures BuildPrompt(companyName, customPrompt, catalog, style)
      == Ok(BaseSentence(Strip(companyName)) + Sentence(Strip(customPrompt)))
  {
    BuildPromptParts(companyName, customPrompt, catalog, style);
    var b := BaseSentence(Strip(companyName));
    assert b + "" == b;
  }

  /** Whitespace the user typed around the name or the custom text does not
      change the prompt. */
  lemma BuildPromptStripInvariant(companyName: string, customPrompt: string, catalog: map<string, string>, style: string)
    ensures BuildPrompt(companyName, customPrompt, catalog, style)
      == BuildPrompt(Strip(companyName), Strip(customPrompt), catalog, style)
  {
    StripIdempotent(companyName);
    StripIdempotent(customPrompt);
  }

  /** Whitespace around the earlier prompt or the refinement does not
      change the refined prompt. */
  lemma RefinePromptStripInvariant(originalPrompt: string, refinement: string)
    ensures RefinePrompt(originalPrompt, refinement)
      == RefinePrompt(Strip(originalPrompt), Strip(refinement))
  {
    StripIdempotent(originalPrompt);
    StripIdempotent(refinement);
  }

  /** The prompt returned by the create handler, sent back as the earlier
      prompt, is kept verbatim: the refinement is appended to it unchanged. */
  lemma RefineBuiltPrompt(companyName: string, customPrompt: string, catalog: map<string, string>, style: string, refinement: string)
    requires BuildPrompt(companyName, customPrompt, catalog, style).Ok?
    requires !IsBlank(refinement)
    ensures var p := BuildPrompt(companyName, customPrompt, catalog, style).value;
      RefinePrompt(p, refinement) == Ok(p + RefineSeparator + Strip(refinement))
  {
    StripTrimmed(BuildPrompt(companyName, customPrompt, catalog, style).value);
  }

  /** Refining a refined prompt appends a second separator and refinement
      and keeps everything before it: refinements accumulate in order. */
  lemma RefineChain(originalPrompt: string, first: string, second: string)
    requires RefinePrompt(originalPrompt, first).Ok?
    requires !IsBlank(second)
    ensures RefinePrompt(RefinePrompt(originalPrompt, first).value, second)
      == Ok(Strip(originalPrompt) + RefineSeparator + Strip(first) + RefineSeparator + Strip(second))
  {
    StripTrimmed(RefinePrompt(originalPrompt, first).value);
  }

  /** The refine prompt for a concrete pair: "Logo for X" refined with
      "make it blue". The texts are parameters fixed by the precondition so
      that the verifier reasons about their characters, not about the
      prompt functions applied to constant strings. */
  lemma RefineExamplePrompt(original: string, extra: string)
    requires original == "Logo for X" && extra == "make it blue"
    ensures RefinePrompt(original, extra) == Ok("Logo for X Дополнительно: make it blue")
  {
    ExampleInputsTrimmed(original, extra);
    ExampleJoined(original, extra);
    RefineTrimmed(original, extra);
  }

  /** Neither example text has whitespace at its ends. */
  lemma ExampleInputsTrimmed(original: string, extra: string)
    requires original == "Logo for X" && extra == "make it blue"
    ensures Trimmed(original) && original != ""
    ensures Trimmed(extra) && extra != ""
  {
    assert !IsSpace(original[0]) && !IsSpace(original[|original| - 1]);
    assert !IsSpace(extra[0]) && !IsSpace(extra[|extra| - 1]);
  }

  /** The example texts joined around the separator. */
  lemma ExampleJoined(original: string, extra: string)
    requires original == "Logo for X" && extra == "make it blue"
    ensures original + RefineSeparator + extra == "Logo for X Дополнительно: make it blue"
  {
  }

  /** Texts with nothing to strip are joined as they are. */
  lemma RefineTrimmed(originalPrompt: string, refinement: string)
    requires Trimmed(originalPrompt) && originalPrompt != ""
    requires Trimmed(refinement) && refinement != ""
    ensures RefinePrompt(originalPrompt, refinement) == Ok(originalPrompt + RefineSeparator + refinement)
  {
    StripTrimmed(originalPrompt);
    StripTrimmed(refinement);
  }
}
