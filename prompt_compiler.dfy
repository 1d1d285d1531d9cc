/**
 * The prompt compiler of the icon skill: every generation prompt is the
 * constraints preamble, one of three variant style guides and the user's
 * subject; every edit prompt restates abbreviated rules before the requested
 * change; and every prompt passes through a sanitizer that replaces the
 * banned words "petal" and "petals", in any letter case, by a neutral phrase.
 */
module PromptCompiler {
  import opened Caseless
  import opened PromptTexts

  /** The phrase every banned word is replaced by. */
  const Replacement := "rounded leaf-like form"

  /** The two orders in which Python may iterate over the banned-word set
      `{"petal", "petals"}`; which one a run uses depends on string hashing. */
  predicate IsBannedOrder(order: seq<string>) {
    order == [Petal, Petals] || order == [Petals, Petal]
  }

  // ---------------------------------------------------------------------------
  // Sanitizing
  // ---------------------------------------------------------------------------

  /** Replace every occurrence of each word in turn, in the given order. */
  function ReplaceEach(words: seq<string>, text: string): string
    requires forall k :: 0 <= k < |words| ==> |words[k]| > 0
  {
    if words == [] then text
    else ReplaceEach(words[1..], ReplaceAll(text, words[0], Replacement))
  }

  /** What `_sanitize` returns for `text` when the set is iterated in `order`. */
  function Sanitized(order: seq<string>, text: string): string
    requires IsBannedOrder(order)
  {
    ReplaceEach(order, text)
  }

  /** `_sanitize`: one case-insensitive substitution pass per banned word. */
  method Sanitize(order: seq<string>, text: string) returns (result: string)
    requires IsBannedOrder(order)
    ensures result == Sanitized(order, text)
  {
    result := text;
    for n := 0 to |order|
      invariant ReplaceEach(order[n..], result) == Sanitized(order, text)
    {
      assert order[n..][1..] == order[n + 1..];
      result := ReplaceAll(result, order[n], Replacement);
    }
  }

  lemma ReplacementIsSafe()
    ensures SafeReplacement(Replacement, Petal) && SafeReplacement(Replacement, Petals)
  {
    assert 'p' !in Replacement && 'P' !in Replacement;
  }

  /** After sanitizing, neither banned word occurs in any letter case, whichever
      order the set is iterated in. */
  lemma {:induction false} SanitizedIsClean(order: seq<string>, text: string)
    requires IsBannedOrder(order)
    ensures !Contains(Sanitized(order, text), Petal)
    ensures !Contains(Sanitized(order, text), Petals)
  {
    ReplacementIsSafe();
    assert Petals == Petal + "s";
    var first := ReplaceAll(text, order[0], Replacement);
    var second := ReplaceAll(first, order[1], Replacement);
    SanitizedTwoPasses(order, text);
    if order == [Petal, Petals] {
      ReplaceAllRemoves(text, Petal, Replacement);
      ContainsLonger(first, Petal, "s");
      ReplaceAllIdentity(first, Petals, Replacement);
    } else {
      ReplaceAllRemoves(first, Petal, Replacement);
    }
    ContainsLonger(second, Petal, "s");
  }

  lemma SanitizedTwoPasses(order: seq<string>, text: string)
    requires IsBannedOrder(order)
    ensures Sanitized(order, text)
            == ReplaceAll(ReplaceAll(text, order[0], Replacement), order[1], Replacement)
  {
    var first := ReplaceAll(text, order[0], Replacement);
    var second := ReplaceAll(first, order[1], Replacement);
    assert ReplaceEach(order, text) == ReplaceEach(order[1..], first);
    assert ReplaceEach(order[1..], first) == ReplaceEach(order[1..][1..], second);
    assert order[1..][1..] == [];
  }

  /** Text without a banned word passes through the sanitizer unchanged. */
  lemma {:induction false} SanitizedIdentity(order: seq<string>, text: string)
    requires IsBannedOrder(order) && !Contains(text, Petal)
    ensures Sanitized(order, text) == text
  {
    assert Petals == Petal + "s";
    ContainsLonger(text, Petal, "s");
    ReplaceAllIdentity(text, order[0], Replacement);
    ReplaceAllIdentity(text, order[1], Replacement);
    SanitizedTwoPasses(order, text);
  }

  /** Sanitizing twice is the same as sanitizing once. */
  lemma SanitizeIdempotent(order: seq<string>, text: string)
    requires IsBannedOrder(order)
    ensures Sanitized(order, Sanitized(order, text)) == Sanitized(order, text)
  {
    SanitizedIsClean(order, text);
    SanitizedIdentity(order, Sanitized(order, text));
  }

  lemma ReplacementClean()
    ensures !Contains(Replacement, Petal)
  {
    assert 'p' !in Replacement && 'P' !in Replacement;
    assert Petal[0] == 'p';
    forall i | 0 <= i && i + |Petal| <= |Replacement| ensures !MatchAt(Replacement, i, Petal) {
      assert Replacement[i + 0] in Replacement;
      assert !CharMatches(Replacement[i + 0], Petal[0]);
    }
  }

  /** The set's iteration order is visible in the output: "petals" becomes the
      replacement followed by "s" when "petal" is replaced first ... */
  lemma SanitizePetalFirst()
    ensures Sanitized([Petal, Petals], "petals") == Replacement + "s"
  {
    ReplacementIsSafe();
    SanitizedTwoPasses([Petal, Petals], "petals");
    assert MatchAt("petals", 0, Petal);
    assert "petals"[|Petal|..] == "s";
    assert ReplaceAll("s", Petal, Replacement) == "s";
    var first := ReplaceAll("petals", Petal, Replacement);
    assert first == Replacement + "s";
    ReplaceAllRemoves("petals", Petal, Replacement);
    assert Petals == Petal + "s";
    ContainsLonger(first, Petal, "s");
    ReplaceAllIdentity(first, Petals, Replacement);
  }

  /** ... and the bare replacement when "petals" is replaced first. */
  lemma SanitizePetalsFirst()
    ensures Sanitized([Petals, Petal], "petals") == Replacement
  {
    SanitizedTwoPasses([Petals, Petal], "petals");
    assert MatchAt("petals", 0, Petals);
    assert "petals"[|Petals|..] == [];
    var first := ReplaceAll("petals", Petals, Replacement);
    assert first == Replacement + [];
    assert first == Replacement;
    ReplacementClean();
    ReplaceAllIdentity(Replacement, Petal, Replacement);
  }

  /** Sanitizing a clean text followed by anything leaves the clean text alone. */
  lemma {:induction false} SanitizedAfterClean(order: seq<string>, a: string, b: string)
    requires IsBannedOrder(order) && Clean(a)
    ensures Sanitized(order, a + b) == a + Sanitized(order, b)
  {
    BarrierShorter(a[|a| - 1]);
    assert Petals == Petal + "s";
    ContainsLonger(a, Petal, "s");
    var first := ReplaceAll(b, order[0], Replacement);
    ReplaceAllSplit(a, b, order[0], Replacement);
    ReplaceAllIdentity(a, order[0], Replacement);
    ReplaceAllSplit(a, first, order[1], Replacement);
    ReplaceAllIdentity(a, order[1], Replacement);
    SanitizedTwoPasses(order, a + b);
    SanitizedTwoPasses(order, b);
  }

  lemma LabelsClean()
    ensures Clean("\n") && Clean(SubjectLabel) && Clean(ChangeLabel)
  {
    PieceClean("\n");
    PieceClean(SubjectLabel);
    PieceClean(ChangeLabel);
  }

  const SubjectLabel := "\n\nSUBJECT: "
  const ChangeLabel := "\n\nREQUESTED CHANGE: "

  // ---------------------------------------------------------------------------
  // Generation prompts
  // ---------------------------------------------------------------------------

  /** The fixed part of the prompt for variant `i`, before the subject. */
  function PromptHeader(i: nat): string {
    ConstraintsPreamble + "\n" + VariantGuides[i % |VariantGuides|] + SubjectLabel
  }

  /** The prompt `build_prompts` produces for variant `i` (counted from 0). */
  function Prompt(order: seq<string>, description: string, i: nat): string
    requires IsBannedOrder(order)
  {
    Sanitized(order, PromptHeader(i) + description)
  }

  lemma HeaderClean(i: nat)
    ensures Clean(PromptHeader(i))
  {
    PreambleClean();
    GuidesClean();
    LabelsClean();
    CleanJoin(ConstraintsPreamble, "\n");
    CleanJoin(ConstraintsPreamble + "\n", VariantGuides[i % |VariantGuides|]);
    CleanJoin(ConstraintsPreamble + "\n" + VariantGuides[i % |VariantGuides|], SubjectLabel);
  }

  /** Every prompt is the untouched preamble, the variant's guide and the
      subject label, followed by the sanitized description. */
  lemma PromptLayout(order: seq<string>, description: string, i: nat)
    requires IsBannedOrder(order)
    ensures Prompt(order, description, i) == PromptHeader(i) + Sanitized(order, description)
    ensures Prompt(order, description, i)[..|ConstraintsPreamble|] == ConstraintsPreamble
  {
    HeaderClean(i);
    SanitizedAfterClean(order, PromptHeader(i), description);
  }

  /** No prompt holds a banned word in any letter case. */
  lemma PromptIsClean(order: seq<string>, description: string, i: nat)
    requires IsBannedOrder(order)
    ensures !Contains(Prompt(order, description, i), Petal)
    ensures !Contains(Prompt(order, description, i), Petals)
  {
    SanitizedIsClean(order, PromptHeader(i) + description);
  }

  /** The guides repeat with period three. */
  lemma PromptCycle(order: seq<string>, description: string, i: nat)
    requires IsBannedOrder(order)
    ensures Prompt(order, description, i + 3) == Prompt(order, description, i)
  {
    assert (i + 3) % 3 == i % 3;
  }

  /** `build_prompts`: one sanitized prompt per variant, `max(num_variants, 0)` in all. */
  method BuildPrompts(order: seq<string>, description: string, numVariants: int)
    returns (prompts: seq<string>)
    requires IsBannedOrder(order)
    ensures |prompts| == if numVariants > 0 then numVariants else 0
    ensures forall i :: 0 <= i < |prompts| ==> prompts[i] == Prompt(order, description, i)
  {
    prompts := [];
    var i := 0;
    while i < numVariants
      invariant 0 <= i == |prompts|
      invariant i <= if numVariants > 0 then numVariants else 0
      invariant forall k :: 0 <= k < i ==> prompts[k] == Prompt(order, description, k)
    {
      var raw := PromptHeader(i) + description;
      var prompt := Sanitize(order, raw);
      assert prompt == Prompt(order, description, i);
      prompts := prompts + [prompt];
      i := i + 1;
    }
  }

  // ---------------------------------------------------------------------------
  // Edit prompts and the retry suffix
  // ---------------------------------------------------------------------------

  /** `build_edit_prompt`: the abbreviated rules pass through the sanitizer
      untouched, only the change request is rewritten, and the result holds no
      banned word. */
  function BuildEditPrompt(order: seq<string>, changeRequest: string): (r: string)
    requires IsBannedOrder(order)
    ensures r == AbbreviatedRules + ChangeLabel + Sanitized(order, changeRequest)
    ensures !Contains(r, Petal) && !Contains(r, Petals)
  {
    EditHeaderClean();
    SanitizedAfterClean(order, AbbreviatedRules + ChangeLabel, changeRequest);
    SanitizedIsClean(order, AbbreviatedRules + ChangeLabel + changeRequest);
    Sanitized(order, AbbreviatedRules + ChangeLabel + changeRequest)
  }

  lemma EditHeaderClean()
    ensures Clean(AbbreviatedRules + ChangeLabel)
  {
    AbbreviatedRulesClean();
    LabelsClean();
    CleanJoin(AbbreviatedRules, ChangeLabel);
  }

  /** `strengthened_suffix`: a fixed reminder that starts on a blank line and
      holds no banned word. */
  function StrengthenedSuffix(): (r: string)
    ensures Clean(r) && r[0] == '\n'
  {
    ReminderClean();
    Reminder
  }

  /** A retry prompt (a prompt with the strengthened suffix appended, which is
      not sanitized again) still holds no banned word. */
  lemma RetryPromptClean(prompt: string)
    requires !Contains(prompt, Petal)
    ensures !Contains(prompt + StrengthenedSuffix(), Petal)
    ensures !Contains(prompt + StrengthenedSuffix(), Petals)
  {
    var suffix := StrengthenedSuffix();
    assert Barrier(suffix[0], Petal) by {
      assert Petal[0] == 'p' && Petal[1] == 'e' && Petal[2] == 't' && Petal[3] == 'a' && Petal[4] == 'l';
    }
    ContainsConcat(prompt, suffix, Petal);
    assert Petals == Petal + "s";
    ContainsLonger(prompt + suffix, Petal, "s");
  }
}
