/**
 * Naming conventions and session state: the filename slug, the names of
 * generated variants and of edits, and the session record kept between
 * commands, with its load-with-defaults and its two update operations.
 */
module Storage {
  import opened Wrappers
  import opened Decimal

  // ---------------------------------------------------------------------------
  // Slug
  // ---------------------------------------------------------------------------

  const MaxSlugLength := 40

  predicate IsAscii(c: char) { c as int < 128 }

  predicate IsUpper(c: char) { 'A' <= c <= 'Z' }

  predicate IsLower(c: char) { 'a' <= c <= 'z' }

  /** The regular-expression class `\w` on ASCII text. */
  predicate IsWordChar(c: char) { IsLower(c) || IsUpper(c) || IsDigit(c) || c == '_' }

  /** The regular-expression class `\s` on ASCII text: the characters below 128
      that `str.isspace` accepts. */
  predicate IsSpaceChar(c: char) {
    c == ' ' || '\t' <= c <= '\r' || '\U{1C}' <= c <= '\U{1F}'
  }

  /** The class `[-\s]` whose runs collapse to one dash. */
  predicate IsSeparator(c: char) { c == '-' || IsSpaceChar(c) }

  predicate IsSlugChar(c: char) { IsLower(c) || IsDigit(c) || c == '_' || c == '-' }

  predicate NoDoubleDash(s: string) {
    forall k :: 0 <= k < |s| - 1 ==> s[k] != '-' || s[k + 1] != '-'
  }

  /** Only `a-z 0-9 _ -`, never two dashes in a row. */
  predicate IsSlugBody(s: string) {
    (forall k :: 0 <= k < |s| ==> IsSlugChar(s[k])) && NoDoubleDash(s)
  }

  predicate StartsWithDash(s: string) {
    |s| > 0 && s[0] == '-'
  }

  /** A slug body that does not start with a dash. */
  predicate IsSlugText(s: string) {
    IsSlugBody(s) && !StartsWithDash(s)
  }

  // The steps of `_slugify` carry no postconditions of their own: their
  // properties are the lemmas below, so that a slug inside a larger term does
  // not bring every step's quantifiers along.

  /** The compatibility decomposition followed by an ASCII encoding that ignores
      errors, on characters without a decomposition: every non-ASCII character
      is dropped and the ASCII ones are kept in order. */
  function AsciiOnly(s: string): string {
    if s == [] then [] else (if IsAscii(s[0]) then [s[0]] else []) + AsciiOnly(s[1..])
  }

  function LowerChar(c: char): char {
    if IsUpper(c) then (c as int + 32) as char else c
  }

  /** `str.lower` on ASCII text. */
  function Lower(s: string): string {
    seq(|s|, k requires 0 <= k < |s| => LowerChar(s[k]))
  }

  predicate IsKept(c: char) { IsWordChar(c) || IsSpaceChar(c) || c == '-' }

  /** Removal of every character outside `[\w\s-]`. */
  function KeepWordSpaceDash(s: string): string {
    if s == [] then [] else (if IsKept(s[0]) then [s[0]] else []) + KeepWordSpaceDash(s[1..])
  }

  /** Replacement of every run of `[-\s]` by a single dash: a separator
      followed by another is dropped, the last of a run becomes the dash. */
  function CollapseSeparators(s: string): string {
    if s == [] then []
    else if !IsSeparator(s[0]) then [s[0]] + CollapseSeparators(s[1..])
    else if |s| > 1 && IsSeparator(s[1]) then CollapseSeparators(s[1..])
    else "-" + CollapseSeparators(s[1..])
  }

  /** `lstrip("-")`. */
  function TrimLeadingDashes(s: string): string {
    if s != [] && s[0] == '-' then TrimLeadingDashes(s[1..]) else s
  }

  /** `rstrip("-")`. */
  function TrimTrailingDashes(s: string): string {
    if s != [] && s[|s| - 1] == '-' then TrimTrailingDashes(s[..|s| - 1]) else s
  }

  /** `strip("-")`. */
  function StripDashes(s: string): string {
    TrimTrailingDashes(TrimLeadingDashes(s))
  }

  /** `text[:n]`. */
  function Take(s: string, n: nat): string {
    if |s| <= n then s else s[..n]
  }

  /** `_slugify` with its default length: ASCII letters lowered, characters
      outside `[\w\s-]` removed, runs of dashes and spaces made one dash, outer
      dashes stripped, then cut to 40 characters. */
  function Slugify(text: string): string {
    Take(StripDashes(CollapseSeparators(KeepWordSpaceDash(Lower(AsciiOnly(text))))), MaxSlugLength)
  }

  lemma {:induction false} AsciiOnlyIdentity(s: string)
    requires forall k :: 0 <= k < |s| ==> IsAscii(s[k])
    ensures AsciiOnly(s) == s
    decreases |s|
  {
    if s != [] {
      AsciiOnlyIdentity(s[1..]);
      assert s == [s[0]] + s[1..];
    }
  }

  lemma LowerFacts(s: string)
    ensures |Lower(s)| == |s|
    ensures forall k :: 0 <= k < |s| ==> !IsUpper(Lower(s)[k])
    ensures (forall k :: 0 <= k < |s| ==> !IsUpper(s[k])) ==> Lower(s) == s
  {
  }

  /** What is kept is a word character, a space or a dash, and no upper-case
      letter appears that was not there before. */
  lemma {:induction false} KeepFacts(s: string)
    ensures forall k :: 0 <= k < |KeepWordSpaceDash(s)| ==> IsKept(KeepWordSpaceDash(s)[k])
    ensures (forall k :: 0 <= k < |s| ==> !IsUpper(s[k])) ==>
      forall k :: 0 <= k < |KeepWordSpaceDash(s)| ==> !IsUpper(KeepWordSpaceDash(s)[k])
    ensures (forall k :: 0 <= k < |s| ==> IsKept(s[k])) ==> KeepWordSpaceDash(s) == s
    decreases |s|
  {
    if s != [] {
      KeepFacts(s[1..]);
      assert forall k :: 0 <= k < |s| - 1 ==> s[1..][k] == s[k + 1];
      assert s == [s[0]] + s[1..];
    }
  }

  /** Lower-case text made of word characters, spaces and dashes collapses to
      a slug body, which starts with a dash exactly when the text starts with a
      separator. */
  lemma {:induction false} CollapseFacts(s: string)
    requires forall k :: 0 <= k < |s| ==> IsKept(s[k]) && !IsUpper(s[k])
    ensures IsSlugBody(CollapseSeparators(s))
    ensures CollapseSeparators(s) == [] <==> s == []
    ensures s != [] ==> (CollapseSeparators(s)[0] == '-' <==> IsSeparator(s[0]))
    decreases |s|
  {
    if s != [] {
      var rest := CollapseSeparators(s[1..]);
      assert forall k :: 0 <= k < |s| - 1 ==> s[1..][k] == s[k + 1];
      CollapseFacts(s[1..]);
      if !IsSeparator(s[0]) {
        assert CollapseSeparators(s) == [s[0]] + rest;
      } else if |s| > 1 && IsSeparator(s[1]) {
        assert CollapseSeparators(s) == rest;
      } else {
        assert CollapseSeparators(s) == "-" + rest;
      }
    }
  }

  /** Runs of separators in text without spaces or doubled dashes are single
      dashes already. */
  lemma {:induction false} CollapseIdentity(s: string)
    requires forall k :: 0 <= k < |s| ==> !IsSpaceChar(s[k])
    requires NoDoubleDash(s)
    ensures CollapseSeparators(s) == s
    decreases |s|
  {
    if s != [] {
      assert forall k :: 0 <= k < |s| - 1 ==> s[1..][k] == s[k + 1];
      CollapseIdentity(s[1..]);
      if IsSeparator(s[0]) {
        assert |s| == 1 || s[1] != '-';
        assert s == "-" + s[1..];
      } else {
        assert s == [s[0]] + s[1..];
      }
    }
  }

  lemma {:induction false} TrimLeadingFacts(s: string)
    ensures |TrimLeadingDashes(s)| <= |s|
    ensures TrimLeadingDashes(s) == s[|s| - |TrimLeadingDashes(s)|..]
    ensures !StartsWithDash(TrimLeadingDashes(s))
    decreases |s|
  {
    if s != [] && s[0] == '-' {
      TrimLeadingFacts(s[1..]);
    }
  }

  lemma {:induction false} TrimTrailingFacts(s: string)
    ensures |TrimTrailingDashes(s)| <= |s|
    ensures TrimTrailingDashes(s) == s[..|TrimTrailingDashes(s)|]
    ensures TrimTrailingDashes(s) == [] || TrimTrailingDashes(s)[|TrimTrailingDashes(s)| - 1] != '-'
    decreases |s|
  {
    if s != [] && s[|s| - 1] == '-' {
      TrimTrailingFacts(s[..|s| - 1]);
    }
  }

  /** Every slice of a slug body is a slug body. */
  lemma SliceIsSlugBody(s: string, i: nat, j: nat)
    requires IsSlugBody(s) && i <= j <= |s|
    ensures IsSlugBody(s[i..j])
  {
    assert forall k :: 0 <= k < j - i ==> s[i..j][k] == s[i + k];
  }

  /** Stripping the outer dashes of a slug body and cutting it gives a slug
      body without a leading dash. */
  lemma StripAndCut(collapsed: string)
    requires IsSlugBody(collapsed)
    ensures |Take(StripDashes(collapsed), MaxSlugLength)| <= MaxSlugLength
    ensures IsSlugText(Take(StripDashes(collapsed), MaxSlugLength))
  {
    var leading := TrimLeadingDashes(collapsed);
    TrimLeadingFacts(collapsed);
    SliceIsSlugBody(collapsed, |collapsed| - |leading|, |collapsed|);
    var stripped := TrimTrailingDashes(leading);
    TrimTrailingFacts(leading);
    SliceIsSlugBody(leading, 0, |stripped|);
    assert stripped == [] || stripped[0] == leading[0];
    var slug := Take(stripped, MaxSlugLength);
    assert slug == stripped[..|slug|];
    SliceIsSlugBody(stripped, 0, |slug|);
    assert slug == [] || slug[0] == stripped[0];
  }

  /** A slug has at most 40 characters, only `a-z 0-9 _ -`, no two dashes in
      a row, and no leading dash. */
  lemma SlugifyIsSlug(text: string)
    ensures |Slugify(text)| <= MaxSlugLength
    ensures IsSlugText(Slugify(text))
  {
    var lowered := Lower(AsciiOnly(text));
    LowerFacts(AsciiOnly(text));
    var kept := KeepWordSpaceDash(lowered);
    KeepFacts(lowered);
    CollapseFacts(kept);
    StripAndCut(CollapseSeparators(kept));
  }

  /** On a slug body every step before the strip changes nothing. */
  lemma SlugBodyStagesIdentity(s: string)
    requires IsSlugBody(s)
    ensures Slugify(s) == Take(StripDashes(s), MaxSlugLength)
  {
    AsciiOnlyIdentity(s);
    LowerFacts(s);
    KeepFacts(s);
    CollapseIdentity(s);
  }

  /** A slug of at most 40 characters that does not end with a dash is its own
      slug. */
  lemma SlugifyFixpoint(s: string)
    requires IsSlugText(s) && |s| <= MaxSlugLength
    requires s == [] || s[|s| - 1] != '-'
    ensures Slugify(s) == s
  {
    SlugBodyStagesIdentity(s);
  }

  /** The cut to 40 characters can leave a final dash. */
  lemma SlugCutAfterDash(body: string)
    requires |body| == MaxSlugLength - 1
    requires forall k :: 0 <= k < |body| ==> body[k] == 'a'
    ensures Slugify(body + "-b") == body + "-"
  {
    var text := body + "-b";
    assert IsSlugBody(text) by {
      assert forall k :: 0 <= k < |body| ==> text[k] == body[k];
    }
    SlugBodyStagesIdentity(text);
    assert StripDashes(text) == text;
    assert text[..MaxSlugLength] == body + "-";
  }

  /** A second pass strips that dash: the slug of a slug is not always itself. */
  lemma SlugifyNotIdempotent(body: string)
    requires |body| == MaxSlugLength - 1
    requires forall k :: 0 <= k < |body| ==> body[k] == 'a'
    ensures Slugify(Slugify(body + "-b")) != Slugify(body + "-b")
  {
    SlugCutAfterDash(body);
    var cut := body + "-";
    assert IsSlugBody(cut) by {
      assert forall k :: 0 <= k < |body| ==> cut[k] == body[k];
    }
    SlugBodyStagesIdentity(cut);
    assert TrimLeadingDashes(cut) == cut;
    assert cut[..|cut| - 1] == body;
    assert TrimTrailingDashes(cut) == TrimTrailingDashes(body);
  }

  // ---------------------------------------------------------------------------
  // Names of generated variants
  // ---------------------------------------------------------------------------

  /** `build_filename`; the clock reading, formatted `%Y-%m-%d_%H%M%S`, is the
      parameter `stamp`. */
  function BuildFilename(stamp: string, description: string, variantIndex: int): string {
    stamp + "_" + Slugify(description) + "_v" + IntToString(variantIndex) + ".png"
  }

  /** The length of the run of digits that ends `s`. */
  function TrailingDigitCount(s: string): (n: nat)
    ensures n <= |s|
    ensures forall k :: |s| - n <= k < |s| ==> IsDigit(s[k])
    ensures n < |s| ==> !IsDigit(s[|s| - n - 1])
  {
    if s != [] && IsDigit(s[|s| - 1]) then TrailingDigitCount(s[..|s| - 1]) + 1 else 0
  }

  /** The number a `.png` name ends with, as `build_filename` wrote it. */
  function VariantNumber(name: string): Option<nat> {
    if |name| >= 4 && name[|name| - 4..] == ".png" then
      var body := name[..|name| - 4];
      var n := TrailingDigitCount(body);
      var digits := body[|body| - n..];
      assert forall k :: 0 <= k < n ==> digits[k] == body[|body| - n + k];
      if n == 0 then None else Some(ParseDigits(digits))
    else None
  }

  lemma {:induction false} TrailingDigitsOfAppend(prefix: string, digits: string)
    requires AllDigits(digits)
    requires prefix != [] && !IsDigit(prefix[|prefix| - 1])
    ensures TrailingDigitCount(prefix + digits) == |digits|
    decreases |digits|
  {
    if digits != [] {
      var shorter := digits[..|digits| - 1];
      TrailingDigitsOfAppend(prefix, shorter);
      assert (prefix + digits)[..|prefix + digits| - 1] == prefix + shorter;
    } else {
      assert prefix + digits == prefix;
    }
  }

  /** A number printed between a non-digit and `.png` is read back. */
  lemma NumberBeforePng(prefix: string, n: nat)
    requires prefix != [] && !IsDigit(prefix[|prefix| - 1])
    ensures VariantNumber(prefix + NatToString(n) + ".png") == Some(n)
  {
    var digits := NatToString(n);
    var name := prefix + digits + ".png";
    assert name[|name| - 4..] == ".png";
    assert name[..|name| - 4] == prefix + digits;
    TrailingDigitsOfAppend(prefix, digits);
    assert (prefix + digits)[|prefix + digits| - |digits|..] == digits;
    ParseNatToString(n);
  }

  /** The variant index can be read back from the name it produced. */
  lemma VariantRoundTrip(stamp: string, description: string, variantIndex: nat)
    ensures VariantNumber(BuildFilename(stamp, description, variantIndex)) == Some(variantIndex)
  {
    var prefix := stamp + "_" + Slugify(description) + "_v";
    assert BuildFilename(stamp, description, variantIndex) == prefix + NatToString(variantIndex) + ".png";
    NumberBeforePng(prefix, variantIndex);
  }

  /** Variants of one description and stamp get distinct names. */
  lemma VariantNamesDistinct(stamp: string, description: string, i: nat, j: nat)
    requires i != j
    ensures BuildFilename(stamp, description, i) != BuildFilename(stamp, description, j)
  {
    VariantRoundTrip(stamp, description, i);
    VariantRoundTrip(stamp, description, j);
  }

  // ---------------------------------------------------------------------------
  // Names of edits
  // ---------------------------------------------------------------------------

  /** The text after the last `/` of `p`. */
  function AfterLastSlash(p: string): (c: string)
    ensures |c| <= |p| && c == p[|p| - |c|..]
    ensures '/' !in c
    ensures |c| < |p| ==> p[|p| - |c| - 1] == '/'
  {
    if p == [] || p[|p| - 1] == '/' then []
    else
      var c := AfterLastSlash(p[..|p| - 1]);
      assert p[|p| - (|c| + 1)..] == p[..|p| - 1][|p| - 1 - |c|..] + [p[|p| - 1]];
      c + [p[|p| - 1]]
  }

  /** The final component of a POSIX path, as the path library parses it:
      empty and `.` components are dropped, and a path without any other
      component has the empty name. */
  function PathName(p: string): (name: string)
    ensures '/' !in name
    decreases |p|
  {
    var c := AfterLastSlash(p);
    if c != [] && c != "." then c
    else if |c| == |p| then []
    else PathName(p[..|p| - |c| - 1])
  }

  /** `str.rfind(".")`. */
  function LastDot(s: string): (i: Option<nat>)
    ensures i.Some? ==> i.value < |s| && s[i.value] == '.' && '.' !in s[i.value + 1..]
    ensures i.None? ==> '.' !in s
  {
    if s == [] then None
    else if s[|s| - 1] == '.' then Some(|s| - 1)
    else
      var i := LastDot(s[..|s| - 1]);
      assert s == s[..|s| - 1] + [s[|s| - 1]];
      i
  }

  /** The stem of a final path component: without its last suffix, where a
      leading or a trailing dot does not start a suffix. */
  function Stem(name: string): (stem: string)
    ensures |stem| <= |name| && stem == name[..|stem|]
    ensures '/' in stem ==> '/' in name
  {
    match LastDot(name)
    case Some(i) => if 0 < i < |name| - 1 then name[..i] else name
    case None => name
  }

  /** The pattern `_edit\d+$` matches `s` at `j`: the digits reach the end of
      `s`, or the character after them is a final newline. */
  predicate EditSuffixAt(s: string, j: nat) {
    && j + 6 <= |s| && s[j..j + 5] == "_edit"
    && (AllDigits(s[j + 5..]) || (s[|s| - 1] == '\n' && j + 7 <= |s| && AllDigits(s[j + 5..|s| - 1])))
  }

  /** Past a match of the pattern, there is no other match. */
  lemma EditSuffixBlocks(s: string, i: nat, j: nat)
    requires EditSuffixAt(s, i) && i < j
    ensures !EditSuffixAt(s, j)
  {
    if j + 6 <= |s| {
      if j < i + 5 {
        assert s[j] == s[i..i + 5][j - i];
      } else if AllDigits(s[i + 5..]) {
        assert s[j] == s[i + 5..][j - i - 5];
      } else {
        assert s[j] == s[i + 5..|s| - 1][j - i - 5];
      }
      assert s[j..j + 5][0] == s[j];
    }
  }

  /** The pattern can match a string in one place at most. */
  lemma EditSuffixUnique(s: string, i: nat, j: nat)
    requires EditSuffixAt(s, i) && EditSuffixAt(s, j)
    ensures i == j
  {
    if i < j {
      EditSuffixBlocks(s, i, j);
    } else if j < i {
      EditSuffixBlocks(s, j, i);
    }
  }

  /** The place where the pattern matches, searching from `from` on. */
  function FindEditSuffix(s: string, from: nat): (j: Option<nat>)
    requires from <= |s|
    ensures j.Some? ==> from <= j.value && EditSuffixAt(s, j.value)
    ensures j.None? ==> forall i :: from <= i <= |s| ==> !EditSuffixAt(s, i)
    decreases |s| - from
  {
    if EditSuffixAt(s, from) then Some(from)
    else if from == |s| then None
    else FindEditSuffix(s, from + 1)
  }

  /** What follows the matched digits: nothing, or the final newline. */
  function TailAfterDigits(s: string, j: nat): string
    requires j + 5 <= |s|
  {
    if AllDigits(s[j + 5..]) then [] else "\n"
  }

  /** `re.sub(r"_edit\d+$", "", stem)`: the one trailing `_edit<digits>`, if
      any, is removed; a final newline after the digits stays. */
  function StripEditSuffix(stem: string): (base: string)
    ensures '/' in base ==> '/' in stem
    ensures (forall j :: 0 <= j <= |stem| ==> !EditSuffixAt(stem, j)) ==> base == stem
    ensures forall j :: 0 <= j <= |stem| && EditSuffixAt(stem, j) ==>
      base == stem[..j] + TailAfterDigits(stem, j)
  {
    match FindEditSuffix(stem, 0)
    case None => stem
    case Some(j) =>
      assert forall i :: 0 <= i <= |stem| && EditSuffixAt(stem, i) ==> i == j by {
        forall i | 0 <= i <= |stem| && EditSuffixAt(stem, i)
          ensures i == j
        {
          EditSuffixUnique(stem, i, j);
        }
      }
      assert forall k :: 0 <= k < j ==> stem[..j][k] == stem[k];
      stem[..j] + TailAfterDigits(stem, j)
  }

  lemma EditNameHasNoSlash(base: string, digits: string)
    requires '/' !in base && '/' !in digits
    ensures '/' !in base + "_edit" + digits + ".png"
  {
    assert '/' !in "_edit" && '/' !in ".png";
  }

  /** `build_edit_filename`: the stem of the source file's name, without a
      trailing `_edit<digits>`, followed by `_edit<n>.png`. */
  function BuildEditFilename(sourcePath: string, editNumber: int): (name: string)
    ensures '/' !in name
  {
    var name := PathName(sourcePath);
    var base := StripEditSuffix(Stem(name));
    IntToStringHasNo(editNumber, '/');
    EditNameHasNoSlash(base, IntToString(editNumber));
    base + "_edit" + IntToString(editNumber) + ".png"
  }

  lemma EditNameShape(base: string, editNumber: nat)
    ensures var suffix := "_edit" + NatToString(editNumber) + ".png";
      var name := base + "_edit" + NatToString(editNumber) + ".png";
      |suffix| <= |name| && name[|name| - |suffix|..] == suffix
    ensures VariantNumber(base + "_edit" + NatToString(editNumber) + ".png") == Some(editNumber)
  {
    var suffix := "_edit" + NatToString(editNumber) + ".png";
    assert base + "_edit" + NatToString(editNumber) + ".png" == base + suffix;
    NumberBeforePng(base + "_edit", editNumber);
  }

  /** An edit name ends in `_edit<n>.png`, and the edit number can be read
      back from it. */
  lemma EditNumberRoundTrip(sourcePath: string, editNumber: nat)
    ensures var suffix := "_edit" + NatToString(editNumber) + ".png";
      var name := BuildEditFilename(sourcePath, editNumber);
      |suffix| <= |name| && name[|name| - |suffix|..] == suffix
    ensures VariantNumber(BuildEditFilename(sourcePath, editNumber)) == Some(editNumber)
  {
    var base := StripEditSuffix(Stem(PathName(sourcePath)));
    assert BuildEditFilename(sourcePath, editNumber) == base + "_edit" + NatToString(editNumber) + ".png";
    EditNameShape(base, editNumber);
  }

  /** The text after the last `/` of a path joined onto a directory is the
      joined name. */
  lemma {:induction false} AfterLastSlashOfJoin(prefix: string, name: string)
    requires prefix == [] || prefix[|prefix| - 1] == '/'
    requires '/' !in name
    ensures AfterLastSlash(prefix + name) == name
    decreases |name|
  {
    if name == [] {
      assert prefix + name == prefix;
    } else {
      var p := prefix + name;
      var init := name[..|name| - 1];
      AfterLastSlashOfJoin(prefix, init);
      assert p[..|p| - 1] == prefix + init;
      assert name[|name| - 1] in name;
      assert AfterLastSlash(p) == AfterLastSlash(prefix + init) + [name[|name| - 1]];
      assert name == init + [name[|name| - 1]];
    }
  }

  /** The name of `prefix + name` is `name` when `prefix` ends a directory. */
  lemma PathNameOfJoin(prefix: string, name: string)
    requires prefix == [] || prefix[|prefix| - 1] == '/'
    requires name != [] && name != "." && '/' !in name
    ensures PathName(prefix + name) == name
  {
    AfterLastSlashOfJoin(prefix, name);
  }

  /** The stem of `base.png` is `base`. */
  lemma StemOfPng(base: string)
    requires base != []
    ensures Stem(base + ".png") == base
  {
    var name := base + ".png";
    assert name[|base|] == '.';
    var i := LastDot(name);
    assert i == Some(|base|);
  }

  /** Stripping `_edit<digits>` from a name built with one gives the base. */
  lemma StripOfEditStem(base: string, editNumber: nat)
    ensures StripEditSuffix(base + "_edit" + NatToString(editNumber)) == base
  {
    var digits := NatToString(editNumber);
    var stem := base + "_edit" + digits;
    assert stem[|base|..|base| + 5] == "_edit";
    assert stem[|base| + 5..] == digits;
    assert EditSuffixAt(stem, |base|);
    assert stem[..|base|] == base;
  }

  /** Editing an edit names the output after the original base: the previous
      `_edit<n>` is replaced, not stacked. */
  lemma ReEditKeepsBase(prefix: string, sourcePath: string, n: nat, m: int)
    requires prefix == [] || prefix[|prefix| - 1] == '/'
    ensures BuildEditFilename(prefix + BuildEditFilename(sourcePath, n), m)
         == BuildEditFilename(sourcePath, m)
  {
    var base := StripEditSuffix(Stem(PathName(sourcePath)));
    var stem := base + "_edit" + NatToString(n);
    var name := BuildEditFilename(sourcePath, n);
    assert name == stem + ".png";
    PathNameOfJoin(prefix, name);
    StemOfPng(stem);
    StripOfEditStem(base, n);
  }

  // ---------------------------------------------------------------------------
  // Session record
  // ---------------------------------------------------------------------------

  /** One entry of the history list; `timestamp` is the clock reading in ISO
      format. */
  datatype HistoryEntry =
    | GenerateEntry(description: string, paths: seq<string>, timestamp: string)
    | EditEntry(change: string, path: string, timestamp: string)

  /** The session dictionary: `editCount` is `None` when the key is absent,
      `apiKey` when no key was ever set. */
  datatype Session = Session(
    lastGenerated: seq<string>,
    lastDescription: string,
    lastModel: string,
    editCount: Option<int>,
    history: seq<HistoryEntry>,
    apiKey: Option<string>)

  const DefaultSession := Session([], "", "", Some(0), [], None)

  /** The session file as the loader finds it. `NotUtf8` is a file whose bytes
      do not decode as text in the locale's UTF-8 encoding; `NotJson` is text
      the JSON parser rejects with a decoding error, and also stands for text it
      rejects with another exception (an over-long integer, too deep a nesting);
      `Stored` is a JSON object holding a session. */
  datatype SessionFile =
    | Absent
    | Unreadable
    | NotUtf8
    | NotJson
    | Stored(session: Session)

  /** The exception that escapes `load_session` on a file that is not UTF-8. */
  datatype LoadError = UnicodeDecodeError

  /** `load_session` as written: only decoding and OS errors fall back to the
      defaults, so a file that is not UTF-8 text raises. */
  function LoadSessionAsWritten(file: SessionFile): (r: Result<Session, LoadError>)
    ensures r.Failure? <==> file == NotUtf8
  {
    match file
    case Stored(s) => Success(s)
    case NotUtf8 => Failure(UnicodeDecodeError)
    case _ => Success(DefaultSession)
  }

  /** `load_session` as documented: the stored session, or the defaults
      whenever there is none to read. */
  function LoadSession(file: SessionFile): (s: Session)
    ensures file.Stored? ==> s == file.session
    ensures !file.Stored? ==> s == DefaultSession
  {
    if file.Stored? then file.session else DefaultSession
  }

  /** The file that fails to load as written. */
  lemma LoadSessionRaisesOnUndecodable()
    ensures LoadSessionAsWritten(NotUtf8).Failure?
    ensures LoadSession(NotUtf8) == DefaultSession
  {
  }

  /** The two loaders agree on every other file. */
  lemma LoadSessionAgrees(file: SessionFile)
    requires file != NotUtf8
    ensures LoadSessionAsWritten(file) == Success(LoadSession(file))
  {
  }

  /** The state after `update_session_after_generate`. */
  function AfterGenerate(s: Session, paths: seq<string>, description: string, model: string,
                         now: string): (t: Session)
    ensures t.lastGenerated == paths && t.lastDescription == description && t.lastModel == model
    ensures t.editCount == Some(0)
    ensures t.history == s.history + [GenerateEntry(description, paths, now)]
    ensures t.apiKey == s.apiKey
  {
    s.(lastGenerated := paths, lastDescription := description, lastModel := model,
       editCount := Some(0), history := s.history + [GenerateEntry(description, paths, now)])
  }

  /** The state after `update_session_after_edit`. */
  function AfterEdit(s: Session, path: string, change: string, now: string): (t: Session)
    ensures t.editCount == Some(s.editCount.GetOr(0) + 1)
    ensures t.lastGenerated == [path]
    ensures t.history == s.history + [EditEntry(change, path, now)]
    ensures t.lastDescription == s.lastDescription && t.lastModel == s.lastModel
    ensures t.apiKey == s.apiKey
  {
    s.(editCount := Some(s.editCount.GetOr(0) + 1), lastGenerated := [path],
       history := s.history + [EditEntry(change, path, now)])
  }

  /** A change made to the session by one of the commands. */
  datatype Update =
    | GenerateUpdate(paths: seq<string>, description: string, model: string, now: string)
    | EditUpdate(path: string, change: string, now: string)

  function Apply(s: Session, u: Update): Session {
    match u
    case GenerateUpdate(paths, description, model, now) => AfterGenerate(s, paths, description, model, now)
    case EditUpdate(path, change, now) => AfterEdit(s, path, change, now)
  }

  function ApplyAll(s: Session, us: seq<Update>): Session
    decreases |us|
  {
    if us == [] then s else ApplyAll(Apply(s, us[0]), us[1..])
  }

  /** The number of edits among `us` after its last generation, or
      `None` when there is no generation in `us`. */
  function EditsSinceGenerate(us: seq<Update>): Option<nat>
    decreases |us|
  {
    if us == [] then None
    else
      var tail := EditsSinceGenerate(us[..|us| - 1]);
      if us[|us| - 1].GenerateUpdate? then Some(0)
      else if tail.Some? then Some(tail.value + 1) else None
  }

  /** Along any run of updates the history only grows, by one entry per
      update, the API key never changes, and the edit count counts the edits
      since the last generation. */
  lemma {:induction false} HistoryAppendOnly(s: Session, us: seq<Update>)
    ensures |ApplyAll(s, us).history| == |s.history| + |us|
    ensures ApplyAll(s, us).history[..|s.history|] == s.history
    ensures ApplyAll(s, us).apiKey == s.apiKey
    ensures EditsSinceGenerate(us).Some? ==> ApplyAll(s, us).editCount == Some(EditsSinceGenerate(us).value)
    decreases |us|
  {
    if us != [] {
      var last := us[|us| - 1];
      var front := us[..|us| - 1];
      ApplyAllSnoc(s, front, last);
      assert us == front + [last];
      HistoryAppendOnly(s, front);
      var mid := ApplyAll(s, front);
      assert mid.history[..|s.history|] == s.history;
      assert Apply(mid, last).history[..|mid.history|] == mid.history;
    }
  }

  lemma {:induction false} ApplyAllSnoc(s: Session, us: seq<Update>, u: Update)
    ensures ApplyAll(s, us + [u]) == Apply(ApplyAll(s, us), u)
    decreases |us|
  {
    if us == [] {
      assert ApplyAll(Apply(s, u), []) == Apply(s, u);
      assert [u][1..] == [];
    } else {
      assert (us + [u])[1..] == us[1..] + [u];
      ApplyAllSnoc(Apply(s, us[0]), us[1..], u);
    }
  }

  /** The session file as a mutable store: each operation reads it, changes
      the record and writes it back whole. */
  class SessionStore {
    var file: SessionFile

    constructor (initial: SessionFile)
      ensures file == initial
    {
      file := initial;
    }

    method Load() returns (state: Session)
      ensures state == LoadSession(file)
    {
      if file.Stored? {
        state := file.session;
      } else {
        state := DefaultSession;
      }
    }

    /** `save_session`. */
    method Save(state: Session)
      modifies this
      ensures file == Stored(state)
    {
      file := Stored(state);
    }

    /** `update_session_after_generate`. */
    method UpdateAfterGenerate(paths: seq<string>, description: string, model: string, now: string)
      modifies this
      ensures file == Stored(AfterGenerate(LoadSession(old(file)), paths, description, model, now))
    {
      var state := Load();
      state := state.(lastGenerated := paths);
      state := state.(lastDescription := description);
      state := state.(lastModel := model);
      state := state.(editCount := Some(0));
      state := state.(history := state.history + [GenerateEntry(description, paths, now)]);
      Save(state);
    }

    /** `update_session_after_edit`. */
    method UpdateAfterEdit(path: string, change: string, now: string)
      modifies this
      ensures file == Stored(AfterEdit(LoadSession(old(file)), path, change, now))
    {
      var state := Load();
      var count := if state.editCount.Some? then state.editCount.value else 0;
      state := state.(editCount := Some(count + 1));
      state := state.(lastGenerated := [path]);
      state := state.(history := state.history + [EditEntry(change, path, now)]);
      Save(state);
    }
  }
}
