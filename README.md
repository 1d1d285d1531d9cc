# Icon skill: prompts, validation, naming, session state and commands

This project models the core of a command-line tool that generates app-icon
layers with an image model. It has four parts.

- **Prompt compiler.** Every generation prompt is a fixed constraints preamble,
  then one of three variant style guides (chosen by the variant index mod 3),
  then the user's subject. Every edit prompt is an abbreviated rule block
  followed by the requested change. A retry adds a fixed "critical reminder"
  suffix. Each compiled prompt goes through a sanitizer that rewrites the
  banned words "petal" and "petals", in any letter case, to
  "rounded leaf-like form". The banned words are kept in a Python set, so the
  order of the two passes is not fixed. The model takes that order as a
  parameter, and every property is proved for both orders.
- **Validator.** A mutable `ValidationResult` record (`passed`, `warnings`,
  `errors`) is updated by three checks in a fixed order:
  - the image must be 1024x1024;
  - on an image of that size, the four corner pixels must be RGB (0,0,0);
  - a 256x256 nearest-neighbour sample may hold at most 20 distinct colours,
    and 6 to 20 colours add a warning.
- **Storage.** This covers:
  - the filename slug;
  - the names of generated variants (`<stamp>_<slug>_v<i>.png`);
  - the names of edits (`<base>_edit<n>.png`, where any earlier `_edit<digits>`
    is replaced);
  - the session record, with load-with-defaults and the two updates, each of
    which changes a few fields and appends one history entry.
- **Commands.** `generate`, `edit` and `set-key` are modelled as methods over
  three stand-ins:
  - an image service that answers from a script of replies and logs every
    request;
  - a disk that maps paths to images;
  - a session store.

  Each variant or edit is requested, written, validated and, when validation
  fails, requested once more with the strengthened prompt and written over
  the first image.

Files:

| file | module | contents |
|---|---|---|
| `caseless.dfy` | `Caseless` | case-insensitive literal search and `re.sub` replacement, with their lemmas |
| `prompt_texts.dfy` | `PromptTexts` | the fixed prompt texts and the proof that none holds a banned word |
| `prompt_compiler.dfy` | `PromptCompiler` | `_sanitize`, `build_prompts`, `build_edit_prompt`, `strengthened_suffix` |
| `decimal.dfy` | `Decimal` | `str(n)` for integers and reading digits back |
| `validators.dfy` | `Validators` | `ValidationResult`, the three checks, `validate` |
| `wrappers.dfy` | `Wrappers` | `Option` and `Result` |
| `storage.dfy` | `Storage` | slug, filenames, session record, `SessionStore` |
| `commands.dfy` | `Commands` | `_generate`, `_edit`, `_set_key` and the retry policy |

## Model

| member | source | states |
|---|---|---|
| `PromptCompiler.Sanitized` | icon_skill/prompt_compiler.py:45-50 | defines the sanitizer's output as one case-insensitive substitution per banned word, in the given order; it has no contract of its own, and `SanitizedIsClean`, `SanitizedIdentity` and `SanitizeIdempotent` state what it guarantees |
| `PromptCompiler.Sanitize` | icon_skill/prompt_compiler.py:45-50 | the loop of one case-insensitive substitution pass per banned word, in the set's iteration order, yields `Sanitized(order, text)` |
| `PromptCompiler.SanitizedIsClean` | icon_skill/prompt_compiler.py:42-50 | after sanitizing, no case-insensitive occurrence of "petal" or "petals" remains, whichever order the set is iterated in |
| `PromptCompiler.SanitizedIdentity` | icon_skill/prompt_compiler.py:45-50 | text with no case-insensitive "petal" passes through the sanitizer unchanged |
| `PromptCompiler.SanitizeIdempotent` | icon_skill/prompt_compiler.py:45-50 | sanitizing twice gives the same text as sanitizing once |
| `PromptCompiler.SanitizePetalFirst` | icon_skill/prompt_compiler.py:42-49 | when "petal" is replaced first, "petals" becomes the replacement followed by "s" |
| `PromptCompiler.SanitizePetalsFirst` | icon_skill/prompt_compiler.py:42-49 | when "petals" is replaced first, "petals" becomes the bare replacement, so the output depends on the set's order |
| `PromptCompiler.SanitizedAfterClean` | icon_skill/prompt_compiler.py:45-50 | a clean prefix (no banned word, ending on a character no banned word uses) is left alone, and only the rest is rewritten |
| `PromptTexts.PreambleClean` | icon_skill/prompt_compiler.py:16-26 | the constant `ConstraintsPreamble`, the nine-line `CONSTRAINTS_PREAMBLE` joined from one piece per source line, holds no banned word in any letter case |
| `PromptTexts.GuidesClean` | icon_skill/prompt_compiler.py:32-36 | none of the three `VariantGuides` (`VARIANT_GUIDES`) holds a banned word in any letter case |
| `PromptTexts.GuideWhole` | icon_skill/prompt_compiler.py:32-36 | each single guide, picked by index, holds no banned word in any letter case |
| `PromptTexts.AbbreviatedRulesClean` | icon_skill/prompt_compiler.py:77-82 | the constant `AbbreviatedRules`, the four implicitly concatenated literals of `build_edit_prompt`, holds no banned word in any letter case |
| `PromptTexts.ReminderClean` | icon_skill/prompt_compiler.py:89-94 | the constant `Reminder`, the four literals `strengthened_suffix` returns, holds no banned word and starts with a newline |
| `PromptCompiler.LabelsClean` | icon_skill/prompt_compiler.py:66 | the newline, the subject label and the edit's change label hold no banned word |
| `PromptCompiler.PromptHeader` | icon_skill/prompt_compiler.py:65-66 | defines the fixed part of prompt `i` as the preamble, a newline, guide `i mod 3` and the subject label; it has no contract of its own, and `HeaderClean` and `PromptLayout` state what it guarantees |
| `PromptCompiler.HeaderClean` | icon_skill/prompt_compiler.py:65-66 | the fixed part of every prompt holds no banned word, so the sanitizer leaves it untouched |
| `PromptCompiler.BuildPrompts` | icon_skill/prompt_compiler.py:57-68 | returns `num_variants` prompts, none when `num_variants <= 0`, and prompt `i` is the sanitized preamble, guide `i mod 3` and subject |
| `PromptCompiler.Prompt` | icon_skill/prompt_compiler.py:64-67 | defines prompt `i` as the sanitized preamble, guide `i mod 3`, subject label and description; it has no contract of its own, and `PromptLayout`, `PromptIsClean` and `PromptCycle` state what it guarantees |
| `PromptCompiler.PromptLayout` | icon_skill/prompt_compiler.py:64-67 | every prompt starts with the constraints preamble verbatim, and is the untouched header followed by the sanitized description |
| `PromptCompiler.PromptIsClean` | icon_skill/prompt_compiler.py:64-67 | no generation prompt holds a banned word in any letter case |
| `PromptCompiler.PromptCycle` | icon_skill/prompt_compiler.py:64-66 | prompts `i` and `i + 3` are the same string |
| `PromptCompiler.BuildEditPrompt` | icon_skill/prompt_compiler.py:71-84 | the edit prompt is the abbreviated rules, then "\n\nREQUESTED CHANGE: ", then the sanitized change, and it holds no banned word |
| `PromptCompiler.StrengthenedSuffix` | icon_skill/prompt_compiler.py:87-94 | the retry suffix is one fixed text that holds no banned word and starts on a new line |
| `PromptCompiler.RetryPromptClean` | icon_skill/prompt_compiler.py:87-94 | a clean prompt with the suffix appended (not sanitized again) still holds no banned word |
| `Caseless.ReplaceAll` | icon_skill/prompt_compiler.py:48-49 | defines `pattern.sub` for a case-insensitive literal pattern as a left-to-right scan that replaces each match and resumes after it; it has no contract of its own, and `ReplaceAllRemoves` and `ReplaceAllIdentity` state what it guarantees |
| `Caseless.ReplaceAllRemoves` | icon_skill/prompt_compiler.py:48-49 | after a case-insensitive substitution no occurrence of the word remains, provided the replacement cannot form one |
| `Caseless.ReplaceAllIdentity` | icon_skill/prompt_compiler.py:48-49 | a substitution on text without an occurrence changes nothing |
| `Validators.ValidationResult.constructor` | icon_skill/validators.py:15-21 | a new result passes, with no warning and no error |
| `Validators.ValidationResult.Ok` | icon_skill/validators.py:23-25 | `ok` holds exactly when `passed` holds and there is no error |
| `Validators.OkIgnoresWarnings` | icon_skill/validators.py:23-25 | changing the warnings never changes `ok` |
| `Validators.Text` | icon_skill/validators.py:28-70 | defines the four report lines as the f-strings print them, with a pixel printed as Python prints a tuple; it has no contract of its own, and `SizeErrorText` shows one line in full |
| `Validators.SizeErrorText` | icon_skill/validators.py:32 | the size error for a 512x512 image reads "Expected 1024x1024, got 512x512" |
| `Validators.AfterSizeCheck` | icon_skill/validators.py:28-32 | defines the report after `check_size` as a value; `CheckSize` is proved to produce it and `ChecksOnlyAppend` to only append |
| `Validators.CheckSize` | icon_skill/validators.py:28-32 | on a size other than 1024x1024 it appends one size error and clears `passed`; otherwise the result is unchanged |
| `Validators.CornerFindings` | icon_skill/validators.py:44-50 | the corner loop gives at most one finding per corner; `CornerFindingsMeaning` and `CornerFindingsInOrder` state which |
| `Validators.CornerFindingsMeaning` | icon_skill/validators.py:44-50 | over any corners, every finding is a corner error for a non-black pixel, and there is none exactly when every corner is black |
| `Validators.CornerFindingsInOrder` | icon_skill/validators.py:35-50 | on a 1024x1024 image, each non-black corner gives exactly one error, carrying its name, position and pixel, in the order top-left, top-right, bottom-left, bottom-right; a black corner gives none |
| `Validators.CornerFindingsNone` | icon_skill/validators.py:35-50 | on a 1024x1024 image the corner check reads only in-range pixels, and finds nothing exactly when all four corners are black |
| `Validators.CheckCorners` | icon_skill/validators.py:35-50 | appends the corner errors in the order top-left, top-right, bottom-left, bottom-right, and clears `passed` when there is any |
| `Validators.AfterCornerCheck` | icon_skill/validators.py:35-50 | defines the report after `check_corners` as a value: the corner findings appended to the errors, `passed` cleared when there is any; it has no contract of its own, `CheckCorners` is proved to produce it, `ChecksOnlyAppend` to only append and `CornerFindingsInOrder` says which findings there are |
| `Validators.ColorCount` | icon_skill/validators.py:60-61 | the number of distinct colours in the 256x256 sample is at least 1 and at most 65536 |
| `Validators.AfterColorCheck` | icon_skill/validators.py:53-70 | defines the report after `check_color_count` as a value; `CheckColorCount` is proved to produce it and `ChecksOnlyAppend` to only append |
| `Validators.CheckColorCount` | icon_skill/validators.py:53-70 | more than 20 colours gives one error and clears `passed`; 6 to 20 gives one warning; 5 or fewer changes nothing |
| `Validators.UniformColorCount` | icon_skill/validators.py:60-61 | a single-colour sample counts one colour |
| `Validators.ChecksOnlyAppend` | icon_skill/validators.py:28-70 | no check sets `passed` back to true, and each keeps the earlier errors and warnings as a prefix |
| `Validators.Validation` | icon_skill/validators.py:73-81 | defines the report `validate` returns as the three checks composed, with the corner check only at 1024x1024; `ValidationMeaning` states what it means |
| `Validators.Validate` | icon_skill/validators.py:73-81 | runs the size check, the corner check only on a 1024x1024 image, then the colour check, giving `Validation(img)` |
| `Validators.ValidationMeaning` | icon_skill/validators.py:73-81 | the result is `ok` exactly for a 1024x1024 image with black corners and at most 20 colours. It passes exactly when it has no error. It has at most 5 errors and 1 warning, and the warning is given exactly. A wrong size is the first error, corner errors occur only at the right size, and the too-many-colours error is present exactly when there are more than 20 colours, whatever the size |
| `Validators.BlackCanvasPasses` | icon_skill/validators.py:73-81 | an all-black 1024x1024 image is `ok` with no warning |
| `Decimal.NatToString` | icon_skill/storage.py:34 | `str(n)` is a non-empty run of digits with no leading zero |
| `Decimal.ParseNatToString` | icon_skill/storage.py:34 | reading the printed digits back gives the number |
| `Decimal.NatToStringInjective` | icon_skill/storage.py:34 | distinct numbers print differently |
| `Storage.Slugify` | icon_skill/storage.py:10-15 | defines `_slugify` on ASCII text as its steps in order (ASCII, lower case, filter, collapse, strip, cut); it has no contract of its own, and `SlugifyIsSlug`, `SlugifyFixpoint` and `SlugCutAfterDash` state what it guarantees |
| `Storage.SlugifyIsSlug` | icon_skill/storage.py:10-15 | a slug has at most 40 characters, only `a-z 0-9 _ -`, no `--`, and no leading dash |
| `Storage.SlugifyFixpoint` | icon_skill/storage.py:12-15 | a slug of at most 40 characters that does not end with a dash is its own slug |
| `Storage.SlugCutAfterDash` | icon_skill/storage.py:14-15 | the cut to 40 characters can leave a trailing dash (39 letters, then "-b") |
| `Storage.SlugifyNotIdempotent` | icon_skill/storage.py:14-15 | for that input, slugifying the slug again removes the dash, so the slug is not always a fixed point |
| `Storage.BuildFilename` | icon_skill/storage.py:30-34 | defines the name `<stamp>_<slug>_v<i>.png`, with the stamp as a parameter; `VariantRoundTrip` and `VariantNamesDistinct` state what it guarantees |
| `Storage.VariantRoundTrip` | icon_skill/storage.py:30-34 | the variant index can be read back from the name `build_filename` gives, for any stamp and description |
| `Storage.VariantNamesDistinct` | icon_skill/storage.py:30-34 | distinct variant indexes give distinct names |
| `Storage.PathName` | icon_skill/storage.py:39-40 | the final component of a path holds no `/` |
| `Storage.Stem` | icon_skill/storage.py:40 | the stem is a prefix of the name |
| `Storage.StripEditSuffix` | icon_skill/storage.py:41-42 | removes the one trailing `_edit<digits>` (which may be followed by a final newline) when there is one, and otherwise returns the stem unchanged |
| `Storage.EditSuffixUnique` | icon_skill/storage.py:42 | the pattern `_edit\d+$` can match in one place at most |
| `Storage.BuildEditFilename` | icon_skill/storage.py:37-43 | an edit name holds no `/` |
| `Storage.EditNumberRoundTrip` | icon_skill/storage.py:37-43 | an edit name ends in `_edit<n>.png`, and `n` can be read back from it |
| `Storage.StripOfEditStem` | icon_skill/storage.py:42 | stripping the suffix from `base_edit<n>` gives `base` |
| `Storage.ReEditKeepsBase` | icon_skill/storage.py:37-43 | naming an edit of a file that was itself named as an edit (in any directory) gives the same name as editing the original |
| `Storage.LoadSessionAsWritten` | icon_skill/storage.py:84-98 | as written, a file that is not UTF-8 text raises `UnicodeDecodeError`, while a missing file or a file that is not JSON gives the defaults |
| `Storage.LoadSessionRaisesOnUndecodable` | icon_skill/storage.py:87-91 | on a session file that is not UTF-8 the loader as written fails, while the corrected loader returns the defaults |
| `Storage.LoadSession` | icon_skill/storage.py:84-98 | a stored session is returned as is; otherwise the result is the defaults (`[]`, `""`, `""`, 0, `[]`, no key) |
| `Storage.LoadSessionAgrees` | icon_skill/storage.py:84-98 | the loader as written and the corrected loader agree on every other file |
| `Storage.AfterGenerate` | icon_skill/storage.py:107-122 | sets the last paths, description and model, sets the edit count to 0, appends one generate entry, and keeps the API key |
| `Storage.AfterEdit` | icon_skill/storage.py:125-136 | adds one to the edit count (from 0 when absent), sets the last paths to the new path, appends one edit entry, and keeps description, model and API key |
| `Storage.HistoryAppendOnly` | icon_skill/storage.py:107-136 | along any run of updates, history grows by exactly one entry per update and keeps the old entries as a prefix. The API key never changes. The edit count is the number of edits since the last generation |
| `Storage.ApplyAllSnoc` | icon_skill/storage.py:107-136 | a run of updates followed by one more is that update applied to the run's result |
| `Storage.SessionStore.Load` | icon_skill/storage.py:84-98 | reads the loaded session from the store |
| `Storage.SessionStore.Save` | icon_skill/storage.py:101-104 | the store then holds exactly the given session |
| `Storage.SessionStore.UpdateAfterGenerate` | icon_skill/storage.py:107-122 | the store then holds `AfterGenerate` of the session loaded before |
| `Storage.SessionStore.UpdateAfterEdit` | icon_skill/storage.py:125-136 | the store then holds `AfterEdit` of the session loaded before |
| `Commands.ResolveModel` | icon_skill/openai_client.py:32-34 | the explicit model unless it is missing or empty, else `OPENAI_IMAGE_MODEL`, else `gpt-image-1` |
| `Commands.ImageService.GenerateImage` | icon_skill/main.py:19 | logs one generation request and answers with the next scripted reply |
| `Commands.ImageService.EditImage` | icon_skill/main.py:74 | logs one edit request and answers with the next scripted reply |
| `Commands.Disk.Write` | icon_skill/main.py:20 | the file at the path then holds the image, whatever it held before |
| `Commands.RetryPolicy` | icon_skill/main.py:30-38 | defines the requests one image takes and the image it ends with; `RetryPolicyMeaning` states what it guarantees |
| `Commands.RetryPolicyMeaning` | icon_skill/main.py:30-38 | each image takes one request, or exactly two when the first image fails validation. The image kept is the last one delivered, and there is none exactly when a request raised |
| `Commands.ValidatedOk` | icon_skill/main.py:31-32 | validating the written image reports `ok` exactly when the image is 1024x1024, has four black corners and at most 20 colours |
| `Commands.RequestValidated` | icon_skill/main.py:18-38 | the requests sent and the image kept follow the retry policy on the next two replies, and the kept image is on disk at the one path, the retry overwriting the first |
| `Commands.RunVariants` | icon_skill/main.py:15-38 | a run that completes has one image per prompt, and between one and two requests per prompt in total; a failed run has a prompt. `RunVariantsStep` gives each prompt's own one or two requests |
| `Commands.FailedRunStops` | icon_skill/main.py:15-38 | once a request has raised, no later prompt is sent |
| `Commands.RunVariantsClean` | icon_skill/main.py:15-38 | if no compiled prompt holds a banned word, no request of the loop does either, retries included |
| `Commands.GenerateVariant` | icon_skill/main.py:16-49 | one turn of the loop extends the run by the next prompt's requests as the retry policy says; when it keeps an image, that image is written at the variant's path and added to the run |
| `Commands.GenerateVariants` | icon_skill/main.py:15-50 | the request log is the run's requests. A completed run saves exactly one path per prompt, in variant order, and each path holds the image its variant ended with |
| `Commands.Generate` | icon_skill/main.py:10-53 | the session is updated once, after every variant succeeds, with the saved paths, the description and the resolved model. When a request raises, the session is untouched |
| `Commands.VariantPathsDistinct` | icon_skill/main.py:20-21 | distinct variants are written to distinct paths |
| `Commands.VariantPathsAllDistinct` | icon_skill/main.py:15-21 | the paths of one `generate` are pairwise distinct |
| `Commands.GeneratedImagesOnDisk` | icon_skill/main.py:15-49 | after a completed `generate`, every recorded path holds its variant's final image |
| `Commands.GenerateRequestsClean` | icon_skill/main.py:12-34 | no request of a `generate` holds a banned word |
| `Commands.ResolveSource` | icon_skill/main.py:58-63 | the edit source is the given path; with no path it is the first image of the last generation, and there is none exactly when that list is empty |
| `Commands.NextEditNumber` | icon_skill/main.py:69-70 | defines the edit number as the stored count, 0 when absent, plus one; `Commands.Edit` and `EditOfEditName` use it |
| `Commands.Edit` | icon_skill/main.py:56-105 | with no source it exits as `NoPreviousGeneration`, and with a missing source as `SourceMissing`, each changing nothing. Otherwise the edit is numbered from the stored count plus one, follows the retry policy, is written to its edit name, and is then recorded in the session |
| `Commands.LoadEditSource` | icon_skill/main.py:58-63 | the source lookup, which loads the session only when no path is given, returns exactly `ResolveSource` of the given path and the stored session |
| `Commands.EditExisting` | icon_skill/main.py:69-104 | once the source exists, the edit is numbered from the stored count plus one and requested under the retry policy. When an image is kept, it is written to its edit name and recorded with `AfterEdit`; when a request raises, the outcome is `EditFailed` and the session is untouched |
| `Commands.RequestEdit` | icon_skill/main.py:73-88 | builds the edit prompt and requests the edit under the retry policy: the log gains that prompt's one or two requests, each carrying the source image and the model; the image kept is the policy's, and when one is kept the disk holds it at the edit path |
| `Commands.EditRequestsClean` | icon_skill/main.py:73-88 | neither edit request holds a banned word |
| `Commands.EditOfEditName` | icon_skill/main.py:63-76 | editing the output of an edit names the result after the original image |
| `Commands.WithApiKey` | icon_skill/main.py:125-130 | sets `api_key` and leaves every other field as it was |
| `Commands.SetKey` | icon_skill/main.py:125-130 | the store then holds the loaded session with only `api_key` changed |
| `Commands.KeySurvivesUpdates` | icon_skill/main.py:125-130 | a key once set survives every later `generate` and `edit` |

## Left out

- The image client is not modelled. `generate_image` and `edit_image` (with their network calls, SDK, backoff and environment lookups) are a script of replies: an image, or a failure once the client's own retries are spent.
- Image files are given already decoded. Pillow's decoding, `convert("RGB")` and the NEAREST resize arithmetic are not modelled: an image comes with its RGB grid and its 256x256 sample.
- `get_output_dir` (with its `mkdir` fallback), `save_metadata`, `list_generated_images` and `_list_images` are not modelled. The output directory is a parameter, and metadata sidecars are not written.
- The clock is not modelled. The `%Y-%m-%d_%H%M%S` stamp read for each variant, and the ISO time of each session update, are parameters.
- The REPL, argparse, `main` and every `print` are not modelled. `sys.exit(1)` becomes an outcome value.
- Commands.Generate: when a request raises partway through, the model gives `GenerationFailed` with the session untouched. It does not say which images of that run were already written.
- Commands.Edit: when a request raises, the model gives `EditFailed` with the session untouched. It does not say whether the first image was already written.
- Storage.AsciiOnly: the NFKD normalisation before the ASCII encoding is not modelled. Non-ASCII characters are dropped, so letters with accents lose their base letter, where Python would keep it.
- Storage.IsWordChar: `\w` and `\s` are modelled on ASCII only, which is all that reaches them after the ASCII encoding. `\d` in `_edit\d+$` is modelled as ASCII digits, although Python also accepts other Unicode decimal digits.
- Storage.PathName: paths are POSIX paths as Python 3.12's `pathlib` parses them. Existence is membership in the disk map, so a directory at the source path is not modelled.
- Commands.Disk: the disk is keyed by the raw path string, with no normalisation. Two spellings of one file (`out/./a.png` or `out//a.png` beside `out/a.png`) are different keys, so `edit` on such a spelling gives `SourceMissing` where `Path.exists()` would find the file.
- Storage.SessionStore.Load: the store, and through it `Commands.Generate`, `Commands.Edit`, `Commands.SetKey` and both store updates, use the corrected loader `LoadSession`. On a session file that is not UTF-8 these give the default session and carry on, where the program as written raises from `load_session` and the command fails (see "## Findings").
- Storage.LoadSessionAsWritten: only the `UnicodeDecodeError` escape is modelled. The other exceptions that also escape `load_session` are not: the `ValueError` from an integer literal of more than 4300 digits, and the `RecursionError` from deeply nested JSON. Such files are `NotJson` here and give the defaults.
- Storage.LoadSession: only a JSON object holding a well-formed session record is modelled. Any other JSON value (a list, or a record without `history`) would make the updates raise.
- Storage.Session: `edit_count` is either absent or an integer. A stored `null` is not modelled, although `null + 1` would raise in Python.
- PromptTexts: the fixed texts are written as lists of pieces joined together, not as one literal each.

## Findings

| source | as written | input that shows it | evidently intended | confidence | as-written member | corrected member |
|---|---|---|---|---|---|---|
| icon_skill/storage.py:87-91 | `load_session` falls back to the defaults only on `JSONDecodeError` and `OSError`. `read_text()` on bytes that are not valid UTF-8 raises `UnicodeDecodeError`, which escapes, so every command that loads the session fails. | a session file holding the single byte 0xFF | a file that cannot be read as a session gives the default record, as the docstring says ("or return defaults") | not executed | `Storage.LoadSessionAsWritten` (shown by `Storage.LoadSessionRaisesOnUndecodable`) | `Storage.LoadSession` |
