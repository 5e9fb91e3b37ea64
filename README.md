# BUPPIN QR batch scripts, modelled in Dafny

The BUPPIN scripts label laboratory equipment. An operator picks one of five
equipment categories (VME, NIM-CAMAC, DET, PC, TARGET) and a range of item
numbers. For each number the script saves a QR code image. The image encodes
the item's canonical page, `https://vdg.phys.sci.osaka-u.ac.jp/BUPPIN/<category>/<NNN>.html`,
where `NNN` is the number zero-filled to three digits. The two later revisions
also ask for a Google Form URL per item. For every item that has one they
write a small HTML page at `HTML/<category>/<NNN>.html` that redirects to the
form. Four scripts are modelled:

- `20250108.py`: destination URLs are pasted in bulk, one per line, until the
  first blank line.
- `20241113.py`: the script asks once per item number, and a blank answer
  skips that item.
- `20241112.py`: QR images only.
- `det.py`: a fixed loop over `range(47, 48)` for NIM-CAMAC.

The project is nine modules, one per file:

| module | file | content |
|---|---|---|
| `Wrappers` | wrappers.dfy | the `Option` result of parsers and readers (`None` where a script raises or reads nothing) |
| `Decimal` | decimal.dfy | Python's `str()` of an int, a simplified `int()`, the `{i:03}` format |
| `Ranges` | ranges.dfy | Python's `range()`, the order every loop visits its indices in |
| `Text` | text.dfy | `str.strip()` |
| `Catalog` | catalog.dfy | the category list and menu numbering, the canonical URL, the QR and HTML paths |
| `Redirect` | redirect.dfy | `generate_html` and its inverse |
| `Prompts` | prompts.dfy | the three retry loops of `get_user_input` and both versions of `get_form_urls` |
| `Artifacts` | artifacts.dfy | the working directory as a `Workspace` class, and the generation loops |
| `Scripts` | scripts.dfy | each script's `main`, and det.py's top-level loop |

How the model represents things:

- **Standard input** is a sequence of lines. Every reader returns the number of
  lines it consumed. When the lines run out, `input()` raises `EOFError`,
  which no script catches. The reader then returns `None`, and `main` writes
  nothing.
- **The working directory** is a `Workspace` object. Its field `files` maps
  path strings to contents, and its field `journal` lists every save in the
  order it was made. The invariant `Valid()` says that `files` is what
  replaying `journal` over the original contents gives.
- **A saved QR image** is the record of what was asked of the encoder: the
  URL together with the `QRCode`/`make`/`make_image` arguments.
- **Each loop method** is proved against a specification function of its
  inputs: `Plan` for the saves in order and `Outputs` for the files left.
  Lemmas then prove what the scripts promise about those functions.

## Model

| member | source | states |
|---|---|---|
| `Decimal.Show` | QR/PY/BUPPIN/20250108.py:53 | `str(i)` of an int: definition, no contract; `ParseShow` proves `int(str(i)) == i` |
| `Decimal.ParseInt` | QR/PY/BUPPIN/20250108.py:32 | `int()` of an answer, simplified as "## Left out" says: definition, no contract; `ParseUnsigned`, `ParseNegative`, `ParseShow` and `ParsePad3` describe it |
| `Decimal.Pad3` | QR/PY/BUPPIN/20250108.py:111 | `f"{i:03}"`: definition, no contract; `Pad3Shape`, `ParsePad3`, `Pad3Injective` and `Pad3Examples` describe it |
| `Decimal.Digits` | QR/PY/BUPPIN/20250108.py:53 | `str(n)` of a non-negative int is a non-empty digit string with a leading zero only for 0 |
| `Decimal.ParseShow` | QR/PY/BUPPIN/20250108.py:53 | `int(str(i)) == i` for every int, so the default `str(start)` reads back as `start` |
| `Decimal.ValueIgnoresLeadingZeros` | QR/PY/BUPPIN/20250108.py:43 | leading zeros do not change the value `int()` reads (by induction on the digits) |
| `Decimal.ParseUnsigned` | QR/PY/BUPPIN/20250108.py:32 | a non-empty ASCII digit string is accepted and read as its decimal value |
| `Decimal.ParseNegative` | QR/PY/BUPPIN/20250108.py:43 | a '-' before a digit string is accepted and negates the value |
| `Decimal.ParsePad3` | QR/PY/BUPPIN/20250108.py:111 | `{i:03}` reads back as `i` for every int: the padding loses nothing |
| `Decimal.Pad3Injective` | QR/PY/BUPPIN/20250108.py:121-127 | distinct indices never get the same padded numeral |
| `Decimal.DigitsLength` | QR/PY/BUPPIN/20250108.py:111 | the numeral of n has exactly as many characters as n has decimal digits |
| `Decimal.Pad3Shape` | QR/PY/BUPPIN/20250108.py:111 | `{i:03}` for i >= 0 has length max(3, digits), is zeros then the numeral, is 3 wide below 1000 and never truncates at 1000 or more |
| `Decimal.Pad3Examples` | QR/PY/BUPPIN/20250108.py:121 | 7, 47, 123, 1234 and -5 format as 007, 047, 123, 1234 and -05 |
| `Ranges.Range` | QR/PY/det.py:9 | `range(lo, hi)`, defined by its visiting order (lo, then `range(lo + 1, hi)`), is hi - lo consecutive ascending integers from lo, or empty when hi <= lo |
| `Ranges.RangeSnoc` | QR/PY/BUPPIN/20250108.py:110 | `range(lo, hi + 1)` is `range(lo, hi)` followed by hi: the last index the loop visits is `end` |
| `Text.IsSpace` | QR/PY/BUPPIN/20250108.py:68 | the characters for which `str.isspace()` holds: definition, no contract |
| `Text.Strip` | QR/PY/BUPPIN/20241113.py:72 | `str.strip()`: definition, no contract; `StripIsSlice`, `StripEmptyIffBlank` and `StripIdempotent` describe it |
| `Text.TrimStartIsSuffix` | QR/PY/BUPPIN/20250108.py:68 | stripping the front keeps a suffix that starts with a non-space, and only whitespace is cut |
| `Text.TrimEndIsPrefix` | QR/PY/BUPPIN/20250108.py:68 | stripping the end keeps a prefix that ends with a non-space, and only whitespace is cut |
| `Text.StripIsSlice` | QR/PY/BUPPIN/20241113.py:72 | `strip()` returns one contiguous slice, cuts only whitespace and leaves none at either end |
| `Text.StripEmptyIffBlank` | QR/PY/BUPPIN/20250108.py:68-69 | a line strips to "" exactly when it is all whitespace, which ends bulk input |
| `Text.StripIdempotent` | QR/PY/BUPPIN/20241113.py:72-74 | stripping a stripped line changes nothing |
| `Catalog.Categories` | QR/PY/BUPPIN/20250108.py:26 | the category list in menu order: definition, no contract; `MenuNumber` and `MenuNumbering` describe it |
| `Catalog.Name` | QR/PY/BUPPIN/20250108.py:26 | each category's name as the scripts spell it: definition, no contract; `NameLeads` and the path and URL injectivity lemmas rest on it |
| `Catalog.BaseUrl` | QR/PY/BUPPIN/20250108.py:107 | `base_url` of a category: definition, no contract |
| `Catalog.CanonicalUrl` | QR/PY/BUPPIN/20250108.py:111 | the URL index i's QR image encodes: definition, no contract; `CanonicalUrlInjective`, `CanonicalUrlExample` and `Scripts.DetUrlIsCanonical` describe it |
| `Catalog.QrPath` | QR/PY/BUPPIN/20250108.py:121 | `qr_dir / f"qrcode_{i:03}.png"`: definition, no contract; `QrPathInjective`, `QrHtmlDisjoint` and `QrPathExample` describe it |
| `Catalog.HtmlPath` | QR/PY/BUPPIN/20250108.py:127 | `html_dir / f"{i:03}.html"`: definition, no contract; `HtmlPathInjective`, `QrHtmlDisjoint` and `HtmlPathExample` describe it |
| `Catalog.MenuNumber` | QR/PY/BUPPIN/20250108.py:29-30 | every category has a menu number in 1..5 that indexes it in the list |
| `Catalog.MenuNumbering` | QR/PY/BUPPIN/20250108.py:26-34 | list entry n is the category with menu number n |
| `Catalog.CanonicalUrlInjective` | QR/PY/BUPPIN/20250108.py:107-111 | two (category, index) pairs have the same canonical URL only when they are equal |
| `Catalog.QrPathInjective` | QR/PY/BUPPIN/20250108.py:121 | no two QR files share a path, within a category or across categories |
| `Catalog.HtmlPathInjective` | QR/PY/BUPPIN/20250108.py:127 | no two redirect pages share a path |
| `Catalog.QrHtmlDisjoint` | QR/PY/BUPPIN/20250108.py:103-104 | QR images and redirect pages live in different trees (IMG/ and HTML/) |
| `Catalog.CanonicalUrlExample` | QR/PY/BUPPIN/20250108.py:107-111 | DET item 7 encodes `https://vdg.phys.sci.osaka-u.ac.jp/BUPPIN/DET/007.html` |
| `Catalog.QrPathExample` | QR/PY/BUPPIN/20250108.py:121 | DET item 7's image is `IMG/DET/qrcode_007.png` |
| `Catalog.HtmlPathExample` | QR/PY/BUPPIN/20250108.py:127 | DET item 12's page is `HTML/DET/012.html` |
| `Redirect.RedirectHtml` | QR/PY/BUPPIN/20250108.py:6-22 | `generate_html` (the same text as 20241113.py:5-21): definition, no contract; `RedirectHtmlLength`, `RedirectHtmlEmbeds`, `TargetOfRedirectHtml` and `RedirectHtmlInjective` describe it |
| `Redirect.TargetOf` | QR/PY/BUPPIN/20250108.py:6-22 | a page it reads a destination from is exactly the page generated for that destination |
| `Redirect.RedirectHtmlLength` | QR/PY/BUPPIN/20250108.py:8-21 | the page is a fixed skeleton plus exactly three copies of the URL, with no escaping |
| `Redirect.RedirectHtmlEmbeds` | QR/PY/BUPPIN/20250108.py:12-19 | the URL appears verbatim in the meta refresh, in `window.location.href = "…"` and in the fallback anchor, at fixed offsets in that order |
| `Redirect.TargetOfRedirectHtml` | QR/PY/BUPPIN/20250108.py:6-22 | reading the destination back from a generated page yields the URL it was given |
| `Redirect.RedirectHtmlInjective` | QR/PY/BUPPIN/20241113.py:5-21 | different destinations give different pages |
| `Prompts.CategoryChoice` | QR/PY/BUPPIN/20250108.py:32-35 | one answer to the category prompt: definition, no contract; `CategoryChoiceMenu`, `CategoryChoiceReadsMenuNumber` and `CategoryChoiceOfNumber` describe it |
| `Prompts.StartChoice` | QR/PY/BUPPIN/20250108.py:43-45 | an accepted start is at least 1 |
| `Prompts.EndChoice` | QR/PY/BUPPIN/20250108.py:53-55 | an accepted end is at least start |
| `Prompts.Prompt` | QR/PY/BUPPIN/20250108.py:41-49 | the retry loop reads from its position in standard input until a line is accepted, returning that line's value after rejecting every line read before it; with none accepted, all remaining lines are consumed |
| `Prompts.AcceptedAtUnique` | QR/PY/BUPPIN/20250108.py:27-39 | where a retry loop stops and what it answers are determined by the input: only one line can be the first accepted, and then the loop does not run out |
| `Prompts.GetUserInput` | QR/PY/BUPPIN/20250108.py:24-61 | returns settings exactly when input does not run out inside the category, start or end loop; the settings are the first answers each loop accepts from where the previous one stopped, with 1 <= start <= end |
| `Prompts.StagedUnique` | QR/PY/BUPPIN/20250108.py:24-61 | three retry loops in turn stop where, and answer what, the input determines |
| `Prompts.StagedExcludesRunOut` | QR/PY/BUPPIN/20250108.py:24-61 | three retry loops in turn cannot both answer and run out of input |
| `Prompts.AnsweredUnique` | QR/PY/BUPPIN/20241113.py:23-65 | get_user_input's settings and the number of lines it reads are a function of the input |
| `Prompts.AnsweredExcludesRunsOut` | QR/PY/BUPPIN/20241112.py:5-46 | if get_user_input answers, input did not run out in any of its loops (the converse is `AnsweredUnlessRunsOut`) |
| `Prompts.FirstAccepted` | QR/PY/BUPPIN/20250108.py:27-39 | a retry loop whose remaining lines are not all rejected stops at some first accepted line |
| `Prompts.StagedUnlessRunOut` | QR/PY/BUPPIN/20250108.py:24-61 | three retry loops in turn that do not run out all answer |
| `Prompts.AnsweredUnlessRunsOut` | QR/PY/BUPPIN/20241113.py:23-65 | if input does not run out in one of get_user_input's loops, get_user_input answers (the converse of `AnsweredExcludesRunsOut`) |
| `Prompts.Numbered` | QR/PY/BUPPIN/20250108.py:78 | the bulk dict's keys are exactly start .. start + len(urls) - 1, and key start + k holds the k-th URL |
| `Prompts.CollectBulk` | QR/PY/BUPPIN/20250108.py:63-79 | reads up to and including the first blank line; the result numbers the stripped, non-blank lines before it from start; the warning is printed exactly when fewer than end - start + 1 URLs were given; with no blank line all input is consumed and there is no result; all of this is `BulkRead` |
| `Prompts.EndsAtBlankUnique` | QR/PY/BUPPIN/20250108.py:67-70 | the bulk reader's stopping line is determined by the input, and if it stops, some line is blank (the converse is `FirstBlank`) |
| `Prompts.FirstBlank` | QR/PY/BUPPIN/20250108.py:67-70 | if some line is blank, the bulk reader has a stopping line: the first blank one |
| `Prompts.BulkRead` | QR/PY/BUPPIN/20250108.py:63-79 | the bulk reader's outcome: no result after consuming every line when none is blank; otherwise the first blank line ends it, the URLs before it are numbered from start, and the warning flags fewer URLs than indices |
| `Prompts.BulkReadUnique` | QR/PY/BUPPIN/20250108.py:63-79 | the bulk reader's result, warning and lines read are a function of its input |
| `Prompts.CollectPerIndex` | QR/PY/BUPPIN/20241113.py:67-75 | reads exactly end - start + 1 lines, one per index in ascending order, and stores the per-index map of what it read |
| `Prompts.Kept` | QR/PY/BUPPIN/20241113.py:69-75 | the per-index map after reading lines for indices start, start + 1, …: definition, no contract; `KeptStep` and `KeptAt` describe it |
| `Prompts.KeptAt` | QR/PY/BUPPIN/20241113.py:71-74 | index i has an entry exactly when it is in range and its own line is non-blank after stripping; the entry is that stripped line |
| `Prompts.CategoryChoiceMenu` | QR/PY/BUPPIN/20250108.py:29-35 | typing a category's menu number selects that category |
| `Prompts.CategoryChoiceReadsMenuNumber` | QR/PY/BUPPIN/20241113.py:29-41 | an accepted answer always reads as the menu number of the category it selected |
| `Prompts.CategoryChoiceOfNumber` | QR/PY/BUPPIN/20241112.py:10-22 | a numeral n is accepted exactly when 1 <= n <= 5, selecting list entry n - 1 |
| `Prompts.StartChoiceDefaults` | QR/PY/BUPPIN/20241112.py:25-33 | an empty answer means 1; "abc", "0" and "-1" are rejected |
| `Prompts.StartChoiceOfNumber` | QR/PY/BUPPIN/20241113.py:44-52 | a numeral n is accepted as start exactly when n >= 1 |
| `Prompts.EndChoiceDefault` | QR/PY/BUPPIN/20241112.py:36-44 | an empty end answer means start |
| `Prompts.EndChoiceOfNumber` | QR/PY/BUPPIN/20241113.py:55-63 | a numeral n is accepted as end exactly when n >= start |
| `Prompts.NumberedCoversPrefix` | QR/PY/BUPPIN/20250108.py:74-78 | an index of the range gets a URL exactly when enough URLs reach it; with too few, the first uncovered index is inside the range |
| `Prompts.NumberedSurplus` | QR/PY/BUPPIN/20250108.py:78 | some key lies past end exactly when more than end - start + 1 URLs were given |
| `Artifacts.StepWrites` | QR/PY/BUPPIN/20250108.py:111-129 | one iteration's saves in order: the QR image with the `StandardQr` encoder arguments, then the page when the index has a URL: definition, no contract; `SaveStep` is proved to perform it |
| `Artifacts.StepFiles` | QR/PY/BUPPIN/20250108.py:121-127 | the files one iteration leaves: definition, no contract; `ReplayStep` ties it to `StepWrites` |
| `Artifacts.Plan` | QR/PY/BUPPIN/20250108.py:110-130 | the loop's saves in order: definition, no contract; `Generate`, `PlanSplit`, `PlanAt`, `PlanFollowsRange` and `ReplayPlan` describe it |
| `Artifacts.StepsOver` | QR/PY/BUPPIN/20250108.py:110 | the saves of visiting a list of indices in order: definition, no contract; `PlanFollowsRange` uses it |
| `Artifacts.Outputs` | QR/PY/BUPPIN/20250108.py:110-130 | the files the loop leaves: definition, no contract; `OutputsQr`, `OutputsHtml`, `OutputsOnly`, `OutputsCount` and `ReplayPlan` describe it |
| `Artifacts.Workspace.Store` | QR/PY/BUPPIN/20250108.py:122 | a save sets one path, overwriting any earlier content, and is appended to the journal |
| `Artifacts.SaveQr` | QR/PY/BUPPIN/20250108.py:111-122 | saves the image of the index's canonical URL, with the standard encoder parameters, at its QR path |
| `Artifacts.SaveRedirect` | QR/PY/BUPPIN/20250108.py:126-129 | saves `generate_html(url)` at the index's HTML path |
| `Artifacts.SaveStep` | QR/PY/BUPPIN/20241113.py:104-127 | one iteration: the QR image, then the redirect page only if the index has a URL |
| `Artifacts.Generate` | QR/PY/BUPPIN/20250108.py:110-130 | the loop's saves are `Plan` in order and the files it leaves are `Outputs`, laid over what was there |
| `Artifacts.GenerateQrOnly` | QR/PY/BUPPIN/20241112.py:67-87 | the QR-only loop's saves are `Plan` and its files `Outputs`, with no URLs |
| `Artifacts.OutputsQr` | QR/PY/BUPPIN/20241113.py:102-119 | a QR file exists exactly for each index of the run's category and range, and encodes that index's canonical URL |
| `Artifacts.OutputsHtml` | QR/PY/BUPPIN/20250108.py:125-130 | a redirect page exists exactly for in-range indices with a URL, never for keys outside the range, and redirects to that URL |
| `Artifacts.OutputsOnly` | QR/PY/BUPPIN/20241113.py:102-127 | every file the loop leaves is the QR image or redirect page of some index of the range |
| `Artifacts.OutputsCount` | QR/PY/BUPPIN/20250108.py:110-130 | the loop leaves end - start + 1 files plus one per in-range index with a URL, so nothing is overwritten |
| `Artifacts.FreshStep` | QR/PY/BUPPIN/20250108.py:121-127 | an index's files are never among those of the indices before it |
| `Artifacts.QrOnlyCount` | QR/PY/BUPPIN/20241112.py:67-86 | the QR-only loop leaves exactly end - start + 1 files, all of them QR images |
| `Artifacts.ReplayPlan` | QR/PY/BUPPIN/20241113.py:102-127 | performing the saves in order on any directory gives that directory overlaid with `Outputs` |
| `Artifacts.PlanSplit` | QR/PY/BUPPIN/20250108.py:110 | the saves for indices up to any mid come before those for larger indices (ascending order) |
| `Artifacts.PlanAt` | QR/PY/BUPPIN/20241113.py:102 | index i's saves sit between those of the smaller and those of the larger indices |
| `Artifacts.PlanFollowsRange` | QR/PY/BUPPIN/20250108.py:110 | the loop's saves are each index's saves, visited in the order of `range(start, end + 1)` |
| `Scripts.RunBulk` | QR/PY/BUPPIN/20250108.py:98-130 | no settings exactly when input runs out in get_user_input, and then all input is read and nothing changes; otherwise the settings are get_user_input's answer, the bulk reader's outcome on the remaining lines is `BulkRead`, and after a blank line the files are `Outputs` for the chosen range and the URLs read |
| `Scripts.BulkUrlsThenFiles` | QR/PY/BUPPIN/20250108.py:102-130 | the bulk reader's outcome is `BulkRead`, then the generation loop runs over the URLs read only when a blank line ended them |
| `Scripts.RunPerIndex` | QR/PY/BUPPIN/20241113.py:77-127 | no settings exactly when input runs out in get_user_input; otherwise the settings are its answer, and either fewer than end - start + 1 lines remain, all are read and nothing changes, or exactly end - start + 1 URL lines are read and the files are `Outputs` for the per-index map |
| `Scripts.RunQrOnly` | QR/PY/BUPPIN/20241112.py:48-87 | no settings exactly when input runs out in get_user_input, and then nothing changes; otherwise the settings are its answer and the files are the QR-only `Outputs` |
| `Scripts.DetUrl` | QR/PY/det.py:11 | det.py's URL for index i: definition, no contract; `DetUrlIsCanonical` describes it |
| `Scripts.DetPath` | QR/PY/det.py:27 | det.py's file name for index i: definition, no contract; `DetPathOutsideTrees` describes it |
| `Scripts.DetStep` | QR/PY/det.py:11-28 | one iteration's save: definition, no contract; `SaveDet` performs it |
| `Scripts.DetWrites` | QR/PY/det.py:9-28 | the loop's saves in order: definition, no contract; `DetLoop`, `DetWritesFollowRange` and `DetRun` describe it |
| `Scripts.DetOutputs` | QR/PY/det.py:9-28 | the files the loop leaves: definition, no contract; `DetOutputsAt`, `DetOutputsOnly` and `DetRun` describe it |
| `Scripts.SaveDet` | QR/PY/det.py:11-28 | one iteration saves the image of `NIM-CAMAC/NNN.html` as `qrcode_NNN.png` |
| `Scripts.DetLoop` | QR/PY/det.py:9-28 | the loop's saves and files are `DetWrites` and `DetOutputs` of its range |
| `Scripts.GenerateDet` | QR/PY/det.py:9 | the script as written runs the loop over range(47, 48) |
| `Scripts.DetRun` | QR/PY/det.py:9-27 | range(47, 48) is [47], so the only save is `qrcode_047.png`, encoding `https://vdg.phys.sci.osaka-u.ac.jp/BUPPIN/NIM-CAMAC/047.html` |
| `Scripts.DetUrlIsCanonical` | QR/PY/det.py:6-19 | det.py encodes the batch scripts' canonical NIM-CAMAC URL with the same encoder parameters |
| `Scripts.DetPathOutsideTrees` | QR/PY/det.py:27 | det.py's file sits in the working directory, outside IMG/ and HTML/ |
| `Scripts.DetOutputsAt` | QR/PY/det.py:9-28 | for any range, an index's image file exists exactly when the index is in the range, and holds that index's image |
| `Scripts.DetOutputsOnly` | QR/PY/det.py:9-28 | every file det.py's loop leaves is the image of an index in its range |
| `Scripts.DetWritesFollowRange` | QR/PY/det.py:9-28 | the k-th save of det.py's loop is the image of the k-th index of `range(lo, hi)`, and there is one save per index |

## Left out

- `sync_to_server` (20250108.py:81-96) and the success or failure message
  `main` prints after it are not modelled: the function is an rsync
  subprocess over ssh, foreign I/O with no logic of its own.
- Directory creation (`mkdir(parents=True, exist_ok=True)`) is not modelled.
  Paths are plain strings such as `IMG/DET/qrcode_007.png`, with the leading
  `./` of `Path("./IMG/...")` dropped.
- Console output is not modelled: prompts, menus, error messages and
  progress lines. The bulk reader's warning is kept only as the boolean
  `warned`; its text is not.
- QR symbol encoding and PNG rendering are not modelled. A saved image is
  the record of the encoded URL and the encoder arguments.
- Failures of the actual file writes (permissions, full disk) are not
  modelled.
- `int()` is simplified to an optional sign followed by one or more ASCII
  digits. Surrounding whitespace, underscores and non-ASCII digits, which
  Python accepts, are rejected here like any other ValueError. In the other
  direction, the model reads numerals of any length. Python 3.11 and later
  (and the patched 3.7 to 3.10 releases) raise ValueError for a numeral of
  more than 4300 digits, so the category, start and end loops reject such
  an answer and ask again, while the model accepts it.
- Input running out (EOFError) ends the model's readers with no result, and
  exceptions other than ValueError and EOFError are not modelled. Since the
  scripts do not catch EOFError, the model then writes nothing.
- `strip()` uses Python's `isspace()` set over Unicode scalar values, which
  is what a Dafny `char` is. No Unicode normalisation is modelled; Python's
  `strip()` does none either.
- The comment in det.py:8 names the range 019 to 029. The code loops over
  `range(47, 48)`, and only the code is modelled.
- The bulk reader's comprehension filter `if url` (20250108.py:78) is always
  true, because reading stops at the first blank line. The model therefore
  has no filter.
- Surplus bulk URLs become dictionary keys past `end` (see
  `Prompts.NumberedSurplus`). The generation loop never reads them, and
  `Artifacts.OutputsHtml` shows that no page is written for them.
