# CV builder: provider JSON merged into a LaTeX résumé

The model covers the part of the CV builder that turns a job description into a tailored LaTeX résumé.

- **`POST /api/generate`** (`src/app/api/generate/route.ts`). It takes two steps.
  - It validates the request body and asks one of three language-model providers (OpenAI, Claude, Gemini) for an optimised CV as JSON.
  - It strips any markdown code fence from the answer and parses it. Then it returns the LaTeX that `generateLatex` builds from it, together with the parsed data.
- **Both LaTeX generators.**
  - `src/app/utils/index.ts` is the one the route calls.
  - `src/utils/index.ts` is the older copy.
  - Each generator first merges the provider's `summary`, `skills` and `experience` over the default CV. Skills are reconciled per category: the provider's lower-case alias, else the interface's own key, else the default.
  - It then fills a fixed template:
    - a header with contact links;
    - the Summary, Skills and Experience sections;
    - Projects, only if there are projects;
    - Education;
    - Achievements, only if there are achievements.
  - All CV text that is displayed goes through `escapeLatex`. The app generator's skill labels are the exception: it writes them raw, so "Cloud & DevOps" keeps a bare `&` (`Variants.AmpersandEscaped`). Link targets are written as they are: the website, LinkedIn, GitHub and project URLs, the experience website in `src/utils`, and, in the app generator, the `mailto:` target.

Modules:

- `Wrappers`: `Option` / `Result`.
- `Text`: the JavaScript string built-ins the code uses, modelled explicitly:
  - `trim` with JavaScript's whitespace set;
  - `startsWith` / `endsWith`;
  - `replace` with a string pattern, which replaces the first occurrence only;
  - `replace(/c/g, …)`;
  - `join`;
  - `split("/").pop()`.
- `Types`, `SrcTypes`: the CV records of `types/index.ts` and `src/types/index.ts`.
- `Reconcile`: the skills merge. Both generators carry the same code.
- `Sections`: a document as a sequence of raw text and `\section{…}` headings. Heading properties are stated on it.
- `Template`: the template pieces the two generators share, and the order in which skill categories are shown. `Template.Layout` is the body both generators write, from the opening part to the document end; the generators differ only in the white space a `Spacing` value holds (`AppUtils.AppSpacing`, `SrcUtils.SrcSpacing`).
- `EscapeSpec`: the character-by-character meaning of the structural escaping.
- `SrcEscape`: `escapeLatex` of `src/utils`:
  - the replacement chain;
  - the lazy `/\*\*(.+?)\*\*/g` bold pass, with `.` not matching line terminators.
- `AppUtils`, `SrcUtils`: the two generators.
- `Variants`: how the two generators' escaping relates.
- `GenerateRoute`: the route.

Behaviour of the code that the model keeps as written:

- Both `escapeLatex` functions turn a backslash into `\textbackslash\{\}` rather than `\textbackslash{}`. The replacement's own braces are escaped by the later brace replacements. `EscapeSpec.EscapedChar` states this, and `AppUtils.EscapeBackslash` proves it.
- The app generator maps `exp.bullets` and `project.bullets` without a guard. A missing list throws a `TypeError`, which the route's outer `catch` turns into a 500. `AppUtils.ExperienceEntries` and `AppUtils.ProjectEntries` return `Failure` at the first entry without a list, and `AppUtils.Document` passes that failure on.
- A `provider` value other than the three names calls no provider. The response text then stays `""`, `JSON.parse("")` throws, and the route answers 502 "AI did not return valid JSON". The route's type declares only the three names, but the code has no guard for any other value.
- The header's separators are not only between present links. In the app generator the e-mail is always followed by a separator and every present link brings its own leading one. A website therefore gives two separators in a row (`AppUtils.SeparatorRepeated`), and a header with no link ends on the e-mail's separator (`AppUtils.TrailingSeparator`). In `src/utils` the website and LinkedIn slots carry a trailing separator even when nothing follows (`SrcUtils.TrailingWebsiteSeparator`).
- In the reconciliation, arrays are truthy even when empty. A provider's empty list therefore replaces the default, while JSON `null` or a missing key falls through to the next choice.

## Model

| member | source | states |
|---|---|---|
| Reconcile.ReconcileCategory | src/utils/index.ts:12-31 | each category is the provider's lower-case alias list if present, else its list under the interface key, else the default list |
| Reconcile.ReconcileOneAlias | src/app/utils/index.ts:13-32 | a provider that sends only one alias changes that category and leaves the other six at their defaults |
| Reconcile.ReconcileEmpty | src/app/utils/index.ts:13-32 | a skills object in which no category's alias or interface key holds a list reproduces the default skills; the empty object and one with only `null` under those keys are such objects |
| Reconcile.Pick | src/utils/index.ts:12-31 | definition: one category's choice, in the source's order: the lower-case alias's list, else the interface key's list, else the default; its properties are stated by `Reconcile.ReconcileCategory` |
| Reconcile.ReconcileSkills | src/utils/index.ts:12-31 | definition: the seven categories' choices, as one `Skills` object; properties in `Reconcile.ReconcileCategory`, `Reconcile.ReconcileOneAlias` and `Reconcile.ReconcileEmpty` |
| Reconcile.KeysDistinct | src/app/utils/index.ts:16-30 | no category's alias or interface key is another category's alias, so the merge of one category never reads another's list |
| AppUtils.MergedCv | src/app/utils/index.ts:12-39 | the merged CV takes a truthy summary, the reconciled skills when a skills object was sent, and a provided experience array; every other field is the default |
| SrcUtils.MergedCv | src/utils/index.ts:11-38 | the same merge in the older generator |
| EscapeSpec.ReservedGetsBackslash | src/app/utils/index.ts:383-389 | each of the ten reserved characters is escaped to a backslash sequence: `\c` for the seven class characters, a `\text…` command for backslash, tilde and caret |
| EscapeSpec.EscapeEachUnreserved | src/app/utils/index.ts:383-389 | text with no reserved character is left unchanged |
| AppUtils.EscapeLatex | src/app/utils/index.ts:383-389 | definition: the four replacements in the source's order (backslash, the class `[&%$#_{}]`, tilde, caret); what they compute is stated by `AppUtils.EscapeLatexPerChar` |
| AppUtils.EscapeLatexPerChar | src/app/utils/index.ts:383-389 | the four replacements escape each character independently, by the reference map in `EscapeSpec`: no replacement rewrites another's output, apart from the braces of `\textbackslash{}` |
| AppUtils.EscapeLatexAppend | src/app/utils/index.ts:383-389 | escaping distributes over concatenation |
| AppUtils.EscapeBackslash | src/app/utils/index.ts:385-386 | a backslash becomes `\textbackslash\{\}`, because the class replacement escapes the braces the first replacement inserted |
| AppUtils.EscapeTilde | src/app/utils/index.ts:387 | a tilde becomes `\textasciitilde{}` |
| AppUtils.AsterisksKept | src/app/utils/index.ts:383-389 | the app escaping leaves `**` markers in place around the escaped text |
| AppUtils.EscapeAll | src/app/utils/index.ts:319 | the escaped list has the same length as the input list, and each element is that item escaped |
| SrcUtils.EscapeAll | src/utils/index.ts:368-370 | the escaped item list is element-wise `escapeLatex` of the input |
| SrcEscape.PrefixEachChar | src/utils/index.ts:390-396 | the seven chained one-character replacements escape a character once if it is one of them and leave it unchanged otherwise |
| SrcEscape.PrefixEachAppend | src/utils/index.ts:390-396 | the chain distributes over concatenation |
| SrcEscape.EscapeLatex | src/utils/index.ts:385-401 | definition: `null` and `undefined` give the empty text; other text gets the ten chained replacements, then the bold pass; properties in `Variants.StructuralAgrees`, `SrcEscape.BoldUnmarked` and `SrcEscape.BoldWrapped` |
| SrcEscape.Bold | src/utils/index.ts:400 | definition: the global replacement of `/\*\*(.+?)\*\*/g` by `\textbf{$1}`, scanning from the start of the text |
| SrcEscape.BoldFrom | src/utils/index.ts:400 | definition: from position `i`, a match (`SrcEscape.MatchAt`) is replaced by `\textbf{…}` around its group and the scan resumes after its closing `**`; otherwise one character is copied |
| SrcEscape.CloseFrom | src/utils/index.ts:400 | a lazy group closes at a position inside the text where `**` occurs |
| SrcEscape.CloseFromFirst | src/utils/index.ts:400 | the lazy group closes at the first `**` reached without crossing a line terminator; it closes nowhere if every later `**` is preceded by one |
| SrcEscape.MatchAt | src/utils/index.ts:400 | a bold match has at least one character between its opening and closing markers, and lies inside the text |
| SrcEscape.BoldUnmarked | src/utils/index.ts:400 | text without `**` passes the bold pass unchanged |
| SrcEscape.BoldWrapped | src/utils/index.ts:400 | a non-empty, one-line, asterisk-free `x` between `**` markers becomes `\textbf{x}` |
| Variants.ClassPassAgrees | src/utils/index.ts:390-396 | the seven chained replacements of `src/utils` equal the single class replacement of `src/app/utils` |
| Variants.StructuralAgrees | src/utils/index.ts:388-398 | the structural escaping of both generators is the same, and equals the per-character reference map |
| Variants.StarFreeAgrees | src/utils/index.ts:385-401 | the two `escapeLatex` functions agree on text without asterisks |
| Variants.BoldOnlyInSrc | src/utils/index.ts:400 | `**x**` becomes `\textbf{…}` in `src/utils` and keeps its markers in `src/app/utils` |
| Variants.EscapeEachNoStar | src/utils/index.ts:388-398 | the structural escaping introduces no asterisk, so the bold pass only sees the author's own markers |
| Variants.EscapeEachSingleLine | src/utils/index.ts:388-398 | the structural escaping introduces no line terminator |
| Variants.InertEscaped | src/utils/index.ts:385-401 | text with no reserved character and no asterisk is left unchanged by `src/utils` escaping |
| Variants.AmpersandEscaped | src/utils/index.ts:379 | `src/utils` escapes the ampersand of a label such as "Cloud & DevOps" to `\&`, which the app generator writes raw |
| Variants.LabelsInert | src/utils/index.ts:374-380 | every skill label except "Cloud & DevOps" has no reserved character and no asterisk; that label is "Cloud " and " DevOps" around one ampersand |
| Variants.EscapeAllAgrees | src/utils/index.ts:368-370 | for items without asterisks the two generators escape the skill items alike |
| Variants.SkillLineAgrees | src/utils/index.ts:365-372 | for any category other than "Cloud & DevOps", and items without asterisks, both generators write the same skill line |
| Template.ShownMembers | src/app/utils/index.ts:326-378 | a category gets a skill line exactly when its list is non-empty |
| Template.ShownKeepsOrder | src/app/utils/index.ts:326-378 | the skill lines come in the declaration order Languages, Frontend, Backend, AI/ML, Databases, Cloud & DevOps, Tools |
| AppUtils.CategoryLinesShown | src/app/utils/index.ts:324-378 | the pushed lines are exactly the shown categories' lines, in order |
| AppUtils.GenerateSkillsSection | src/app/utils/index.ts:315-381 | the method's guarded pushes and join produce the skills section; a flat skills array is escaped and joined into one entry |
| AppUtils.SkillsSectionCategories | src/app/utils/index.ts:324-380 | the skills section is the lines of the non-empty categories, in declaration order, joined with the spacing separator |
| AppUtils.SkillsSectionEmpty | src/app/utils/index.ts:324-380 | the skills section is empty if and only if every category is empty |
| SrcUtils.CategoryLinesShown | src/utils/index.ts:363-380 | the lines `addSection` pushes are exactly the shown categories' lines, in order |
| SrcUtils.AddSection | src/utils/index.ts:365-372 | one call extends the pushed lines from the first `k` categories to the first `k+1`: it pushes the line only when the list is non-empty |
| SrcUtils.GenerateSkillsSection | src/utils/index.ts:361-383 | seven `addSection` calls in declaration order, then the join, produce the skills section |
| SrcUtils.SkillsSectionCategories | src/utils/index.ts:361-383 | the skills section is the non-empty categories' lines, in declaration order, joined with the spacing separator |
| SrcUtils.SkillsSectionEmpty | src/utils/index.ts:361-383 | the skills section is empty if and only if every category is empty |
| AppUtils.GenerateLatex | src/app/utils/index.ts:9-313 | the generator's result is the document of the merged CV |
| AppUtils.DocumentFails | src/app/utils/index.ts:215-262 | for entries whose text fields are present, generation fails with a TypeError exactly when some experience or project entry has no bullet list, derived from the two entry mappings |
| AppUtils.ExperienceEntriesFail | src/app/utils/index.ts:215-233 | mapping the experience entries throws the TypeError exactly when some entry has no bullet list |
| AppUtils.ExperienceEntriesRendered | src/app/utils/index.ts:215-233 | when the mapping succeeds, it holds one rendered entry per experience entry, in order |
| AppUtils.ProjectEntriesFail | src/app/utils/index.ts:240-264 | mapping the project entries throws the TypeError exactly when some entry has no bullet list |
| AppUtils.ProjectEntriesRendered | src/app/utils/index.ts:240-264 | when the mapping succeeds, it holds one rendered entry per project, in order |
| Template.LayoutTitles | src/app/utils/index.ts:203-310 | for either generator's spacing, the headings in order: Summary, Skills, Experience, then Projects if present, Education, then Achievements if present (src/utils/index.ts:245-356 has the same layout) |
| Template.OptionalHeadings | src/app/utils/index.ts:235-310 | the Projects heading appears iff the projects part is written; the Achievements heading appears iff the achievements part is written |
| Template.OpeningTitles | src/app/utils/index.ts:203-213 | the opening part carries the Summary, Skills and Experience headings, in that order |
| Template.OptionalTitles | src/app/utils/index.ts:235-266 | an optional part carries its heading exactly when it is written |
| Template.EducationTitles | src/app/utils/index.ts:268 | the education part carries one Education heading |
| AppUtils.DocumentTitles | src/app/utils/index.ts:203-310 | the generated document's headings are Summary, Skills, Experience, Projects iff there are projects, Education, Achievements iff there are achievements |
| AppUtils.EntriesAlwaysHighlighted | src/app/utils/index.ts:217-262 | every experience and project entry ends with a highlights block |
| AppUtils.EducationHighlights | src/app/utils/index.ts:277-290 | an education entry ends with a highlights block iff it has a non-empty bullet list; otherwise it ends at its two-column entry |
| AppUtils.Header | src/app/utils/index.ts:157-199 | definition: the name, the e-mail link and one separator, then one slot per non-empty website, LinkedIn and GitHub URL; properties in `AppUtils.MailTargetRaw` and `AppUtils.LinkSlotShape` |
| AppUtils.MailTargetRaw | src/app/utils/index.ts:163-165 | the e-mail is the `mailto:` target as it is, unescaped, and is escaped only in the shown text, which `}}%` closes, right after the escaped name |
| AppUtils.ExperienceEntry | src/app/utils/index.ts:216-231 | definition: dates, escaped title and company, then the bullet block; defined only when the bullet list is present; `AppUtils.ExperienceEntries` gives the TypeError otherwise |
| AppUtils.ProjectEntry | src/app/utils/index.ts:241-262 | definition: the project link, the escaped name, then the bullet block; defined only when the bullet list is present |
| AppUtils.EducationEntry | src/app/utils/index.ts:271-290 | definition: dates, escaped school and degree, then a bullet block only when the list is non-empty; property in `AppUtils.EducationHighlights` |
| AppUtils.Document | src/app/utils/index.ts:9-313 | definition: the rendered template, or the failure of the experience mapping and then of the project mapping; properties in `AppUtils.DocumentFails` and `AppUtils.DocumentTitles` |
| AppUtils.LinkSlotShape | src/app/utils/index.ts:169-198 | a contact link is written exactly when its URL is non-empty; it then starts with its own separator and ends with the escaped display text closed by `}}%` |
| AppUtils.SeparatorRepeated | src/app/utils/index.ts:166-179 | with a website, two separators follow each other in the header: the one after the e-mail and the website slot's own |
| AppUtils.TrailingSeparator | src/app/utils/index.ts:166-199 | with no website, LinkedIn or GitHub link, the header ends with the e-mail's separator followed only by blank lines and the closing |
| AppUtils.StripSchemeOfUrl | src/app/utils/index.ts:175 | a website's displayed text drops the `https://` or `http://` prefix and is otherwise the URL |
| AppUtils.StripSecure | src/app/utils/index.ts:247 | an `https://` URL is displayed without its scheme |
| AppUtils.StripPlain | src/app/utils/index.ts:247 | an `http://` URL is displayed without its scheme |
| Text.LastSegment | src/app/utils/index.ts:185 | `split("/").pop()` is the suffix after the last slash, and holds no slash |
| SrcUtils.Header | src/utils/index.ts:200-241 | definition: the name, the e-mail link and its separator, then the website, LinkedIn and GitHub slots, each followed by its own tail; properties in `SrcUtils.MailTargetEscaped` and `SrcUtils.LinkSlotShape` |
| SrcUtils.MailTargetEscaped | src/utils/index.ts:206-208 | the e-mail is escaped both in the `mailto:` target and in the shown text, which `}}%` closes, right after the escaped name, where the app generator writes the target raw |
| SrcUtils.TrailingWebsiteSeparator | src/utils/index.ts:212-241 | with a website but no LinkedIn or GitHub link, the header ends with the website slot's separator tail, then blank lines and the closing |
| SrcUtils.LinkSlotShape | src/utils/index.ts:212-240 | a contact link is written exactly when its URL is non-empty; it then opens on the unescaped URL and ends with the escaped display text, `}}` and its own separator tail, rather than starting with a separator as in the app generator |
| SrcUtils.ExperienceEntry | src/utils/index.ts:256-280 | definition: dates, the title and company label, then the bullet block of the list read as empty when missing; property in `SrcUtils.EntriesAlwaysHighlighted` |
| SrcUtils.ProjectEntry | src/utils/index.ts:288-310 | definition: the project link, the escaped name, then the bullet block of the list read as empty when missing |
| SrcUtils.EducationEntry | src/utils/index.ts:317-338 | definition: dates, escaped school and degree, then the bullets part; property in `SrcUtils.EducationHighlights` |
| SrcUtils.Document | src/utils/index.ts:9-359 | definition: the rendered template, with no failure case for payloads of the declared shapes; properties in `SrcUtils.DocumentTitles` and `SrcUtils.GenerateLatex` |
| SrcUtils.DocumentTitles | src/utils/index.ts:245-356 | for every CV, the document's headings are Summary, Skills, Experience, Projects iff there are projects, Education, Achievements iff there are achievements |
| SrcUtils.EntriesAlwaysHighlighted | src/utils/index.ts:255-311 | every experience and project entry ends with a highlights block, even with no bullet list |
| SrcUtils.EducationHighlights | src/utils/index.ts:316-337 | an education entry ends with a highlights block iff its bullet list, with a missing list read as empty, is non-empty |
| SrcUtils.BulletsEnding | src/utils/index.ts:328-337 | whatever precedes it, the education bullet part ends with a highlights block iff there are bullets |
| SrcUtils.GenerateLatex | src/utils/index.ts:9-359 | the generator's result is the document of the merged CV; for payloads of the declared shapes it never fails |
| Template.BulletBlockEnds | src/utils/index.ts:274-279 | a bullet block ends with the highlights closing lines |
| GenerateRoute.UserMessage | src/app/api/generate/route.ts:34-42 | the user message is the CV header, the CV JSON, a blank line, the job-description header, the job description, a blank line and the instruction, one per line |
| GenerateRoute.JobDescriptionPlaced | src/app/api/generate/route.ts:34-42 | the job-description header line, the job description as it is and a blank line start right after the CV header line, the CV JSON line and the blank line, at offset `|CvHeader| + |cvJson| + 3` |
| GenerateRoute.VendorOf | src/app/api/generate/route.ts:46-111 | definition: `provider === "openai"`, `"claude"`, `"gemini"` tested in that order; any other value calls no provider; property in `GenerateRoute.UnknownProviderInvalid` |
| Text.Trim | src/app/api/generate/route.ts:114 | `trim` gives a substring with no whitespace at either end |
| GenerateRoute.StripFences | src/app/api/generate/route.ts:114-124 | the cleaned response text is trimmed at both ends |
| GenerateRoute.Unfence | src/app/api/generate/route.ts:115-123 | definition: a leading "```json", then a leading "```", then a trailing "```", each removed only when present; properties in `GenerateRoute.JsonFenceRemoved` and `GenerateRoute.PlainFenceRemoved` |
| GenerateRoute.UnfencedOnlyTrimmed | src/app/api/generate/route.ts:114-124 | an answer without fences is only trimmed |
| GenerateRoute.JsonFenceRemoved | src/app/api/generate/route.ts:115-124 | a code fence tagged `json` (three backticks and `json` before, three backticks after) is removed and its content trimmed |
| GenerateRoute.PlainFenceRemoved | src/app/api/generate/route.ts:118-124 | an untagged code fence (three backticks before and after) is removed and its content trimmed |
| GenerateRoute.CleanResponse | src/app/api/generate/route.ts:114-124 | trimming, the fence checks and trimming again leave `responseText` equal to the cleaned text `StripFences` |
| GenerateRoute.RemoveFences | src/app/api/generate/route.ts:115-123 | the three guarded slices of `responseText`, in the source's order, give `Unfence` of their input |
| GenerateRoute.Handle | src/app/api/generate/route.ts:18-154 | every response has status 200, 400, 500 or 502, and carries a document exactly when it is 200 |
| GenerateRoute.AfterAnswer | src/app/api/generate/route.ts:126-148 | after an answer, the status is 200, 500 or 502, and there is a document exactly when it is 200; a 200's data is what `parse` gives for the cleaned answer, and its LaTeX is what the generator makes of that data |
| GenerateRoute.Post | src/app/api/generate/route.ts:18-154 | the handler's branches on provider, key, parse and generation give the response `Handle` defines |
| GenerateRoute.ParseAndGenerate | src/app/api/generate/route.ts:113-148 | cleaning, parsing and generating give the response `AfterAnswer` defines |
| GenerateRoute.RefusesIncomplete | src/app/api/generate/route.ts:23-29 | the status is 400 exactly when `jd` or `provider` is missing or empty, and the error names both fields |
| GenerateRoute.UnknownProviderInvalid | src/app/api/generate/route.ts:44-139 | an unknown provider leaves the text empty, and the route answers 502 "AI did not return valid JSON" |
| GenerateRoute.InvalidJsonOnlyOnParseFailure | src/app/api/generate/route.ts:126-139 | the status is 502 exactly when the provider answered and its cleaned answer does not parse |
| GenerateRoute.MissingKeyNamed | src/app/api/generate/route.ts:49-98 | an unset API key gives a 500 whose error is `OPENAI_API_KEY is not set`, `ANTHROPIC_API_KEY is not set` or `GOOGLE_API_KEY is not set`, for the provider named |
| GenerateRoute.SuccessCarriesDocument | src/app/api/generate/route.ts:113-148 | for a complete request, a 200 means the provider answered; its `optimizedData` is what `parse` gives for the cleaned answer (trimmed first for OpenAI), and its `latex` is the document the generator produced from that data |

## Left out

- The template's long fixed preamble is not spelled out character for character. It is the parameter `fixed: FixedText` (the text before and after the PDF metadata lines). The name interpolated into those metadata lines is modelled.
- `SrcUtils.AddSection` takes the shared skills object and the category's position as ghost parameters. Its contract states the pushed lines through `SrcUtils.CategoryLines`, whose definition is the push; it does not restate the line's text in its own `ensures`.
- SrcUtils.Document: the payload's `experience`, each entry's `bullets` and each skill value are a list or absent, as `Types.Payload` declares them. In the source a truthy non-array value (`"x"`, `{}`) is kept by `||` and then throws a TypeError at `.map`: `cv.experience` at src/utils/index.ts:255, `(exp.bullets || [])` at 257, a skill list at 369. The route turns that into a 500. The model cannot represent these values.
- AppUtils.Document: the same holds for the app generator. A truthy non-array `experience` (src/app/utils/index.ts:38, 215) or skill value (328 and the six guards after it) throws a TypeError in the source, and the model cannot represent it.
- GenerateRoute.AfterAnswer: `parse` yields a `Payload` object or nothing. A provider answer of JSON `null` parses in the source, and then `generateLatex(null)` throws reading `.skills` (src/app/utils/index.ts:13), which gives a 500. The model cannot produce that 500; it gives what `parse` returns for such text.
- `escapeLatex` of `src/utils` applies `String(text)` to non-string values. The model takes strings, or null/undefined as `None`.
- AppUtils.DocumentFails: the CV entries' text fields (title, company, dates, name, school, degree) are strings, as `types/index.ts` declares them. A provider entry that leaves one out would make the app's `escapeLatex(undefined)` throw a TypeError as well, a failure the model does not have.
- AppUtils.DocumentFails: a bullet list that is JSON `null` throws with "Cannot read properties of null (reading 'map')" in the source. The model has one missing-list case, with the `undefined` message.
- GenerateRoute.RefusesIncomplete: `jd` and `provider` are strings or absent, as the route's `GenerateBody` type declares them. A truthy non-string value (a number, an object) passes the source's guard, while the model reads it as absent and answers 400.
- The provider SDK calls become the parameter `reply`:
  - the OpenAI, Anthropic and Gemini clients;
  - their model names and temperatures;
  - the system prompt;
  - `process.env` and the API-key checks.
  An unset key is the reply `KeyMissing`. An SDK error is `Thrown(message)`.
- Claude's join of the text blocks and Gemini's prompt concatenation happen inside the provider and are folded into `reply`.
- For OpenAI, `?.content?.trim() || ""` is modelled as trimming the answered text. A missing choice or missing content counts as answering `""`.
- `JSON.parse` and `JSON.stringify(DEFAULT_CV, null, 2)` are the parameters `parse` and `cvJson`. The route's parse of a JSON value that is not an object is folded into `parse`'s result, and `DEFAULT_CV` is the parameter `defaults`.
- `req.json()` failing, or returning `null` or a non-object, is treated as an incomplete body (400). A JSON error thrown by `req.json()` itself would give 500 in the source.
- Errors without a message (the "Unknown error" branch of the outer `catch`) are not modelled. Every thrown error carries its message.
- `body.provider ?? "openai"` has no effect, since `provider` is already known to be truthy there. The model uses `provider` directly.
- Console logging changes no result and is not modelled.
- The `compile` route, the LaTeX server, the page component and `config/index.ts` are outside this model.
