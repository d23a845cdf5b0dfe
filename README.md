# BNCC teaching workspace — a Dafny model of its core

The application is a workspace for Brazilian school teachers. A teacher signs
in and picks a tool on the dashboard: a questionnaire generator, a slide
outline generator, a lesson planner, or an essay corrector that is still under
development. Each form has a grade and a discipline select. Together they pick
a slice of the BNCC skill catalogue (the national curriculum's list of skill
codes), and the teacher ticks skills from that slice or asks the AI service to
suggest some. The form is then turned into a prompt for a Gemini model. The
reply is shown as text, optionally followed by a list of the web sources the
model consulted. A slide reply is also cut into slides at its
`--- SLIDE n ---` delimiters.

This project models that core in Dafny and proves what it promises:

- **`Catalog`** (`catalog.dfy`) holds the constant tables: the disciplines, the school grades, the BNCC catalogue and the dashboard tools. It also holds facts about them, such as which keys the catalogue has, that every slice is non-empty without duplicates, and that the tool ids are distinct.
- **`Skills`** (`skills.dfy`) is the skill picker.
  - It looks up a catalogue slice, missing keys included.
  - It ticks a checkbox, which appends, and unticks one, which removes every occurrence.
  - It filters the AI's suggestion against the offered slice. When nothing matches it falls back to the first suggested line, which is `undefined` for an empty reply.
- **`FormRules`** (`formrules.dfy`) holds the form rules:
  - the clamp of the custom count into [1, 50];
  - the choice between a preset count and the custom one;
  - the week-day map of the lesson plan and the days it sends;
  - the base64 payload taken from an uploaded file's data URL.
- **`SlideParser`** (`slideparser.dfy`) is `parseSlides`. The case-insensitive delimiter, the `TÍTULO:` and `CONTEÚDO:` matches and JavaScript's `trim` are written out by hand. Around them the module proves:
  - the split gives the reply back when reassembled;
  - the short-reply and no-delimiter cases;
  - a round trip: an outline written in the format the prompt requests parses back to exactly its slides.
- **`Gemini`** (`gemini.dfy`) is the AI service module:
  - the prompts and their fallback words;
  - the order of the request parts;
  - the line splitting of a suggestion reply;
  - the "Fontes de Pesquisa" section built from grounding chunks;
  - the lesson-plan fallback text;
  - the data URL of the first inline image.
  The SDK call itself is a parameter `service: Request -> Result<Reply, string>`. `Failure` stands for a thrown error.
- **`ToolPage`** (`toolpage.dfy`) is the tool page component, modelled as the class `Page`. Its fields are the component's state slots: the three forms, the three skill pickers, `loading`, `suggestingSkills`, `result`, `slides` and `generatedImages`. Its methods are the handlers:
  - the select changes and their effects;
  - the checkbox and the count buttons;
  - the suggestion;
  - the three generators;
  - "Recomeçar".
  The page holds the service functions as constants, bound when it is built. `Page.Screen` is what the page renders.
- **`AppShell`** (`appshell.dfy`) is `App`, the class `App`. It covers the view, the selected tool, the signed-in user, the sidebar and the theme. It also covers the start-up session check, the auth-state listener and the mapping from a profile row to a user.
- **`JsText`** and **`Lists`** (`jstext.dfy`, `lists.dfy`) model the JavaScript built-ins the core relies on. These are `trim` with JavaScript's whitespace set, `split`, `join`, `parseInt`, UTF-16 `length`, `filter` and `map`.

Four behaviours of the code are easy to miss. The model follows the code in each:

- **An empty suggestion.** When the suggestion call fails or returns an empty reply, the selection becomes `[undefined]`: the code stores `[suggested[0]]` of an empty list. `Skills.FinalSelection` gives `[None]` here.
- **The images switch.** No control on the page sets `sIncludeImages`, so it stays false and the slide generator never asks for an image. The model keeps the field and the image branch of `GenerateSlides` as the code has them.
- **A short reply.** A reply of at most ten characters with no delimiter gives no slide (`SlideParser.ShortReply`).
- **A title on the next line.** The `\s*` after `TÍTULO:` also matches line breaks. A marker with nothing after it on its line therefore takes the next line as the title, even when that line is the `CONTEÚDO:` line (`SlideParser.TitleCrossesLine`).

## Model

| member | source | states |
|---|---|---|
| Lists.Filter | pages/ToolPage.tsx:107 | `filter` keeps only elements of the input that satisfy the predicate |
| Lists.FilterMembership | pages/ToolPage.tsx:107 | an element survives `filter` exactly when it is in the input and satisfies the predicate |
| Lists.FilterConcat | pages/ToolPage.tsx:140 | `filter` works element by element: filtering a concatenation is concatenating the filtered parts, so order is kept |
| Lists.FilterMultiplicity | pages/ToolPage.tsx:107 | `filter` keeps every copy of a satisfying element and none of the others |
| Lists.FilterAll | pages/ToolPage.tsx:140 | filtering with a predicate every element satisfies changes nothing |
| Lists.FilterNone | pages/ToolPage.tsx:140 | filtering with a predicate no element satisfies gives the empty list |
| Lists.Map | pages/ToolPage.tsx:141 | `map` keeps the length and applies the function position by position |
| Lists.MapConcat | services/geminiService.ts:28 | mapping a concatenation is concatenating the mapped parts |
| JsText.SkipWhitespace | pages/ToolPage.tsx:142-143 | `\s*` stops at the first non-whitespace character: everything it skips is whitespace |
| JsText.SkipWhitespaceIs | pages/ToolPage.tsx:142-143 | whitespace up to a non-whitespace character (or the end) is exactly what `\s*` skips |
| JsText.SkipWhitespaceBack | pages/ToolPage.tsx:140 | the trailing whitespace run that `trim` removes is all whitespace and is preceded by a non-whitespace character or the start |
| JsText.SkipWhitespaceBackIs | pages/ToolPage.tsx:145-146 | a trailing whitespace run after a non-whitespace character is exactly what the backward scan skips |
| JsText.Trim | pages/ToolPage.tsx:145-146 | `trim` never lengthens a string and leaves no whitespace at either end |
| JsText.TrimDrops | pages/ToolPage.tsx:140 | `trim` gives a stretch of the input, and everything before and after that stretch is whitespace |
| JsText.TrimKeeps | pages/ToolPage.tsx:140 | trimming keeps every non-whitespace character |
| JsText.TrimPadded | pages/ToolPage.tsx:145 | trimming whitespace-padded trimmed text gives back that text |
| JsText.TrimOfTrimmed | services/geminiService.ts:28 | trimming a trimmed string changes nothing |
| JsText.TrimIdempotent | services/geminiService.ts:28 | trimming twice is trimming once |
| JsText.Split | services/geminiService.ts:28 | `split` on one character gives at least one piece, and no piece holds the separator |
| JsText.SplitPieces | pages/ToolPage.tsx:127 | `split` gives a single piece exactly when the separator does not occur |
| JsText.SplitJoin | services/geminiService.ts:28 | joining the pieces of a split with the separator gives the input back |
| JsText.JoinSplit | services/geminiService.ts:28 | splitting a join of separator-free pieces gives the pieces back |
| JsText.SplitWithoutSeparator | pages/ToolPage.tsx:127 | a string without the separator splits into itself |
| JsText.SplitAtSeparator | pages/ToolPage.tsx:127 | the first piece ends at the first separator and the rest is the split of what follows |
| JsText.JoinWithoutSeparatorEmpty | services/geminiService.ts:85 | `join('')` is empty exactly when every piece is empty |
| JsText.JoinWithoutSeparatorConcat | services/geminiService.ts:85 | `join('')` of a concatenation is the concatenation of the joins |
| JsText.JoinOptional | services/geminiService.ts:44 | joining a list without `undefined` entries is the plain join of its values |
| JsText.Join | services/geminiService.ts:44 | joining no pieces gives ""; a join starts with its first piece |
| JsText.Show | services/geminiService.ts:84 | interpolating a defined string gives it unchanged; `undefined` renders as "undefined" |
| JsText.Values | services/geminiService.ts:44 | the values of a list without `undefined` entries, position by position |
| JsText.IncludesInner | services/geminiService.ts:38-57 | a text that contains `a + t + b` contains `t` |
| JsText.ConcatIncludes | services/geminiService.ts:38-57 | a template's text contains each of its pieces |
| JsText.Utf16Length | pages/ToolPage.tsx:140 | `length` counts one or two UTF-16 code units per character |
| JsText.Utf16LengthConcat | pages/ToolPage.tsx:140 | `length` adds up over concatenation |
| JsText.DigitValue | pages/ToolPage.tsx:308 | a digit's value is below the radix, and -1 marks a non-digit |
| JsText.DigitEnd | pages/ToolPage.tsx:308 | `parseInt` reads the longest run of digits from a position: all read characters are digits and the next is not |
| JsText.DigitEndIs | pages/ToolPage.tsx:308 | digits up to a non-digit (or the end) are exactly the run `parseInt` reads |
| JsText.NatToString | pages/ToolPage.tsx:308 | a number prints as decimal digits without a leading zero |
| JsText.DigitsOfNatToString | pages/ToolPage.tsx:308 | the digits of a printed number read back as that number |
| JsText.ParseIntOfNatToString | pages/ToolPage.tsx:154 | `parseInt` of a printed natural number gives the number |
| JsText.ParseInt | pages/ToolPage.tsx:154 | `parseInt` of an empty or all-whitespace string is NaN; a negative result needs a minus sign in the input |
| JsText.ParseIntOfNegated | pages/ToolPage.tsx:154 | `parseInt` reads a minus sign and printed digits as the negative number |
| JsText.IntToString | services/geminiService.ts:40 | a number interpolated into a prompt (`${params.count}`) is read back by `parseInt` as the same number |
| Catalog.SelectOptions | constants.tsx:3-11 | 10 distinct disciplines and 11 distinct grades; index 5 is "5º ano", index 6 "6º ano", index 0 of the disciplines "Português" |
| Catalog.CatalogueKeys | constants.tsx:14-61 | the catalogue's discipline keys are exactly the seven with skills |
| Catalog.GradeKeysAreGrades | constants.tsx:14-61 | every grade key of every slice is one of the grades of the select |
| Catalog.DisciplineKeys | constants.tsx:47-56 | every discipline key but "Educação Infantil" is in the discipline select, and that one is not |
| Catalog.DisciplinesWithoutSkills | constants.tsx:4-5 | Artes, Educação Física, Inglês and Ensino Religioso are offered but have no catalogue entry |
| Catalog.SlicesNonEmptyAndDistinct | constants.tsx:15-60 | every slice present is non-empty and has no duplicate skill |
| Catalog.ToolIds | constants.tsx:63-92 | four tools with distinct ids "questoes-ia", "slides-ia", "plano-aula", "corretor-ia" |
| Skills.Lookup | pages/ToolPage.tsx:79 | the slice of a discipline and grade, or [] when either key is missing: a skill is offered exactly when it is in the slice, and a missing key gives the empty list |
| Skills.LookupCatalogue | pages/ToolPage.tsx:78-94 | a catalogue lookup has no duplicates and is empty exactly when the discipline or grade has no entry |
| Skills.LookupWithoutEntry | pages/ToolPage.tsx:85 | the four disciplines without skills offer nothing at any grade |
| Skills.LookupUnknownGrade | pages/ToolPage.tsx:91 | a grade outside the select offers nothing |
| Skills.Tick | pages/ToolPage.tsx:332 | ticking appends the skill at the end and keeps the rest |
| Skills.Untick | pages/ToolPage.tsx:332 | unticking removes every occurrence of the skill and keeps the count of every other entry |
| Skills.OnCheckbox | pages/ToolPage.tsx:549 | a ticked skill is selected afterwards and an unticked one is not |
| Skills.UntickConcat | pages/ToolPage.tsx:332 | unticking works entry by entry, so the other entries keep their order |
| Skills.UntickAbsent | pages/ToolPage.tsx:332 | unticking an absent skill changes nothing |
| Skills.TickThenUntick | pages/ToolPage.tsx:332 | ticking an absent skill and unticking it restores the selection |
| Skills.Matching | pages/ToolPage.tsx:107 | the suggested lines kept are exactly those offered |
| Skills.MatchingConcat | pages/ToolPage.tsx:107 | the kept lines stay in suggested order |
| Skills.FinalSelection | pages/ToolPage.tsx:107-108 | with a match, the selection is the matching lines; without one, `[suggested[0]]`, which is `undefined` for an empty reply |
| Skills.FinalSelectionOffered | pages/ToolPage.tsx:107-108 | with a match, every selected entry is a suggested and offered skill |
| Skills.FinalSelectionExamples | pages/ToolPage.tsx:107-108 | matches are kept in order; an unmatched reply gives its first line; an empty reply gives `[undefined]` |
| FormRules.ClampCount | pages/ToolPage.tsx:308 | the custom count is in [1, 50]: an in-range number is kept, above 50 gives 50, NaN, 0 or less gives 1 |
| FormRules.ClampKeepsInRange | pages/ToolPage.tsx:427 | typing any count in [1, 50] keeps it |
| FormRules.ClampIdempotent | pages/ToolPage.tsx:308 | re-entering a clamped count changes nothing |
| FormRules.LabelParses | pages/ToolPage.tsx:154 | `parseInt` reads a printed number back |
| FormRules.PresetLabelParses | pages/ToolPage.tsx:178 | `parseInt` reads each preset button's value as its number |
| FormRules.Label | pages/ToolPage.tsx:299-304 | a preset button stores its count printed in decimal; only the custom button stores "custom" |
| FormRules.FinalCount | pages/ToolPage.tsx:154 | the count sent is the custom value in custom mode, else 5, 10, 15 or 20 |
| FormRules.FinalCountInRange | pages/ToolPage.tsx:178 | the count sent is in [1, 50] whenever the custom field is |
| FormRules.Keys | pages/ToolPage.tsx:209 | `Object.keys` lists the keys in insertion order |
| FormRules.Value | pages/ToolPage.tsx:209 | a true day is one of the keys |
| FormRules.SelectedDays | pages/ToolPage.tsx:209 | no more days are sent than the map holds |
| FormRules.SelectedDaysMembership | pages/ToolPage.tsx:209 | a day is sent exactly when its entry is true |
| FormRules.SelectedByValue | pages/ToolPage.tsx:209 | with distinct keys, a day is sent exactly when it is a key whose value is true |
| FormRules.SelectedDaysExactly | pages/ToolPage.tsx:209 | with distinct keys, the days sent are exactly the keys whose value is true |
| FormRules.SelectedDaysConcat | pages/ToolPage.tsx:209 | the days are sent in declared order |
| FormRules.DefaultDaysDistinct | pages/ToolPage.tsx:62-70 | the default week map has distinct days |
| FormRules.DefaultSelection | pages/ToolPage.tsx:62-70 | by default Monday to Friday are sent, in that order |
| FormRules.ToggleDay | pages/ToolPage.tsx:536 | the map keeps its size or grows by one entry |
| FormRules.ToggleDayValue | pages/ToolPage.tsx:536 | toggling flips that day's value and leaves every other day's value alone |
| FormRules.ToggleDayKeys | pages/ToolPage.tsx:536 | toggling a listed day keeps the keys in order; an unlisted day is added at the end |
| FormRules.ToggleDayTwice | pages/ToolPage.tsx:536 | toggling a listed day twice restores the map |
| FormRules.ToggleKeepsDistinct | pages/ToolPage.tsx:536 | toggling keeps the keys distinct |
| FormRules.AttachmentData | pages/ToolPage.tsx:127 | `split(',')[1]` has no comma and is `undefined` exactly when there is no comma |
| FormRules.AttachmentDataOfDataUrl | pages/ToolPage.tsx:127 | the payload of a `data:` URL is read back |
| SlideParser.FindFrom | pages/ToolPage.tsx:142-143 | the first case-insensitive match of a marker at or after a position, or none |
| SlideParser.Scan | pages/ToolPage.tsx:140 | the matcher for `--- SLIDE \d+ ---` under the `i` flag: a match reads at least the characters still pending and ends inside the text |
| SlideParser.DelimiterAt | pages/ToolPage.tsx:140 | a delimiter match is inside the text and at least as long as its fixed parts |
| SlideParser.DelimiterTransfer | pages/ToolPage.tsx:140 | whether a delimiter matches depends only on the characters it reads, so the same characters match anywhere |
| SlideParser.DelimiterIsSingleLine | pages/ToolPage.tsx:140 | a delimiter never spans a line terminator |
| SlideParser.FirstDelimiter | pages/ToolPage.tsx:140 | the leftmost delimiter at or after a position, or none |
| SlideParser.SplitBlocks | pages/ToolPage.tsx:140 | `split` on the delimiter gives at least one block |
| SlideParser.Delimiters | pages/ToolPage.tsx:140 | there is one delimiter fewer than blocks |
| SlideParser.SplitReassembles | pages/ToolPage.tsx:140 | blocks interleaved with the delimiters give the reply back |
| SlideParser.DelimitersAreDelimiters | pages/ToolPage.tsx:140 | each separator the split removed is a `--- SLIDE n ---` |
| SlideParser.BlocksHaveNoDelimiter | pages/ToolPage.tsx:140 | no block contains a delimiter |
| SlideParser.LineEnd | pages/ToolPage.tsx:142 | `(.*)` stops at the first line terminator |
| SlideParser.TrimKeepsSingleLine | pages/ToolPage.tsx:145 | trimming a title keeps it on one line |
| SlideParser.TitleOf | pages/ToolPage.tsx:142-145 | a title is "Slide sem título" without `TÍTULO:`, and otherwise a trimmed single line |
| SlideParser.ContentOf | pages/ToolPage.tsx:143-146 | without `CONTEÚDO:` the content is the trimmed block; it is always trimmed |
| SlideParser.TitleIs | pages/ToolPage.tsx:142-145 | after the first `TÍTULO:`, the title is the trimmed rest of the line on which the whitespace run after the marker ends |
| SlideParser.ContentIs | pages/ToolPage.tsx:143-146 | after the first `CONTEÚDO:` and the whitespace run after it, the content is the rest of the block, trimmed |
| SlideParser.TitleCrossesLine | pages/ToolPage.tsx:142 | `\s*` crosses a line break: a `TÍTULO:` with nothing after it on its line takes the next line, whatever it says, as the title |
| SlideParser.ContentBlocks | pages/ToolPage.tsx:140 | the kept blocks are blocks of the split, no more of them than the split gives, each longer than 10 code units once trimmed |
| SlideParser.ParseBlock | pages/ToolPage.tsx:141-148 | a block gives the default title without `TÍTULO:` and otherwise a trimmed single-line title; the content is always trimmed, and is the whole trimmed block without `CONTEÚDO:` |
| SlideParser.ParseSlides | pages/ToolPage.tsx:139-149 | one slide per block whose trimmed length exceeds 10, in order, at most delimiters + 1 of them |
| SlideParser.NoDelimiterReply | pages/ToolPage.tsx:140-141 | a reply without a delimiter gives at most one slide, from the whole reply |
| SlideParser.TrimShortens | pages/ToolPage.tsx:140 | trimming never lengthens a string |
| SlideParser.ShortReply | pages/ToolPage.tsx:140 | a reply of at most ten code units gives no slide |
| SlideParser.DelimiterTextIsDelimiter | services/geminiService.ts:116 | the requested `--- SLIDE n ---` is a delimiter the parser splits on |
| SlideParser.ContentMarkerFirst | pages/ToolPage.tsx:143 | in a block in the requested format, the first `CONTEÚDO:` is the one after the title line |
| SlideParser.TitleOfBlock | pages/ToolPage.tsx:142-145 | a block in the requested format gives back its title |
| SlideParser.ContentOfBlock | pages/ToolPage.tsx:143-146 | a block in the requested format gives back its content |
| SlideParser.ParseBlockText | pages/ToolPage.tsx:141-148 | a block in the requested format gives back its slide |
| SlideParser.RenderedBlocks | pages/ToolPage.tsx:140 | the blocks kept from an outline are the slides' texts |
| SlideParser.ParseRendered | pages/ToolPage.tsx:139-149 | round trip: an outline in the format the prompt asks for parses back to exactly its slides |
| Gemini.OrNenhum | services/geminiService.ts:45 | an absent or empty detail renders as "Nenhum", otherwise as itself |
| Gemini.MultidisciplinaryPhrase | services/geminiService.ts:167 | the flag picks exactly one of the two phrases |
| Gemini.SuggestPrompt | services/geminiService.ts:14-20 | the prompt names grade, discipline and subject and lists the offered skills one per line |
| Gemini.QuestionsPrompt | services/geminiService.ts:38-57 | the prompt holds the count and grade, the skills joined with ", ", the manual details or "Nenhum", and the file note when a file is attached |
| Gemini.SlidesPrompt | services/geminiService.ts:102-119 | the prompt holds the count, the skills joined with ", ", the delimiter request, and the file note when a file is attached |
| Gemini.LessonPlanPrompt | services/geminiService.ts:163-177 | the prompt holds the multidisciplinary phrase, the days and skills joined with ", ", and the details or "Nenhum" |
| Gemini.RequestParts | services/geminiService.ts:59-67 | with a file the inline data comes first and the text second, otherwise there is one text part |
| Gemini.BuildParts | services/geminiService.ts:121-129 | the in-place `unshift` builds the parts the request holds |
| Gemini.SuggestionLines | services/geminiService.ts:28 | no line is empty, has surrounding whitespace or holds a line break; a missing text gives [] |
| Gemini.TrimmedLineHasNoBreak | services/geminiService.ts:28 | trimming a piece without a line break keeps it without one |
| Gemini.SuggestionLinesOfEmpty | services/geminiService.ts:28 | an empty reply gives no lines |
| Gemini.SuggestionLinesOfJoin | services/geminiService.ts:28 | a reply of clean lines joined by line breaks is read back as those lines |
| Gemini.MapTrimOfTrimmed | services/geminiService.ts:28 | trimming already trimmed lines changes nothing |
| Gemini.SuggestBnccSkills | services/geminiService.ts:12-33 | a failed call gives []; a reply gives its lines, none empty or padded |
| Gemini.LinkOf | services/geminiService.ts:84 | a chunk without `web` renders as nothing; one with `web` renders as a `\n- [` list line |
| Gemini.Links | services/geminiService.ts:82-87 | the links are empty exactly when no chunk has `web`, so the sources section is added exactly then |
| Gemini.JoinedLinksEmpty | services/geminiService.ts:82-85 | joining the links of the web chunks gives "" exactly when no chunk has `web` |
| Gemini.LinksConcat | services/geminiService.ts:82-85 | the links follow chunk order |
| Gemini.LinksOfOne | services/geminiService.ts:84 | a chunk without `web` renders as nothing |
| Gemini.WithSources | services/geminiService.ts:79-90 | the sources section is appended exactly when searching, with chunks, and some chunk has `web`; otherwise the text is unchanged |
| Gemini.AppendSources | services/geminiService.ts:141-152 | the `let text` with `+=` gives the text with its sources |
| Gemini.GenerateQuestions | services/geminiService.ts:35-97 | a failed call is rethrown; a reply gives its text with the questions' sources header |
| Gemini.GenerateSlidesOutline | services/geminiService.ts:99-159 | a failed call is rethrown; a reply gives its text with the slides' sources header |
| Gemini.SourcedWithoutSearch | services/geminiService.ts:79-92 | without search or web chunks the output is the reply text, or "" when it is missing |
| Gemini.Sourced | services/geminiService.ts:79-96 | a service error is rethrown unchanged; on success the output starts with the reply text, or with "" when it is missing |
| Gemini.GenerateLessonPlan | services/geminiService.ts:161-190 | a failed call is rethrown; an empty or missing text becomes "Erro ao gerar plano de aula.", so a success is never empty |
| Gemini.FirstImageUrl | services/geminiService.ts:207-212 | none exactly when no part has inline data; otherwise the data URL of the first part that has it |
| Gemini.GenerateThematicImage | services/geminiService.ts:192-217 | the loop returns the first inline image's data URL, and null on failure or without one |
| Gemini.DataUrlPayload | services/geminiService.ts:209 | the payload of the image's data URL is read back by the upload's comma split |
| Gemini.DataUrl | services/geminiService.ts:209 | the image URL starts with `data:` and ends with the base64 payload |
| Gemini.ImageOf | services/geminiService.ts:196-216 | there is no image exactly when the call failed, the reply has no parts or no part has inline data; an image is always a `data:` URL |
| ToolPage.WithGrade | pages/ToolPage.tsx:78-82 | changing the grade clears the selection; re-selecting the same grade triggers no effect |
| ToolPage.WithDiscipline | pages/ToolPage.tsx:84-88 | changing the discipline clears the selection; re-selecting it triggers no effect |
| ToolPage.SelectIdempotent | pages/ToolPage.tsx:78-94 | selecting twice is selecting once, and selecting the shown value changes nothing |
| ToolPage.DefaultPickersAreOptions | pages/ToolPage.tsx:29-60 | the pickers open on options of the selects: "5º ano" or "6º ano" and "Português" |
| ToolPage.DefaultFormsValid | pages/ToolPage.tsx:31-70 | the forms open with counts in [1, 50] and distinct week days |
| ToolPage.FileData | pages/ToolPage.tsx:167 | an attachment is sent with its data and MIME type, and no attachment sends none |
| ToolPage.Shown | pages/ToolPage.tsx:169-170 | a failure shows nothing; a success shows its text, or "Erro na geração." when empty |
| ToolPage.Page.Available | pages/ToolPage.tsx:78-94 | a form offers exactly the catalogue skills of its discipline and grade, and none when the catalogue has no such entry |
| ToolPage.Page.SuggestEnabled | pages/ToolPage.tsx:554 | a suggestion button works only with no suggestion running and a subject filled in, so the lesson plan's fallback subject is never used from it |
| ToolPage.Page.GenerateEnabled | pages/ToolPage.tsx:375 | a generate button works only when nothing is generating; the questionnaire and slides buttons also need a subject, the lesson plan's does not |
| ToolPage.FormScreen | pages/ToolPage.tsx:567-574 | the three known tool ids get their form, any other the under-development notice |
| ToolPage.DefaultSlicesOffered | pages/ToolPage.tsx:78-94 | on opening, each picker offers a non-empty slice |
| ToolPage.Page.constructor | pages/ToolPage.tsx:19-76 | the initial state: nothing loading, no result, default forms, pickers on 5º/6º ano and Português with nothing selected |
| ToolPage.Page.SetPicker | pages/ToolPage.tsx:78-94 | one form's picker changes and the other two do not |
| ToolPage.Page.SetGrade | pages/ToolPage.tsx:78-94 | a grade select sets that picker's grade and clears its selection when the grade changes; the other pickers do not change |
| ToolPage.Page.SetDiscipline | pages/ToolPage.tsx:78-94 | a discipline select does the same for the discipline |
| ToolPage.Page.OnSkillCheckbox | pages/ToolPage.tsx:332 | a checkbox ticks or unticks in that picker only |
| ToolPage.Page.SetSubject | pages/ToolPage.tsx:283 | the subject field changes one form only |
| ToolPage.Page.SetCountType | pages/ToolPage.tsx:300-304 | a count button changes one form's count type only |
| ToolPage.Page.SetCustomCount | pages/ToolPage.tsx:308 | the custom field stores the clamped count, keeping it in [1, 50] |
| ToolPage.Page.ToggleWebSearch | pages/ToolPage.tsx:367 | the web-search switch flips for one form only |
| ToolPage.Page.ToggleMultidisciplinary | pages/ToolPage.tsx:509 | the multidisciplinary switch flips |
| ToolPage.Page.ToggleDay | pages/ToolPage.tsx:536 | a day checkbox toggles that day and keeps the days distinct |
| ToolPage.Page.AttachFile | pages/ToolPage.tsx:120-137 | the upload stores the name, the payload after the first comma, and the type, for one form only |
| ToolPage.Page.SuggestionSubject | pages/ToolPage.tsx:97 | the subject sent is the form's own, except that an empty lesson-plan subject becomes "Planejamento de aulas" |
| ToolPage.Page.StartSuggestion | pages/ToolPage.tsx:96-104 | an empty questionnaire subject does nothing; otherwise the flag is set and the request carries that form's grade, discipline, subject and offered slice |
| ToolPage.Page.FinishSuggestion | pages/ToolPage.tsx:105-117 | the target picker gets the final selection of the reply against the offered slice, the others are untouched, and the flag is cleared |
| ToolPage.Page.QuestionParams | pages/ToolPage.tsx:154-168 | the request carries the picker's grade, discipline and selection, a count in [1, 50] when the custom field is, and a file exactly when one is attached |
| ToolPage.Page.SlideParams | pages/ToolPage.tsx:178-192 | the same for the slides form |
| ToolPage.Page.LessonPlanParams | pages/ToolPage.tsx:209-217 | the days sent are exactly the ticked days, with the picker's grade, discipline and selection and no additional details |
| ToolPage.Page.GenerateQuestions | pages/ToolPage.tsx:151-171 | the result is the shown output, nothing on failure, and loading ends |
| ToolPage.Page.GenerateSlides | pages/ToolPage.tsx:173-203 | a non-empty outline is the result and is parsed into slides; the image is kept only when images are on and one came back |
| ToolPage.Page.GenerateLessonPlan | pages/ToolPage.tsx:205-220 | the result is the plan, or nothing on failure, and loading ends |
| ToolPage.Page.Restart | pages/ToolPage.tsx:651 | "Recomeçar" clears result, slides, images and both files, changes nothing else, and the form shows again |
| ToolPage.Page.Screen | pages/ToolPage.tsx:604-656 | a non-empty result shows the slide deck when it is the slide tool with slides, the text otherwise; no result shows the form |
| AppShell.SessionEmail | App.tsx:57 | the session's e-mail, or the empty string when it has none |
| AppShell.UserOf | App.tsx:77-83 | the user has the session's id and e-mail, the profile name or "Professor", the profile credits or 0 |
| AppShell.MainOf | App.tsx:175-183 | the tool page shows exactly when the view is the tool view with a non-empty tool id |
| AppShell.DashboardIdsOpen | App.tsx:181 | every dashboard tool id is non-empty, so choosing it opens its tool page |
| AppShell.DashboardToolForms | pages/ToolPage.tsx:567-574 | the three first dashboard tools have forms and the essay corrector shows the under-development notice |
| AppShell.App.constructor | App.tsx:13-18 | login view, light theme, no tool, nobody signed in, sidebar shown, loading spinner |
| AppShell.App.Screen | App.tsx:126-184 | the spinner while loading, the login page on the login view, the workspace otherwise |
| AppShell.App.FetchProfile | App.tsx:68-88 | a returned row becomes the user; without a row or a configured service the user stays |
| AppShell.App.CheckUser | App.tsx:32-50 | a session found without error loads its profile, and loading always ends |
| AppShell.App.OnAuthStateChange | App.tsx:54-62 | the listener exists only when Supabase is configured; a session loads its profile and opens the dashboard; no session signs out to the login view |
| AppShell.App.HandleLogin | App.tsx:90-93 | the user is stored and the dashboard shows |
| AppShell.App.HandleSelectTool | App.tsx:95-98 | the tool is selected and, for a non-empty id, its page shows |
| AppShell.App.HandleNavigate | App.tsx:100-103 | the tool is cleared, the view is the chosen one, and no tool page shows |
| AppShell.App.HandleGoHome | App.tsx:105-108 | the tool is cleared and the dashboard shows |
| AppShell.App.HandleLogout | App.tsx:110-120 | whatever signing out does, nobody is signed in and the login page shows |
| AppShell.App.ToggleSidebar | App.tsx:122-124 | the sidebar visibility flips |
| AppShell.App.ToggleTheme | App.tsx:169 | the theme flips |
| AppShell.SidebarToggleTwice | App.tsx:122-124 | toggling the sidebar twice restores it |
| AppShell.LogoutThenLogin | App.tsx:90-120 | signing out and back in lands on the dashboard with the new user and keeps the tool selection |

## Left out

- **The Gemini SDK.** The client construction, API keys, model names and the image aspect ratio are left out. The system instruction and the search tool are kept as the fields `systemInstruction` and `googleSearch` of `Gemini.Request`. The service is a function parameter, so retries, latency and the network are not modelled.
- **Supabase.** The client, sessions, the profile query and the subscription lifecycle are left out. Their outcomes reach `App` as parameters, and `configured` stands for `isConfigured`.
- **Stripe and the payment toast.** This covers the success toast with its 8-second timer and the URL history rewrite. They are timers and browser history.
- **PDF and PPTX export.** They depend on html-to-image, jsPDF and pptxgenjs, the DOM and the clock.
- **The `FileReader` upload.** It is asynchronous browser I/O. `ToolPage.Page.AttachFile` takes the data URL the reader produces.
- **Plain text-field setters.** These are context, details, manual details, language, duration and period. Each is a single field assignment of the kind `SetSubject` shows.
- **The buttons' `disabled` guards.** The handlers are modelled for every state, including states in which the page disables their buttons (pages/ToolPage.tsx:284, 375, 403, 474, 554, 561). The guards themselves are `Page.SuggestEnabled` and `Page.GenerateEnabled`. From an enabled suggestion button the lesson plan's fallback subject "Planejamento de aulas" is never used.
- **The render between a select change and its effect.** The model derives the offered slice from the picker (`Page.Available`) instead of storing `availableSkillsX`. It therefore does not capture the single render in which the old slice is still shown.
- **The `alert` calls in the generators' `catch` blocks.** They are left out. The model keeps only their effect on the state: nothing is stored.
- **The concurrency of `async` handlers.** Each handler is split at its `await`: `StartSuggestion`/`FinishSuggestion` for the suggestion, and the service call as a value for the generators. Interleavings of two handlers are not modelled.
- **The regular expressions.** The three regexes of `parseSlides` are written out for their fixed patterns only. There is no general regex engine. Case folding covers the letters those patterns use.
- **Presentational components.** The Login, Dashboard, Plans, Sidebar and Header components are markup only. The dashboard's effect is `HandleSelectTool` with a tool id.
- ToolPage.Page.constructor: the page's service functions are bound from one `Gemini.Service` value when the page is built. The ensures states that binding, not each SDK call's network behaviour.
- **UTF-16 lengths.** Characters are Unicode scalar values, and those above U+FFFF count as two code units. Unpaired surrogates do not occur in Dafny strings.
