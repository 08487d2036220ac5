# Formvive front-end logic in Dafny

Formvive is a Next.js front end for building forms and reading their responses.
The logic worth modelling is spread across page components. Each piece is a
finite list transformation or a small state machine around one HTTP request.
This project models those pieces and proves what they promise:

- **Dashboard** (`dashboard.dfy`, `dashboard_trend.dfy`). The responses of every
  form are flattened into one list and counted: totals, manual/AI counts,
  location and age buckets, and a monthly trend sorted by `YYYY-MM` key with
  `"Unknown"` last. The page also keeps the list of forms with its response
  counts and pages of ten with clamped Previous/Next.
- **Per-question tabulation** (`answers.dfy`, `questions_tab.dfy`,
  `summary_tab.dfy`). Only the first answer of each response to the question
  counts. The questions tab counts an empty answer as `"No answer"`. The
  summary tab drops empty answers, charts choice questions and lists the rest.
- **Form editors** (`edit_form_tab.dfy`, `classic_form.dfy`):
  - update by id and update of one option by id;
  - append, delete and drag-reorder;
  - serialisation for the API, including the option-value slug (lowercase,
    each whitespace run becomes one `_`);
  - the re-entrancy guard and the step-by-step save;
  - the abort of a running save when the question list is edited, which makes
    the save fail even after the form was created.
- **Sign-up form** (`signup.dfy`): the password rules, the email pattern as a
  predicate, the order of the submit checks, the hint visibility and the
  strength bar.
- **Waitlist wizard** (`waitlist.dfy`): the two-step state machine shared by
  the waitlist page and the modal, and the modal's reset on close.
- **Notifications** (`notifications.dfy`): dismissal by index and the header
  count.

`collections.dfy` holds the dictionary counting and enumeration shared by these
modules. `text.dfy` holds decimal rendering, the ECMAScript whitespace class,
ASCII lower-casing and the code-unit string order.

How the model is built:

- **State.** Stateful components are classes. Their fields are the React
  state, and each field a handler sets is assigned by a method.
- **Requests.** An `async` handler is split at its first `await` into a
  `Begin…` method and a `Complete…` method. `Begin…` runs up to the request and
  appends it to a `sent` log. `Complete…` takes the request's outcome as a
  parameter. The model does not perform HTTP.
- **Pending replies.** In the waitlist wizard, the sign-up form and the edit
  tab, replies still outstanding are tracked by a ghost counter or multiset,
  so a completion can only follow a request. The classic editor tracks its
  save by the stage it is in. The dashboard's `fetchAndParse` is one method
  that takes the request's outcome as a parameter.
- **Parameters.** The stored token, `Date.now()`, the password score computed
  by `zxcvbn` and the month label function are all parameters.
- **Dates.** A response's date is given as an optional civil month (year,
  month). `None` stands for a missing or unparseable date.
- **Dictionary order.** The order in which `Object.entries` lists a dictionary
  is never promised. The trend is proved the same whatever that order is.

Two behaviours that may look unintended are kept as the code writes them:

- An empty-string location or age is its own bucket, because the code uses
  `??` rather than `||`.
- The dashboard keeps the forms in the server's order; it does not sort them.

## Model

| member | source | states |
|---|---|---|
| Collections.Count | src/app/dashboard/page.tsx:139 | `map[k] \|\| 0`: the stored count for a present key, 0 for a missing one |
| Collections.Bump | src/app/dashboard/page.tsx:139 | one increment: the key gains one, the key set gains the key, every other count is unchanged |
| Collections.BumpExtendsTally | src/app/dashboard/page.tsx:137-140 | incrementing a tally of `keys` at `k` gives a tally of `keys + [k]` |
| Collections.TallyOfSnoc | src/app/dashboard/page.tsx:137-140 | the tally of one more key is the old tally incremented at that key |
| Collections.Tally | src/app/dashboard/page.tsx:136-140 | the `forEach` counting loop yields `TallyOf(keys)`: every occurring key, each with its number of occurrences (at least 1), the counts adding up to the number of keys |
| Collections.TallyOfCounts | src/app/dashboard/page.tsx:136-140 | `TallyOf(keys)` holds exactly the keys that occur, each mapped to how often it occurs |
| Collections.TallyOfSum | src/app/dashboard/page.tsx:136-140 | a tally's counts add up to the number of keys counted |
| Collections.MapSumRemove | src/app/dashboard/page.tsx:141 | a dictionary's sum is one entry's count plus the sum of the rest |
| Collections.MapSumBump | src/app/dashboard/page.tsx:139 | an increment raises the dictionary's sum by exactly one |
| Collections.Entries | src/app/dashboard/page.tsx:141 | `Object.entries`: lists every key exactly once with its count, as many entries as keys, in an order left open |
| Collections.SumCountsOfEntries | src/app/dashboard/page.tsx:141 | whatever the order of a complete listing, its counts add up to the dictionary's sum |
| Collections.EntriesOfTallySum | src/app/dashboard/page.tsx:136-141 | any listing of a tally adds up to the number of keys counted |
| Collections.ListingOfEnumerates | src/app/dashboard/page.tsx:158 | every dictionary has a listing (the reference listing used to state order independence) |
| Collections.EnumerationSize | src/app/dashboard/page.tsx:141 | a listing has one entry per key |
| Collections.DistinctKeySetSize | src/app/dashboard/page.tsx:141 | entries with distinct keys have as many keys as entries |
| Text.DigitChar | src/app/dashboard/page.tsx:56 | the character of a decimal digit |
| Text.NatToString | src/app/dashboard/classic-form-editor/classicForm.tsx:74 | `String(n)` for a natural number: at least one character, all digits, one digit exactly when `n < 10` |
| Text.NatToStringFourDigits | src/app/dashboard/page.tsx:48 | a year from 1000 to 9999 is written with four digits |
| Text.LowerChar | src/app/dashboard/classic-form-editor/classicForm.tsx:133 | `toLowerCase` on one character: no ASCII capital is left, whitespace stays whitespace and non-whitespace stays non-whitespace, other characters are kept |
| Text.StrLessIrreflexive | src/app/dashboard/page.tsx:164 | no key sorts before itself |
| Text.StrLessTransitive | src/app/dashboard/page.tsx:164 | the key comparison is transitive |
| Text.StrLessTotal | src/app/dashboard/page.tsx:164 | of two different keys one sorts first |
| Text.StrLessConcat | src/app/dashboard/page.tsx:164 | with prefixes of equal length, the prefixes decide, then the rest |
| Text.DecimalOrder | src/app/dashboard/page.tsx:163-164 | decimal strings of equal length compare as the numbers they write |
| DashboardTrend.TwoDigits | src/app/dashboard/page.tsx:49 | the `2-digit` month is two digit characters |
| DashboardTrend.MonthKeyIsNotUnknown | src/app/dashboard/page.tsx:153 | no real month key equals `"Unknown"`, so dated and undated responses never share a bucket |
| DashboardTrend.NatToStringInjective | src/app/dashboard/page.tsx:53 | different numbers are written differently |
| DashboardTrend.MonthKeyInjective | src/app/dashboard/page.tsx:53 | different months get different `YYYY-MM` keys |
| DashboardTrend.MonthKeyOrderIsChronological | src/app/dashboard/page.tsx:163-164 | for four-digit years the string order of two keys is exactly the chronological order of their months |
| DashboardTrend.PrecedesTotal | src/app/dashboard/page.tsx:160-165 | the trend comparator orders any two different keys |
| DashboardTrend.PrecedesTransitive | src/app/dashboard/page.tsx:160-165 | the comparator, with `"Unknown"` placed after everything, is transitive |
| DashboardTrend.PrecedesAsymmetric | src/app/dashboard/page.tsx:160-165 | the comparator never puts two keys each before the other |
| DashboardTrend.Insert | src/app/dashboard/page.tsx:160 | insertion adds exactly one entry and loses none |
| DashboardTrend.SortTrend | src/app/dashboard/page.tsx:158-165 | the sort returns a permutation of its input |
| DashboardTrend.InsertCorrect | src/app/dashboard/page.tsx:160-165 | inserting a new key into a sorted list keeps it sorted and its keys distinct |
| DashboardTrend.SortTrendCorrect | src/app/dashboard/page.tsx:158-165 | entries with distinct keys come out sorted, with the same keys, each once |
| DashboardTrend.SortedUnique | src/app/dashboard/page.tsx:160-165 | two sorted permutations of one list are equal: the comparator leaves no choice |
| DashboardTrend.DistinctMultiplicity | src/app/dashboard/page.tsx:158 | in a list with distinct keys every entry occurs once |
| DashboardTrend.EnumerationsAgree | src/app/dashboard/page.tsx:158 | two listings of the same dictionary are permutations of each other |
| DashboardTrend.SortTrendDeterministic | src/app/dashboard/page.tsx:158-165 | the sorted trend is the same whatever order `Object.entries` lists the months in |
| DashboardTrend.SortTrendEnumerates | src/app/dashboard/page.tsx:158-165 | the sorted trend lists the month dictionary, each month once with its count |
| DashboardTrend.SortedTrendShape | src/app/dashboard/page.tsx:160-165 | in the sorted trend only the last entry can be `"Unknown"`, and all other keys ascend strictly |
| DashboardTrend.Labelled | src/app/dashboard/page.tsx:166-169 | labelling keeps length, order and counts; `"Unknown"` keeps its label and every other key gets the month label of its key |
| Dashboard.TagAll | src/app/dashboard/page.tsx:123-127 | one tagged response per element of the form's `responses` array |
| Dashboard.FlattenLength | src/app/dashboard/page.tsx:122-131 | `total` is the sum of the lengths of the forms' `responses` arrays; a non-array adds nothing |
| Dashboard.FlattenAt | src/app/dashboard/page.tsx:122-128 | response `i` of form `k` sits after the responses of the earlier forms, tagged with form `k` |
| Dashboard.FlattenOrigin | src/app/dashboard/page.tsx:122-128 | every flattened response is a response of some form, at a position `FlattenAt` names |
| Dashboard.FlattenCarriesFormIdentity | src/app/dashboard/page.tsx:124-126 | every flattened response carries its form's `id` and `formName`, overriding its own `formId` |
| Dashboard.CountIf | src/app/dashboard/page.tsx:132-133 | a filter count never exceeds the number of responses |
| Dashboard.ManualAiOverlap | src/app/dashboard/page.tsx:132-133 | manual and AI are independent filters: manual + AI = both + either |
| Dashboard.OrUnknownMultiplicity | src/app/dashboard/page.tsx:138 | `?? "Unknown"` keeps every present value, `""` included, and maps only absent ones to `"Unknown"` |
| Dashboard.MonthKeysMultiplicity | src/app/dashboard/page.tsx:153 | each month key occurs once per response of that month; `"Unknown"` once per undated response |
| Dashboard.LocationBucket | src/app/dashboard/page.tsx:136-140 | bucket `k` counts the responses whose location is exactly `k` (`""` included); `"Unknown"` also counts those with none |
| Dashboard.AgeBucket | src/app/dashboard/page.tsx:144-148 | the same for age |
| Dashboard.MonthBucket | src/app/dashboard/page.tsx:151-155 | a month's bucket counts that month's responses; `"Unknown"` counts the undated ones |
| Dashboard.TrendShape | src/app/dashboard/page.tsx:151-165 | the sorted months list the month tally in sorted order; `"Unknown"` is among them exactly when some response is undated |
| Dashboard.UnknownKeyPresent | src/app/dashboard/page.tsx:153 | the `"Unknown"` month key occurs exactly when some response is undated |
| Dashboard.TrendChronological | src/app/dashboard/page.tsx:158-165 | of two dated trend entries, the earlier one in the list is the earlier month |
| Dashboard.PointsTotalLabelled | src/app/dashboard/page.tsx:166-169 | labelling keeps the total of the counts |
| Dashboard.FormRows | src/app/dashboard/page.tsx:172-179 | one row per form in the server's order, with its id, name and responses; `responseCount` is the server's number, else the array's length, else 0 |
| Dashboard.Aggregate | src/app/dashboard/page.tsx:122-179 | the values set into state are exactly the flattened totals, filters, tallies, sorted labelled trend and form rows |
| Dashboard.SummaryPartitions | src/app/dashboard/page.tsx:131-155 | location, age and trend counts each add up to `total`, which is the number of listed responses; manual and AI are each at most `total`; one row per form |
| Dashboard.NoDataIsEmpty | src/app/dashboard/page.tsx:122 | a falsy `data` shows exactly the reset state |
| Dashboard.TotalPages | src/app/dashboard/page.tsx:208 | at least one page, enough pages for all forms, and no empty page after the first |
| Dashboard.SliceIndex | src/app/dashboard/page.tsx:210 | a `slice` bound is clamped into the list |
| Dashboard.PageContents | src/app/dashboard/page.tsx:209-210 | page `p` holds up to ten forms, the forms from index `(p-1)*10` on, in order |
| Dashboard.FormPage | src/app/dashboard/page.tsx:208-210 | form `i` is item `i % 10` of page `i / 10 + 1`, a page within the page count |
| Dashboard.PageBeyondLast | src/app/dashboard/page.tsx:209-210 | a page after the last one is empty |
| Dashboard.PagesFromSuffix | src/app/dashboard/page.tsx:209-210 | the pages from `p` on hold exactly the forms from index `(p-1)*10` on |
| Dashboard.PagesCoverForms | src/app/dashboard/page.tsx:208-210 | the pages, read in order, are the form list itself: nothing is lost, repeated or reordered |
| Dashboard.DashboardPage.constructor | src/app/dashboard/page.tsx:70-82 | starts loading on page 1 with everything empty |
| Dashboard.DashboardPage.Reset | src/app/dashboard/page.tsx:109-115 | every failure path empties forms, totals and distributions |
| Dashboard.DashboardPage.FetchAndParse | src/app/dashboard/page.tsx:85-200 | without a token: redirect to login, stay loading, show nothing new; otherwise a non-ok status, an exception or a non-list `data` shows the reset state, a list shows its aggregates, and loading ends |
| Dashboard.DashboardPage.SetShown | src/app/dashboard/page.tsx:182-188 | the shown values become the computed aggregates |
| Dashboard.DashboardPage.HandlePrev | src/app/dashboard/page.tsx:212 | the page goes down by one, never below 1, and stays within the page count |
| Dashboard.DashboardPage.HandleNext | src/app/dashboard/page.tsx:213 | the page goes up by one, never beyond the page count |
| FormAnswers.FindAnswer | src/components/QuestionsTab.tsx:37 | no result exactly when no answer is for the question; otherwise the first such answer |
| FormAnswers.FindAnswerIgnoresLater | src/components/QuestionsTab.tsx:37 | answers after the first match never change the result |
| QuestionTabulation.TableKey | src/components/QuestionsTab.tsx:39 | a table key is never empty: an empty value becomes `"No answer"` |
| QuestionTabulation.KeyOfResponse | src/components/QuestionsTab.tsx:37-41 | a response adds one key if it answers the question, none otherwise |
| QuestionTabulation.AnsweringCount | src/components/QuestionsTab.tsx:36-42 | at most one per response |
| QuestionTabulation.TableKeysLength | src/components/QuestionsTab.tsx:36-42 | as many keys are tallied as responses answer the question |
| QuestionTabulation.TableKeysOrigin | src/components/QuestionsTab.tsx:36-41 | a key is tallied exactly when some response contributes it |
| QuestionTabulation.TableKeysSnoc | src/components/QuestionsTab.tsx:36-42 | each loop step adds that response's key, if any |
| QuestionTabulation.ResponseCounts | src/components/QuestionsTab.tsx:35-42 | the counting loop builds the table of first answers per response |
| QuestionTabulation.TableCounts | src/components/QuestionsTab.tsx:36-42 | the counts add up to the number of answering responses, each at least 1 |
| QuestionTabulation.TableKeysAreAnswers | src/components/QuestionsTab.tsx:37-40 | a key is in the table exactly when it is some response's first answer to the question, `""` read as `"No answer"` |
| QuestionTabulation.TableEmpty | src/components/QuestionsTab.tsx:44-47 | the table is empty exactly when no response answers the question |
| QuestionTabulation.QuestionResponses | src/components/QuestionsTab.tsx:44-47 | the rows list the table once each, add up to the answering count, and are empty exactly when no response answers |
| QuestionTabulation.QuestionsTab.constructor | src/components/QuestionsTab.tsx:28 | the first question is selected |
| QuestionTabulation.QuestionsTab.SetProps | src/components/QuestionsTab.tsx:21-28 | new props keep the index: it is not clamped when the list shrinks |
| QuestionTabulation.QuestionsTab.ClickPrev | src/components/QuestionsTab.tsx:95-96 | disabled at the first question, otherwise one back; stays in range |
| QuestionTabulation.QuestionsTab.ClickNext | src/components/QuestionsTab.tsx:104-105 | disabled at the last question, otherwise one on; stays in range |
| QuestionTabulation.QuestionsTab.Select | src/components/QuestionsTab.tsx:53-55 | choosing from the selector selects that question |
| QuestionTabulation.QuestionsTab.Render | src/components/QuestionsTab.tsx:30-90 | no questions: the empty message; an index out of range: a crash; otherwise "i of n", the heading and the rows, empty exactly when nobody answered |
| SummaryTab.KeptAnswer | src/components/SummaryTab.tsx:40-41 | a response keeps at most one answer |
| SummaryTab.AnswersForAppend | src/components/SummaryTab.tsx:39-41 | answers follow the order of the responses |
| SummaryTab.AnswersForMembers | src/components/SummaryTab.tsx:39-41 | a value is listed exactly when it is non-empty and is some response's first answer to the question |
| SummaryTab.SummaryAgreesWithTable | src/components/SummaryTab.tsx:39-41 | the two tabs agree: the questions tab's count is the kept answers plus the empty ones, and every other value occurs equally often in both |
| SummaryTab.SumOfEntries | src/components/SummaryTab.tsx:53 | the values taken from a listing add up to its counts |
| SummaryTab.ListingAligned | src/components/SummaryTab.tsx:49-57 | `labels[i]` and `data[i]` are a distinct value and its count, every value once, and `data` adds up to the dictionary's sum |
| SummaryTab.SummariseQuestion | src/components/SummaryTab.tsx:39-82 | a choice card charts the kept answers with "N responses" = their number = the chart's total; any other card lists the kept answers in order and counts them |
| SummaryTab.Summarise | src/components/SummaryTab.tsx:32-86 | no responses: "No responses yet."; otherwise one card per question, in order |
| EditFormTab.Merge | src/components/editFormTab.tsx:63 | the fields present in the update replace the question's, the rest (id and options included) are kept |
| EditFormTab.MergeOption | src/components/editFormTab.tsx:72 | the same for an option |
| EditFormTab.UpdateQuestions | src/components/editFormTab.tsx:62-65 | same length and order; the question with the id is merged, every other unchanged |
| EditFormTab.UpdateOptionList | src/components/editFormTab.tsx:72 | same length and order; only the option with the id is merged |
| EditFormTab.UpdateOptions | src/components/editFormTab.tsx:67-76 | questions other than `qId` are untouched; `qId` keeps its fields and gets its options (absent read as `[]`) with `optId` merged |
| EditFormTab.UpdateQuestionsIdempotent | src/components/editFormTab.tsx:62-65 | applying an update twice is applying it once |
| EditFormTab.UpdateQuestionsCommute | src/components/editFormTab.tsx:62-65 | updates to two different ids commute |
| EditFormTab.EditFormTab.constructor | src/components/editFormTab.tsx:26-29 | the name starts as the saved name or `""`, the questions as given, nothing saving or creating |
| EditFormTab.EditFormTab.SetFormName | src/components/editFormTab.tsx:173 | typing changes only the local name |
| EditFormTab.EditFormTab.HandleQuestionChange | src/components/editFormTab.tsx:55-60 | the local and the parent's lists both become the new list |
| EditFormTab.EditFormTab.UpdateQuestionState | src/components/editFormTab.tsx:62-65 | both lists become the updated list; nothing is sent |
| EditFormTab.EditFormTab.UpdateOptionState | src/components/editFormTab.tsx:67-76 | both lists become the option-updated list; nothing is sent |
| EditFormTab.EditFormTab.BeginNameBlur | src/components/editFormTab.tsx:32-40 | nothing happens when the name equals the saved one; otherwise the name slot shows saving and the name is sent |
| EditFormTab.EditFormTab.CompleteNameBlur | src/components/editFormTab.tsx:41-49 | the parent hears the new name only on an ok reply; the saving slot clears whatever the outcome |
| EditFormTab.EditFormTab.BeginSaveQuestion | src/components/editFormTab.tsx:79-91 | exactly `text`, `type` and `required` are sent for the question's id |
| EditFormTab.EditFormTab.BeginSaveOption | src/components/editFormTab.tsx:101-111 | exactly `option` and `value` are sent for the option's id |
| EditFormTab.EditFormTab.CompleteSave | src/components/editFormTab.tsx:92-97 | the saving slot clears whatever the outcome |
| EditFormTab.EditFormTab.ChangeType | src/components/editFormTab.tsx:208-212 | the list gets the new type and the question is saved with it |
| EditFormTab.EditFormTab.ChangeRequired | src/components/editFormTab.tsx:224-228 | the list gets the new flag and the question is saved with it |
| EditFormTab.EditFormTab.BeginAddQuestion | src/components/editFormTab.tsx:120-140 | ignored while creating (the button is disabled); otherwise creating starts and the fixed new-question payload is sent |
| EditFormTab.EditFormTab.CompleteAddQuestion | src/components/editFormTab.tsx:142-159 | with `status "ok"` and an array, the returned questions are appended to the list as it was at the click, in both lists; otherwise nothing changes; creating ends |
| ClassicForm.FindIndex | src/app/dashboard/classic-form-editor/classicForm.tsx:64-65 | `findIndex`: the first index with the id, or -1 exactly when there is none |
| ClassicForm.ArrayMove | src/app/dashboard/classic-form-editor/classicForm.tsx:67 | the moved element lands at the target; same length and elements; entries outside the two indices stay put |
| ClassicForm.DragEnd | src/app/dashboard/classic-form-editor/classicForm.tsx:60-70 | same id, no target, or an unknown id: unchanged; otherwise the dragged question lands at the target's index, with the same length and the same questions |
| ClassicForm.ArrayMoveInPlace | src/app/dashboard/classic-form-editor/classicForm.tsx:67 | moving an element to its own place changes nothing |
| ClassicForm.AddQuestion | src/app/dashboard/classic-form-editor/classicForm.tsx:72-84 | appends exactly one question after the others: id `q` + stamp + (length+1), text "New question", name `field_` + id, empty value, two default options for radio and none otherwise |
| ClassicForm.Delete | src/app/dashboard/classic-form-editor/classicForm.tsx:225 | no question with the id remains |
| ClassicForm.DeleteCounts | src/app/dashboard/classic-form-editor/classicForm.tsx:225 | questions with the id are all removed; every other question is kept as often as it occurred |
| ClassicForm.DeleteAppend | src/app/dashboard/classic-form-editor/classicForm.tsx:225 | deleting keeps the order of the rest |
| ClassicForm.DeleteAbsent | src/app/dashboard/classic-form-editor/classicForm.tsx:225 | deleting an absent id changes nothing |
| ClassicForm.SetLabel | src/app/dashboard/classic-form-editor/classicForm.tsx:219-221 | only the question with the id gets the new text |
| ClassicForm.SetOptions | src/app/dashboard/classic-form-editor/classicForm.tsx:222-224 | only the question with the id gets the new options |
| ClassicForm.Lower | src/app/dashboard/classic-form-editor/classicForm.tsx:133 | lower-casing is character by character |
| ClassicForm.SkipSpaces | src/app/dashboard/classic-form-editor/classicForm.tsx:133 | a whitespace run is consumed whole |
| ClassicForm.CollapseSpaces | src/app/dashboard/classic-form-editor/classicForm.tsx:133 | `replace(/\s+/g, "_")` leaves no whitespace and adds no capital |
| ClassicForm.Slug | src/app/dashboard/classic-form-editor/classicForm.tsx:133 | an option value has no whitespace and no capital, and is no longer than its text |
| ClassicForm.CollapseFixpoint | src/app/dashboard/classic-form-editor/classicForm.tsx:133 | text without whitespace is left as it is |
| ClassicForm.SlugFixpoint | src/app/dashboard/classic-form-editor/classicForm.tsx:133 | text without whitespace or capitals is its own slug |
| ClassicForm.SlugIdempotent | src/app/dashboard/classic-form-editor/classicForm.tsx:133 | slugging a slug changes nothing |
| ClassicForm.CollapseJoin | src/app/dashboard/classic-form-editor/classicForm.tsx:133 | a whitespace run between words becomes exactly one `_` |
| ClassicForm.SkipAll | src/app/dashboard/classic-form-editor/classicForm.tsx:133 | skipping a whitespace run lands on the next word |
| ClassicForm.LowerAppend | src/app/dashboard/classic-form-editor/classicForm.tsx:133 | lower-casing distributes over concatenation |
| ClassicForm.SlugJoin | src/app/dashboard/classic-form-editor/classicForm.tsx:133 | the slug of word + spaces + rest is the lower-cased word, one `_`, and the slug of the rest |
| ClassicForm.OptionSlug | src/app/dashboard/classic-form-editor/classicForm.tsx:133 | "Option d" becomes "option_d" for any digit d |
| ClassicForm.NewOptionSlugs | src/components/editFormTab.tsx:127-130 | the edit tab's hard-coded option values are the slugs the classic editor would compute from their labels |
| ClassicForm.DefaultOption | src/app/dashboard/classic-form-editor/classicForm.tsx:81 | the default options are "Option 1" and "Option 2" |
| ClassicForm.NewQuestionOption | src/components/editFormTab.tsx:127-130 | the new-question payload's options are "Option 1"/`option_1` and "Option 2"/`option_2` |
| ClassicForm.MapOptions | src/app/dashboard/classic-form-editor/classicForm.tsx:131-134 | one option per text, in order, each with its text and its slug |
| ClassicForm.Serialise | src/app/dashboard/classic-form-editor/classicForm.tsx:126-135 | text kept; MULTIPLE_CHOICE exactly for radio, OPEN_ENDED otherwise; option count and texts kept; values without whitespace or capitals |
| ClassicForm.MappedQuestions | src/app/dashboard/classic-form-editor/classicForm.tsx:126-135 | one serialised entry per question, in order |
| ClassicForm.AddedQuestionSerialised | src/app/dashboard/classic-form-editor/classicForm.tsx:126-135 | after adding a question the earlier entries are unchanged and the new one is "New question" with the type of its kind and, for radio, options `option_1` and `option_2` |
| ClassicForm.FormNameOf | src/app/dashboard/classic-form-editor/classicForm.tsx:111 | the form name sent is never empty: the title, or "Untitled Form" |
| ClassicForm.FormFailure | src/app/dashboard/classic-form-editor/classicForm.tsx:116-123 | a failed, thrown or id-less create-form step reports failure without a form id |
| ClassicForm.QuestionsOutcome | src/app/dashboard/classic-form-editor/classicForm.tsx:151-161 | success exactly when the questions were saved, then with the form id and "Form saved" |
| ClassicForm.ClassicFormEditor.constructor | src/app/dashboard/classic-form-editor/classicForm.tsx:87-96 | starts idle, empty, not saving |
| ClassicForm.ClassicFormEditor.SetTitle | src/app/dashboard/classic-form-editor/classicForm.tsx:197-203 | typing changes only the title, and does nothing while saving because the input is disabled |
| ClassicForm.ClassicFormEditor.SetQuestions | src/app/dashboard/classic-form-editor/classicForm.tsx:168-177 | a list edit changes the questions, and during a save it aborts that save because the new list rebuilds `handleSave`, whose cleanup calls `abort()`; nothing else changes |
| ClassicForm.ClassicFormEditor.BeginSave | src/app/dashboard/classic-form-editor/classicForm.tsx:88-114 | ignored while saving; without a token, reports "Not authenticated" and sends nothing; otherwise marks saving and sends the form name |
| ClassicForm.ClassicFormEditor.Finish | src/app/dashboard/classic-form-editor/classicForm.tsx:157-167 | reports one result and clears the guard and the saving flag |
| ClassicForm.ClassicFormEditor.CompleteCreateForm | src/app/dashboard/classic-form-editor/classicForm.tsx:116-159 | with a usable id, the serialised questions are sent for that form; otherwise the failure is reported and the guard cleared; after an abort the save always fails |
| ClassicForm.ClassicFormEditor.CompleteCreateQuestions | src/app/dashboard/classic-form-editor/classicForm.tsx:139-167 | the outcome is reported and the guard cleared; after an abort the save fails and reports no form id |
| ClassicForm.ClassicFormEditor.Save | src/app/dashboard/classic-form-editor/classicForm.tsx:87-168 | a whole save reports exactly one result, succeeds exactly when there is a token, a usable form id and saved questions, posts questions only after an id, and always ends with the guard cleared |
| ClassicForm.ClassicFormEditor.SaveEditedDuringCreate | src/app/dashboard/classic-form-editor/classicForm.tsx:98-177 | a save whose list is edited while the form is being created sends only the create-form request and reports failure |
| ClassicForm.ClassicFormEditor.SaveEditedDuringQuestions | src/app/dashboard/classic-form-editor/classicForm.tsx:98-177 | a save whose list is edited after the form was created has sent both requests, serialising the list from before the edit, yet reports failure without a form id |
| Signup.ScanFor | src/app/signup/page.tsx:34-36 | a character-class test holds exactly when some character is in the range |
| Signup.PasswordValidIff | src/app/signup/page.tsx:32-39 | valid exactly when at least 6 long with a capital, a small letter and a digit |
| Signup.IndexOf | src/app/signup/page.tsx:44 | the first position of a character, or -1 exactly when it is absent |
| Signup.NoAt | src/app/signup/page.tsx:44 | a part matching `[^\s@]+` holds no `@` |
| Signup.SplitParts | src/app/signup/page.tsx:44 | an address splits at its `@` and its dot |
| Signup.PatternGivesValid | src/app/signup/page.tsx:44 | every match of the pattern passes the check |
| Signup.TwoAts | src/app/signup/page.tsx:44 | two `@` positions mean at least two `@` |
| Signup.ValidGivesPattern | src/app/signup/page.tsx:44 | every address passing the check matches the pattern |
| Signup.EmailPatternIff | src/app/signup/page.tsx:44-45 | matches the pattern exactly when there is no whitespace, exactly one `@`, a non-empty local part, and a dot in the domain that is neither its first nor its last character |
| Signup.HintsShown | src/app/signup/page.tsx:116 | hints show exactly when the password is non-empty and the score is below 4 or the passwords differ |
| Signup.HintsHiddenWithUnmetRule | src/app/signup/page.tsx:116 | a strong, matching password without a capital hides the hints although a rule fails |
| Signup.StrengthFifths | src/app/signup/page.tsx:193-199 | the bar is 1 to 5 fifths wide, full exactly when the score is not 0 to 3 |
| Signup.StrengthMonotone | src/app/signup/page.tsx:193-199 | for scores 0 to 4 the width is score+1 fifths and grows with the score |
| Signup.SubmitEnabledIff | src/app/signup/page.tsx:269 | the button is enabled exactly when nothing is loading and the password meets all four rules |
| Signup.MessageOr | src/app/signup/page.tsx:76-78 | the server's message when it is a non-empty string, else the fallback |
| Signup.SignupForm.constructor | src/app/signup/page.tsx:15-29 | all fields empty, score 0, no error, no email error |
| Signup.SignupForm.HandleEmailChange | src/app/signup/page.tsx:41-46 | the email changes, and the email error is cleared exactly when the new value is valid |
| Signup.SignupForm.SetPassword | src/app/signup/page.tsx:100-105 | an empty password scores 0, any other the estimate |
| Signup.SignupForm.SetOtherFields | src/app/signup/page.tsx:15-21 | the other inputs change only their fields |
| Signup.SignupForm.BeginSubmit | src/app/signup/page.tsx:48-71 | mismatch, then terms, then email error, each with its message; loading, the request and one more pending reply only when all pass |
| Signup.SignupForm.CompleteSubmit | src/app/signup/page.tsx:73-97 | the reply to a pending request: an exception or a non-ok reply shows its message; an ok reply shows success, stores the token, redirects and clears the fields; loading ends on every path |
| Waitlist.SelectView | src/components/WaitlistModal.tsx:58-74 | nothing when closed; when open, success before the steps |
| Waitlist.Wizard.constructor | src/components/WaitlistModal.tsx:13-18 | step 1, empty fields, not loading, no success |
| Waitlist.Wizard.Reset | src/components/WaitlistModal.tsx:22-29 | step 1, all three fields empty, both flags false |
| Waitlist.Wizard.TypeEmail | src/components/WaitlistModal.tsx:84-87 | the email changes only on step 1 and not while loading |
| Waitlist.Wizard.TypeDetails | src/components/WaitlistModal.tsx:121-134 | name and reason change only on step 2 and not while loading |
| Waitlist.Wizard.HandleEmailSubmit | src/components/WaitlistModal.tsx:32-35 | step 2 is reached only with a non-empty email; otherwise nothing changes |
| Waitlist.Wizard.BeginFinalSubmit | src/components/WaitlistModal.tsx:37-46 | a no-op unless email, name and reason are all non-empty; then loading and the three are sent |
| Waitlist.Wizard.CompleteFinalSubmit | src/components/WaitlistModal.tsx:47-55 | success only on an ok reply; a failure alerts and keeps the step; loading ends either way |
| Waitlist.Wizard.PageView | src/app/waitlist/page.tsx:57-64 | the page always shows something, success before the steps |
| Waitlist.WaitlistModal.constructor | src/components/WaitlistModal.tsx:12-18 | a fresh wizard on step 1 with the email, name and reason empty, not loading, no success, nothing sent, no alerts and no reply pending |
| Waitlist.WaitlistModal.SetOpen | src/components/WaitlistModal.tsx:20-30 | closing resets the wizard; opening keeps its state |
| Waitlist.WaitlistModal.View | src/components/WaitlistModal.tsx:58-67 | nothing renders while closed; success first when open |
| Notifications.InitialList | src/app/dashboard/notifications/page.tsx:13-32 | three notifications: a form response, a system update, a performance alert |
| Notifications.Dismiss | src/app/dashboard/notifications/page.tsx:35-37 | dismissal never lengthens the list |
| Notifications.DismissInRange | src/app/dashboard/notifications/page.tsx:35-37 | a valid index removes exactly that card, keeps the rest in order, one shorter |
| Notifications.DismissOutOfRange | src/app/dashboard/notifications/page.tsx:36 | an out-of-range index leaves the list unchanged |
| Notifications.Render | src/app/dashboard/notifications/page.tsx:39-61 | the empty state exactly for an empty list; the header counts the current list |
| Notifications.DismissAllReachesEmpty | src/app/dashboard/notifications/page.tsx:35-53 | dismissing the first card three times reaches the empty state |

## Left out

- HTTP, `localStorage`, `router.push`, `setTimeout`, `window.scrollTo` and `document.body.style` are I/O. Each request's outcome is a parameter, each request sent is a log entry, and a redirect is a flag or a log entry.
- The waitlist page's redirect to `/` three seconds after success is a timer and is not modelled.
- ClassicForm.ClassicFormEditor.SetQuestions: an edit during a save aborts that save, as in the code. The other causes of the same abort are not modelled: unmounting, a new `token` prop, or a new `onSaveComplete`, `onSavingChange` or `onSaveReady` callback. A drag that returns the list unchanged keeps the same array, so it does not rebuild `handleSave`. It must not be passed to `SetQuestions`. The browser's abort message is left open: the reply is any rejection.
- `alert` and `console` output: the model counts alerts but keeps no text.
- Date parsing and time zones (`new Date`, `Intl.DateTimeFormat` with `Africa/Lagos`, `toLocaleString`) rely on data the code does not contain. A date is an optional civil month, and the month label is a function parameter.
- The UTC fallback of `monthKey`, taken when `Intl` throws, is not modelled: the key is always formed from the civil month given.
- Collections.Tally: the tallies are dictionaries, while the code counts into plain `{}` objects with `m[k] = (m[k] || 0) + 1`. That reads and writes keys through the prototype chain, so the model agrees with the code only when no key is an `Object.prototype` property name (`constructor`, `toString`, `valueOf`, `hasOwnProperty`, `__proto__`, …). For such a key the code goes wrong in one of two ways. `"constructor"` starts from the inherited function and becomes a string count. `"__proto__"` ignores the assignment, so its responses disappear. Collections.Bump, Dashboard.LocationBucket, Dashboard.AgeBucket, Dashboard.Aggregate, Dashboard.SummaryPartitions, QuestionTabulation.ResponseCounts, QuestionTabulation.TableCounts, QuestionTabulation.TableKeysAreAnswers, QuestionTabulation.TableEmpty, QuestionTabulation.QuestionResponses, QuestionTabulation.QuestionsTab.Render and SummaryTab.SummariseQuestion all rest on this tally and hold under the same proviso. Month keys (`YYYY-MM` or "Unknown") never meet it.
- Dashboard.DashboardPage.FetchAndParse: the request and its reply are one step, so the model does not capture events, such as a page change, that happen while the fetch is in flight.
- DashboardTrend.MonthKeyOrderIsChronological: proved for four-digit years only, because other years are written with other lengths.
- Text.LowerChar: only ASCII capitals are lower-cased. JavaScript lower-cases all Unicode letters. ClassicForm.Slug and ClassicForm.Lower inherit this: JavaScript's `toLowerCase` can lengthen a text (`"İ"` becomes two code units), so the bound that a slug is no longer than its text holds for the model only.
- String lengths: JavaScript measures strings in UTF-16 code units, while the model counts characters. This matters for `password.length >= 6` only on characters outside the Basic Multilingual Plane.
- `zxcvbn` is an external library. Its score is a parameter, set at once rather than after the lazy import, and `passwordFeedback` is not modelled.
- The password-visibility toggles are not modelled, nor is the inline "Passwords do not match" hint under the confirm input.
- ClassicForm.ArrayMove: `arrayMove` comes from `@dnd-kit/sortable`, whose code is not part of this model. It is defined as remove-then-insert.
- `Date.now().toString(36)` in new question ids is the `stamp` parameter.
- Waitlist.Wizard.CompleteFinalSubmit: a reply that arrives after the modal was closed still sets `isSuccess`. The code's reset does not cancel the request, and the model keeps that.
- Disabled buttons on the waitlist steps and the sign-up form are not events of their own: the handlers are modelled as the code writes them. The exceptions are the classic editor's save guard and the edit tab's add guard.
- The description editor, previews, charts and static pages carry no logic. The auth helpers and the onboarding context are also left out.
- `src/types.ts` declarations are not used: the datatypes follow how the modelled code uses its values.
