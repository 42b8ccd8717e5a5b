# Autobiography builder — a verified model of its core

The autobiography builder is a web application. A signed-in user fills in a seven-section
questionnaire about their life (the *autobiography record*). The application then shows:

- a timeline derived from the record;
- a life story written by a text-generation service from a prompt the server compiles out
  of the record and a writing style.

The user can save the story or export it as a text or HTML file.

This project models four parts of that application in Dafny and proves properties of each:

- **The generation endpoint** (`POST /api/generate`, module `GenerateRoute`, file
  `route.dfy`):
  - the style table and the prompt compiler, with the exact text of the prompt;
  - the guards and the responses of the handler.
- **The timeline page** (module `Timeline`, file `timeline.dfy`):
  - the events derived from a record;
  - the page state that loads records and switches between them.
- **The builder wizard** (module `Builder`, file `builder.dfy`):
  - the section navigator and the progress header;
  - field labels and placeholders;
  - the form state and saving (create once, update afterwards).
- **The story page** (module `GeneratePage`, file `generate.dfy`):
  - the generation request and how its response is read;
  - saving a story;
  - the text and HTML exports.

Shared modules:

- `Record` (`record.dfy`): the record, its 31 fields, field access and update, the empty
  form, and `find` by id.
- `Store` (`store.dfy`): a document collection as a map from id to document.
- `Text` (`text.dfy`): the JavaScript string operations the pages rely on. These are
  `toString` on integers, `split`/`join`, `trim`, an ASCII `toLowerCase`, and the position
  of one piece inside a concatenation.
- `Wrappers` (`wrappers.dfy`): `Option`.

Objects whose fields the pages update become classes with `modifies` clauses:

- the three page states (`TimelinePage`, `BuilderPage`, `GeneratorPage`);
- the document collection (`Store.Collection`).

Everything computed from values is written as functions.

The type declarations in `lib/types.ts` are not part of this model. The record's shape is
taken from the builder's initial form (`app/builder/page.tsx:29-78`) and from the fields
the prompt reads (`app/api/generate/route.ts:44-87`).

Behaviour of the code worth noting:

- An unknown style is not rejected. The prompt then carries the text `undefined` where
  the style clause belongs (`route.ts:42`). See `GenerateRoute.PromptWithUnknownStyle` and
  `GenerateRoute.DramaticStyleIsSent`.
- The style table is a plain object, so the names it inherits from `Object.prototype`
  (`toString`, `constructor`, `__proto__` and the rest) find the inherited member. The prompt
  then carries that member's rendering, such as `function toString() { [native code] }`.
  See `GenerateRoute.PromptWithInheritedName`.
- A completion with a null content is answered with status 200 and a null `content`, not
  with a failure (`route.ts:107-109`). See `GenerateRoute.Post`.
- A record that is present but malformed, and a body that is not JSON, end in the generic
  500 "Failed to generate story" (the `catch` at `route.ts:110-115`). The handler does not
  answer these with a 400.

## Model

| member | source | states |
|---|---|---|
| GenerateRoute.LookupStyle | autobiography-builder/app/api/generate/route.ts:31-42 | A style name finds a style exactly when it is that style's own name; any other name finds none |
| GenerateRoute.StyleRoundTrip | autobiography-builder/app/api/generate/route.ts:31-40 | Every style's own name finds that style and its instruction clause |
| GenerateRoute.StyleInstruction | autobiography-builder/app/api/generate/route.ts:30-42 | A name finds one of the table's own clauses exactly when it names a style, an inherited member exactly when it is one of the twelve `Object.prototype` names, and nothing otherwise |
| GenerateRoute.KnownStyles | autobiography-builder/app/api/generate/route.ts:31-42 | Exactly the four names emotional, professional, simple and poetic find a clause |
| GenerateRoute.PromptIndex | autobiography-builder/app/api/generate/route.ts:44-87 | Every one of the 31 fields has a line in the prompt, at a position that maps back to that field |
| GenerateRoute.OpensSectionWhereSectionChanges | autobiography-builder/app/api/generate/route.ts:43-88 | A section heading comes before a field line exactly when that line starts the prompt or follows a line of another section |
| GenerateRoute.DumpItemAt | autobiography-builder/app/api/generate/route.ts:43-88 | The prompt piece for a field is its section heading (if it opens one) and then the line `- Label: value` |
| GenerateRoute.OpeningIsPrefix | autobiography-builder/app/api/generate/route.ts:42 | Every prompt opens with the fixed preamble, a space, the style clause and a line break |
| GenerateRoute.PromptOpensWithStyle | autobiography-builder/app/api/generate/route.ts:31-42 | The prompt for a known style opens with that style's own clause |
| GenerateRoute.PromptWithUnknownStyle | autobiography-builder/app/api/generate/route.ts:42 | The prompt for a name that is neither a style nor an inherited member opens with the preamble followed by `undefined` |
| GenerateRoute.PromptWithInheritedName | autobiography-builder/app/api/generate/route.ts:30-42 | The prompt for an inherited `Object.prototype` name opens with the preamble followed by the rendering of the inherited member |
| GenerateRoute.PromptEndsWithClosing | autobiography-builder/app/api/generate/route.ts:88-89 | Every prompt ends with a blank line and the closing instruction |
| GenerateRoute.FieldLineInDump | autobiography-builder/app/api/generate/route.ts:44-87 | Each field's line appears verbatim in the section dump, at its computed offset |
| GenerateRoute.FieldLineInPrompt | autobiography-builder/app/api/generate/route.ts:42-89 | Each field's line `- Label: value` appears verbatim in the full prompt, at its computed offset |
| GenerateRoute.FieldLinesInOrder | autobiography-builder/app/api/generate/route.ts:43-88 | Field lines appear in the prompt's fixed order: an earlier field's line ends before a later field's line begins |
| GenerateRoute.NameLineInPrompt | autobiography-builder/app/api/generate/route.ts:45 | The prompt holds the line `- Name: ` followed by the full name and a line break |
| GenerateRoute.Post | autobiography-builder/app/api/generate/route.ts:12-117 | Behaviour of the handler: without a key the response is 500 and no call is made. The status is 400 exactly when the key is set, the body is JSON, and the record is missing or the style falsy; then no call is made. A body that is not JSON, a malformed record and a failed call give 500. A call is made exactly when the key is set, the record is present and the style is truthy, and the call carries the persona and the compiled prompt. The status is 200 exactly when a call was made and returned a choice, and then the body is the first choice's content. Every other status is 400 or 500 with an error body |
| GenerateRoute.RequestDependsOnlyOnBody | autobiography-builder/app/api/generate/route.ts:42-105 | The completion request depends only on the posted body, not on the service's reply |
| GenerateRoute.SimpleStyleScenario | autobiography-builder/app/api/generate/route.ts:36-109 | A record posted in the simple style gives a prompt that opens with the simple clause. A service answering "Hello story" yields status 200 with that content |
| GenerateRoute.DramaticStyleIsSent | autobiography-builder/app/api/generate/route.ts:24-42 | The unknown style "dramatic" passes the guard and a request is made with the `undefined` clause |
| Record.UpdateField | autobiography-builder/app/builder/page.tsx:134-142 | Updating one field sets that field to the new value. Every other field, the id and the owner are unchanged |
| Record.UpdateSameValue | autobiography-builder/app/builder/page.tsx:134-142 | Writing a field's current value back leaves the record unchanged |
| Record.UpdateOverwrites | autobiography-builder/app/builder/page.tsx:134-142 | Of two writes to the same field, the last one wins |
| Record.EmptyRecordIsBlank | autobiography-builder/app/builder/page.tsx:29-78 | The initial form has every field empty, no owner and no id |
| Record.Find | autobiography-builder/app/timeline/page.tsx:142 | `find` by id gives nothing exactly when no record has the id, and otherwise gives the first record that has it |
| Store.Collection.Lookup | autobiography-builder/app/builder/page.tsx:98-101 | A document is found exactly when one is stored under the id, and it is that document |
| Store.Collection.Set | autobiography-builder/app/builder/page.tsx:122-123 | Storing puts the document under the id and leaves every other document as it was |
| Store.Collection.Update | autobiography-builder/app/builder/page.tsx:120 | An update succeeds exactly when the id is present and then replaces that document. On failure nothing changes |
| Text.Split | autobiography-builder/app/generate/page.tsx:134 | `split` with a one-character separator gives one more piece than the text has separators, and no piece contains the separator |
| Text.JoinSplit | autobiography-builder/app/generate/page.tsx:134 | Joining the pieces of a split with the separator gives back the text |
| Text.SplitJoin | autobiography-builder/app/generate/page.tsx:134 | Splitting a join of separator-free pieces gives back the pieces |
| Text.IntToStringInjective | autobiography-builder/app/timeline/page.tsx:79 | Distinct years render as distinct strings |
| Text.DecimalRoundTrip | autobiography-builder/app/timeline/page.tsx:79 | Reading back the decimal rendering of a number gives the number |
| Text.TrimUnchanged | autobiography-builder/app/builder/page.tsx:209 | `trim` leaves a text unchanged when it neither starts nor ends with white space |
| Text.ToLowerAscii | autobiography-builder/app/builder/page.tsx:216 | Lower-casing keeps the length and maps every character to its lower-case form |
| Timeline.SourceIsField | autobiography-builder/app/timeline/page.tsx:62-127 | Each category reads one record field: date of birth, significant events, schools, career path, relationships or future goals |
| Timeline.Excerpt | autobiography-builder/app/timeline/page.tsx:82 | A description is the whole text when it is at most 200 characters long, and otherwise its first 200 characters. Either way `...` follows |
| Timeline.EventFor | autobiography-builder/app/timeline/page.tsx:61-135 | The event built for a category carries that category. Its description is "Born in " and the birthplace for the birth event, and otherwise the excerpt of the category's source field. Its year is the parsed date of birth for the birth event; the birth year plus 5, 12 or 22 for childhood, education and career; "Recent Years" for family and "Future" for goals |
| Timeline.TimelineDescriptions | autobiography-builder/app/timeline/page.tsx:58-137 | In a timeline, the birth event tells the birthplace and carries the birth year; every other event's description is the excerpt of its category's field, at most 203 characters |
| Timeline.EventsOverAppend | autobiography-builder/app/timeline/page.tsx:58-137 | Walking two category lists one after the other equals walking their concatenation |
| Timeline.TimelineIsReference | autobiography-builder/app/timeline/page.tsx:58-137 | The page's six checks give the same events as walking the category list and keeping each category whose field is present |
| Timeline.KeptMembers | autobiography-builder/app/timeline/page.tsx:58-137 | Every category kept by the walk is listed and has a non-empty field |
| Timeline.KeptPresence | autobiography-builder/app/timeline/page.tsx:58-137 | A listed category is kept exactly when its field is non-empty |
| Timeline.KeptOrdered | autobiography-builder/app/timeline/page.tsx:58-137 | Keeping categories from a list in rank order leaves them in rank order |
| Timeline.EventsOverMembers | autobiography-builder/app/timeline/page.tsx:58-137 | Every event of the walk is the event of a listed category whose field is present |
| Timeline.EventsOverLength | autobiography-builder/app/timeline/page.tsx:58-137 | The walk yields at most one event per category |
| Timeline.EventsOverPresence | autobiography-builder/app/timeline/page.tsx:58-137 | For a listed category, its event is in the walk exactly when its field is present |
| Timeline.EventsOverOrdered | autobiography-builder/app/timeline/page.tsx:58-137 | Walking categories in order yields events in that order |
| Timeline.CategoryNamesDistinct | autobiography-builder/app/timeline/page.tsx:66-130 | No two categories share a label, so an event's shown label names its category |
| Timeline.CategoriesInRankOrder | autobiography-builder/app/timeline/page.tsx:61-135 | The categories are listed birth, childhood, education, career, family, goals |
| Timeline.TimelineAtMostSix | autobiography-builder/app/timeline/page.tsx:58-137 | A timeline has at most six events |
| Timeline.TimelineInCategoryOrder | autobiography-builder/app/timeline/page.tsx:58-137 | Timeline events appear in the fixed category order, each category at most once |
| Timeline.TimelineEvents | autobiography-builder/app/timeline/page.tsx:62-135 | A category's event is in the timeline exactly when its field is non-empty. Every event in the timeline is its category's event |
| Timeline.TimelineMembers | autobiography-builder/app/timeline/page.tsx:58-137 | Every event in the timeline is the event of its category, and that category's field is non-empty |
| Timeline.TimelineLength | autobiography-builder/app/timeline/page.tsx:58-137 | The timeline has exactly as many events as there are categories whose source field is non-empty |
| Timeline.EmptyTimeline | autobiography-builder/app/timeline/page.tsx:58-137 | The timeline is empty exactly when all six source fields are empty |
| Timeline.DefaultYears | autobiography-builder/app/timeline/page.tsx:75-107 | Without a date of birth, the childhood, education and career years are 2005, 2012 and 2022 |
| Timeline.YearsFromBirth | autobiography-builder/app/timeline/page.tsx:63-107 | A parsed birth year n gives the years n, n+5, n+12 and n+22. An unparseable date gives "NaN" in all four |
| Timeline.TimelinePage.constructor | autobiography-builder/app/timeline/page.tsx:22-24 | The page starts with no records, no selection and no events |
| Timeline.TimelinePage.GenerateTimeline | autobiography-builder/app/timeline/page.tsx:58-138 | The shown events become the record's timeline and nothing else changes |
| Timeline.TimelinePage.LoadAutobiographies | autobiography-builder/app/timeline/page.tsx:34-56 | Without a user, or when the query fails, nothing changes. Otherwise the loaded records are kept. When there are any, the first is selected (its id or the empty text) and its timeline is shown |
| Timeline.TimelinePage.HandleAutoChange | autobiography-builder/app/timeline/page.tsx:140-146 | The selection always becomes the chosen id. The timeline is regenerated from the first record with that id and is kept when there is none |
| Builder.SectionIndex | autobiography-builder/app/builder/page.tsx:11-19 | Every record section has a position in the navigator |
| Builder.SectionsMatchRecord | autobiography-builder/app/builder/page.tsx:11-19 | The navigator lists seven entries, each under the key the record stores that section by, and no section twice |
| Builder.SpaceBeforeCapitals | autobiography-builder/app/builder/page.tsx:209 | The spaced text is longer than the text by exactly its number of capital letters. It keeps the last character, and the first character when that is not a capital |
| Builder.CapitalsFollowSpace | autobiography-builder/app/builder/page.tsx:209 | In the spaced text every capital letter has a space right before it |
| Builder.SpacesPrecedeCapitals | autobiography-builder/app/builder/page.tsx:209 | For a text without spaces, every space in the spaced text stands right before a capital letter |
| Builder.SpacesAreOnlyInsertion | autobiography-builder/app/builder/page.tsx:209 | For a text without spaces, removing the spaces from the spaced text gives the text back |
| Builder.CamelCaseLabel | autobiography-builder/app/builder/page.tsx:209 | For a camel-case key, `trim` removes nothing: the label is the spaced key, and removing its spaces gives the key |
| Builder.LowerKeepsSpaces | autobiography-builder/app/builder/page.tsx:216 | Lower-casing and removing spaces can be done in either order |
| Builder.PlaceholderForKey | autobiography-builder/app/builder/page.tsx:216 | A key's placeholder is "Describe your " followed by the spaced label and "...". The label has no capital letters, and removing its spaces gives the lower-cased key |
| Builder.KeysAreCamelCase | autobiography-builder/app/builder/page.tsx:207-209 | Every field key of the record is camel case |
| Builder.GeneratedFieldText | autobiography-builder/app/builder/page.tsx:147-216 | In the six sections after personal information, a field's label is its key with a space before each capital, removing the spaces gives the key back, and its placeholder is "Describe your " with those words lower-cased and "..." |
| Builder.HeaderShowsPosition | autobiography-builder/app/builder/page.tsx:261 | The header reads "Section k of 7" with k the one-based position |
| Builder.PercentComplete | autobiography-builder/app/builder/page.tsx:264 | The percentage is the integer nearest to (current+1)/7·100, halves rounded up |
| Builder.PercentProgress | autobiography-builder/app/builder/page.tsx:264 | The percentage strictly grows from section to section and reaches 100 exactly at the last one |
| Builder.PreviousSection | autobiography-builder/app/builder/page.tsx:320 | "Previous" goes one section back and never goes below the first |
| Builder.NextStep | autobiography-builder/app/builder/page.tsx:328-334 | "Next" moves one section forward, except on the last section, where it leaves for the story page and stays put |
| Builder.NextMarksCompleted | autobiography-builder/app/builder/page.tsx:293 | After "Next" the section just left carries a check mark, the new current section does not, and every earlier check mark stays |
| Builder.SaveData | autobiography-builder/app/builder/page.tsx:113-117 | The saved data is the form with the user as owner. Every field and the id are kept |
| Builder.SaveWithoutUser | autobiography-builder/app/builder/page.tsx:109 | Without a user, saving changes nothing and shows no alert, whether or not the database would take the write |
| Builder.RejectedSaveChangesNothing | autobiography-builder/app/builder/page.tsx:111-128 | A write the database rejects stores nothing, keeps the remembered id and shows the failure alert |
| Builder.FirstSaveCreates | autobiography-builder/app/builder/page.tsx:119-125 | The first accepted save stores a document under the generated id, replacing any document already there. The document is owned by the user and holds the form. The new id is remembered, the collection's ids become the old ids plus the new one, and all other documents are unchanged |
| Builder.FirstSaveAddsOne | autobiography-builder/app/builder/page.tsx:121-123 | When the generated id is not yet taken, the first accepted save adds exactly one document |
| Builder.LaterSaveUpdates | autobiography-builder/app/builder/page.tsx:119-125 | An accepted save after the first updates the remembered document and adds none, whatever id would have been generated |
| Builder.FirstSaveAsWrittenFails | autobiography-builder/app/builder/page.tsx:7-128 | As written, the first save alerts, stores nothing and remembers no id, even when the database would take the write. The intended accepted save remembers the new id |
| Builder.BuilderPage.constructor | autobiography-builder/app/builder/page.tsx:25-78 | The wizard starts at the first section, with the empty form and no remembered id |
| Builder.BuilderPage.Open | autobiography-builder/app/builder/page.tsx:86-106 | With a user and an id, the id is remembered, and the stored record is loaded when it exists and the read succeeds; a failed read leaves the form as it was. With a user only, the form gets the user as owner. Without a user nothing changes |
| Builder.BuilderPage.UpdateField | autobiography-builder/app/builder/page.tsx:134-142 | The form becomes the field update of the old form. Position and remembered id are unchanged, and the position stays a valid section |
| Builder.BuilderPage.Previous | autobiography-builder/app/builder/page.tsx:320 | The position becomes the previous section and nothing else changes |
| Builder.BuilderPage.GoTo | autobiography-builder/app/builder/page.tsx:284 | A click on a navigator entry moves to that section and nothing else changes |
| Builder.BuilderPage.Save | autobiography-builder/app/builder/page.tsx:108-132 | The remembered id, the collection and the alert are exactly the save outcome, including a write the database rejects. The form and the position are unchanged |
| Builder.BuilderPage.Next | autobiography-builder/app/builder/page.tsx:328-334 | Saves as Save does, then moves or leaves as NextStep says |
| GeneratePage.PageRequestIsServed | autobiography-builder/app/generate/page.tsx:65-77 | The page's request always passes the handler's guard. A call is made exactly when the key is configured, and its prompt opens with the chosen style's clause. The page sees an ok response exactly when the service returned a choice, and then shows the first choice's content |
| GeneratePage.StoryTitle | autobiography-builder/app/generate/page.tsx:96 | A saved story's title is never empty: the typed title, or "Untitled Story" |
| GeneratePage.FileName | autobiography-builder/app/generate/page.tsx:116-142 | The file name is the title, or "autobiography" when the title is empty, followed by ".txt" or ".html" |
| GeneratePage.FileNamesTellFormatsApart | autobiography-builder/app/generate/page.tsx:116-142 | A text export and an HTML export never share a file name |
| GeneratePage.OneParagraphPerLine | autobiography-builder/app/generate/page.tsx:134 | The paragraph block has one line per story line (newline count plus one). Each is that line inside `<p>`…`</p>`, and the lines join back to the story unescaped |
| GeneratePage.TitleInDocument | autobiography-builder/app/generate/page.tsx:125-133 | The title appears verbatim, unescaped, in the head's title and in the heading, whatever the template's fixed text (so also for the page's own template) |
| GeneratePage.TitleInHead | autobiography-builder/app/generate/page.tsx:125 | The title appears verbatim right after the template's opening part, which ends in `<title>` |
| GeneratePage.TitleInHeading | autobiography-builder/app/generate/page.tsx:133 | The title appears verbatim right after the template's part that ends in `<h1>` |
| GeneratePage.ParagraphsInDocument | autobiography-builder/app/generate/page.tsx:120-137 | The paragraph block appears verbatim in the document's body, after the title parts, whatever the template's fixed text |
| GeneratePage.ExportOf | autobiography-builder/app/generate/page.tsx:108-146 | A text export is the story as text/plain. An HTML export is the HTML document built from the page's own template, as text/html. Both are named by FileName |
| GeneratePage.GeneratorPage.constructor | autobiography-builder/app/generate/page.tsx:14-19 | The page starts with no records, no selection, the emotional style, not generating, and no story or title |
| GeneratePage.GeneratorPage.Load | autobiography-builder/app/generate/page.tsx:29-50 | Without a user, or when the query fails, nothing changes. Otherwise the records are kept, and the first one's id becomes the selection when there is one |
| GeneratePage.GeneratorPage.Select | autobiography-builder/app/generate/page.tsx:186 | The chooser sets the selection and nothing else |
| GeneratePage.GeneratorPage.SetStyle | autobiography-builder/app/generate/page.tsx:203-206 | A style button sets the style and nothing else |
| GeneratePage.GeneratorPage.SetTitle | autobiography-builder/app/generate/page.tsx:256 | The title box sets the title and nothing else |
| GeneratePage.GeneratorPage.Generate | autobiography-builder/app/generate/page.tsx:52-85 | An empty selection alerts and sends nothing. Past that guard the story is cleared and `generating` ends false. An id not among the records sends nothing. Otherwise the record and the style are sent. An ok response shows its content and titles the story "<name>'s Life Story". Any other outcome alerts and leaves the story empty |
| GeneratePage.GeneratorPage.SaveStory | autobiography-builder/app/generate/page.tsx:87-106 | Without a user or a story nothing is stored. Otherwise exactly one story document is added, under the newly generated id (one no story has, as `addDoc` guarantees), every other story is kept, and the collection grows by one; the new document holds the owner, the record id, the content, the style, the title (or "Untitled Story") and the time. A rejected write stores nothing and reports the failure |
| GeneratePage.GeneratorPage.Export | autobiography-builder/app/generate/page.tsx:108-146 | Without a story there is no file. Otherwise the file is ExportOf the chosen format, the title and the story |

## Findings

| source | as written | input that shows it | evidently intended | confidence | as-written member | corrected member |
|---|---|---|---|---|---|---|
| autobiography-builder/app/builder/page.tsx:122 | The create branch of `handleSave` calls `collection(...)`, which the page never imports (line 7 imports only `doc`, `getDoc`, `setDoc` and `updateDoc`). If the page is built at all, the call throws a ReferenceError inside the `try`. The first save then shows "Failed to save" and stores nothing | A signed-in user on a new autobiography (no `id` in the address) presses "Save Progress" | A new document is created under a generated id, and the id is remembered so later saves update it | not executed; high that the branch cannot work as written, unless the build's type check stops it first | Builder.SaveOutcomeAsWritten, Builder.FirstSaveAsWrittenFails | Builder.SaveOutcome, Builder.FirstSaveCreates, Builder.LaterSaveUpdates |

## Left out

- Storage is a map per collection (`Store.Collection`). Queries with `where` appear only as their results: the records a query returned, or `None` when it threw. Database failures are not modelled as causes, only as outcomes: a read that throws is the flag `readOk` of `Builder.BuilderPage.Open`, and a write the database rejects is the flag `accepted` of the save operations.
- The posted `style` is taken to be a string or absent (`RequestBody.style` is an `Option<string>`). A JSON style of another type is not modelled: `true` or `1` would pass the guard and interpolate `undefined`, `["simple"]` would find the simple clause, and `[]` is truthy although it coerces to the empty key. The story page always posts a string.
- GenerateRoute.StyleInstruction: the renderings of inherited members follow the V8 engine that runs Node.js (`function toString() { [native code] }`, `[object Object]` for `__proto__`). Other engines, and programs that change `Object.prototype`, are not modelled.
- Authentication and redirects to the sign-in page are left out. The signed-in user is an `Option<string>` holding the user id.
- The text-generation service is a parameter (`ServiceReply`). The HTTP client and the model choice are not modelled. The temperature 0.8 is kept as tenths (8) because the model has no floating point.
- The browser's `alert` becomes a returned flag or message. Navigation becomes a returned tag (`Navigation`, `SaveStatus`). Blob and object-URL creation and the click on the download link become the returned `ExportFile`.
- Timeline.YearText: `new Date(s).getFullYear()` is the parameter `yearOf`, a number or NaN. The model does not parse dates, and it does not capture time zones.
- Timestamps (`createdAt`, `updatedAt`) are left out of records. A story's `createdAt` is a parameter.
- Timeline.Excerpt: counts characters, whereas `substring` counts UTF-16 code units. A text with characters outside the Basic Multilingual Plane is cut at a different place.
- Text.ToLowerAscii: lower-cases only A–Z, whereas `toLowerCase` also maps non-ASCII letters. Keys are ASCII, so the placeholders of real keys are unaffected.
- The CSS `capitalize` applied to the field label is presentation and is not modelled.
- Builder.BuilderPage.UpdateField takes one of the 31 fields. `updateField` also accepts arbitrary section and field strings, which would add keys the record type does not have.
- The builder's labelled form lists fields in `Object.keys` order. The model identifies fields by name and does not capture that order.
- The record is always complete. Stored documents missing a section (which make the source throw) are not modelled, apart from the handler's `Malformed` payload. A present section with a missing or non-string field, which the prompt would show as `undefined` (`route.ts:45-87`), is not modelled either: every field is a string.
- A JSON `null` body, which throws at the destructuring (`route.ts:22`) and ends in the 500 reply, is not a separate case of `RequestBody`; it behaves as `InvalidJson` does.
- Builder.KeysAreCamelCase: the personal-information form (`builder/page.tsx:147-201`) has fixed labels and placeholders, such as "Full Name" with "Your full name" and "Birthplace" with "City, Country". These are not modelled, and `FieldLabel` and `Placeholder` describe only the six sections after it.
- Builder.BuilderPage.Next: saves before it moves. In the source the save is not awaited, so the move happens first. Only the order of two independent state changes differs.
- The `saving` flag of the builder and the loading spinners are left out. The `generating` flag of the story page is modelled.
- The "Generate New" button on the story page (`setGeneratedContent('')`, `generate/page.tsx:298-304`) is left out, because it only empties the story.
- The header's progress-bar width is the unrounded ratio (`page.tsx:270`) and is not modelled.
- The dashboard and landing pages are not part of this model.
