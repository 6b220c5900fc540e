# Skill-pack engine, parsers, request guards and graph state, in Dafny

This project models the deterministic core of a service that turns research
about a skill into a downloadable skill pack and shows related skills as a
graph:

- **Skill-pack builder** (`Builder`, `Schema`, `Json`): validation of a
  build request against the zod schema, the SKILL.md renderer, and the fixed,
  ordered list of archive entries (`SKILL.md`, `scripts/main.*`,
  `references/*.md`, `assets/prompts/*`, `assets/schema.json`) that both
  build methods append to the ZIP writer.
- **Native ZIP helper** (`ZipFromStdin`): the stdin frame format (path
  line, size line, raw bytes, …, `DONE`), `read_line` over a stdin cursor and
  the entry loop of `main`, with libzip abstracted as a map from path to
  contents.
- **SKILL.md parsers** (`MdScan`, `IndexSkills`, `LoadExamples`,
  `ExtractSkills`): the frontmatter, heading, trigger and bullet extractors
  of the indexer, the few-shot example loader and the extraction script.
  Their regular expressions are restated as explicit scanners.
- **API guards** (`Sanitize`, `RateLimit`): prompt-injection stripping and
  the request schemas; the fixed-window rate limiter as a class over a map of
  counters, with cleanup and identifier selection.
- **Small services** (`DownloadStore`, `StorageKeys`, `PostTraining`,
  `CheckEnv`, `SearchBar`): the in-memory download store, the storage key
  builders, the quality scores of generated skills and search results, the
  environment check and masking, and the search bar's word limit.
- **Graph hooks** (`GraphTypes`, `SkillGraph`, `SkillGraph3D`,
  `IncrementalSkillGraph`): node and edge lists as fields of a class per
  hook, with similarity-gated edge insertion, duplicate checks, node removal
  and clearing. Each hook's operations are taken as running one after
  another.

`Text` and `Results` are shared helpers: JavaScript's `trim`, `split` and
`join`, whitespace tokens, the safe-name character map, and the `Option` and
`Result` types. Every terminating loop of the source is a Dafny method
proved against a pure specification function; the properties the code
promises are proved about those functions. The strategy loop of the
example loader does not terminate on content with a heading; it is a step
function iterated forever instead (see "## Findings"). The random fill of
the diverse selection has no model of its own: its loop condition is
proved false on exit from the stride loop.

## Model

| member | source | states |
|---|---|---|
| Builder.RenderSkillMd | packages/skills-engine/src/builder.ts:29-53 | the pushed lines joined with "\n" are exactly the SKILL.md specification: title, description, trigger section, version section, layer lines |
| Builder.SkillMdLayout | packages/skills-engine/src/builder.ts:31-52 | for single-line fields the document splits into 18 + n lines. The heading and intro line are present even without triggers, with one `- t` bullet per trigger in input order. |
| Builder.SkillMdLinesAt | packages/skills-engine/src/builder.ts:31-52 | the line list holds the title, description, trigger heading and intro, one bullet per trigger in order, the version section and the layer lines at fixed positions |
| Builder.SkillMdLinesSingle | packages/skills-engine/src/builder.ts:31-52 | when the fields hold no line break, neither does any line of the document |
| Builder.SkillMdShape | packages/skills-engine/src/builder.ts:29-52 | the document starts with `# <skillName>`, has no `---` frontmatter, ends with the Assets layer line and has no trailing newline |
| Builder.Bullets | packages/skills-engine/src/builder.ts:39-41 | one bullet line per trigger |
| Builder.ReferenceStem | packages/skills-engine/src/builder.ts:85 | the stem has the title's length (in UTF-16 units) and only characters of `[a-z0-9_-]` |
| Builder.ReferenceEntries | packages/skills-engine/src/builder.ts:83-94 | one `references/<stem>.md` entry per strategy, in order, with content `# title\n\ncontent`; the placeholder `references/strategies.md` exactly when there are no strategies |
| Builder.PromptEntries | packages/skills-engine/src/builder.ts:97-109 | a non-empty list gives one `assets/prompts/<id>.txt` per template followed by the `- id: name` index README; an absent or empty list gives only the placeholder README |
| Builder.SkillMdAndSchemaOnce | packages/skills-engine/src/builder.ts:70-112 | `SKILL.md` and `assets/schema.json` each occur exactly once in the entry list |
| Builder.ScriptOnce | packages/skills-engine/src/builder.ts:74-80 | exactly one entry lies under `scripts/main.` |
| Builder.ReadmeOnce | packages/skills-engine/src/builder.ts:97-109 | exactly one `assets/prompts/README.md` in the entry list |
| Builder.PromptReadmeOnce | packages/skills-engine/src/builder.ts:97-109 | the prompt part alone holds exactly one README |
| Builder.ReferencesPresent | packages/skills-engine/src/builder.ts:83-94 | at least one entry lies under `references/` |
| Builder.EntriesComplete | packages/skills-engine/src/builder.ts:70-112 | the four singleton entries occur exactly once each and `references/` is never empty |
| Builder.EntriesSplit | packages/skills-engine/src/builder.ts:70-112 | the entry order: SKILL.md, the script, the references, the prompt assets, the schema |
| Builder.MiddleNames | packages/skills-engine/src/builder.ts:83-109 | every reference and prompt entry lives under `references/` or `assets/prompts/` |
| Builder.MiddleAvoidsSingletons | packages/skills-engine/src/builder.ts:83-109 | no reference or prompt entry is named like `SKILL.md`, `assets/schema.json` or `scripts/main.*` |
| Builder.CollidingTitlesKeepBoth | packages/skills-engine/src/builder.ts:83-89 | two strategies whose titles sanitise alike give two entries with the same path; nothing is merged |
| Builder.Archive.Append | packages/skills-engine/src/builder.ts:71 | `archive.append` adds one named entry at the end |
| Builder.AppendHead | packages/skills-engine/src/builder.ts:70-80 | appends `SKILL.md` with the rendered document, then the script entry |
| Builder.AppendMiddle | packages/skills-engine/src/builder.ts:83-109 | appends the reference entries followed by the prompt entries |
| Builder.AppendScript | packages/skills-engine/src/builder.ts:74-80 | appends the script entry: `py` exactly for python, else `ts`; the code when given, else the placeholder |
| Builder.AppendReferences | packages/skills-engine/src/builder.ts:83-94 | the reference loop appends exactly the reference entries |
| Builder.AppendPrompts | packages/skills-engine/src/builder.ts:97-109 | the template loop appends exactly the prompt entries |
| Builder.SkillBuilder.constructor | packages/skills-engine/src/builder.ts:56 | the version defaults to "1.0.0" |
| Builder.SkillBuilder.AppendEntries | packages/skills-engine/src/builder.ts:70-112 | the whole append sequence adds the specified entry list |
| Builder.SkillBuilder.BuildZipBuffer | packages/skills-engine/src/builder.ts:58-112 | invalid input yields the schema's issues and no entries; valid input yields the specified entry list |
| Builder.SkillBuilder.BuildZipStream | packages/skills-engine/src/builder.ts:123-167 | the same validation and the identical entry sequence, in a fresh archive |
| Json.QuoteRoundTrip | packages/skills-engine/src/builder.ts:110 | the quoted JSON string starts and ends with `"`, and its body decodes back to the original string |
| Json.UnescapeEscape | packages/skills-engine/src/builder.ts:110 | decoding the escaped form of any string gives that string |
| Schema.ParseLanguage | packages/skills-engine/src/schema.ts:42 | only "python" and "typescript" are accepted, each to its own language |
| Schema.ParseBuildInput | packages/skills-engine/src/schema.ts:20-46 | accepted iff skillName is non-empty and every required field is present (triggers and strategies may be empty; researchSummary, promptTemplates and scriptLogic optional). An accepted record keeps every field; a rejected one reports at least one issue. |
| Schema.ParseUnparse | packages/skills-engine/src/schema.ts:20-46 | every well-typed input with a non-empty name is accepted unchanged |
| Schema.ParseLayerType | packages/skills-engine/src/schema.ts:7 | a layer type is accepted iff it is scripts, references or assets, and each of the three literals maps to its own layer type (both directions) |
| Schema.ParseLayer | packages/skills-engine/src/schema.ts:3-8 | a layer is accepted iff all fields are present and its type is known; id, name and description are kept and the layer type is the parsed `type` |
| Schema.ParseLayers | packages/skills-engine/src/schema.ts:15 | a layer list is accepted iff every layer is, element by element |
| Schema.ParseManifest | packages/skills-engine/src/schema.ts:10-16 | the name must be non-empty; a missing version becomes "1.0.0"; the description and triggers are kept as given; the layers are the parsed layers, one for one |
| ZipFromStdin.LineLen | packages/skills-engine/native/zip_from_stdin.c:35 | the count of bytes before the first newline, capped by the limit |
| ZipFromStdin.ReadLineSpec | packages/skills-engine/native/zip_from_stdin.c:32-38 | at most cap-1 bytes, with no newline among them. The newline is consumed but not stored. A longer line leaves its rest unread. End of input is reported only when no byte is left. |
| ZipFromStdin.CString | packages/skills-engine/native/zip_from_stdin.c:36 | the C string is the buffer up to its first NUL |
| ZipFromStdin.Strtoull | packages/skills-engine/native/zip_from_stdin.c:96 | the result fits in 64 bits, and a string of digits within range parses to its decimal value |
| ZipFromStdin.ExitCode | packages/skills-engine/native/zip_from_stdin.c:86-147 | exit status 0 exactly when the archive is finalised, 1 otherwise |
| ZipFromStdin.StepSpec | packages/skills-engine/native/zip_from_stdin.c:86-137 | each pass that adds an entry consumes input, so the loop terminates |
| ZipFromStdin.Stdin.GetChar | packages/skills-engine/native/zip_from_stdin.c:35 | `getchar` yields the next byte and advances, or EOF at the end |
| ZipFromStdin.Stdin.Read | packages/skills-engine/native/zip_from_stdin.c:114 | `fread` yields up to n bytes and advances past them |
| ZipFromStdin.ReadLine | packages/skills-engine/native/zip_from_stdin.c:32-38 | the byte loop stores and consumes exactly what the line specification says |
| ZipFromStdin.Run | packages/skills-engine/native/zip_from_stdin.c:86-146 | the entry loop over stdin yields exactly the specified outcome |
| ZipFromStdin.Digits | packages/skills-engine/native/zip_from_stdin.c:8 | the size line of a number is a non-empty string of decimal digits |
| ZipFromStdin.DigitsValue | packages/skills-engine/native/zip_from_stdin.c:8 | the decimal digits of n have value n |
| ZipFromStdin.DigitsFit | packages/skills-engine/native/zip_from_stdin.c:62 | any 64-bit size is written in at most 20 digits, so the size line fits its 64-byte buffer |
| ZipFromStdin.StrtoullDigits | packages/skills-engine/native/zip_from_stdin.c:96 | the size line written for n parses back to n |
| ZipFromStdin.ReadTerminated | packages/skills-engine/native/zip_from_stdin.c:32-38 | a line shorter than the buffer is read whole and its newline consumed |
| ZipFromStdin.PathLine | packages/skills-engine/native/zip_from_stdin.c:86-88 | a valid path line is read whole, is its own C string, and is not `DONE` |
| ZipFromStdin.SizeLine | packages/skills-engine/native/zip_from_stdin.c:90-96 | the size line written for n is read whole and parses to n |
| ZipFromStdin.EntryStep | packages/skills-engine/native/zip_from_stdin.c:87-131 | one encoded entry is read back as that entry, and the loop continues with the rest |
| ZipFromStdin.EncodeThen | packages/skills-engine/native/zip_from_stdin.c:86-138 | reading encoded entries adds them in order and continues after them |
| ZipFromStdin.StopsAtDone | packages/skills-engine/native/zip_from_stdin.c:87-140 | a `DONE` line or end of input where a path is expected finalises the archive |
| ZipFromStdin.RoundTrip | packages/skills-engine/native/zip_from_stdin.c:86-146 | a stream written in the frame format builds exactly the archive of its entries |
| ZipFromStdin.RoundTripToEof | packages/skills-engine/native/zip_from_stdin.c:87-140 | the same without the closing `DONE` line |
| ZipFromStdin.EofAfterPathFails | packages/skills-engine/native/zip_from_stdin.c:90-95 | end of input right after a path line is an error |
| ZipFromStdin.ShortReadFails | packages/skills-engine/native/zip_from_stdin.c:114-120 | fewer raw bytes than announced is an error |
| ZipFromStdin.TooLargeFails | packages/skills-engine/native/zip_from_stdin.c:97-102 | a size above `sizeMax`, the platform's `SIZE_MAX`, is rejected |
| ZipFromStdin.LaterEntryWins | packages/skills-engine/native/zip_from_stdin.c:131 | with a path repeated, the last contents are kept |
| ZipFromStdin.AddAllKeeps | packages/skills-engine/native/zip_from_stdin.c:131 | entries with other paths leave a path's contents alone |
| ZipFromStdin.FullPathDesynchronises | packages/skills-engine/native/zip_from_stdin.c:29-38 | a path of exactly 8191 bytes leaves its newline unread, so that empty line is taken as the size and the real size line as the next path |
| MdScan.IndexOfSub | apps/api/src/services/index-skills.ts:33 | the first occurrence of a pattern at or after a position, or none when there is none |
| MdScan.LineEnd | apps/api/src/services/index-skills.ts:52 | the first line terminator at or after a position, which is where `$` matches in multiline mode |
| MdScan.LastNonTerminator | apps/api/src/services/index-skills.ts:52 | the last character in a range that is not a line terminator, which is where the greedy `.+` capture must stop |
| MdScan.SplitFrontmatter | apps/api/src/services/index-skills.ts:33-49 | `/^---\n([\s\S]*?)\n---\n([\s\S]*)$/`: the document is `---\n` + text + `\n---\n` + body, with the shortest such text; no match when either delimiter is missing |
| MdScan.FrontmatterRoundTrip | apps/api/src/services/index-skills.ts:33 | a document assembled from a frontmatter text that does not close early splits back into that text and body |
| MdScan.ValueAt | apps/api/src/services/index-skills.ts:52 | a `key:\s*(.+)$` match at a line start captures a non-empty single-line value |
| MdScan.FindValue | apps/api/src/services/index-skills.ts:52-53 | the `m`-flag search for a key line yields a non-empty single-line value |
| MdScan.ValueAtLine | apps/api/src/services/index-skills.ts:52-53 | a line made of key, blanks and a value reads back as the value |
| MdScan.FindValueSkips | apps/api/src/services/index-skills.ts:52-53 | positions where the key cannot start a line are passed over |
| MdScan.LineValueOfFirstLine | apps/api/src/services/index-skills.ts:52-53 | a first line `key value` reads back as `value` |
| MdScan.McpItems | apps/api/src/services/index-skills.ts:64 | one cleaned item per comma-separated part |
| MdScan.McpList | apps/api/src/services/index-skills.ts:62-65 | split on commas, trim, unquote once at each end, drop empty items: no item is empty |
| MdScan.McpItemOfQuoted | apps/api/src/services/index-skills.ts:64 | an item wrapped in one quote character at each end (`"` or `'`, not necessarily the same) reads back without them |
| MdScan.McpListOfQuotedJoin | apps/api/src/services/index-skills.ts:62-65 | non-empty comma-free names, each wrapped in quotes and written as a comma-separated list, read back as exactly those names |
| MdScan.RequiresMcp | apps/api/src/services/index-skills.ts:54-67 | a `requires` list is found only when the frontmatter text itself begins with `requires:` (no `m` flag); its items are non-empty |
| MdScan.RequiresMcpOfList | apps/api/src/services/index-skills.ts:54 | a text opening with `requires:`, a newline, `  mcp: [`, then a `]`-free list and `]` yields the cleaned items of exactly that list, whatever follows |
| MdScan.RequiresMcpOfNames | apps/api/src/services/index-skills.ts:54-67 | plain names written in that block as a comma-separated list are the `requires.mcp` list |
| MdScan.RequiresMcpOfQuotedNames | apps/api/src/services/index-skills.ts:54-67 | names written in that block each in quotes are the `requires.mcp` list, without the quotes |
| MdScan.McpItemOfBare | apps/api/src/services/index-skills.ts:64 | an item with no surrounding blanks or quotes is kept unchanged |
| MdScan.McpListOfJoin | apps/api/src/services/index-skills.ts:62-65 | plain names written as a comma-separated list read back unchanged |
| MdScan.HeadingAt | apps/api/src/services/index-skills.ts:81 | `^###?\s+(.+?)$` at a line start: a non-empty single-line title after `##` or `###` and white space |
| MdScan.HeadingAtLine | apps/api/src/services/index-skills.ts:81 | a line `## title` or `### title` at a line start, the title starting with a non-blank, is a heading whose capture is exactly that title |
| MdScan.FindHeading | apps/api/src/services/index-skills.ts:85-90 | `exec` from `lastIndex`: the first heading at or after it, none skipped, or none at all |
| MdScan.FindHeadingAgain | apps/api/src/services/index-skills.ts:99 | searching again from a found heading's start finds that same heading |
| MdScan.SectionOf | apps/api/src/services/index-skills.ts:88-96 | a section is kept only when its trimmed title and trimmed body are both non-empty |
| MdScan.SectionsFrom | apps/api/src/services/index-skills.ts:84-100 | every kept section has a non-empty trimmed title and body |
| MdScan.HeadingsFrom | apps/api/src/services/index-skills.ts:81-85 | the headings in document order, each starting after the previous one ends |
| MdScan.SectionsFollowHeadings | apps/api/src/services/index-skills.ts:84-100 | the sections are those of the headings in document order, each body running to the next heading |
| MdScan.TryCapture | apps/api/src/services/index-skills.ts:111-112 | `(.+?)(?:\n\|$)` captures the non-empty terminator-free text from the start position up to a `\n`, which the match consumes, or up to the end of the text |
| MdScan.CaptureBack | apps/api/src/services/index-skills.ts:111-112 | backtracking the greedy `\s*` ends inside the text |
| MdScan.PhraseAt | apps/api/src/services/index-skills.ts:111-112 | a phrase match at a position ends strictly after it and captures a non-empty piece of one line |
| MdScan.PhraseAtLine | apps/api/src/services/index-skills.ts:111-112 | a line `key: value` with a value starting with a non-blank matches at the key and captures exactly the value, the match ending after the newline |
| MdScan.PhraseCaptures | apps/api/src/services/index-skills.ts:117 | `matchAll`: every capture is a non-empty piece of one line |
| MdScan.PhraseCapturesSkip | apps/api/src/services/index-skills.ts:117 | positions where the pattern does not match contribute nothing |
| MdScan.PhraseCapturesFirst | apps/api/src/services/index-skills.ts:117 | the first position where the pattern matches gives the first capture, and the scan resumes where that match ends; with `PhraseAtLine`, the first `key: value` line gives its value first |
| MdScan.AddTrigger | apps/api/src/services/index-skills.ts:118-121 | a capture adds at most one trigger, at the end |
| MdScan.AddTriggers | apps/api/src/services/index-skills.ts:117-122 | the triggers gathered so far are kept as a prefix |
| MdScan.AddTriggersSpec | apps/api/src/services/index-skills.ts:117-122 | no duplicates are introduced; every non-empty trimmed capture ends up present; nothing else is added |
| MdScan.TriggerListSpec | apps/api/src/services/index-skills.ts:108-125 | the list starts with the skill name and has no duplicates. Every `trigger…:` capture is added before the `when to use…:` ones. Nothing else is added. The list is the name, then the first occurrences of the new `trigger…:` captures, then those of the new `when to use…:` captures. |
| MdScan.AddTriggersOrder | apps/api/src/services/index-skills.ts:115-123 | adding captures appends, in capture order, the first occurrence of each non-empty trimmed capture that is not yet in the list |
| MdScan.FirstsMembers | apps/api/src/services/index-skills.ts:119-121 | a value is among the first occurrences exactly when it occurs and was not already present |
| MdScan.CollectTriggers | apps/api/src/services/index-skills.ts:115-123 | the nested loops over the two patterns produce exactly the trigger list |
| MdScan.PushTriggers | apps/api/src/services/index-skills.ts:115-123 | one pattern's pass pushes exactly the new non-empty trimmed captures, as `AddTriggers` describes |
| IndexSkills.ParseSkillMd | apps/api/src/services/index-skills.ts:32-74 | never fails. Without frontmatter: the directory name and the first 200 characters. With it: the body after the block, the name falling back to the directory name and the description to the body's first 200 characters. `requires.mcp` only when the text begins with `requires:`. A `name:` or `description:` line gives its value trimmed and stripped of one quote at each end; `requires.mcp` is the cleaned list of the `requires` block. |
| IndexSkills.ParseDocument | apps/api/src/services/index-skills.ts:32-74 | a two-line frontmatter of plain values parses to exactly those values and the body, with no `requires` list |
| IndexSkills.ParseQuotedDocument | apps/api/src/services/index-skills.ts:52-59 | name and description written in quotes (either kind at either end) parse to the values without the quotes |
| IndexSkills.DocumentSplits | apps/api/src/services/index-skills.ts:33-34 | such a document splits into its frontmatter text and body |
| IndexSkills.TextValues | apps/api/src/services/index-skills.ts:52-54 | its name and description lines read back, and no `requires` list is found |
| IndexSkills.NoEarlyClosing | apps/api/src/services/index-skills.ts:33 | the block cannot close before its end when the second line does not start with `-` |
| IndexSkills.ExtractStrategies | apps/api/src/services/index-skills.ts:79-103 | the loop yields exactly the sections in document order; it terminates because each turn restarts at a strictly later heading |
| IndexSkills.NextSection | apps/api/src/services/index-skills.ts:84-101 | one turn of the walk: the kept section of the heading found, and a next search start strictly later than the current one |
| IndexSkills.SectionsFromStep | apps/api/src/services/index-skills.ts:85-99 | one turn: the section of the current heading runs to the next heading, and the next search starts strictly later |
| IndexSkills.ExtractTriggers | apps/api/src/services/index-skills.ts:108-126 | the trigger list: the skill name first, no duplicates, never empty |
| LoadExamples.ParseSkillMd | apps/api/src/examples/load-examples.ts:23-54 | no result exactly when there is no frontmatter block; a present `name:` or `description:` line gives its value trimmed with one quote taken off each end, a missing one gives ""; `requires.mcp` is the scanned `requires:`/`mcp:` list, found only when the text begins with `requires:` |
| LoadExamples.ParseDocument | apps/api/src/examples/load-examples.ts:23-54 | a two-line frontmatter of plain values parses to exactly those values and the body |
| LoadExamples.ParseQuotedDocument | apps/api/src/examples/load-examples.ts:33-39 | quoted name and description values, with either quote character at either end, read back without the quotes |
| LoadExamples.AsWrittenStep | apps/api/src/examples/load-examples.ts:68-83 | one turn of the loop as written: it leaves exactly when no heading is found from the regex position |
| LoadExamples.AsWrittenRun | apps/api/src/examples/load-examples.ts:68-83 | zero turns leave the entry state, and on content without a heading the loop has left after the first turn |
| LoadExamples.StuckStep | apps/api/src/examples/load-examples.ts:79-82 | once both restart positions lie before a heading, the next turn finds a heading again and stays in that state |
| LoadExamples.IterateForever | apps/api/src/examples/load-examples.ts:68 | a loop whose every turn from a state satisfying an invariant continues in such a state is still running after any number of turns |
| LoadExamples.AsWrittenNeverExits | apps/api/src/examples/load-examples.ts:68-83 | for any content with a heading, the loop started at position 0 is still running after any number of turns |
| LoadExamples.AsWrittenLoopsOnOneHeading | apps/api/src/examples/load-examples.ts:68-83 | the content "## A\nbody" keeps the loop running forever |
| LoadExamples.AsStrategies | apps/api/src/examples/load-examples.ts:76 | each section becomes a strategy with the same title and content |
| LoadExamples.ToStrategies | apps/api/src/examples/load-examples.ts:76 | the push loop yields exactly those strategies |
| LoadExamples.SkillMdToSkillBuildInput | apps/api/src/examples/load-examples.ts:59-108 | name falls back to the directory name and description to the first 200 characters. Triggers start with the frontmatter name, have no duplicates and are the trigger list. Strategies are the sections in order, or a single `Overview` of the first 500 characters. (The strategy loop is replaced by the terminating section walk.) |
| LoadExamples.Cut | apps/api/src/examples/load-examples.ts:161 | content of at most 300 characters is kept; longer content is cut to 300 and "..." appended |
| LoadExamples.StrategyLines | apps/api/src/examples/load-examples.ts:160-162 | one line per strategy |
| LoadExamples.ExampleText | apps/api/src/examples/load-examples.ts:164-169 | each example block starts with its 1-based `Example n:` header |
| LoadExamples.ExampleTexts | apps/api/src/examples/load-examples.ts:158-171 | one block per selected example, numbered `Example 1..n` in order |
| LoadExamples.Selected | apps/api/src/examples/load-examples.ts:156 | all examples when within the limit, otherwise the diverse selection of exactly `maxExamples` |
| LoadExamples.FewShotExamplesPrompt | apps/api/src/examples/load-examples.ts:149-182 | "" exactly when there are no examples; otherwise the count of selected examples, the fixed introduction, the selected examples' blocks separated by blank lines and the closing instructions |
| LoadExamples.DiverseSelection | apps/api/src/examples/load-examples.ts:187-207 | nothing for a non-positive count or an empty list, otherwise exactly `count` items |
| LoadExamples.Stride | apps/api/src/examples/load-examples.ts:189-193 | the k-th pick is at index k·step, inside the list |
| LoadExamples.DiverseSelectionStride | apps/api/src/examples/load-examples.ts:189-194 | when the list is longer than count ≥ 1, exactly the items at 0, step, …, (count-1)·step are picked |
| LoadExamples.SelectionMatches | apps/api/src/examples/load-examples.ts:189-194 | a list picked by the stride (or by repeating the first item when step is 0) is the diverse selection |
| LoadExamples.SelectDiverseExamples | apps/api/src/examples/load-examples.ts:187-207 | the stride loop yields the diverse selection, after which the random fill loop's condition is already false |
| ExtractSkills.WordEnd | scripts/extract-claude-skills.js:20 | the end of the `\w+` key run |
| ExtractSkills.RestOfLine | scripts/extract-claude-skills.js:20 | the `\s*(.+)$` value of a line is non-empty and single-line |
| ExtractSkills.Unquote | scripts/extract-claude-skills.js:25-28 | surrounding quotes are removed only when both ends carry the same quote character; otherwise the value is unchanged |
| ExtractSkills.MetaLine | scripts/extract-claude-skills.js:20-23 | a metadata line yields a non-empty word key |
| ExtractSkills.MetaLineOfEntry | scripts/extract-claude-skills.js:19-30 | `key: value` with a word key and a plain value reads back as that pair |
| ExtractSkills.Bullet | scripts/extract-claude-skills.js:41-42 | a `-` or `*` bullet yields its trimmed item |
| ExtractSkills.BulletOfItem | scripts/extract-claude-skills.js:41-42 | `- item` reads back as the item |
| ExtractSkills.MetadataLastWins | scripts/extract-claude-skills.js:19-31 | when a key repeats, the last line setting it wins |
| ExtractSkills.MetadataAbsent | scripts/extract-claude-skills.js:19-31 | a key no line sets is absent |
| ExtractSkills.ReadMetadata | scripts/extract-claude-skills.js:18-31 | the `forEach` over the lines builds exactly the metadata map |
| ExtractSkills.WhenToUseFromSpec | scripts/extract-claude-skills.js:37 | no section exactly when no `## When to Use` heading (any case) followed later by a newline occurs; otherwise the section under the first such heading |
| ExtractSkills.WhenSectionAt | scripts/extract-claude-skills.js:37 | the section starts on the line after the heading and runs up to the first `\n## ` at or after that start, or to the end when there is none |
| ExtractSkills.BulletsOf | scripts/extract-claude-skills.js:40-43 | at most one trigger per line |
| ExtractSkills.CollectBullets | scripts/extract-claude-skills.js:38-44 | the loop over the section's lines collects exactly the bullets |
| ExtractSkills.BulletLines | scripts/extract-claude-skills.js:41 | one `- item` line per item |
| ExtractSkills.BulletsOfItems | scripts/extract-claude-skills.js:40-43 | items written as bullet lines are read back in order |
| ExtractSkills.HashEnd | scripts/extract-claude-skills.js:48 | the end of the run of `#` |
| ExtractSkills.BreakFrom | scripts/extract-claude-skills.js:48 | the lazy body stops inside the text |
| ExtractSkills.SectionAt | scripts/extract-claude-skills.js:48-51 | a section match has a non-empty title line followed by its body |
| ExtractSkills.SectionMatches | scripts/extract-claude-skills.js:48 | the global match's sections, in order, inside the text |
| ExtractSkills.Keep | scripts/extract-claude-skills.js:55-56 | a section yields a strategy exactly when its trimmed title is non-empty and free of "license" in any case and its trimmed body is longer than 50 characters; the strategy is that title with the first 500 characters of that body, so its content has 51 to 500 characters |
| ExtractSkills.SectionMatchesLayout | scripts/extract-claude-skills.js:48 | a `## title` line followed by a body with no line starting with `#`, then by the next `\n## ` or the end of the text, is matched with exactly that title line and that body |
| ExtractSkills.SectionYields | scripts/extract-claude-skills.js:50-57 | such a section yields `Keep` of its trimmed title and trimmed body |
| ExtractSkills.StrategiesOf | scripts/extract-claude-skills.js:49-59 | every kept strategy passes those checks, at most one per section |
| ExtractSkills.StrategiesOfConcat | scripts/extract-claude-skills.js:49-59 | the strategies keep the order of their sections: scanning two runs of sections gives the first run's strategies, then the second's |
| ExtractSkills.StrategiesOfSound | scripts/extract-claude-skills.js:49-59 | every kept strategy is the one some section yields |
| ExtractSkills.StrategiesOfComplete | scripts/extract-claude-skills.js:49-59 | every section that yields a strategy has it kept |
| ExtractSkills.CollectStrategies | scripts/extract-claude-skills.js:47-59 | the `forEach` over the sections collects exactly the strategies |
| ExtractSkills.Take | scripts/extract-claude-skills.js:72-73 | `slice(0, n)`: a prefix of at most n items, the whole list when short enough |
| ExtractSkills.ParseSkillFileSpec | scripts/extract-claude-skills.js:8-75 | no record exactly when there is no frontmatter |
| ExtractSkills.ParseSkillFileShape | scripts/extract-claude-skills.js:34-73 | the name is never empty ('unknown' fallback). The description has at most 300 characters. There are 1 to 5 triggers and at most 4 strategies. The strategies are the first four kept sections; with none kept, a body over 100 characters gives a single `Overview` of its first 500 characters, and a shorter body gives none. |
| ExtractSkills.ParseSkillFileFields | scripts/extract-claude-skills.js:34-72 | the name is the `name` metadata, else `unknown`. The description is the `description` metadata, else the body's first line, cut to 300 characters. The triggers are the first five bullets under `## When to Use`, else the name alone. |
| ExtractSkills.BodyStrategies | scripts/extract-claude-skills.js:47-73 | at most four strategies, each passing the section checks or the `Overview` fallback; the first four kept sections, or the fallback when none is kept |
| ExtractSkills.ReadTriggers | scripts/extract-claude-skills.js:37-44 | the bullets of the `When to Use` section, or none without that section |
| ExtractSkills.ReadStrategies | scripts/extract-claude-skills.js:47-73 | the section scan with its `Overview` fallback, cut to four |
| ExtractSkills.ParseSkillFile | scripts/extract-claude-skills.js:8-75 | the three loops produce exactly the specified record |
| Sanitize.RemoveFences | apps/api/src/middleware/sanitize.ts:8 | never lengthens the text; a text without ``` is unchanged; the result holds no complete fenced block (no ``` is followed by another one past its three backticks), while an unclosed fence stays |
| Sanitize.FenceAfterFirst | apps/api/src/middleware/sanitize.ts:8 | the text kept before the first fence cannot end in a backtick, so joining it to the rest forms no fence at the seam |
| Sanitize.RemoveInline | apps/api/src/middleware/sanitize.ts:9 | after removing paired inline spans at most one backtick remains |
| Sanitize.RemoveBrackets | apps/api/src/middleware/sanitize.ts:10 | no `< > { } [ ]` remains, and backticks are untouched |
| Sanitize.RemoveBracketsOfClean | apps/api/src/middleware/sanitize.ts:10 | text without brackets is unchanged |
| Sanitize.RemoveBracketsKeepsOthers | apps/api/src/middleware/sanitize.ts:10 | every character other than `< > { } [ ]` keeps its number of occurrences |
| Sanitize.TrimKeeps | apps/api/src/middleware/sanitize.ts:11 | trimming adds no character and keeps a bracket-free text bracket-free |
| Sanitize.CountAtMostOne | apps/api/src/middleware/sanitize.ts:9 | with at most one backtick, none follows the one there is |
| Sanitize.StripInjection | apps/api/src/middleware/sanitize.ts:6-12 | the output holds no bracket, at most one backtick and no surrounding white space, and is no longer than the input |
| Sanitize.StripInjectionIdempotent | apps/api/src/middleware/sanitize.ts:6-12 | sanitising twice equals sanitising once |
| Sanitize.StripInjectionKeepsClean | apps/api/src/middleware/sanitize.ts:6-12 | a text with no bracket, at most one backtick and no surrounding white space is returned unchanged, so the sanitiser removes nothing beyond what its output contract excludes |
| Sanitize.ParseSearchQuery | apps/api/src/middleware/sanitize.ts:14-22 | accepted iff the raw query has at most 50 UTF-16 units and the stripped query at most five words; the accepted value is the stripped query; an over-long query reports `TooLong` |
| Sanitize.ParseGenerateBody | apps/api/src/middleware/sanitize.ts:24-35 | accepted iff the raw name has 1 to 50 units, the stripped name has at most five words, and the optional URLs are valid; the name is stripped and the URLs kept |
| Sanitize.BracketsOnlyNameAccepted | apps/api/src/middleware/sanitize.ts:27-29 | the length bounds apply before stripping: the name "{}" is accepted and becomes "" |
| Sanitize.EmptyQueryAccepted | apps/api/src/middleware/sanitize.ts:15-21 | an empty query is accepted |
| RateLimit.Key | apps/api/src/middleware/rate-limit.ts:6-8 | the key is the prefix, a colon at position \|prefix\|, then the identifier |
| RateLimit.KeyInjective | apps/api/src/middleware/rate-limit.ts:6-8 | for prefixes without a colon, equal keys have equal prefixes and identifiers |
| RateLimit.SearchAndGenerateKeysDiffer | apps/api/src/middleware/rate-limit.ts:40-57 | the search and generate counters never share a key |
| RateLimit.CheckSpec | apps/api/src/middleware/rate-limit.ts:10-25 | allowed iff the record is absent, expired (`now > resetAt`) or under the limit. A denial reports 0 remaining and changes nothing. Only the checked key's record may change, and it is then present. |
| RateLimit.CheckStartsWindow | apps/api/src/middleware/rate-limit.ts:14-17 | an absent or expired record restarts at count 1 with `resetAt = now + windowMs`, allowed with `max - 1` remaining |
| RateLimit.CountInsideWindow | apps/api/src/middleware/rate-limit.ts:14-24 | for any `now` up to and including `resetAt`, under the limit, the request is allowed, the count is incremented with `resetAt` kept, and `remaining` is the limit minus the new count |
| RateLimit.RemainingNonNegative | apps/api/src/middleware/rate-limit.ts:16-24 | for a limit of at least one the remainder is never negative |
| RateLimit.CheckKeepsBound | apps/api/src/middleware/rate-limit.ts:15-23 | every count stays between one and the limit |
| RateLimit.Run | apps/api/src/middleware/rate-limit.ts:10-25 | a run of requests allows at most as many as there are |
| RateLimit.RunWithinWindow | apps/api/src/middleware/rate-limit.ts:14-24 | inside one window at most `max - count` further requests pass, the count rises by exactly that many and the window's end does not move |
| RateLimit.FreshWindowCap | apps/api/src/middleware/rate-limit.ts:14-24 | a fresh window lets at most `max` requests through |
| RateLimit.Live | apps/api/src/middleware/rate-limit.ts:30-34 | exactly the entries with `now <= resetAt` are kept, unchanged |
| RateLimit.CleanupCommutesWithCheck | apps/api/src/middleware/rate-limit.ts:10-35 | cleaning up before a check gives the same verdict as checking first, and the same map once cleaned |
| RateLimit.FirstForwarded | apps/api/src/middleware/rate-limit.ts:39 | the first comma-separated entry, trimmed: no comma and no surrounding white space |
| RateLimit.FirstForwardedOfList | apps/api/src/middleware/rate-limit.ts:39 | a list of comma-free entries with a trimmed first entry yields that entry |
| RateLimit.SearchIdentifier | apps/api/src/middleware/rate-limit.ts:39 | the forwarded address when that header is present, else `x-real-ip`, else "anonymous" |
| RateLimit.EmptyForwardedIgnoresRealIp | apps/api/src/middleware/rate-limit.ts:39 | an empty `x-forwarded-for` gives the empty identifier, because `??` falls back only on a missing value |
| RateLimit.GenerateIdentifier | apps/api/src/middleware/rate-limit.ts:56 | `x-user-id`, else `x-session-id`, else the first forwarded address, else "anonymous" |
| RateLimit.RateLimiter.constructor | apps/api/src/middleware/rate-limit.ts:4 | the counter map starts empty |
| RateLimit.RateLimiter.CheckRateLimit | apps/api/src/middleware/rate-limit.ts:10-25 | the verdict and the updated map are those of the specification, with the clock as a parameter |
| RateLimit.RateLimiter.Cleanup | apps/api/src/middleware/rate-limit.ts:28-35 | the deletion loop leaves exactly the live entries |
| RateLimit.RateLimiter.RateLimitSearch | apps/api/src/middleware/rate-limit.ts:37-52 | 10 requests per 10 minutes per client. It reports limit "10" and a non-negative remainder, and passes the request on iff allowed. |
| RateLimit.RateLimiter.RateLimitGenerate | apps/api/src/middleware/rate-limit.ts:54-69 | 3 requests per 5 minutes per user, session or client. It reports limit "3" and a non-negative remainder, and passes the request on iff allowed. |
| Text.SafeName | apps/api/src/services/supabase.ts:75 | every character outside `[A-Za-z0-9_-]` becomes `_`, per UTF-16 unit, so the result is all safe and as long as the name's UTF-16 length |
| Text.SafeNameReplaces | apps/api/src/services/supabase.ts:75 | an unsafe character becomes `_`, or `__` when it lies outside the Basic Multilingual Plane, and the text around it is sanitised independently |
| Text.SafeNameKeepsSafe | apps/api/src/services/supabase.ts:75 | a safe character survives in place and in its case, with the parts around it sanitised separately |
| Text.SafeNameIdempotent | apps/api/src/services/supabase.ts:75 | sanitising twice is sanitising once |
| Text.StripQuotesSpec | apps/api/src/services/index-skills.ts:57 | one quote is removed at each end, the two ends independently and whether or not the quote characters match; a value with a quote at one end only loses that one; a value with no outer quote is unchanged |
| StorageKeys.SupabaseSkillKey | apps/api/src/services/supabase.ts:74-76 | the key is `skills/<session>/`, the sanitised name, then `.skills`, with exactly that length |
| StorageKeys.R2SkillKey | apps/api/src/services/r2.ts:61-63 | the same shape and length for the R2 bucket |
| StorageKeys.KeysAgree | apps/api/src/services/supabase.ts:74-76 | the Supabase and R2 key functions agree on every input |
| StorageKeys.KeyOfSafeName | apps/api/src/services/supabase.ts:75 | a name already sanitised gives the same key |
| StorageKeys.KeyKeepsSafeChars | apps/api/src/services/supabase.ts:75-76 | each safe character of the name appears in the key at its place, case kept |
| StorageKeys.CaseKept | apps/api/src/services/supabase.ts:75 | storage keys keep upper case, where the builder's file names lower-case it |
| StorageKeys.KeyDeterminesParts | apps/api/src/services/supabase.ts:74-76 | for sessions without a slash, the key determines the session and the sanitised name |
| DownloadStore.LastSet | apps/api/src/services/download-store.ts:3-5 | the URL the last call naming a session left, and nothing exactly when no call named it |
| DownloadStore.Lookup | apps/api/src/services/download-store.ts:7-9 | a value exactly when the session is in the store, and then the stored URL |
| DownloadStore.ReplayLookup | apps/api/src/services/download-store.ts:1-9 | after any run of `setDownloadUrl` calls, a lookup returns the last URL set for that session, or null |
| DownloadStore.SetThenGet | apps/api/src/services/download-store.ts:3-9 | a later set overrides an earlier one, and sets for other sessions do not disturb it |
| DownloadStore.LastSetSkips | apps/api/src/services/download-store.ts:3-5 | calls for other sessions do not change a session's last URL |
| DownloadStore.Store.constructor | apps/api/src/services/download-store.ts:1 | the store starts empty |
| DownloadStore.Store.SetDownloadUrl | apps/api/src/services/download-store.ts:3-5 | the session's entry becomes the URL and every other session's lookup is unchanged |
| DownloadStore.Store.GetDownloadUrlBySession | apps/api/src/services/download-store.ts:7-9 | the stored URL, or null for an unknown session |
| PostTraining.TotalPenaltyZero | apps/api/src/eval/post-training.ts:17-44 | every raised check costs something, so the total deduction is zero exactly when no check failed |
| PostTraining.Clamp | apps/api/src/eval/post-training.ts:47 | `Math.max(0, q)`: never negative, never below q, and q itself when q is non-negative |
| PostTraining.EvaluationBounds | apps/api/src/eval/post-training.ts:11-50 | the score lies in [0, 1], issues and suggestions pair up one per failed check, and the score is 1 exactly when there is no issue |
| PostTraining.Conclude | apps/api/src/eval/post-training.ts:47-49 | once every check has run, the tracked lists and score are the evaluation |
| PostTraining.SkillFailuresInOrder | apps/api/src/eval/post-training.ts:16-45 | the four checks run in the source's order: description, triggers, strategy count, strategy content |
| PostTraining.ShortCount | apps/api/src/eval/post-training.ts:39 | the number of strategies under 100 characters is at most the number of strategies |
| PostTraining.SkillFailures | apps/api/src/eval/post-training.ts:17-45 | at most four checks fail, each one raised as the source raises it |
| PostTraining.ShortStrategiesOneIssue | apps/api/src/eval/post-training.ts:38-44 | however many strategies are short, they raise one issue naming their count and cost 0.1 each |
| PostTraining.ApplyCheck | apps/api/src/eval/post-training.ts:17-21 | a failing check pushes its issue and suggestion and deducts its penalty; a passing one changes nothing |
| PostTraining.EvaluateSkillGeneration | apps/api/src/eval/post-training.ts:11-50 | the result is the evaluation of the failed skill checks, with the score in [0, 1] and paired issues and suggestions |
| PostTraining.CountShort | apps/api/src/eval/post-training.ts:39 | the filtered length equals the number of short strategies |
| PostTraining.InvalidCount | apps/api/src/eval/post-training.ts:78-80 | zero exactly when every location has its latitude in [-90, 90] and its longitude in [-180, 180] |
| PostTraining.SearchFailures | apps/api/src/eval/post-training.ts:57-85 | at most three checks fail, each raised as the source raises it |
| PostTraining.SearchFailuresInOrder | apps/api/src/eval/post-training.ts:57-85 | the trend, location and coordinate checks run in that order |
| PostTraining.InvalidCoordsCostOnce | apps/api/src/eval/post-training.ts:81-85 | bad coordinates cost 0.1 however many locations are out of range |
| PostTraining.EvaluateSearchResults | apps/api/src/eval/post-training.ts:52-90 | the result is the evaluation of the failed search checks under the query's name, with the score in [0, 1] |
| PostTraining.CountInvalid | apps/api/src/eval/post-training.ts:78-80 | the filtered length equals the number of locations out of range |
| CheckEnv.MaskValue | apps/api/src/check-env.ts:42-46 | a missing or empty value shows "❌ Not set", one of one to eight characters shows "***", a longer one its first four characters, "..." and its last four |
| CheckEnv.MaskHidesMiddle | apps/api/src/check-env.ts:42-46 | two long values that agree in their first and last four characters mask alike, whatever lies between |
| CheckEnv.Check | apps/api/src/check-env.ts:28-40 | a check is present exactly when the variable is set and non-empty, and shows the not-set text exactly when it is not |
| CheckEnv.MaskOfSet | apps/api/src/check-env.ts:43 | the mask is the not-set text exactly for a missing or empty value |
| CheckEnv.Status | apps/api/src/check-env.ts:54-66 | ✅ exactly when present, ❌ exactly when missing and required, ⚠️ exactly when missing and optional |
| CheckEnv.AllRequired | apps/api/src/check-env.ts:52-72 | the loop's flag is true exactly when every required variable of the list is present |
| CheckEnv.ExitCode | apps/api/src/check-env.ts:77-112 | the exit code is 0 or 1, and 0 exactly when the four required variables are set |
| SearchBar.WordCount | packages/ui/src/SearchBar.tsx:27 | the count is the number of white-space separated words of the value, 0 for a blank value |
| SearchBar.HandleChange | packages/ui/src/SearchBar.tsx:30-38 | a value within the limit passes unchanged. A longer one becomes its first `maxWords` words joined by single spaces, and those are then its words. |
| SearchBar.ChangeWithinLimit | packages/ui/src/SearchBar.tsx:28-38 | whatever is typed, the emitted value is never over the limit and its words are a prefix of the typed words |
| SearchBar.WordsOfTrim | packages/ui/src/SearchBar.tsx:27-32 | trimming first does not change the words |
| SearchBar.HandleKeyDown | packages/ui/src/SearchBar.tsx:40-45 | Enter searches exactly when the value has one to `maxWords` words, and then for the trimmed value. Other keys search nothing. |
| SearchBar.BlankIffNoWords | packages/ui/src/SearchBar.tsx:27-41 | a value trims to empty exactly when it has no words |
| GraphTypes.NodeIds | apps/web/src/hooks/useSkillGraph.ts:31-52 | the ids of the nodes, in order |
| GraphTypes.Filter | apps/web/src/hooks/useSkillGraph3D.ts:124 | the kept elements are elements that pass, and every element that passes is kept |
| GraphTypes.FilterAppend | apps/web/src/hooks/useSkillGraph3D.ts:172-173 | filtering distributes over concatenation, so it keeps order |
| GraphTypes.FilterKeepsAll | apps/web/src/hooks/useSkillGraph3D.ts:124 | a list whose every element passes is kept whole |
| GraphTypes.AddNode | apps/web/src/hooks/useIncrementalSkillGraph.ts:55-61 | the node is appended exactly when its id is absent, so distinct ids stay distinct and the id is then present; the 3D graph's per-skill updater (useSkillGraph3D.ts:61-66) is the same rule and uses this definition |
| GraphTypes.RemoveNodeFrom | apps/web/src/hooks/useIncrementalSkillGraph.ts:147 | every node with that id goes, every other node stays, and a missing id changes nothing; the 3D graph's removal (useSkillGraph3D.ts:172) uses this definition too |
| GraphTypes.RemoveEdgesOf | apps/web/src/hooks/useIncrementalSkillGraph.ts:148 | every edge touching the node goes and every other edge stays |
| SkillGraph.EdgeOf | apps/web/src/hooks/useSkillGraph.ts:74-88 | the edge joins the processed node to its similar skill, carries its similarity and is animated exactly above 0.85 |
| SkillGraph.AddSimilar | apps/web/src/hooks/useSkillGraph.ts:64-91 | the inner loop only appends edges |
| SkillGraph.AddSimilarSound | apps/web/src/hooks/useSkillGraph.ts:64-91 | the inner loop keeps unordered pairs distinct and every edge justified by a similar list at or above 0.7, and joins every qualifying similar skill |
| SkillGraph.AddSimilarStep | apps/web/src/hooks/useSkillGraph.ts:64-91 | one turn of the inner loop keeps the pairs distinct and the edges justified, and leaves the new similar skill joined when it qualifies |
| SkillGraph.LoadEdgesSound | apps/web/src/hooks/useSkillGraph.ts:58-97 | after the outer loop over the first twenty nodes no pair is joined twice, every edge is justified, and every qualifying similar skill of a processed node is joined to it; a failed lookup is skipped |
| SkillGraph.LoadEdgesStep | apps/web/src/hooks/useSkillGraph.ts:58-97 | one turn of the outer loop keeps the pairs distinct, the edges justified and every processed node's qualifying similar skills joined |
| GraphTypes.NodesOf | apps/web/src/hooks/useSkillGraph.ts:31-52 | one node per skill, in order, under the skill's id; the 3D batch (useSkillGraph3D.ts:115-120) builds its nodes the same way |
| SkillGraph.FirstIds | apps/web/src/hooks/useSkillGraph.ts:58 | the ids of the first twenty nodes (all of them when there are fewer), in order: a prefix of the node ids of length min(count, 20) |
| SkillGraph.LinkedGrows | apps/web/src/hooks/useSkillGraph.ts:67-71 | a pair joined stays joined as edges are appended |
| SkillGraph.CoversGrows | apps/web/src/hooks/useSkillGraph.ts:61-95 | coverage of a similar list survives later appends |
| SkillGraph.SkillGraphState.constructor | apps/web/src/hooks/useSkillGraph.ts:15-18 | the graph starts empty with no error |
| SkillGraph.SkillGraphState.LoadSkills | apps/web/src/hooks/useSkillGraph.ts:22-108 | on success the nodes are the skills and the edges those the loops build from the first twenty; on failure only the error is set |
| SkillGraph.SkillGraphState.FilterBySource | apps/web/src/hooks/useSkillGraph.ts:115-147 | no source means a full reload (nodes, looped edges, error cleared); a source replaces the nodes by the filtered skills and empties the edges; a failure sets only the error |
| SkillGraph.SkillGraphState.SearchSkills | apps/web/src/hooks/useSkillGraph.ts:150-189 | a blank query means a full reload (nodes, looped edges, error cleared); otherwise the results replace the nodes and the edges are emptied; a failure sets only the error |
| SkillGraph.SkillGraphState.ShowResults | apps/web/src/hooks/useSkillGraph.ts:138-144 | returned skills replace the nodes and the edges are emptied, leaving the error as it was; a failure sets the error and leaves nodes and edges alone |
| SkillGraph3D.Keys | apps/web/src/hooks/useSkillGraph3D.ts:74 | every edge's `from-to` key is in the set |
| SkillGraph3D.EdgesForComplete | apps/web/src/hooks/useSkillGraph3D.ts:77-93 | every similar skill at or above 0.7 that is on the graph and whose key is absent in both orders gets an edge |
| SkillGraph3D.EdgesFor | apps/web/src/hooks/useSkillGraph3D.ts:77-93 | each new edge runs from the added skill to a node already on the graph, at or above 0.7, with its key absent in both orders |
| SkillGraph3D.EdgesAfterAdd | apps/web/src/hooks/useSkillGraph3D.ts:69-100 | the old edges are kept, and nothing changes when the graph was empty or the lookup failed |
| SkillGraph3D.WithSkills | apps/web/src/hooks/useSkillGraph3D.ts:122-126 | the old nodes stay in front, at most one node per skill is appended, and a node is appended exactly when it is a batch node whose id was not on the graph before |
| SkillGraph3D.BatchRepeatsKept | apps/web/src/hooks/useSkillGraph3D.ts:122-126 | a batch naming one new skill twice puts its id on the graph twice, since only ids already present are filtered out |
| SkillGraph3D.CandidatesForComplete | apps/web/src/hooks/useSkillGraph3D.ts:136-147 | every similar skill at or above 0.7, other than the node itself, on the graph or in the batch, is a candidate |
| SkillGraph3D.CandidatesFor | apps/web/src/hooks/useSkillGraph3D.ts:136-147 | each candidate runs from the batch node to another node of the old graph or the batch, at or above 0.7 |
| SkillGraph3D.CollectCandidates | apps/web/src/hooks/useSkillGraph3D.ts:136-147 | the inner loop yields exactly the node's candidates, in order |
| SkillGraph3D.Candidates | apps/web/src/hooks/useSkillGraph3D.ts:132-151 | no candidate is a self-edge, each targets a known node at or above 0.7, and a failed lookup adds none |
| SkillGraph3D.CollectBatch | apps/web/src/hooks/useSkillGraph3D.ts:129-151 | the outer loop yields exactly the batch's candidates, node by node |
| SkillGraph3D.EdgesAfterBatch | apps/web/src/hooks/useSkillGraph3D.ts:153-160 | the old edges are kept and each appended edge is a candidate whose key is absent from them in both orders |
| SkillGraph3D.BatchHasNoSelfEdge | apps/web/src/hooks/useSkillGraph3D.ts:139 | a batch never draws an edge from a node to itself |
| SkillGraph3D.RemoveEdges3D | apps/web/src/hooks/useSkillGraph3D.ts:173 | every edge touching the node goes and every other edge stays |
| SkillGraph3D.RemoveKeepsOrder | apps/web/src/hooks/useSkillGraph3D.ts:173 | removal distributes over concatenation, so the remaining edges keep their order |
| SkillGraph3D.Graph3D.constructor | apps/web/src/hooks/useSkillGraph3D.ts:34-38 | the graph starts empty, with no error and nothing hovered |
| SkillGraph3D.Graph3D.AddSkillNode | apps/web/src/hooks/useSkillGraph3D.ts:40-108 | the node is added unless present and the edges are those of adding one skill; the error is cleared and the hover kept |
| SkillGraph3D.Graph3D.AddMultipleSkills | apps/web/src/hooks/useSkillGraph3D.ts:110-169 | the batch's new nodes are appended; its candidates, against the graph as it was before the call plus the batch, are appended unless their key is present in either order |
| SkillGraph3D.Graph3D.RemoveNode | apps/web/src/hooks/useSkillGraph3D.ts:171-174 | the node and every edge touching it go; the error and hover are kept |
| SkillGraph3D.Graph3D.ClearGraph | apps/web/src/hooks/useSkillGraph3D.ts:176-180 | nodes, edges and hover are cleared and the error is kept |
| IncrementalSkillGraph.StyledEdge | apps/web/src/hooks/useIncrementalSkillGraph.ts:87-104 | the edge id is `source-target`. The edge is animated and drawn #4a4a4a exactly above 0.85. Its width is the similarity times 3 clamped to [1, 3], and its opacity the similarity times 0.8 clamped to [0.4, 0.9], each of the three ranges stated. |
| IncrementalSkillGraph.EdgeIds | apps/web/src/hooks/useIncrementalSkillGraph.ts:79 | exactly the ids of the existing edges |
| IncrementalSkillGraph.NewEdges | apps/web/src/hooks/useIncrementalSkillGraph.ts:82-108 | each new edge runs from the added skill to a node already on the graph, at or above 0.7, under an id not yet used, styled by `StyledEdge` |
| IncrementalSkillGraph.NewEdgesComplete | apps/web/src/hooks/useIncrementalSkillGraph.ts:82-108 | every qualifying similar skill on the graph whose edge id is new gets its styled edge |
| IncrementalSkillGraph.CollectEdges | apps/web/src/hooks/useIncrementalSkillGraph.ts:82-108 | the loop yields exactly the new edges |
| IncrementalSkillGraph.EdgesAfterAdd | apps/web/src/hooks/useIncrementalSkillGraph.ts:64-115 | the old edges are kept; the first skill and a failed lookup draw none |
| IncrementalSkillGraph.IncrementalGraph.constructor | apps/web/src/hooks/useIncrementalSkillGraph.ts:16-21 | everything starts empty, with no error and no selection |
| IncrementalSkillGraph.IncrementalGraph.AddSkillNode | apps/web/src/hooks/useIncrementalSkillGraph.ts:24-126 | the node is added unless present and the new edges appended. The first skill's recommendations are stored and then cleared in the same call, so none remain. The error is cleared. |
| IncrementalSkillGraph.IncrementalGraph.AddRecommendedSkill | apps/web/src/hooks/useIncrementalSkillGraph.ts:129-143 | a failed lookup sets its message, a missing skill sets "Skill not found", and neither changes the graph; a found skill is added as by `addSkillNode` |
| IncrementalSkillGraph.IncrementalGraph.RemoveNode | apps/web/src/hooks/useIncrementalSkillGraph.ts:146-152 | the node and its edges go, and the selection is cleared exactly when it was that node |
| IncrementalSkillGraph.IncrementalGraph.ClearGraph | apps/web/src/hooks/useIncrementalSkillGraph.ts:155-160 | nodes, edges, recommendations and selection are reset; the error is kept |
| IncrementalSkillGraph.AddKeepsGraphSound | apps/web/src/hooks/useIncrementalSkillGraph.ts:55-111 | adding keeps node ids distinct, and every new edge points from the new skill to a node already there under a fresh id |

## Left out

- Archive containers and compression: the archiver stream, libzip's `zip_open`/`zip_close` and the temporary-file streaming of the native helper are foreign libraries. An archive is the ordered list of its entries (`Builder.Archive`) or a map from path to bytes (`ZipFromStdin`).
- Stream and promise plumbing in `buildZipBuffer` (the `data`/`end`/`error` events and the `finish` ordering) is asynchronous glue; only the entries handed to the archive are modelled.
- Database, network and language-model calls: the Supabase and R2 clients, the similarity search, embeddings, Stripe and the route handlers. Their answers enter as parameters: a similar-skills lookup returns `None` for a request that fails, and a skill lookup returns a `Result`.
- File-system walking and loading: `indexSkill`, `indexAllSkills`, `findSkillFiles`, `loadExamplesFromJson` and the `cachedExamples` cache of `loadFewShotExamples` read directories. The parsers take file contents and directory names as strings.
- Randomness and geometry: node positions (`Math.random` jitter, `generatePosition`), node colours (`generateColor`) and the random fill of `selectDiverseExamples`. That fill is unreachable whenever the stride branch runs, so nothing observable is lost there.
- Loading flags (`setLoading`) of the hooks and middleware logging (`console.*`) are not part of the state.
- Timers: the `setInterval` of the rate limiter becomes the explicit method `RateLimit.RateLimiter.Cleanup`, taking the clock as a parameter. The request clock `Date.now()` is a parameter of every check.
- React scheduling: state batching, stale closures and concurrent calls are not modelled. Each hook operation runs to completion before the next one, and updater functions see the state the operation started from.
- Floating point: similarities, scores, coordinates and style values are `real`, so rounding of `0.1 * n` and similar JavaScript arithmetic is not modelled.
- LoadExamples.Cut: the 300-character cut counts Unicode scalar values, while `.length` and `substring` count UTF-16 code units, so content with characters outside the Basic Multilingual Plane is cut at a different place.
- Text.Prefix: `substring` counts UTF-16 code units, while the model counts Unicode scalar values. The two agree on text without characters outside the Basic Multilingual Plane. The same holds for the body-length tests of `parseSkillFile` and for `CheckEnv.MaskValue`. `Utf16Length` is used where a length is compared with a bound in the request schemas, the post-training checks and the storage keys.
- CheckEnv.MaskValue: lengths are counted in characters, not UTF-16 code units. The loading of `.env` files and the printed report are I/O; environment values are a map.
- SearchBar.HandleChange: `maxWords` is a natural number. A negative or fractional `maxWords` prop, which JavaScript would accept, is not modelled.
- ZipFromStdin.StepSpec: `SIZE_MAX` is the parameter `sizeMax` of `StepSpec`, `RunSpec` and `Run`. `Strtoull` saturates at 2^64 - 1, so on a 64-bit build, where `SIZE_MAX` is 2^64 - 1, the size check at zip_from_stdin.c:97 can never fire. `ZipFromStdin.TooLargeFails` applies to a platform with a smaller `sizeMax`, such as a 32-bit build.
- ZipFromStdin.Run: the failure exits of `mkstemp` (zip_from_stdin.c:69-73), `zip_open` (77-83), `malloc` (107-113), `zip_source_buffer` (123-130), `zip_file_add` (131-137), `zip_close` (140-144) and the copy to stdout (146) each print a message and exit with status 1. They depend on the operating system and libzip, so the model's archive update never fails and none of these exits is modelled.
- LoadExamples.FewShotExamplesPrompt: `maxExamples` is an integer the caller always passes; the default of 10 is the constant `LoadExamples.DefaultMaxExamples`. A fractional `maxExamples`, which JavaScript would accept, is not modelled. The same holds for `LoadExamples.Selected`.
- ZipFromStdin.RoundTrip: the round trip is proved for paths of at most 8190 bytes. A path of exactly 8191 bytes fills the 8192-byte buffer and leaves its newline unread, which `ZipFromStdin.FullPathDesynchronises` states. It also excludes three paths the stdin framing cannot carry: a path containing a NUL byte (the C string stops there), a path containing a newline (it ends the path line early), and the path `DONE` (read as the end marker).
- Schema.ParseBuildInput: zod's error report is reduced to the list of failing field paths; messages and issue codes are not modelled. The raw record is typed, so it cannot hold a field of the wrong JSON type, a strategy element without `title` or `content`, or a prompt-template element without `id`, `name` or `template`; zod rejects each of these (schema.ts:25-38), and the model has no such input to reject.
- Sanitize.ParseGenerateBody: zod's URL check on `successUrl`/`cancelUrl` is a predicate passed in as a parameter.
- The rendering components (the ReactFlow and three.js views, pages, buttons and cards) draw the state and hold no logic beyond it.

## Findings

| source | as written | input that shows it | evidently intended | confidence | as-written member | corrected member |
|---|---|---|---|---|---|---|
| apps/api/src/examples/load-examples.ts:68-83 | After each turn the strategy loop sets the regex position back to the local `lastIndex`, or to the next heading's start. A failed second `exec` also resets the position to 0. So the next `exec` finds a heading it has already handled, and the loop never ends on content with a `##` or `###` heading. | content `"## A\nbody"`: every turn matches the heading at 0 again | walk the headings once, each section running to the next heading, as `extractStrategies` in apps/api/src/services/index-skills.ts:79-103 does | high (proved for every content with a heading; not executed) | LoadExamples.AsWrittenNeverExits, LoadExamples.AsWrittenLoopsOnOneHeading | LoadExamples.SkillMdToSkillBuildInput (strategies are the sections in document order, by IndexSkills.ExtractStrategies) |
