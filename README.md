# abacus content-removal engine, in Dafny

abacus makes a word-count-ready copy of a word-processing document. It
deletes what the user does not want counted: headings, titles, subtitles,
captions, bibliography content controls, and user-named "ignored sections"
such as appendices. This project models the engine that does the deleting:

- `process_doc`: one forward pass over the body's top-level blocks, with a
  two-variable section state;
- the style classifiers;
- option resolution from the options file;
- the `word_count` oracle the end-to-end test asserts against.

It then proves what the pass does to a document.

## Modules

- `wrappers.dfy` (`Wrappers`): `Option` and `Result`.
- `strings.dfy` (`Strings`): the Python string operations the core relies
  on, each written out:
  - `str.lower` (ASCII);
  - `str.isspace`;
  - `lstrip(chars)`, which strips a *set* of characters;
  - `strip`;
  - `int(s)` in base 10: surrounding whitespace, an optional sign,
    digits with single `_` separators;
  - `str.split()` and `" ".join`.
- `checks.dfy` (`Checks`): `is_heading`, `is_title`, `is_subtitle` and
  `is_caption`, as prefix tests on the style name.
- `config.dfy` (`Config`):
  - the `_DEFAULT_OPTS` table;
  - `_read_existing_cfg`, as the specification function `ResolveAll` and
    the loop `ReadExistingCfg` proved against it;
  - `_init_opts`, as `InitAll` and the method `Cfg.InitOpts`, which fills
    the `opts` dictionary of class `Cfg`;
  - `Cfg.Load`, the first `Cfg(path)` call reading an existing file.
- `document.dfy` (`Document`): the body as a class `Body` whose
  `children` sequence the removals change in place:
  - `rm_element`, `rm_nested` and `rm_other`, with their removal loops;
  - paragraphs, runs, content controls (`w:sdt`) and tables as datatypes.
- `engine.dfy` (`Engine`):
  - `heading_lvl`, `is_ignore_end`, `is_ignore_sect`,
    `should_clear_body_elem`, `should_clear_nested` and
    `should_clear_other`, as functions;
  - the specification of the pass, `Walk` and `Process`;
  - the imperative `ProcessDoc`, which iterates a snapshot of the body's
    children while deleting and editing the live body. Its contract ties
    the final body and the raised error to `Process`.
- `engine_properties.dfy` (`EngineProperties`): lemmas about `Process`:
  - how levels are read;
  - how sections open, stay open and close;
  - which paragraphs are removed;
  - the shape of the output (a subsequence of the input with some
    paragraphs stripped, tables untouched);
  - where and how it fails;
  - that a second pass changes nothing.
- `word_count.dfy` (`WordCount`): `word_count` as a function and as the
  source's nested loops, plus lemmas:
  - additive;
  - bounded by the token count;
  - never increased by `process_doc`;
  - zero after `process_doc` on the kinds of fixture the end-to-end test
    uses.

### How the helpers are passed

The loop consults helpers: `is_ignore_end`, `is_ignore_sect`,
`heading_lvl`, `should_clear_body_elem`, `should_clear_nested` and
`should_clear_other`. The pass (`Walk`, `Process`, `Sweep`) takes them
bundled in a `Rules` value, so it is written once, whatever the helpers
answer. `RulesOf(o)` builds the source's own helpers from the resolved
options `o`. `ProcessDoc(o, doc)` is `Sweep(RulesOf(o), doc)`, and the lemmas
about the source's behaviour are stated for `RulesOf(o)`. The options
(`Config.Options`) are an immutable value that takes the place of the
`Cfg()` singleton.

### Behaviour of the code worth knowing

- `heading_lvl` uses `lstrip("Heading ")`. This drops any leading letters
  from the set {H, e, a, d, i, n, g, space}, not the literal prefix. So
  "Heading a1" has level 1 (`HeadingLevelCharSet`); a literal-prefix
  reading would reject this.
- One might expect the closing heading to be removed with its section. The
  code clears the section state at line 183 of `src/abacus/__main__.py`,
  before the removal test at line 188. The closing heading is therefore
  judged as if no section were open (`ClosingHeading`): if it matches an
  ignored section it opens a new one and is removed; otherwise the toggle
  and bibliography rules decide. With `headings` on it is removed anyway,
  and with `headings` off and no match it is kept.
- The level of every non-empty heading is read, even when no section is
  open. A heading style with no number ("Heading") makes the pass raise,
  whatever the options (`LevelReadWithoutSection`, `ProcessStops`).
- A paragraph whose run text is empty is skipped entirely, so content
  controls inside it stay even with bibliography on (`PassedOver`).
- `_read_existing_cfg` validates the table's own list literal, not the
  value read from the file. A malformed `ignored_sections` value is accepted
  at read time and only fails in `_init_opts` (`ResolvedEntry`,
  `ResolvedOptions`).
- An option absent from the file resolves to the table's object, whose value
  is the "on" value, although the in-memory parser object and the log are
  given the "off" value (`ResolvedEntry`, `ToggleEntry`).

## Model

| member | source | states |
|---|---|---|
| Strings.Lower | src/abacus/__main__.py:147-149 | lowercasing keeps the length |
| Strings.LowerIdempotent | src/abacus/__main__.py:147-149 | lowercasing twice is lowercasing once |
| Strings.LStripChars | src/abacus/__main__.py:136 | `lstrip(chars)` returns a suffix of the input; every dropped character is in the set; the result is empty or starts outside the set |
| Strings.LStripPrefix | src/abacus/__main__.py:136 | stripping a run of set members in front of a text that starts outside the set gives that text |
| Strings.ParseShowNat | src/abacus/__main__.py:136 | `int()` reads back the decimal rendering of every natural number |
| Strings.ParseInt | src/abacus/__main__.py:136 | `int(s)` in base 10: surrounding whitespace, an optional sign, ASCII digits with single `_` separators, `None` where it raises; properties in `ParseShowNat`, `HeadingLevelOfNumber`, `HeadingWithoutNumber` |
| Strings.SplitTokens | tests/util.py:11 | every word `split()` yields is non-empty and contains no whitespace |
| Strings.Split | tests/util.py:11 | `str.split()`: the maximal runs of non-whitespace characters, in order; properties in `SplitTokens`, `SplitToken`, `SplitSpace`, `SplitJoin` |
| Strings.SplitToken | tests/util.py:11 | a token followed by text that is empty or starts with whitespace splits into that token followed by the split of the text |
| Strings.SplitSpace | tests/util.py:11 | leading whitespace does not change the split |
| Strings.SplitJoin | tests/util.py:11 | splitting words joined by single spaces gives the words back (round trip) |
| Checks.IsHeading | src/abacus/checks.py:4-5 | `startswith("Heading")` on the style name; stated in `StylePrefixes` and `AtMostOneRole` |
| Checks.IsTitle | src/abacus/checks.py:8-9 | `startswith("Title")`; stated in `StylePrefixes` and `AtMostOneRole` |
| Checks.IsSubtitle | src/abacus/checks.py:12-13 | `startswith("Subtitle")`; stated in `StylePrefixes` and `AtMostOneRole` |
| Checks.IsCaption | src/abacus/checks.py:16-17 | `startswith("Caption")`; stated in `StylePrefixes` and `AtMostOneRole` |
| Checks.StylePrefixes | src/abacus/checks.py:4-17 | each classifier holds iff the style name's first letters are "Heading", "Title", "Subtitle" or "Caption" |
| Checks.AtMostOneRole | src/abacus/checks.py:4-17 | at most one classifier holds for any style name, and one holds iff the name starts with one of the four prefixes |
| Config.DefaultOptsShape | src/abacus/config.py:44-56 | the table lists the six names in order, with distinct names |
| Config.ResolveOpt | src/abacus/config.py:125-168 | one entry of the table: kept when absent, the off value as fallback for a boolean that is neither "true" nor "false", kept as read otherwise, `InvalidIgnoredSections` when the table's list literal does not parse; properties in `ResolvedEntry`, `ReadFails` |
| Config.ResolveAll | src/abacus/config.py:124-168 | the table resolved in order, stopping at the first error; properties in `ResolveAllPointwise`, `ResolvedNames`, `ReadFails`, and `ReadExistingCfg` is proved equal to it |
| Config.ResolveAllPointwise | src/abacus/config.py:124-168 | resolution succeeds iff every entry resolves, and then yields exactly one entry per table entry, in table order |
| Config.ReadExistingCfg | src/abacus/config.py:119-177 | the loop returns the resolution of the table, or its error |
| Config.ReadFails | src/abacus/config.py:138-142 | reading fails iff the file names `ignored_sections` and the table's list literal does not parse |
| Config.ResolvedNames | src/abacus/config.py:124-168 | a successful read yields the six names in table order, each once, with the table's type and fallback |
| Config.ResolvedEntry | src/abacus/config.py:125-168 | an absent name resolves to the table's object; an invalid boolean falls back to "False"; an accepted boolean and any list value from the file are kept as read |
| Config.ToggleEntry | src/abacus/config.py:79-80 | a boolean entry resolves and converts to on iff it is absent or its value lowercases to "true" |
| Config.SectionsEntry | src/abacus/config.py:81-82 | the list entry converts to the parse of the file's value, or of the literal when absent, and fails where that parse fails |
| Config.Convert | src/abacus/config.py:79-84 | a boolean becomes true iff its value lowercases to "true"; a list is the parse of its value, or an error; properties in `ToggleEntry`, `SectionsEntry` |
| Config.InitAll | src/abacus/config.py:76-91 | the options converted in order into the dictionary, stopping at the first error; properties in `InitAllPointwise`, `InitAllStops`, and `Cfg.InitOpts` is proved equal to it |
| Config.InitAllPointwise | src/abacus/config.py:76-91 | with distinct names, conversion succeeds iff every option converts; then each name maps to its converted value and every other key keeps its value |
| Config.InitAllStops | src/abacus/config.py:85-89 | once a conversion has raised, the remaining options are not looked at |
| Config.ResolvedOptions | src/abacus/config.py:76-91 | reading then converting fails iff the list string is malformed; otherwise the engine sees each toggle's meaning and the parsed list |
| Config.Cfg.constructor | src/abacus/config.py:43 | the options dictionary starts empty |
| Config.Cfg.InitOpts | src/abacus/config.py:76-91 | the new dictionary and the error are those of `InitAll` from the old dictionary |
| Config.Cfg.Load | src/abacus/config.py:61-66 | it succeeds iff reading succeeds and the list string parses, and then holds each toggle's meaning and the parsed list |
| Document.Text | src/abacus/__main__.py:179 | `Paragraph.text`: the text of the paragraph's runs, in order; content controls contribute nothing; properties in `WithoutSdtsKeepsText`, `StripKeepsText` |
| Document.WithoutSdts | src/abacus/__main__.py:158-162 | what `rm_nested` leaves of a paragraph's children; properties in `WithoutSdtsSpec`, `WithoutSdtsOne`, `WithoutSdtsAppend`, and `RemoveInlineSdts` is proved equal to it |
| Document.WithoutSdtsSpec | src/abacus/__main__.py:158-162 | removing a paragraph's content controls leaves none; a child is in the result iff it is in the content and is not a content control; nothing changes when there are none |
| Document.WithoutSdtsOne | src/abacus/__main__.py:159-162 | a single child survives iff it is not a content control |
| Document.WithoutSdtsAppend | src/abacus/__main__.py:159-162 | removal works piecewise over concatenation; with the one-child case it fixes the result: every other child is kept, in order |
| Document.WithoutSdtsKeepsText | src/abacus/__main__.py:158-162 | removing content controls does not change the paragraph's run text |
| Document.StripKeepsText | src/abacus/__main__.py:158-162 | a stripped paragraph has the same text |
| Document.StripIdempotent | src/abacus/__main__.py:158-162 | stripping twice is stripping once |
| Document.WithoutBodySdts | src/abacus/__main__.py:166-171 | what `rm_other` leaves of the body's children; properties in `WithoutBodySdtsSpec`, `WithoutBodySdtsOne`, `WithoutBodySdtsAppend`, and `Body.RmOther` is proved equal to it |
| Document.WithoutBodySdtsSpec | src/abacus/__main__.py:166-171 | removing the body's content controls leaves none; a block is in the result iff it is in the body and is not a content control; nothing changes when there are none |
| Document.WithoutBodySdtsOne | src/abacus/__main__.py:168-171 | a single block survives iff it is not a content control |
| Document.WithoutBodySdtsAppend | src/abacus/__main__.py:168-171 | removal works piecewise over concatenation; with the one-block case it fixes the result: every other block is kept, in order |
| Document.RemoveInlineSdts | src/abacus/__main__.py:159-162 | the removal loop computes exactly `WithoutSdts` of the children |
| Document.Body.RmElement | src/abacus/__main__.py:152-154 | the paragraph at the position is detached and the other children stay in order |
| Document.Body.RmNested | src/abacus/__main__.py:158-162 | only the paragraph at the position changes, to its content-control-free version |
| Document.Body.RmOther | src/abacus/__main__.py:166-171 | the new children are the old ones without body content controls |
| Engine.HeadingLvl | src/abacus/__main__.py:135-136 | the level after stripping the character set of "Heading ", or an error where `int` raises; properties in `HeadingLevelOfNumber`, `HeadingWithoutNumber`, `HeadingLevelCharSet` |
| Engine.IsIgnoreEnd | src/abacus/__main__.py:139-140 | a heading whose level equals the open level; the level of every heading is read, so a heading without one is an error; properties in `LevelReadWithoutSection`, `ClosingHeading` |
| Engine.IsIgnoreSect | src/abacus/__main__.py:143-149 | a heading whose lowered text is among the lowered ignored sections; properties in `OpensSection`, `IgnoredSectionWalk` |
| Engine.AnyEnabledMatch | src/abacus/__main__.py:114-124 | the early-return scan answers true iff some enabled toggle's check matches |
| Engine.ShouldClearBodyElem | src/abacus/__main__.py:106-124 | true iff an enabled one of headings, titles, subtitles and captions has a matching check |
| Engine.ShouldClearNested | src/abacus/__main__.py:131-132 | the bibliography toggle; its effect is stated in `DecidedByToggles`, `StepShape`, `ProcessDerived` |
| Engine.ShouldClearOther | src/abacus/__main__.py:127-128 | the bibliography toggle; its effect is stated in `ProcessDerived`, `BibliographyCountsZero` |
| Engine.Decide | src/abacus/__main__.py:188-193 | the removal decision after both state updates: remove inside a section or when a check matches, else strip when nested clearing is on, else keep; properties in `DecidedByToggles`, `RemovedInsideSection` |
| Engine.StepPara | src/abacus/__main__.py:179-193 | one iteration on a paragraph: skip empty text, close the section on a heading at its level, open one on a matching heading, then decide; properties in the step lemmas of `EngineProperties`, and `VisitPara` is proved equal to it |
| Engine.Walk | src/abacus/__main__.py:177-195 | the loop over the snapshot: the output, the final state, and on an error the failing block and everything after it untouched; properties in `WalkDerived`, `WalkStops`, `NeverClosing`, `WalkQuiet` |
| Engine.Process | src/abacus/__main__.py:174-201 | the loop, then the trailing pass when `should_clear_other` holds, or the error with no trailing pass; properties in `ProcessDerived`, `TablesSurvive`, `ProcessStops`, `Idempotent`, and `ProcessDoc` is proved equal to it |
| Engine.VisitPara | src/abacus/__main__.py:178-193 | one iteration on a non-empty paragraph: the error, the new section state and the new body are those of one step of `Walk` |
| Engine.VisitBlock | src/abacus/__main__.py:177-195 | one iteration on any block preserves the loop invariant relating the live body and the section state to `Walk` over the snapshot, or ends with the body `Walk` leaves on an error |
| Engine.Sweep | src/abacus/__main__.py:174-201 | under any helpers, the final body and the raised error are those of `Process` over the original children |
| Engine.ProcessDoc | src/abacus/__main__.py:174-201 | under the source's helpers, the final body and the raised error are those of `Process(RulesOf(o), ...)` |
| EngineProperties.HeadingLevelOfNumber | src/abacus/__main__.py:135-136 | "Heading N" has level N |
| EngineProperties.HeadingWithoutNumber | src/abacus/__main__.py:135-136 | "Heading" has no level |
| EngineProperties.HeadingLevelCharSet | src/abacus/__main__.py:135-136 | "Heading a1" has level 1: the character set is stripped, not the prefix |
| EngineProperties.LevelReadWithoutSection | src/abacus/__main__.py:139-140 | a non-empty heading without a level fails the step whether or not a section is open |
| EngineProperties.StepFails | src/abacus/__main__.py:182-186 | a step fails only on a non-empty heading whose level cannot be read |
| EngineProperties.OpensSection | src/abacus/__main__.py:184-189 | a matching heading opens a section at its own level, whatever was open (no nesting), and is removed |
| EngineProperties.RemovedInsideSection | src/abacus/__main__.py:182-189 | inside a section, a non-empty paragraph that is not a heading at the section level is removed; the state is replaced only by a matching heading |
| EngineProperties.ClosingHeading | src/abacus/__main__.py:182-193 | a heading at the open level is judged as if no section were open, and the section closes unless it opens a new one |
| EngineProperties.DecidedByToggles | src/abacus/__main__.py:188-193 | outside a section, a non-empty paragraph opening none is removed iff an enabled check matches, stripped iff none matches and bibliography is on, and kept otherwise |
| EngineProperties.TogglesOffRemoveNothing | src/abacus/__main__.py:190-191 | with the four style toggles off, nothing outside a section is removed |
| EngineProperties.PassedOver | src/abacus/__main__.py:179-180 | empty paragraphs, tables and other blocks are kept as they are and leave the state unchanged |
| EngineProperties.NeverClosing | src/abacus/__main__.py:182-193 | a section that never closes removes every remaining non-empty paragraph and keeps every other block |
| EngineProperties.IgnoredSectionWalk | src/abacus/__main__.py:184-189 | a document opening with an ignored heading that is never closed keeps exactly its non-text blocks |
| EngineProperties.StepShape | src/abacus/__main__.py:188-193 | a step deletes a non-empty paragraph or keeps the block, stripped iff it is a non-empty paragraph and nested clearing is on |
| EngineProperties.WalkDerived | src/abacus/__main__.py:177-195 | the loop's output is the input with some non-empty paragraphs deleted and the others stripped exactly when nested clearing is on, in order |
| EngineProperties.DropSdtsDerived | src/abacus/__main__.py:196-197 | an output derived from the input stays derived from it after the trailing pass, now with the body content controls dropped; which blocks that pass drops is fixed by `WithoutBodySdtsOne` and `WithoutBodySdtsAppend` |
| EngineProperties.ProcessDerived | src/abacus/__main__.py:174-201 | without error, the output is the input with some paragraphs deleted, kept paragraphs stripped iff bibliography is on, body content controls deleted iff bibliography is on, nothing else changed or reordered |
| EngineProperties.DerivedKeepsTables | src/abacus/__main__.py:194-195 | such an output keeps every top-level table, in order |
| EngineProperties.TablesSurvive | src/abacus/__main__.py:194-195 | when it raises no error, `process_doc` keeps every top-level table, unchanged and in order |
| EngineProperties.WalkStops | src/abacus/__main__.py:176-199 | a pass that raises stops at the first failing block: the blocks before it are processed and the rest are untouched |
| EngineProperties.ProcessStops | src/abacus/__main__.py:174-201 | `process_doc` raises only at a non-empty heading with no level, leaving the earlier blocks processed, the rest untouched, and no trailing pass |
| EngineProperties.QuietWalk | src/abacus/__main__.py:177-195 | a pass over blocks that need no action keeps them all and opens no section |
| EngineProperties.SettledFixed | src/abacus/__main__.py:174-201 | a body needing no action is left unchanged, without error |
| EngineProperties.QuietParaQuiet | src/abacus/__main__.py:188-193 | a paragraph the source's helpers let through from no section needs no action |
| EngineProperties.KeptParaQuiet | src/abacus/__main__.py:188-193 | a kept paragraph, or a stripped one after stripping, is let through by the helpers |
| EngineProperties.StepQuiet | src/abacus/__main__.py:188-193 | every block a step leaves needs no further action |
| EngineProperties.WalkQuiet | src/abacus/__main__.py:177-195 | every block a pass without error leaves needs no further action |
| EngineProperties.Idempotent | src/abacus/__main__.py:174-201 | running `process_doc` on its own output changes nothing and raises nothing |
| WordCount.Paragraphs | tests/util.py:6 | `doc.paragraphs`: the paragraphs that are direct children of the body, in order; properties in `WordCountCons`, `WordCountAppend` |
| WordCount.ParaWords | tests/util.py:7-14 | nothing for empty text, else the counted tokens of its split; properties in `EmptyParagraphCountsZero`, `NoneCounted`, `AllCounted` |
| WordCount.WordCount | tests/util.py:4-15 | the sum of the paragraphs' counts; properties in `WordCountAppend`, `TotalBound`, `ProcessCountsNoMore`, and `WordCountOf` is proved equal to it |
| WordCount.CountWords | tests/util.py:12-14 | at most one count per token; which tokens count is fixed by `CountWordsOne` and `CountWordsAppend` |
| WordCount.CountWordsOne | tests/util.py:12-14 | a single token counts one iff it is not exactly ".", "-" or "_" |
| WordCount.CountWordsAppend | tests/util.py:12-14 | the count adds up over concatenated token lists, which with `CountWordsOne` fixes the count of every mixed list |
| WordCount.CountWordsMixed | tests/util.py:12-14 | `["a", "."]` counts one: a lone punctuation token beside a word is not counted |
| WordCount.CountTokens | tests/util.py:12-14 | the inner loop counts `CountWords` of the tokens |
| WordCount.WordCountOf | tests/util.py:4-15 | the nested loops compute `WordCount` of the body |
| WordCount.NoneCounted | tests/util.py:13-14 | tokens that are all ".", "-" or "_" count nothing |
| WordCount.AllCounted | tests/util.py:13-14 | tokens none of which is ".", "-" or "_" all count |
| WordCount.EmptyParagraphCountsZero | tests/util.py:8-9 | a paragraph with empty text adds nothing |
| WordCount.WordCountAppend | tests/util.py:5-15 | the count is additive over concatenation of bodies |
| WordCount.WordCountCons | tests/util.py:6-14 | a block adds its paragraph's count, or nothing when it is not a paragraph |
| WordCount.TotalBound | tests/util.py:5-15 | the count never exceeds the number of whitespace tokens |
| WordCount.WithoutBodySdtsCount | tests/util.py:6 | deleting body content controls does not change the count |
| WordCount.NonTextCountsZero | tests/util.py:8-9 | a body without non-empty paragraphs counts zero |
| WordCount.DerivedCountsNoMore | tests/test_e2e.py:42-44 | deleting and stripping as `process_doc` does never adds a word |
| WordCount.ProcessCountsNoMore | tests/test_e2e.py:42-44 | the count after `process_doc` is at most the count before |
| WordCount.ClearedRemoved | src/abacus/__main__.py:188-191 | a non-empty paragraph an enabled check matches, with a readable level if it is a heading, is removed inside a section or not |
| WordCount.AllClearedWalk | src/abacus/__main__.py:177-193 | when all non-empty paragraphs are so matched, the pass removes them all and raises nothing |
| WordCount.AllClearedCountsZero | tests/test_e2e.py:21-44 | such a document counts zero after `process_doc`, as the headings, titles, subtitles and captions fixtures expect |
| WordCount.BibliographyCountsZero | tests/test_e2e.py:21-44 | for a document whose top-level paragraphs have no run text, so that its words sit only in content controls, `process_doc` succeeds on every option and, with bibliography on, leaves no body content control; the count is zero before and after, since `word_count` never reads content-control text and bibliography cannot change it |
| WordCount.IgnoredSectionCountsZero | tests/test_e2e.py:21-44 | a document opening with an ignored heading, whose section never closes, counts zero after `process_doc` |

## Left out

- File and document I/O are not modelled: `copy_doc`, `load_doc`,
  `rm_tmp_doc`, `doc.save`, `_write_default_cfg` and `_load_cfg`. The
  parsed `[DEFAULT]` section of the options file and the body's block
  sequence are inputs.
- ConfigParser's own behaviour is not modelled: interpolation and
  option-name case folding. The section is a plain map from option names
  to strings.
- The command line (`main`), every logging call, `parse_input` and
  `filename` are not modelled. They are plumbing, or depend on the wall
  clock.
- The `Cfg` singleton mechanics (`__new__`, `_instance`) are not modelled.
  The options are passed as a value, and `Cfg.Load` models the first call
  only.
- Config.Cfg.InitOpts: it does not model `_init_opts` overwriting
  `opt.value` on the shared `_DEFAULT_OPTS` objects. This rewrite only
  matters if the options were loaded a second time, which the singleton
  prevents.
- Config.ResolveOpt: `json.loads` is a parameter returning a list of
  strings or nothing. A JSON value that is not a list, such as a string
  whose characters would then be iterated, is not modelled.
- Strings.Lower: ASCII letters only. Unicode case mapping (`str.lower` on
  non-ASCII text) is not modelled.
- Strings.ParseInt: ASCII digits only. `int()` also accepts other Unicode
  decimal digits and limits the number of digits; neither is modelled.
- Document nodes are identified by position in the body, not by object
  identity. Editing a paragraph in place is modelled as replacing the list
  element with the edited value.
- Document.Body.RmElement: it does not model clearing the proxy's `_p` and
  `_element` fields, which nothing reads afterwards.
- A style whose name is `None` is not modelled. Style names are strings.
- The `InvalidDocObject` branch of `iter_block_items` is not modelled:
  `process_doc` always passes a document. Children of the body other than
  paragraphs and tables are kept in the model (`BodyOther`, `BodySdt`), and
  the loop skips them, as the generator never yields them.
- The `opt not in checks` exception in `should_clear_body_elem` is not
  modelled. The options always hold exactly the six names, so it cannot be
  raised.
- src/abbacus/config.py is not part of this model: it is identical to
  src/abacus/config.py, which is modelled.
- src/main.py, src/daos/document_dao.py and src/models/document.py are not
  part of this model: they are superseded drafts that the engine does not
  use.
- tests/test_e2e.py is not itself modelled: its fixture files are not
  available. Its assertion is stated as `AllClearedCountsZero` (the
  headings, titles, subtitles and captions fixtures),
  `IgnoredSectionCountsZero` and `BibliographyCountsZero`, each over every
  document of the shape its fixture's name describes.
