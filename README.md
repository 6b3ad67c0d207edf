# goal: a Dafny model of the commit-message and quality-gate pipeline

`goal` is a git automation tool: it stages changes, writes a Conventional
Commits 1.0.0 message (`type(scope): description`) from the diff, checks and
repairs the generated summary, keeps a Keep a Changelog style CHANGELOG,
bumps Semantic Versioning 2.0.0 versions, diagnoses project manifests, checks
README version badges and renders Markdown reports. This project models the
deterministic core of that pipeline in Dafny 4.11 and proves what it
promises: first-match-wins rule tables, caps, dedupe, partitions, scores and
round trips.

One Dafny module per Python file:

- `Cli` (`goal/cli.py`): ANSI stripping, the TICKET file and ticket prefix, path grouping, chunked `git add`, numstat parsing, file descriptions, version bumping, the CHANGELOG entry.
- `CommitGenerator` (`goal-2.1.68/goal/commit_generator.py`): the keyword-scoring change-type classifier, the scope detector, the short action phrase, per-file notes, message assembly, numstat totals.
- `Config` (`goal/config.py`): the `goal.yaml` store as a class over a nested value: deep copy, deep merge, dot-path get and set, cached load, validation, detection updates.
- `DeepAnalyzer` (`goal/deep_analyzer.py`): language detection, the JavaScript and generic diffs, functional areas, aggregation, value inference, relations, the summary paragraph.
- `EnhancedSummary` (`goal/enhanced_summary.py`): `EnhancedSummaryGenerator`: roles, capabilities, domains, the relation chain and drawing, the value score and title, the body.
- `SummaryQuality` (`goal/enhanced_summary.py`): `SummaryQualityFilter` and `QualityValidator` (`validate`, `auto_fix`).
- `SmartCommit` (`goal/smart_commit.py`): `CodeAbstraction` and the message, body and changelog builders of `SmartCommitGenerator`.
- `ProjectDoctor` (`goal/project_doctor.py`): issues and the report, the per-ecosystem checks, the `pyproject.toml` rewrites, TODO.md tickets.
- `VersionValidation` (`goal/version_validation.py`): registry dispatch, badge extraction and rewriting, the README check, result formatting.
- `GitOps` (`goal-2.1.68/goal/git_ops.py`): URL validation, the clone outcome and directory name, parsers of `git` output.
- `PackageManagers` (`goal/package_managers.py`): the manager table, detection, language filter, preferred manager, command templates, suggestions.
- `Formatter` (`goal/formatter.py`): the `MarkdownFormatter` builder class and the push and status reports.

Shared helper modules: `Wrappers` (Option, Result), `Strings` (the Python
`str` operations used: ASCII `lower`/`upper`, `split`, `strip`, `splitlines`,
`join`, path name/stem/suffix, integer text), `Seqs` (dedupe, filter, map,
take), `Patterns` (the few regular-expression shapes of the rule tables and
`fnmatch` globbing, case-sensitive with `*` matching `/`), `Scanning`
(`re.match`/`re.findall`/`re.sub` drivers over a hand-written recogniser,
with their substitution theorems) and `Ordering` (string order and sorted
sets, standing in for Python `set` iteration).

Where the source runs git, reads files, asks the network or the clock, the
model takes the answer as a parameter: git's exit status and output, file
contents as a map, a file-existence oracle, the registry answers, today's
date. `get_diff_stats` in `goal-2.1.68/goal/git_ops.py:417-428` is the same
code as in `goal/cli.py:432-443`; both are modelled by `Cli.GetDiffStats`.

## Model

| member | source | states |
|---|---|---|
| Cli.ParamRun | goal/cli.py:27 | the run of `[0-9;]` characters from a position ends at the first other character or the end of the text |
| Cli.EscapeAt | goal/cli.py:27 | a match of the ANSI pattern at a position is at least three characters long, starts with ESC and lies inside the text |
| Cli.StripAnsi | goal/cli.py:30-34 | stripping never makes the text longer |
| Cli.StripAnsiNoEscape | goal/cli.py:30-34 | text without an ESC character comes back unchanged |
| Cli.StripAnsiSubseq | goal/cli.py:30-34 | the output is a subsequence of the input: stripping only deletes characters |
| Cli.StripAnsiSequence | goal/cli.py:27-34 | an `ESC [ params letter` sequence in front of the text is removed and the rest is stripped as before |
| Cli.TicketLines | goal/cli.py:39-50 | after reading any lines, the `prefix` and `format` keys are still present |
| Cli.TicketConfig | goal/cli.py:37-53 | the configuration of an existing or missing TICKET file always holds `prefix` and `format` |
| Cli.ReadTickert | goal/cli.py:37-53 | the loop over the lines yields the configuration `TicketConfig` describes |
| Cli.TicketRoundTrip | goal/cli.py:43-50 | a file holding one unpadded `key=value` line reads back as the defaults with that key set |
| Cli.TicketAssignment | goal/cli.py:44-50 | a `key=value` line without padding sets that key and nothing else |
| Cli.TicketNoAssignments | goal/cli.py:45-48 | lines without `=` leave the defaults `prefix = ''`, `format = '[{ticket}] {title}'` in place |
| Cli.FormatPlain | goal/cli.py:64 | `str.format` on a template without braces returns the template |
| Cli.FormatField | goal/cli.py:64 | a `{ticket}` or `{title}` field is replaced by its value |
| Cli.FormatChar | goal/cli.py:64 | a character other than a brace is copied to the output |
| Cli.FormatDefault | goal/cli.py:62-64 | the default format puts the ticket in brackets before the title |
| Cli.ApplyTicketPrefix | goal/cli.py:56-66 | with no ticket value (explicit or configured, after stripping) the title comes back unchanged |
| Cli.TicketPrefixDefault | goal/cli.py:56-66 | with no TICKET file, an explicit non-blank ticket is stripped and put in brackets before the title |
| Cli.NoTicketNoPrefix | goal/cli.py:59-61 | an absent or blank ticket with no configured prefix leaves the title unchanged |
| Cli.SplitPathsByType | goal/cli.py:69-85 | the loop that appends each path to its group yields the groups `SplitPaths` describes, empty groups omitted |
| Cli.SplitPathsPartition | goal/cli.py:69-85 | every path lands in the entry of its own group; every entry is non-empty, an order-preserving selection of the input, and holds only paths of its group |
| Cli.EntryGroup | goal/cli.py:85 | every entry of the result is the non-empty member list of some group |
| Cli.StagePaths | goal/cli.py:88-99 | the `git add` calls together pass every path once, in order; no call for no paths; every call has 1 to 100 paths and every call but the last has exactly 100 |
| Cli.GetDiffStats | goal/cli.py:432-443 | the loop over the numstat lines yields the map `FileStats` describes, or the error `int()` raises |
| Cli.FileStatsCounted | goal/cli.py:436-442 | lines that each name a file and its counts give a map over exactly those files, each holding the last counts seen for it |
| Cli.NumstatFileRoundTrip | goal/cli.py:432-443 | reading back the numstat text git prints for some files gives each file its counts (the last ones for a file listed twice) |
| Cli.CategorizeFile | goal/cli.py:518-546 | the result is None exactly for `CHANGELOG.md` and `VERSION` |
| Cli.CategorizeNamesFile | goal/cli.py:527-546 | every description except the README one ends with the file's base name |
| Cli.ReadmeBeforeMarkdown | goal/cli.py:533-536 | a `README.md` gets `docs: update README`, not the generic Markdown description |
| Cli.Next | goal/cli.py:588-596 | `major` gives (M+1).0.0, `minor` gives M.(m+1).0, any other bump type gives M.m.(p+1) |
| Cli.RenderFields | goal/cli.py:579-584 | a rendered version of naturals splits into three parts that read back as its numbers |
| Cli.BumpRendered | goal/cli.py:577-598 | bumping a well-formed version gives the rendered next version |
| Cli.BumpMalformed | goal/cli.py:579-581 | a version without a dot becomes `1.0.0` |
| Cli.BumpTwice | goal/cli.py:577-598 | a second bump reads the first one's output back, so two bumps compose |
| Cli.DomainFor | goal/cli.py:637-645 | the domain is `other` or the domain of a mapping entry whose pattern covers the file |
| Cli.DomainForSkip | goal/cli.py:638-645 | mapping entries that do not cover the file are passed over |
| Cli.DomainForHit | goal/cli.py:638-645 | the first mapping entry that covers the file decides its domain |
| Cli.FirstCharMiss | goal/cli.py:640-643 | a pattern that starts with a plain character other than the file's first character does not cover it |
| Cli.DescribeFile | goal/cli.py:633-652 | a file contributes a change exactly when its name is non-empty and `categorize_file` describes it, and the change is filed under the file's domain |
| Cli.Collect | goal/cli.py:679-683 | collecting the present changes never makes the list longer |
| Cli.ChangeOfFile | goal/cli.py:633-652 | every described file's change is among the collected changes |
| Cli.Descs | goal/cli.py:678-683 | the descriptions are the changes' texts, one for one and in order |
| Cli.Capped | goal/cli.py:669-672 | at most `cap` items are kept in order, then one `... and N more` line with N the number left out |
| Cli.Sections | goal/cli.py:664-673 | one section per domain of the order, each built from that domain's changes |
| Cli.OutsideOrderDropped | goal/cli.py:664-673 | a change filed under a domain outside the order adds no section text |
| Cli.DockerfileDescription | goal/cli.py:531-532 | a `Dockerfile` is described as `docker: update Dockerfile` |
| Cli.OutsideOrderFile | goal/cli.py:633-673 | a file whose domain is outside the order leaves the written sections as they were |
| Cli.OutsideOrderFileDropped | goal/cli.py:629-675 | as written, a file whose domain is outside the fixed order leaves the grouped entry as it was |
| Cli.DockerFileDroppedAsWritten | goal/cli.py:531-532 | as written, a `Dockerfile` or `docker-compose.yml` filed under `docker` gets a description, yet the grouped entry is the same as without it |
| Cli.SectionOrderCovers | goal/cli.py:664-673 | in the corrected order every change's domain has a place |
| Cli.SectionInOrder | goal/cli.py:664-673 | every domain of the order has its section in the written text |
| Cli.FileFiled | goal/cli.py:633-652 | every described file's line is filed under its domain, and that domain is in the corrected order |
| Cli.DescribedFileWritten | goal/cli.py:629-675 | in the corrected grouped entry every described file's line is listed under its domain, and that domain's section is written |
| Cli.CorrectedAgreesWhenKnown | goal/cli.py:664-673 | when every change's domain is in the fixed order, the corrected entry equals the entry as written |
| Cli.CollectByDomain | goal/cli.py:631-652 | the loop fills one list per domain with its descriptions in file order, and records the domains in order of first appearance |
| Cli.WriteSections | goal/cli.py:664-673 | the loop over the order writes exactly the sections `DomainSections` describes |
| Cli.CollectDescs | goal/cli.py:678-683 | the legacy loop lists the descriptions of the described files in order |
| Cli.UpdateChangelog | goal/cli.py:605-696 | the new changelog is the corrected grouped entry (domains outside the fixed order appended after it) followed by the existing content |
| CommitGenerator.Bump | goal-2.1.68/goal/commit_generator.py:250-281 | `scores[k] += d` on a `defaultdict(int)`: only key `k` changes, by `d`; a new key is added last and keys stay unique |
| CommitGenerator.TopIndex | goal-2.1.68/goal/commit_generator.py:361-362 | `max(scores.items(), key=value)` picks a largest score, and every earlier key scores strictly less |
| CommitGenerator.AnchoredHitIsSearch | goal-2.1.68/goal/commit_generator.py:29-68 | an anchored table pattern such as `\.py$` matches exactly when a regex search for the literal followed by end of text succeeds |
| CommitGenerator.AnchoredMatchStart | goal-2.1.68/goal/commit_generator.py:280 | a successful search has a position where the pattern matches |
| CommitGenerator.HitCount | goal-2.1.68/goal/commit_generator.py:279-281 | a path matches at most as many patterns as the list has |
| CommitGenerator.ScorePaths | goal-2.1.68/goal/commit_generator.py:276-281 | the loop over the paths adds 2 per matching pattern and yields the tally `PathTally` describes |
| CommitGenerator.AddDiffCountsGood | goal-2.1.68/goal/commit_generator.py:284-288 | after the diff loop every change type has a score, keys are unique and no score is negative |
| CommitGenerator.SkipSpaces | goal-2.1.68/goal/commit_generator.py:315 | the run of `\s` characters from a position ends at the first non-space |
| CommitGenerator.SkipWord | goal-2.1.68/goal/commit_generator.py:315 | the run of `\w` characters from a position ends at the first non-word character |
| CommitGenerator.DefNameAt | goal-2.1.68/goal/commit_generator.py:315 | a `def\s+(\w+)\s*\(` match captures a non-empty word |
| CommitGenerator.ClassMatchLen | goal-2.1.68/goal/commit_generator.py:489 | a `class\s+(\w+)` match at the start of a text covers `class`, at least one space (line breaks included) and a non-empty word |
| CommitGenerator.ClassName | goal-2.1.68/goal/commit_generator.py:489 | the pattern's group is captured exactly when the pattern matches, and it is a non-empty word |
| CommitGenerator.ClassMatchText | goal-2.1.68/goal/commit_generator.py:489 | the text a match covers yields the same group as the text it was found in |
| Scanning.FindAllLinesFrom | goal-2.1.68/goal/commit_generator.py:488-489 | every result of a `re.findall` anchored with MULTILINE `^` is the text of a match at a line start, and there is none exactly when no line start matches |
| Scanning.FindAllLinesAt | goal-2.1.68/goal/commit_generator.py:488-489 | a found text is the whole match at some line start |
| CommitGenerator.ClassMatchFound | goal-2.1.68/goal/commit_generator.py:489 | every match the search returns captures the group the pattern captures at some line start |
| CommitGenerator.ClassNamesFacts | goal-2.1.68/goal/commit_generator.py:489 | every collected class name is the capture at some line start, and there are none exactly when the pattern matches at no line start |
| CommitGenerator.ClassNamesIff | goal-2.1.68/goal/commit_generator.py:489-490 | `if classes:` holds exactly when the class pattern matches at some line start |
| CommitGenerator.NamesNote | goal-2.1.68/goal/commit_generator.py:491 | a names note starts with its heading |
| CommitGenerator.ClassNoteOf | goal-2.1.68/goal/commit_generator.py:490-491 | there is one class note exactly when there are class names, and it starts `add classes: ` |
| CommitGenerator.LaterPythonNotes | goal-2.1.68/goal/commit_generator.py:492-497 | after the class note come at most three notes: the functions note, the click-options note and the markdown note |
| CommitGenerator.LaterNotNamedClass | goal-2.1.68/goal/commit_generator.py:490-497 | none of the later notes starts like the class note |
| CommitGenerator.ClassNote | goal-2.1.68/goal/commit_generator.py:487-497 | a Python file's notes open with the class note exactly when the class pattern matches at the start of some line of the joined added lines |
| Scanning.FindAllLinesStep | goal-2.1.68/goal/commit_generator.py:488-489 | a match at a line start is returned and the search resumes where it ends |
| CommitGenerator.CrossingFirstLen | goal-2.1.68/goal/commit_generator.py:489 | on `class`, a line break and `class Foo`, the pattern at the start matches `class\nclass` |
| CommitGenerator.CrossingTail | goal-2.1.68/goal/commit_generator.py:488-489 | after that match no line starts, so the search finds nothing more |
| CommitGenerator.CrossingFindAll | goal-2.1.68/goal/commit_generator.py:489 | the search over that text returns the one match `class\nclass` |
| CommitGenerator.CrossingMatch | goal-2.1.68/goal/commit_generator.py:489 | on `class`, a line break and `class Foo` the search finds the one match `class\nclass`, running over the line break |
| CommitGenerator.CrossingName | goal-2.1.68/goal/commit_generator.py:489 | that match captures `class` |
| CommitGenerator.CrossingNames | goal-2.1.68/goal/commit_generator.py:489 | the class names of that text are `class` alone; `Foo` is not captured |
| CommitGenerator.CrossingNote | goal-2.1.68/goal/commit_generator.py:490-491 | the note for the single class `class` is `add classes: class` |
| CommitGenerator.ClassNoteCrossesLines | goal-2.1.68/goal/commit_generator.py:487-491 | the added lines `class` and `class Foo` give the first note `add classes: class` |
| CommitGenerator.ClassifyChangeType | goal-2.1.68/goal/commit_generator.py:248-364 | the scoring loops, heuristics and decision order give the type `Classify` describes, or the IndexError of `files[0]` |
| CommitGenerator.SingleFileFull | goal-2.1.68/goal/commit_generator.py:291-297 | the single-file heuristic keeps every type scored and non-negative |
| CommitGenerator.ScoresFull | goal-2.1.68/goal/commit_generator.py:276-340 | the final tally holds all nine types with non-negative scores, so the `'chore'` default for an empty tally is never reached |
| CommitGenerator.ScoresErr | goal-2.1.68/goal/commit_generator.py:291-293 | scoring raises exactly when the stats count one file but the file list is empty |
| CommitGenerator.GetAt | goal-2.1.68/goal/commit_generator.py:343 | with unique keys, reading a key gives the score stored at its position |
| CommitGenerator.GetMissing | goal-2.1.68/goal/commit_generator.py:343 | `scores.get(k, 0)` of a missing key is 0 |
| CommitGenerator.ClassifyKnownType | goal-2.1.68/goal/commit_generator.py:342-364 | the answer is always one of the nine change types |
| CommitGenerator.TopKeyIsHighest | goal-2.1.68/goal/commit_generator.py:361-362 | the top key scores at least as much as any key, missing keys included, and strictly more than every key inserted before it |
| CommitGenerator.ClassifyTopScore | goal-2.1.68/goal/commit_generator.py:342-362 | when neither the fix, docs-only, CI-only nor feat rule fires, the answer is the highest score, the first inserted on a tie |
| CommitGenerator.EmptyStatsFavourRefactor | goal-2.1.68/goal/commit_generator.py:299-306 | with 0 lines added and 0 deleted the ratio step gives refactor +2 and feat nothing |
| CommitGenerator.CountScopes | goal-2.1.68/goal/commit_generator.py:368-373 | the `Counter` loop counts one per matching scope pattern per path, as `ScopeTally` describes |
| CommitGenerator.DetectScope | goal-2.1.68/goal/commit_generator.py:366-391 | the two counters and the choice give the scope `Scope` describes |
| CommitGenerator.ScopeTallyEmpty | goal-2.1.68/goal/commit_generator.py:370-375 | the scope counter is empty exactly when no lower-cased path mentions any scope word |
| CommitGenerator.ScopeFacts | goal-2.1.68/goal/commit_generator.py:375-391 | a path under `goal/` makes the scope `goal`; no scope means no path names a scope word |
| CommitGenerator.ShortActionSummary | goal-2.1.68/goal/commit_generator.py:416-470 | the phrase is never empty |
| CommitGenerator.TagsShape | goal-2.1.68/goal/commit_generator.py:421-435 | the tags are an in-order selection of markdown output, commit messages and hooks, or `cli workflow` alone |
| CommitGenerator.TwoThemes | goal-2.1.68/goal/commit_generator.py:438-449 | two or more tags give `add A and B` with the first two tags in order |
| CommitGenerator.AddedTexts | goal-2.1.68/goal/commit_generator.py:485 | the added lines are at most as many as the diff lines |
| CommitGenerator.SkipDigits | goal-2.1.68/goal/commit_generator.py:502-506 | the run of digits from a position ends at the first non-digit |
| CommitGenerator.HeadingOf | goal-2.1.68/goal/commit_generator.py:509-514 | a kept heading is longer than two characters and matches none of the changelog-noise patterns |
| CommitGenerator.PerFileNotesFacts | goal-2.1.68/goal/commit_generator.py:484-531 | at most three notes, none repeated, in the order they were first produced |
| CommitGenerator.OtherFilesNoNotes | goal-2.1.68/goal/commit_generator.py:487-524 | a file that is not `.py`, `.md`, `.rst` or `.sh` gets no note |
| CommitGenerator.CommitMessage | goal-2.1.68/goal/commit_generator.py:533-577 | there is no message exactly when no file changed |
| CommitGenerator.ClassifyNonEmpty | goal-2.1.68/goal/commit_generator.py:544-561 | with at least one changed file classification does not raise |
| CommitGenerator.TitleShape | goal-2.1.68/goal/commit_generator.py:570-577 | the title starts `type(scope): ` when there is a scope and `type: ` otherwise |
| CommitGenerator.LegacyTitleShape | goal-2.1.68/goal/commit_generator.py:544-577 | without the abstraction generator (absent, `legacy` or raising) the message is `type(scope): phrase` with a known type, the classifier's type, the detected scope and the action phrase |
| CommitGenerator.EnhancedTitle | goal-2.1.68/goal/commit_generator.py:669-675 | an empty title stays empty; a non-empty one ends with `): ` and the title |
| CommitGenerator.EnhancedTitleNoScope | goal-2.1.68/goal/commit_generator.py:671-675 | with no scope the title carries the literal `(None)` |
| CommitGenerator.LineFields | goal-2.1.68/goal/commit_generator.py:118-120 | each numstat line is split at its tabs |
| CommitGenerator.Reads | goal-2.1.68/goal/commit_generator.py:119-126 | each line's contribution is read from its fields |
| CommitGenerator.NumstatStep | goal-2.1.68/goal/commit_generator.py:118-126 | reading one more line adds its counts to the totals so far |
| CommitGenerator.NumstatNoneSticks | goal-2.1.68/goal/commit_generator.py:122-132 | once `int()` raises on a line, the whole read raises |
| CommitGenerator.RowCounts | goal-2.1.68/goal/commit_generator.py:120-123 | a numstat line printed for a path without tabs or line breaks reads back as its counts |
| CommitGenerator.CountFieldNat | goal-2.1.68/goal/commit_generator.py:122-123 | a printed count reads back as itself |
| CommitGenerator.NumstatCounted | goal-2.1.68/goal/commit_generator.py:116-126 | lines that each carry counts add up to their number, the sum added and the sum deleted |
| CommitGenerator.NumstatRows | goal-2.1.68/goal/commit_generator.py:116-126 | reading back the numstat text of some rows gives their count and sums |
| CommitGenerator.ReadNumstat | goal-2.1.68/goal/commit_generator.py:116-126 | the loop over the lines gives the totals, or None as soon as a count does not parse |
| CommitGenerator.ReadRow | goal-2.1.68/goal/commit_generator.py:121-123 | a line with two or more tab-separated fields is counted, or raises when a count other than `-` does not parse; a shorter line is skipped |
| CommitGenerator.CommitMessageGenerator.constructor | goal-2.1.68/goal/commit_generator.py:81-82 | the cache starts empty |
| CommitGenerator.CommitMessageGenerator.GetDiffStats | goal-2.1.68/goal/commit_generator.py:95-132 | a cached answer is returned with the cache unchanged; otherwise the parsed totals are returned and stored, and when `int()` raised the answer is zeros and nothing is stored |
| Config.DeepCopy | goal/config.py:448-454 | the copy is structurally equal to the original |
| Config.Merge | goal/config.py:456-466 | the merged keys are the base keys together with the override keys |
| Config.MergeKeepsBase | goal/config.py:458-466 | a key only the base has keeps its base value |
| Config.MergeEmptyOverride | goal/config.py:456-466 | merging an empty override gives the base back |
| Config.MergeEmptyBase | goal/config.py:456-466 | merging into an empty base gives the override back |
| Config.MergeIdempotent | goal/config.py:456-466 | merging the same override a second time changes nothing |
| Config.MergeSelf | goal/config.py:456-466 | a mapping merged with itself is itself |
| Config.MergeOverrideLeaf | goal/config.py:460-464 | every non-mapping value of the override is found at its path in the merge: the override wins |
| Config.SetPath | goal/config.py:642-650 | a successful walk adds at most the first key at the top level |
| Config.SetPathFresh | goal/config.py:645-650 | on an empty mapping the walk never fails |
| Config.SetThenGet | goal/config.py:615-650 | after a successful `set`, the walk of `get` along the same keys finds the value |
| Config.SetElsewhere | goal/config.py:634-650 | a successful `set` changes no path that parts from the key's |
| Config.PairsDict | goal/config.py:42-62 | the mapping's keys are exactly the keys of the pairs |
| Config.Strs | goal/config.py:436-444 | a list of strings as a configuration list, item for item |
| Config.DefaultDockerfileDomain | goal/config.py:42-62 | the default domain mapping files `Dockerfile` under `docker` |
| Config.DefaultGroupsByDomain | goal/config.py:184 | the default configuration sets `git.changelog.group_by_domain` to true |
| Config.DefaultDropsDockerfileAsWritten | goal/config.py:42-184 | with the default mapping, the grouped CHANGELOG entry as written is the same with or without a changed `Dockerfile` |
| Config.LoadedConfig | goal/config.py:410-427 | every default key is present in the loaded configuration |
| Config.SetPathPair | goal/config.py:645-650 | a two-key `set` through an existing mapping replaces one entry of that mapping |
| Config.UpdateListEffect | goal/config.py:662-673 | a replaced list reads back as the detected one, and no path that parts from it changes |
| Config.DetectionChangedIff | goal/config.py:652-675 | a change is reported exactly when the detected types or version files differ, as sets, from the stored ones |
| Config.VersionFileErrors | goal/config.py:701-705 | at most one error per version file entry |
| Config.VersionFileErrorsIff | goal/config.py:701-705 | `Version file not found: P` is reported iff some entry's part before `:` is P, P is missing and P is not `VERSION` |
| Config.VersionFileErrSticks | goal/config.py:702-703 | an entry that is not a string raises, and the check ends with that error |
| Config.CheckVersionFiles | goal/config.py:701-705 | the loop gives the errors `VersionFileErrors` describes |
| Config.GoalConfig.constructor | goal/config.py:365-374 | nothing is loaded and the cached configuration is empty |
| Config.GoalConfig.Load | goal/config.py:410-427 | the first call stores the defaults merged with the file; once loaded, the cached configuration is returned unchanged |
| Config.GoalConfig.Get | goal/config.py:615-632 | loads if needed, then walks the dotted key, giving the default as soon as a step is missing or not a mapping |
| Config.GoalConfig.Set | goal/config.py:634-650 | loads if needed, then stores the value at the dotted key, creating missing intermediates; false with nothing changed where the walk meets a non-mapping |
| Config.GoalConfig.UpdateFromDetection | goal/config.py:652-675 | the new configuration and the changed flag are those `DetectionUpdate` gives for the loaded configuration |
| Config.DefaultConfig | goal/config.py:429-446 | `_get_default_config` over the `DEFAULT_CONFIG` table: the defaults hold the detected project name and version files, the `conventional` commit strategy, the shipped commit templates and benefit keywords, and the tag format at the paths the getters read |
| Config.Iterated | goal/config.py:701 | a `for` loop visits a list's items or a string's characters one by one; any other value is reported as not iterable |
| Config.GoalConfig.Validate | goal/config.py:677-707 | loads if needed and reports the errors `ValidationErrors` lists, leaving the configuration unchanged |
| Config.GoalConfig.GetCommitTemplate | goal/config.py:709-712 | the template configured for the type, else `{type}({scope}): {description}`; Err where the templates entry is not a mapping |
| DeepAnalyzer.DetectLanguage | goal/deep_analyzer.py:113-132 | `unknown` exactly when the lower-cased suffix is not in the table; otherwise a language of the table |
| DeepAnalyzer.ScriptLanguages | goal/deep_analyzer.py:85-132 | the JavaScript scanner gets exactly the files with suffix `.js`, `.jsx`, `.ts` or `.tsx`, in any letter case |
| DeepAnalyzer.WordRun | goal/deep_analyzer.py:259-260 | the run of `\w` characters from a position stops at the first non-word character |
| DeepAnalyzer.SpaceRun | goal/deep_analyzer.py:259-260 | the run of `\s` characters from a position stops at the first non-space |
| DeepAnalyzer.KeywordLen | goal/deep_analyzer.py:259 | a declaration keyword match lies inside the text |
| DeepAnalyzer.DeclAt | goal/deep_analyzer.py:259 | a match of `function`, `const`, `let` or `var`, spaces, a word and `=` or `(` captures that word |
| DeepAnalyzer.PropAt | goal/deep_analyzer.py:259 | a `(\w+)\s*:\s*(async\s+)?function` match captures a name inside the match |
| DeepAnalyzer.FuncAt | goal/deep_analyzer.py:259 | a match of either alternative of the function pattern captures a name inside the match |
| DeepAnalyzer.ClassAt | goal/deep_analyzer.py:260 | a `class\s+(\w+)` match captures a name inside the match |
| DeepAnalyzer.FindNames | goal/deep_analyzer.py:262-269 | every name `re.findall` returns is a non-empty word that occurs in the text |
| DeepAnalyzer.JsDiff | goal/deep_analyzer.py:248-280 | added names are names of the new text missing from the old, removed names the reverse; added and removed never overlap |
| DeepAnalyzer.JsDiffSwap | goal/deep_analyzer.py:271-278 | swapping old and new text swaps the added and removed names |
| DeepAnalyzer.GenericDiff | goal/deep_analyzer.py:282-298 | the counts are bounded by the number of distinct lines on each side |
| DeepAnalyzer.GenericDiffNoneAdded | goal/deep_analyzer.py:284-288 | no line counts as added exactly when every new line already occurs in the old text |
| DeepAnalyzer.DetectFunctionalAreas | goal/deep_analyzer.py:300-317 | the loop over the value patterns yields the areas `AreasOf` describes |
| DeepAnalyzer.AreasAreKeys | goal/deep_analyzer.py:19-317 | every detected area is a key of the value-pattern table |
| DeepAnalyzer.AreasOfHit | goal/deep_analyzer.py:305-315 | an area is detected iff an entity name contains one of its signatures or the content contains one of its keywords, ignoring case |
| DeepAnalyzer.Counts | goal/deep_analyzer.py:337 | `Counter`: exactly the indicators seen, each with its positive number of occurrences |
| DeepAnalyzer.MaxFrom | goal/deep_analyzer.py:338 | the scan ends at an indicator with the highest count, with no earlier indicator counted as often |
| DeepAnalyzer.PrimaryIndicator | goal/deep_analyzer.py:337-338 | None iff there are no indicators; otherwise a most frequent indicator, the first seen on a tie |
| DeepAnalyzer.AggregateChanges | goal/deep_analyzer.py:319-348 | added, modified and removed are the concatenations in file order; the areas are the union without duplicates; the complexity is the sum; the primary indicator and counts are those of all indicators |
| DeepAnalyzer.ConcatOfAppend | goal/deep_analyzer.py:328-334 | concatenating over two runs of files is the concatenation of the two |
| DeepAnalyzer.InferFunctionalValue | goal/deep_analyzer.py:350-425 | never empty; analyzer or deep file names give `enhanced code analysis capabilities` iff an entity was added, else `improved code analysis` |
| DeepAnalyzer.FallbackValue | goal/deep_analyzer.py:350-425 | `code improvements` exactly when no area rule fires, the complexity lies in -5..10 and nothing was added or modified |
| DeepAnalyzer.DetectRelations | goal/deep_analyzer.py:427-444 | the relations are the table pairs whose two areas are both present, in table order |
| DeepAnalyzer.OnlyAuthApi | goal/deep_analyzer.py:73-444 | with areas drawn from the value-pattern keys, the only relation that can fire is `auth` to `api` |
| DeepAnalyzer.BuildSummary | goal/deep_analyzer.py:483-515 | the value string when there is nothing to list, else the parts joined by line breaks |
| DeepAnalyzer.SummaryPartsEmpty | goal/deep_analyzer.py:485-515 | there is nothing to list exactly when no class or function was added, nothing modified, no relation, zero complexity and no area |
| DeepAnalyzer.ComplexitySign | goal/deep_analyzer.py:508-510 | positive complexity is printed with a `+` sign, other values as they are |
| EnhancedSummary.FirstRole | goal/enhanced_summary.py:330-428 | the first role pattern, from a given entry on, that is found in the name; None when no later entry matches |
| EnhancedSummary.FirstRoleAt | goal/enhanced_summary.py:426-428 | when rule `t` is found in the name and no earlier rule is, the loop over the role patterns stops at rule `t` |
| EnhancedSummary.FirstSuffix | goal/enhanced_summary.py:435-450 | the first naming-convention suffix the name ends with; None when none fits |
| EnhancedSummary.MapEntityToRole | goal/enhanced_summary.py:424-452 | a role-pattern match wins; only then `test_` gives `test case` and `_` gives `internal helper`; then the first naming-convention suffix the name ends with (`Handler`, `Manager`, ..., `Analyzer`) gives its role; a name that fits nothing comes back unchanged |
| EnhancedSummary.ConventionRole | goal/enhanced_summary.py:430-452 | the naming-convention fallback: `test_` gives `test case`, then `_` gives `internal helper`, then the first suffix in the table's order that the name ends with gives that suffix's role, and a name with none of these comes back unchanged |
| EnhancedSummary.AltNeedsHead | goal/enhanced_summary.py:426-427 | an alternative of a role pattern is found only where its leading literal occurs |
| EnhancedSummary.AltMissing | goal/enhanced_summary.py:426-427 | a character of the leading literal that the name lacks rules the alternative out |
| EnhancedSummary.FirstRoleIs16 | goal/enhanced_summary.py:426-428 | a name matching rule 16 and none before it gets rule 16's role |
| EnhancedSummary.TestMainIsEntryPoint | goal/enhanced_summary.py:426-432 | the table comes before the prefix rules: `test_main` is an entry point, not a test case |
| EnhancedSummary.CommitParserIsCommitWorkflow | goal/enhanced_summary.py:426-446 | the table comes before the suffix rules: `CommitParser` is a commit workflow, not a parser |
| EnhancedSummary.CommitRule | goal/enhanced_summary.py:330-428 | a lower-cased name containing `commit` and none of the characters the first eighteen patterns need gets the commit-workflow rule |
| EnhancedSummary.CapabilitiesUpTo | goal/enhanced_summary.py:461-470 | each capability comes from a table entry whose signature occurs in the text, with its own label and impact, in table order |
| EnhancedSummary.AnySignature | goal/enhanced_summary.py:462-463 | the scan of one entry's signatures reports whether any of them occurs in the text |
| EnhancedSummary.DetectCapabilities | goal/enhanced_summary.py:454-472 | the loop with its `seen` set yields the capabilities `CapabilitiesUpTo` describes for the diff followed by the file names |
| EnhancedSummary.DetectedCapabilitiesFacts | goal/enhanced_summary.py:454-472 | the capabilities carry distinct ids and are exactly the table entries with a signature in the text |
| EnhancedSummary.InferDomain | goal/enhanced_summary.py:520-541 | the domain is one of the nine names the rules produce |
| EnhancedSummary.Adjacency | goal/enhanced_summary.py:549-551 | a KeyError exactly when a relation lacks `from` or `to`; otherwise each source maps to its set of targets |
| EnhancedSummary.BuildRelationChain | goal/enhanced_summary.py:543-574 | `''` for no relations; a KeyError exactly when a relation lacks a key; otherwise one chain per root, starting at distinct roots, each a path along edges without repeats, joined by `, ` |
| EnhancedSummary.BranchLines | goal/enhanced_summary.py:594-595 | one branch line per middle target, indented past the source name |
| EnhancedSummary.SourceBlock | goal/enhanced_summary.py:590-596 | a single target gives one arrow line; several give a fork line, branch lines and a closing corner line, one per target |
| EnhancedSummary.RenderRelationsAscii | goal/enhanced_summary.py:576-598 | `''` for no relations; a KeyError exactly when a relation lacks a key; otherwise the drawn lines joined by newlines |
| EnhancedSummary.SingleTargetLine | goal/enhanced_summary.py:590-591 | a source with one target is drawn as one arrow line |
| EnhancedSummary.ValueScore | goal/enhanced_summary.py:633-640 | the value score lies between 50 and 100 |
| EnhancedSummary.ValueScoreMonotone | goal/enhanced_summary.py:633-640 | more areas, relations, tests or simplification never lower the score |
| EnhancedSummary.ValueScoreCeiling | goal/enhanced_summary.py:633-640 | three areas, two relations and a test impact of 10 reach 100 whatever the complexity |
| EnhancedSummary.CalculateQualityMetrics | goal/enhanced_summary.py:600-642 | test impact is 5 per added `test_` entity, the complexity delta is the aggregate's, the score lies in 50..100 and is 50 when nothing adds to it |
| EnhancedSummary.GenerateValueTitle | goal/enhanced_summary.py:644-692 | analyzer or analysis file stems give the analysis-pipeline titles; otherwise, with no system title, the title starts with the first capability and names the supporting modules when there are three or more |
| EnhancedSummary.BuildRoles | goal/enhanced_summary.py:716-735 | at most five roles from the first ten added entities, each a mapped role different from the name and not noise under the corrected noise rule |
| EnhancedSummary.CollectRoles | goal/enhanced_summary.py:719-733 | the loop over the entities keeps, in order, the role entry of each entity whose role is mapped and not noise under the corrected noise rule |
| EnhancedSummary.RoleEntriesMapped | goal/enhanced_summary.py:719-733 | every kept role entry holds the role its name maps to, differs from the name and is not noise under the corrected noise rule |
| EnhancedSummary.RoleEntriesComplete | goal/enhanced_summary.py:719-733 | conversely, every entity whose role is kept (`KeepsRole`: not noise under the corrected rule and mapped to something other than its name) has its role entry in the list |
| EnhancedSummary.OldComplexity | goal/enhanced_summary.py:737-743 | never 0, and equal to the summed complexity of removed and modified entities when that is not 0 |
| EnhancedSummary.ComplexityOfDefaults | goal/enhanced_summary.py:739-742 | with no recorded complexities every removed or modified entity counts one |
| EnhancedSummary.CapabilityLinesAsWritten | goal/enhanced_summary.py:786-791 | as written, one line for each of the first five capabilities |
| EnhancedSummary.UnclosedCapabilityTree | goal/enhanced_summary.py:788-790 | as written, with six capabilities every shown line opens a branch and none closes the tree |
| EnhancedSummary.CapabilityLines | goal/enhanced_summary.py:786-791 | corrected: up to five lines, every line but the last opens a branch and the last closes the tree |
| EnhancedSummary.CapabilityLinesAgree | goal/enhanced_summary.py:786-791 | up to five capabilities the corrected tree is the tree as written |
| EnhancedSummary.ForkExampleLines | goal/enhanced_summary.py:576-598 | the relations `a` to `b` and `a` to `c` are drawn as a fork line for `b.py` and a closing line for `c.py` |
| EnhancedSummary.FlowTwoLines | goal/enhanced_summary.py:822-833 | as written, a two-line drawing keeps only its second line; corrected, both lines are shown |
| EnhancedSummary.FlowDropsFirstTarget | goal/enhanced_summary.py:576-832 | as written, the dependency section for the fork example loses the line naming `b.py`; corrected, it shows both lines |
| EnhancedSummary.FlowShowsEveryLine | goal/enhanced_summary.py:822-833 | corrected, the section shows the whole drawing after the chain; as written it loses the drawing's first line |
| EnhancedSummary.BodySections | goal/enhanced_summary.py:783-844 | the corrected body (closed capability tree, every flow line shown): the impact section is always present, and the capability tree comes first when there are capabilities |
| EnhancedSummary.FormatEnhancedBody | goal/enhanced_summary.py:776-846 | the corrected body is never empty |
| EnhancedSummary.SummaryWarnings | goal/enhanced_summary.py:859-874 | at most three warnings: too many generic terms, a title that is too short, too few metrics, each iff its threshold is crossed |
| EnhancedSummary.ValidateSummaryQuality | goal/enhanced_summary.py:848-881 | always valid, the warnings are those `SummaryWarnings` gives, and the score is 100 minus 10 per warning |
| EnhancedSummary.FullScore | goal/enhanced_summary.py:848-881 | a title of three or more non-generic words over a body naming two metrics scores 100 under the default settings |
| SummaryQuality.IsNoiseIsLeadingUnderscore | goal/enhanced_summary.py:22-80 | as written, an entity is noise iff its role is a noise role or its name starts with `_`: `re.match` anchors every pattern at the start and every pattern begins with `_` |
| SummaryQuality.IsNoiseIntendedSuffixes | goal/enhanced_summary.py:22-80 | the intended rule also catches the `_helper` and `_internal` suffixes anywhere in the name, and everything the written rule catches |
| SummaryQuality.NoiseSuffixCounterexample | goal/enhanced_summary.py:24-80 | `parse_helper` is kept by the written rule and dropped by the intended one |
| SummaryQuality.FilterEntities | goal/enhanced_summary.py:82-86 | exactly the entities that are not noise under the corrected noise rule, in their original order |
| SummaryQuality.BannedIn | goal/enhanced_summary.py:88-91 | the banned words that are whole whitespace-separated tokens of the lower-cased title |
| SummaryQuality.PatternScore | goal/enhanced_summary.py:98-100 | the number of patterns found, at most one per pattern; 0 iff none occurs |
| SummaryQuality.ClassifyIntent | goal/enhanced_summary.py:93-114 | `docs` iff every file is a doc file (no files included); `chore` iff every file is a config file and one is not a doc file; otherwise the highest of the refactor, feat and fix pattern scores, ties going refactor > feat > fix, so all-zero scores give `refactor` |
| SummaryQuality.PrioritizeCapabilities | goal/enhanced_summary.py:116-122 | a permutation sorted by priority, highest first, that keeps the input order among equal priorities |
| SummaryQuality.ComplexityDeltaKind | goal/enhanced_summary.py:124-146 | `New module` iff the old complexity is 0; the structural-change branch iff the change exceeds the cap percentage; `Stable` only within 10% either way |
| SummaryQuality.DedupeRelations | goal/enhanced_summary.py:148-157 | the loop with its `seen` set yields the relations `UniqueEdges` describes |
| SummaryQuality.UniqueEdgesFacts | goal/enhanced_summary.py:148-157 | at most ten relations, an in-order selection of the input, no repeated edge and no self-loop |
| SummaryQuality.UniqueEdgesIdempotent | goal/enhanced_summary.py:148-157 | deduping twice gives the same list as deduping once |
| SummaryQuality.DuplicatesCoverSelfLoops | goal/enhanced_summary.py:154-245 | `validate` counts every self-loop, and everything past the tenth relation, as a duplicate |
| SummaryQuality.DedupeFiles | goal/enhanced_summary.py:159-168 | the loop with its `seen` set keeps the first path per file name, as `DedupeBy` describes |
| SummaryQuality.DedupeFilesFacts | goal/enhanced_summary.py:159-168 | the result is an in-order selection with distinct file names, covers every file name of the input, and deduping it again changes nothing |
| SummaryQuality.Category | goal/enhanced_summary.py:179-188 | one of the four categories, and `docs` iff the lower-cased path ends in `.md` or contains `doc` or `readme` |
| SummaryQuality.CategorizeFiles | goal/enhanced_summary.py:170-190 | only non-empty categories, in the order core, docs, config, test, each with its files in input order; together they hold every path exactly once |
| SummaryQuality.PartitionByCategory | goal/enhanced_summary.py:179-188 | every path lands in exactly one of the four categories |
| SummaryQuality.Errors | goal/enhanced_summary.py:228-257 | at most three errors; the banned-words error iff the title holds a banned word |
| SummaryQuality.Warnings | goal/enhanced_summary.py:234-261 | at most two warnings: complexity growth iff the gate is crossed, too few capabilities iff fewer than the minimum |
| SummaryQuality.Fixes | goal/enhanced_summary.py:228-257 | one fix per error, plus one for the complexity warning |
| SummaryQuality.Validate | goal/enhanced_summary.py:214-275 | valid iff there is no error; the score is 100 less 20 per error and 5 per warning, between 30 and 100 |
| SummaryQuality.AbsentMetricsNeverWarn | goal/enhanced_summary.py:235-241 | with the metrics absent the complexity gate never warns |
| SummaryQuality.FileGate | goal/enhanced_summary.py:250-257 | no duplicate-file error for an empty list; with the default ratio 0.8 the error fires iff fewer than four fifths of the paths have distinct names |
| SummaryQuality.RelationGate | goal/enhanced_summary.py:243-248 | the duplicate count is never negative, and under the default gate a list passes iff it has at most ten relations, no repeated edge and no self-loop |
| SummaryQuality.DedupedRelationsPass | goal/enhanced_summary.py:243-299 | relations already deduped have no duplicates |
| SummaryQuality.ComplexityGateMatchesFormat | goal/enhanced_summary.py:136-241 | for a positive baseline the complexity gate of `validate` fires iff `format_complexity_delta` reports a structural change |
| SummaryQuality.WordRunLen | goal/enhanced_summary.py:287 | the length of the run of `\w` characters at the start of the text |
| SummaryQuality.RemoveWords | goal/enhanced_summary.py:286-287 | removing words never makes the title longer |
| SummaryQuality.RemoveWordsKeptRun | goal/enhanced_summary.py:287 | a whole word run is removed when its lower-cased text is banned and kept otherwise |
| SummaryQuality.RemoveWordsTwice | goal/enhanced_summary.py:286-287 | removing two sets of words one after the other removes their union, so the set's iteration order does not matter |
| SummaryQuality.CollapseSpaces | goal/enhanced_summary.py:288 | the whitespace-separated words joined by single spaces |
| SummaryQuality.CleanTitle | goal/enhanced_summary.py:283-291 | a title without banned words is kept unchanged |
| SummaryQuality.StripWords | goal/enhanced_summary.py:286-287 | the loop over the banned words gives the title with all of them removed |
| SummaryQuality.FixTitle | goal/enhanced_summary.py:283-291 | the title step gives the cleaned title and the banned words found |
| SummaryQuality.RelationsBlock.constructor | goal/enhanced_summary.py:295 | the block holds the given relations |
| SummaryQuality.RelationsBlock.Dedupe | goal/enhanced_summary.py:295-302 | a present list is replaced in place by its deduped version and both counts are returned; an absent list stays absent |
| SummaryQuality.FixRelations | goal/enhanced_summary.py:294-302 | the shared relations are replaced by their deduped version, and the note records the counts when they differ |
| SummaryQuality.FixFiles | goal/enhanced_summary.py:304-308 | the files are only counted, and the note records the counts when deduping would drop some |
| SummaryQuality.AutoFix | goal/enhanced_summary.py:277-323 | the copy shares the caller's relations, which are deduped in place; the title is cleaned only when it held banned words; capabilities are prioritised and the intent reclassified |
| SummaryQuality.AutoFixedRelationsPass | goal/enhanced_summary.py:243-299 | after `auto_fix` the summary's relations pass the relation gate |
| SmartCommit.FirstMapping | goal/smart_commit.py:37-44 | the index of the first domain-mapping entry whose pattern covers the path, with every earlier entry not covering it; none only when no entry covers it |
| SmartCommit.FallbackDomain | goal/smart_commit.py:46-55 | `docs` exactly for the `.md`/`.rst`/`.txt` suffixes, `core` exactly for the five code suffixes, `test` exactly for other paths starting with `test` or `spec`, else `other` |
| SmartCommit.GetDomain | goal/smart_commit.py:35-55 | the first mapping entry that covers the path decides the domain; when no entry covers it the suffix-and-prefix fallback decides |
| SmartCommit.UnmappedTestFileIsCore | goal/smart_commit.py:46-53 | a `tests/x.py` path with no mapping entry is classed `core`, because the suffix test comes before the `test` prefix test |
| SmartCommit.GetLanguage | goal/smart_commit.py:14-60 | the lowered suffix is looked up in the extension table: `unknown` exactly when it is absent, `python` exactly for `.py`, `markdown` exactly for `.md`/`.rst` |
| SmartCommit.FirstExtract | goal/smart_commit.py:85-87 | the first extraction pattern contained in the line, with no earlier pattern contained; none only when no pattern occurs |
| SmartCommit.SecondPiece | goal/smart_commit.py:88-93 | the text after the first occurrence of the pattern, cut at the next occurrence, never contains the pattern |
| SmartCommit.WordAfter | goal/smart_commit.py:95-100 | the fallback word taken after the pattern is empty or a single token without separators; indexing past the pieces is the error path |
| SmartCommit.LineEntity | goal/smart_commit.py:73-101 | a line yields an entity only when it is an added line, contains no ignore pattern, and the entity is longer than one character; removed lines and parsers without patterns yield nothing |
| SmartCommit.RawEntities | goal/smart_commit.py:73-101 | at most one entity per diff line, each longer than one character; the first failing line makes the whole scan fail |
| SmartCommit.CollectEntities | goal/smart_commit.py:73-101 | the line loop collects exactly the entities of the recursive definition, stopping at the first failing line |
| SmartCommit.Unique | goal/smart_commit.py:103-111 | the seen-set loop keeps the first occurrence of each entity, in order |
| SmartCommit.ExtractEntities | goal/smart_commit.py:62-111 | a failing line fails the extraction; otherwise the result is the first ten distinct entities of the scan, in order of appearance |
| SmartCommit.RawEntitiesErrKept | goal/smart_commit.py:73-101 | once a prefix of the diff fails, the whole diff fails with the same error |
| SmartCommit.NoPatternsNoEntities | goal/smart_commit.py:80-86 | a language without extraction patterns yields no entities |
| SmartCommit.RawEntitiesFromLines | goal/smart_commit.py:73-101 | every entity found comes from some line of the diff |
| SmartCommit.ExtractEntitiesFacts | goal/smart_commit.py:62-111 | the extracted entities are at most ten, distinct, longer than one character, and each one comes from an added line of the diff |
| SmartCommit.HeadingTopic | goal/smart_commit.py:129-138 | a topic comes only from an added markdown heading, is longer than two characters and is not a noise word |
| SmartCommit.Topics | goal/smart_commit.py:129-138 | at most one topic per diff line |
| SmartCommit.CollectTopics | goal/smart_commit.py:129-138 | the heading loop collects exactly the topics of the recursive definition |
| SmartCommit.ExtractMarkdownTopics | goal/smart_commit.py:113-140 | the first five topics of the diff, in order |
| SmartCommit.TopicsFromHeadings | goal/smart_commit.py:118-138 | every topic is longer than two characters, not noise, and comes from a heading line of the diff |
| SmartCommit.SectionHeadingIsNoise | goal/smart_commit.py:118-127 | the changelog heading `+### Added` yields no topic |
| SmartCommit.HeadingText | goal/smart_commit.py:132-134 | stripping the hashes and surrounding blanks of `## text` gives back `text` |
| SmartCommit.TableFeaturesAsWritten | goal/smart_commit.py:206-225 | each feature reported by the table loop as written comes from a rule whose pattern searches the joined files and entities, each feature once |
| SmartCommit.TableFeatures | goal/smart_commit.py:206-225 | each feature reported comes from a rule that fires, with end-anchored file rules matched against each file; features are distinct and at most one per rule |
| SmartCommit.WordRun | goal/smart_commit.py:228-232 | the maximal run of word characters starting at a position |
| SmartCommit.AnalyzerAt | goal/smart_commit.py:228-232 | an analyzer name found at a position is a non-empty word |
| SmartCommit.AnalyzerNames | goal/smart_commit.py:228-232 | every analyzer name found in the file list is non-empty |
| SmartCommit.AnalyzerFeatures | goal/smart_commit.py:228-232 | the analyzer pass keeps the table features in front and adds at most one feature per name |
| SmartCommit.TableLoop | goal/smart_commit.py:222-225 | the table loop appends exactly the features of the corrected table (anchored patterns matched per file) |
| SmartCommit.DetectFeatures | goal/smart_commit.py:198-234 | the detected features are the corrected table features followed by the analyzer features, cut to five |
| SmartCommit.EarlyRuleReported | goal/smart_commit.py:206-234 | a rule among the first five that fires is always reported, whatever the cut to five |
| SmartCommit.TableFeaturesHas | goal/smart_commit.py:222-225 | every rule that fires has its feature in the table features |
| SmartCommit.TableFeaturesPrefix | goal/smart_commit.py:222-225 | the features of a shorter table are a prefix of those of a longer one |
| SmartCommit.AnchoredAlternativesBlind | goal/smart_commit.py:203-208 | as written, an end-anchored literal can never match the joined text, which ends with a blank |
| SmartCommit.TerraformFileMissedAsWritten | goal/smart_commit.py:203-208 | as written, a commit touching `main.tf` does not report Terraform |
| SmartCommit.TerraformFileFound | goal/smart_commit.py:208 | with the anchors matched against each file, `main.tf` reports Terraform |
| SmartCommit.TerraformFilesFound | goal/smart_commit.py:208 | with the anchors matched against each file, any `.tf` file reports Terraform |
| SmartCommit.AnalyzerFeaturesAdds | goal/smart_commit.py:228-232 | the analyzer pass adds only features ending in ` analyzer` |
| SmartCommit.FirstBenefit | goal/smart_commit.py:158-178 | the first benefit rule with a keyword in the text, no earlier rule matching; none only when no rule matches |
| SmartCommit.FeaturePhrase | goal/smart_commit.py:146-152 | the phrase starts with the first feature; up to three features end in `<last> support`, more end in `more features` |
| SmartCommit.InferBenefit | goal/smart_commit.py:142-196 | features decide first; else the first benefit rule matching the entities; else the first rule matching the files; else the domain keyword, the commit-type phrase or the default, in that order |
| SmartCommit.EntitiesOutrankFiles | goal/smart_commit.py:176-185 | when a rule matches the entities, the files do not affect the benefit |
| SmartCommit.DetermineAbstractionLevel | goal/smart_commit.py:236-256 | a configured level is kept; `auto` gives `high` exactly for at most 3 files and 5 entities, `low` exactly for fewer than 2 entities over more than 10 files, else `medium` |
| SmartCommit.GetActionVerb | goal/smart_commit.py:258-271 | the verb table's entry for the type; `update` exactly for unknown types and `chore` |
| SmartCommit.InferCommitType | goal/smart_commit.py:478-514 | the type is one of the seven the rules produce, and a mapped domain (docs, test, ci, build, config) decides it before anything else |
| SmartCommit.CommitTypeByKeyword | goal/smart_commit.py:497-504 | in an unmapped domain, `fix`/`bug` in the entity names gives `fix`, else `refactor`/`extract` gives `refactor`, else `test` gives `test`, and when a keyword decides the line counts do not matter |
| SmartCommit.CommitTypeByRatio | goal/smart_commit.py:506-514 | with no domain rule and no keyword, more than twice as many deletions as additions gives `refactor`, additions only give `feat`, up to twice as many deletions give `fix`, and no more deletions than additions gives `feat` |
| SmartCommit.CountChanges | goal/smart_commit.py:329-333 | the counter loop counts exactly the added and removed lines of the diff |
| SmartCommit.CountsBounded | goal/smart_commit.py:329-333 | added plus removed lines never exceed the number of lines |
| SmartCommit.SummaryHead | goal/smart_commit.py:416-432 | at most one leading phrase, non-empty; with features it starts `Added ` |
| SmartCommit.SummaryMiddle | goal/smart_commit.py:434-443 | the leading phrase is kept first; the parts added after it are non-empty |
| SmartCommit.SummaryParts | goal/smart_commit.py:408-452 | there is always a non-empty first part, starting `Added ` when there are features |
| SmartCommit.GenerateFunctionalSummary | goal/smart_commit.py:406-454 | the summary is never empty and starts `Added ` when features were detected |
| SmartCommit.GenerateMessageAsWritten | goal/smart_commit.py:516-618 | `generate_message` as written: where it does not raise AttributeError, the message starts with the `type(domain): ` prefix (see MessageAsWrittenRaises for exactly when it raises) |
| SmartCommit.GenerateMessage | goal/smart_commit.py:516-618 | the corrected message (verbs from `get_action_verb`): every message starts with the `type(domain): ` prefix; a docs-only README change of over 100 added lines gets the fixed README title |
| SmartCommit.DescriptionWithVerb | goal/smart_commit.py:536-618 | with a verb helper present, every level yields a description, and docs-only commits use the docs branch |
| SmartCommit.MessageAsWrittenRaises | goal/smart_commit.py:596-612 | as written, the message fails exactly when the branch reached calls the missing verb helper; otherwise it equals the corrected message |
| SmartCommit.LowLevelEntityRaises | goal/smart_commit.py:589-612 | as written, a low-level message for a one-file entity change fails |
| SmartCommit.AreaLines | goal/smart_commit.py:653-660 | exactly the domains with files get a line, in their order, and each line is `- **Domain**: n files` with the title-cased name and the file count |
| SmartCommit.BodyLines | goal/smart_commit.py:620-667 | the body ends with the three statistics lines, and every feature is listed under `## Features Added` |
| SmartCommit.GenerateFunctionalBody | goal/smart_commit.py:620-667 | the body text ends with the statistics block giving the file count and the added and removed line counts |
| SmartCommit.JoinEndsWithLast3 | goal/smart_commit.py:667 | joining lines ends with the last three joined by the separator |
| SmartCommit.SectionFor | goal/smart_commit.py:681-693 | the changelog section is always `Added`, `Fixed` or `Changed` |
| SmartCommit.GenerateChangelogEntry | goal/smart_commit.py:669-711 | the section follows the type, the message is the prefix plus the benefit, the entities are the first five (all when fewer), and entity details appear exactly when enabled and present, holding the first `max_entities_per_entry` entities (a negative maximum counts from the end) |
| SmartCommit.EntryLine | goal/smart_commit.py:713-722 | the line is `- message`, followed by a link with the seven-character short hash when a hash is given; `SmartCommit.EntryLineReadBack` reads the message and hash back |
| SmartCommit.EntryLineReadBack | goal/smart_commit.py:713-722 | the entry line reads back as its message and the linked hash, when the message does not end in `)` and the hash holds no `/` |
| SmartCommit.FormatChangelogEntry | goal/smart_commit.py:713-730 | the entry line, followed by an `Added:` line of backticked entities exactly when there are entity details; `SmartCommit.ChangelogEntryReadBack` reads the message, hash and names back |
| SmartCommit.ChangelogEntryReadBack | goal/smart_commit.py:713-730 | a formatted entry reads back as its message, its linked hash and its listed entity names, when the message has no line break and does not end in `)`, the hash has no `/` or line break and no name holds a backtick |
| SmartCommit.GeneratedEntryReadBack | goal/smart_commit.py:669-730 | the entry generated for a commit reads back as its conventional title, the commit hash and the first `max_entities_per_entry` entities, none when entity details are switched off |
| SmartCommit.ChangelogLine | goal/smart_commit.py:669-730 | a generated entry with a hash renders as the prefix, benefit and short-hash link |
| ProjectDoctor.Found | goal/project_doctor.py:27-35 | a newly diagnosed issue carries its severity and code and is not yet fixed |
| ProjectDoctor.Repaired | goal/project_doctor.py:143-144 | marking an issue repaired sets `fixed` and keeps its code and severity |
| ProjectDoctor.Errors | goal/project_doctor.py:45-47 | the report's issues of severity `error`, in report order, and no others |
| ProjectDoctor.Warnings | goal/project_doctor.py:49-51 | the report's issues of severity `warning`, in report order, and no others |
| ProjectDoctor.FixedIssues | goal/project_doctor.py:53-55 | the report's fixed issues, in report order, and no others |
| ProjectDoctor.HasProblemsIffListed | goal/project_doctor.py:45-59 | a report has problems exactly when its error list or its warning list is non-empty |
| ProjectDoctor.SpaceLen | goal/project_doctor.py:196 | the length of the leading run of blanks matched by `\s*` |
| ProjectDoctor.AfterSpace | goal/project_doctor.py:196 | the text after the leading blanks is a suffix of the input |
| ProjectDoctor.CheckBuildSystem | goal/project_doctor.py:124-145 | one PY002 error exactly when `[build-system]` is absent; with repair on it is marked fixed and the repaired text is the setuptools section block followed by the original text, otherwise the text is unchanged |
| ProjectDoctor.SpacedWords | goal/project_doctor.py:91-93 | the words of the classifier pattern separated by blanks and `::` match within the text |
| ProjectDoctor.LicenseClassifierLen | goal/project_doctor.py:91-93 | a license classifier match ends with its closing quote |
| ProjectDoctor.LineEnd | goal/project_doctor.py:163 | the first line of a non-empty text is non-empty and fits in it |
| ProjectDoctor.LinesWithEnds | goal/project_doctor.py:163 | `splitlines(keepends=True)`: the lines put back together give the text, and none is empty |
| ProjectDoctor.DropLicenseLinesFacts | goal/project_doctor.py:161-172 | the repair keeps, in order, exactly the lines that are not license classifier lines, and leaves a text without such lines unchanged |
| ProjectDoctor.CheckLicenseClassifiers | goal/project_doctor.py:147-175 | one PY003 error exactly when a license classifier is found; the text changes only when repair is on and an issue was found, and then loses the classifier lines |
| ProjectDoctor.CheckBackend | goal/project_doctor.py:177-193 | one PY004 error exactly when the deprecated backend occurs; with repair on every occurrence is replaced by the standard backend |
| ProjectDoctor.SplitOn | goal/project_doctor.py:190 | splitting on a non-empty separator gives at least one piece |
| ProjectDoctor.SplitOnJoin | goal/project_doctor.py:190 | joining the pieces with the separator gives the text back |
| ProjectDoctor.ReplaceSplitOn | goal/project_doctor.py:190 | `str.replace` equals splitting on the old text and joining with the new |
| ProjectDoctor.SplitOnClean | goal/project_doctor.py:190 | no piece contains the separator, so no deprecated backend survives the replacement inside a piece |
| ProjectDoctor.LicenseKeyLen | goal/project_doctor.py:196-200 | `license\s*=\s*` matched at the start of a line covers more than the key itself |
| ProjectDoctor.QuotedEnd | goal/project_doctor.py:197-200 | a quoted value `"([^"]+)"` ends at the first closing quote, with no quote inside |
| ProjectDoctor.LicenseTableOpenLen | goal/project_doctor.py:196 | the table opening `license = {` match fits in the text |
| ProjectDoctor.LicenseStringLen | goal/project_doctor.py:197 | the string form `license = "..."` match fits in the text |
| ProjectDoctor.TextEntry | goal/project_doctor.py:200-215 | a `text = "..."` entry's value lies strictly inside the match, and is non-empty under the check's `[^"]+` (line 200); the repair's `[^"]*` (line 215) admits an empty one |
| ProjectDoctor.TextEntryWidens | goal/project_doctor.py:200-215 | wherever the check's entry pattern matches, the repair's matches with the same result |
| ProjectDoctor.EmptyTextEntry | goal/project_doctor.py:200-215 | an entry `text = ""` is never read by the check, and the repair matches it, with an empty value, exactly when the table closes |
| ProjectDoctor.LastTextEntry | goal/project_doctor.py:200-215 | the greedy `[^}]*` before `text` picks the last text entry of the table, whose value lies inside the match |
| ProjectDoctor.LicenseTableAt | goal/project_doctor.py:200-215 | a license table match at a line start has its value strictly inside it, non-empty for the check's pattern |
| ProjectDoctor.RepairTableWidens | goal/project_doctor.py:200-215 | every table the check reads is also rewritten by the repair |
| ProjectDoctor.FixLicenseTables | goal/project_doctor.py:213-218 | with no readable table the text is left alone; otherwise every table, empty `text` included, becomes `license = "<id>"` (see LicenseTableRepaired and RepairedLayout) |
| ProjectDoctor.LicenseTableValue | goal/project_doctor.py:200-202 | the license id taken from the table is non-empty and has no quote |
| ProjectDoctor.CheckLicenseTable | goal/project_doctor.py:195-221 | at most one PY005 warning, raised exactly when a license table with a non-empty text entry exists and no string form does; with repair on every table matching `[^"]*` is rewritten |
| ProjectDoctor.LicenseTableRepaired | goal/project_doctor.py:213-218 | after the repair the license is in string form |
| ProjectDoctor.RepairedLayout | goal/project_doctor.py:213-218 | the repaired text holds `license = "<id>"` at a line start, with the id taken from the table |
| ProjectDoctor.LicenseTableQuoteFree | goal/project_doctor.py:200 | the captured license value never contains a quote |
| ProjectDoctor.LicenseStringReads | goal/project_doctor.py:197-216 | the string form written by the repair is read back by the string pattern |
| ProjectDoctor.CharPosAfter | goal/project_doctor.py:197 | the first quote after a quote-free id is the one that closes it |
| ProjectDoctor.AuthorsAt | goal/project_doctor.py:224 | the lazy `\[(.*?)\]` ends at the first closing bracket, with none inside the group |
| ProjectDoctor.AuthorsLen | goal/project_doctor.py:224 | the authors match fits in the text |
| ProjectDoctor.AuthorLines | goal/project_doctor.py:227 | at most one author entry per line of the block |
| ProjectDoctor.DuplicateIffShort | goal/project_doctor.py:228 | `len(lines) != len(set(lines))` holds exactly when the entries are not distinct |
| ProjectDoctor.CheckAuthors | goal/project_doctor.py:223-244 | at most one PY006 warning, raised exactly when the authors list has a repeated entry; with repair on the block is rewritten |
| ProjectDoctor.UniqueAuthors | goal/project_doctor.py:236 | `dict.fromkeys` keeps the first of each entry in order, loses no entry, and leaves a duplicate-free list unchanged |
| ProjectDoctor.InsertRequiresPython | goal/project_doctor.py:257-263 | corrected: the line is inserted at `ProjectLineEnd`, right after the line break ending the first `[project]` header's line; when that line ends the text without a break, a newline and the line are appended; either way the result holds `requires-python` |
| ProjectDoctor.ProjectLineEnd | goal/project_doctor.py:259-263 | corrected: the end of the first `[project]` header's line lies past the header, carries no line break before its own break, and is preceded by a break unless it is the end of the text |
| ProjectDoctor.InsertAgreesAfterNewline | goal/project_doctor.py:259-263 | where the first `[project]` is followed by `\n`, the corrected insertion and `re.sub` on `(\[project\]\n)` with count 1 give the same text |
| ProjectDoctor.RequiresPythonNotInsertedAsWritten | goal/project_doctor.py:247-264 | as written, a file that ends in `[project]` with no newline is reported fixed, yet the pattern needs the newline and nothing is inserted |
| ProjectDoctor.CheckRequiresPython | goal/project_doctor.py:246-266 | one PY007 warning exactly when `requires-python` is absent and `[project]` is present; with repair on the text becomes the corrected `InsertRequiresPython` of it, which holds `requires-python`; otherwise the text is unchanged |
| ProjectDoctor.CheckClassifiers | goal/project_doctor.py:268-276 | one PY008 info, never fixed, exactly when an empty classifiers list occurs |
| ProjectDoctor.Then | goal/project_doctor.py:121-276 | running one check after another concatenates their issues and keeps the later text |
| ProjectDoctor.BackendChecks | goal/project_doctor.py:178 | one check per deprecated backend, in table order |
| ProjectDoctor.FirstThenLater | goal/project_doctor.py:124-276 | a PY002 issue can only come first, and every later issue has a Python issue code |
| ProjectDoctor.PythonPipeline | goal/project_doctor.py:124-276 | the first issue is PY002 exactly when `[build-system]` is missing, no later issue is PY002, and every issue has a Python code; with repair off the pyproject text is unchanged and no issue is marked fixed |
| ProjectDoctor.RunPipeline | goal/project_doctor.py:124-276 | running PY002 and then each later check over the text the previous one left gives the pipeline's issues and text |
| ProjectDoctor.RunInOrder | goal/project_doctor.py:124-276 | running the checks one after another equals the specification of the pipeline |
| ProjectDoctor.DiagnosePython | goal/project_doctor.py:100-282 | with the corrected PY007 insertion: without pyproject.toml only PY001 can be raised, and only when requirements.txt is the sole packaging file; otherwise the pipeline's issues are returned and the repaired text is written only when repair is on and the text changed |
| ProjectDoctor.MissingTestScript | goal/project_doctor.py:332-333 | a manifest without `scripts` lacks a test script |
| ProjectDoctor.DiagnoseNodejs | goal/project_doctor.py:289-355 | no package.json gives nothing; an unparsable one gives exactly one JS001 error and no write; a parsed non-object is an error; for an object, the run fails exactly when the test-script condition raises, and otherwise JS002 is raised iff the name is not truthy, JS003 iff the version is not truthy (marked fixed iff repair is on), JS004 iff the test-script condition holds, JS005 iff none of `main`, `module`, `exports` is truthy, JS001 never; the file is written iff repair is on and the version is not truthy, with version `0.1.0` |
| ProjectDoctor.VersionFixKeeps | goal/project_doctor.py:318-348 | adding version `0.1.0` makes the version truthy and leaves the name, test-script and entry-point conditions as they were |
| ProjectDoctor.NodeIssuesRaise | goal/project_doctor.py:308-348 | the JS002 to JS005 list raises each code exactly under its condition, and never JS001 |
| ProjectDoctor.NodeIssuesFixed | goal/project_doctor.py:317-329 | the JS003 issue is marked fixed exactly when repair is on |
| ProjectDoctor.DiagnoseRust | goal/project_doctor.py:362-386 | nothing without Cargo.toml; RS001 (error) iff no line starts with `[package]`, RS002 (warning) iff `edition` is absent, each at most once and no other issue |
| ProjectDoctor.DiagnoseGo | goal/project_doctor.py:393-418 | nothing without go.mod; GO001 (error) iff the stripped go.mod does not start with `module `, GO002 (warning) iff go.sum is missing and go.mod contains `require`, each at most once and no other issue |
| ProjectDoctor.DiagnoseRuby | goal/project_doctor.py:425-440 | RB001 (warning) iff a Gemfile exists without Gemfile.lock; at most that one issue |
| ProjectDoctor.DiagnosePhp | goal/project_doctor.py:447-481 | nothing without composer.json; an unparsable one gives exactly one PHP001 error; a parsed non-object is an error; for an object, PHP002 iff neither `autoload` nor `autoload-dev` is truthy, PHP003 iff composer.lock is missing and `require` is truthy, all warnings, no PHP001 |
| ProjectDoctor.DiagnoseDotnet | goal/project_doctor.py:488-504 | at most one issue per project file, every one a NET001 warning, and none when every project file names a target framework |
| ProjectDoctor.DotnetFlagsEveryMissing | goal/project_doctor.py:494-503 | each project file without `<TargetFramework` gets its NET001 naming it |
| ProjectDoctor.DotnetFlagsOnlyMissing | goal/project_doctor.py:494-503 | every NET001 names a project file without `<TargetFramework` |
| ProjectDoctor.DiagnoseJava | goal/project_doctor.py:511-534 | at most one issue; JV001 (warning) iff pom.xml exists without `<modelVersion>`, JV002 (info) iff there is no pom.xml and no Gradle build file |
| ProjectDoctor.DotnetProjects | goal/project_doctor.py:490 | only files matching `*.csproj` or `*.fsproj` are examined |
| ProjectDoctor.PythonEntry | goal/project_doctor.py:541-542 | the Python entry of the dispatch table writes nothing when repair is off |
| ProjectDoctor.DiagnoseProject | goal/project_doctor.py:541-569 | an unregistered project type gives an empty report; the report carries the resolved directory and type; nothing is written when repair is off |
| ProjectDoctor.AlnumOnly | goal/project_doctor.py:615 | only ASCII letters and digits remain, none added |
| ProjectDoctor.TicketId | goal/project_doctor.py:612-616 | the id is the code, a dash and at most 50 letters and digits of the lowered title |
| ProjectDoctor.RunOf | goal/project_doctor.py:629 | the length of the leading run of characters of a class, as a regex repetition matches it |
| ProjectDoctor.TicketOnLine | goal/project_doctor.py:628-631 | a ticket read from a line has the recognised ticket shape |
| ProjectDoctor.TodoEntry | goal/project_doctor.py:636-651 | every entry starts with `- [<ticket id>] `, so the ticket reader finds its id again (`ProjectDoctor.TodoEntryReadBack`) |
| ProjectDoctor.TicketIdWellFormed | goal/project_doctor.py:612-616 | a code of the form `[A-Z]+\d+` and a title holding a letter or digit give an id of the form `[A-Z]+\d+-[a-zA-Z0-9]+` |
| ProjectDoctor.TicketOnHead | goal/project_doctor.py:628-631 | a line opening with `- [ID]` for a well-formed ID yields that ID |
| ProjectDoctor.TodoEntryReadBack | goal/project_doctor.py:612-651 | the ticket reader reads back the id of an entry the formatter wrote, when the code has the form `[A-Z]+\d+` and the title holds a letter or digit |
| ProjectDoctor.NewTicketsFacts | goal/project_doctor.py:671-683 | the added issues are unfixed issues of the input in order, with new distinct ids, and every unfixed issue ends up either already present or added |
| ProjectDoctor.AddIssuesToTodo | goal/project_doctor.py:654-710 | the count is the number of new tickets, nothing is written exactly when it is zero, and the written text is the old TODO.md followed by the dated section |
| ProjectDoctor.TodoLoopStep | goal/project_doctor.py:675-683 | one turn of the loop: an issue is added exactly when it is unfixed and its id is not yet seen, and the seen set grows by its id |
| VersionValidation.GetRegistryVersion | goal/version_validation.py:56-69 | an unknown registry gives no version; a known one, matched after lowering, answers with its handler's result |
| VersionValidation.RegistryIgnoresCase | goal/version_validation.py:66 | the registry name is matched case-insensitively: upper-casing it changes nothing |
| VersionValidation.DigitsFrom | goal/version_validation.py:85-93 | a digit run taken from a position stops at the end of the text or before a non-digit |
| VersionValidation.DigitsFromDigit | goal/version_validation.py:85-93 | every character of that run is a digit, so `[0-9]+` takes the maximal run |
| VersionValidation.DigitsFromIs | goal/version_validation.py:85-93 | any maximal digit run from a position is the one the expression takes |
| VersionValidation.SemverLen | goal/version_validation.py:85-93 | a `x.y.z` match is non-empty, fits in the text and is not followed by a digit |
| VersionValidation.SemverChars | goal/version_validation.py:85-93 | a `x.y.z` match holds only digits and dots |
| VersionValidation.SemverLocal | goal/version_validation.py:85-93 | whether and where `x.y.z` matches depends only on the matched text and the character after it |
| VersionValidation.HeadedLen | goal/version_validation.py:85-93 | a badge match is the badge head followed by a version, and fits in the text |
| VersionValidation.VersionBadgeLen | goal/version_validation.py:85 | a `version-`/`v-` badge match is non-empty and fits in the text |
| VersionValidation.PypiBadgeLen | goal/version_validation.py:93 | a `pypi-` badge match is non-empty and fits in the text |
| VersionValidation.HeadLen | goal/version_validation.py:88-89 | the length of a badge URL's head, up to and including its dash |
| VersionValidation.HeadLenOf | goal/version_validation.py:88-89 | for a head followed by a dash-free version, the head is found exactly |
| VersionValidation.SemverNoDash | goal/version_validation.py:85 | a `x.y.z` version contains no dash |
| VersionValidation.HeadedMatch | goal/version_validation.py:87-90 | every badge match is a well-formed badge URL |
| VersionValidation.BadgeParts | goal/version_validation.py:88-89 | a badge URL is its head followed by its version, and the version group is read back exactly |
| VersionValidation.HeadsExclusive | goal/version_validation.py:85-93 | the `v-`, `version-` and `pypi-` heads never start at the same place |
| VersionValidation.HeadedIs | goal/version_validation.py:85-93 | a head followed by a version match gives a badge match of their combined length |
| VersionValidation.HeadedLocal | goal/version_validation.py:85-93 | a badge match depends only on the text it covers and the character after it |
| VersionValidation.PrefixSelfOverlap | goal/version_validation.py:85 | the badge prefix cannot overlap itself, so two badge matches cannot interleave |
| VersionValidation.ApartFromShape | goal/version_validation.py:85-93 | two badge-shaped patterns never match at overlapping places |
| VersionValidation.HeadedNext | goal/version_validation.py:85-93 | the character after a badge match is not a digit |
| VersionValidation.SemverExtends | goal/version_validation.py:85-93 | a version followed by a non-digit matches as exactly that version |
| VersionValidation.HeadedRebadge | goal/version_validation.py:112-122 | the substitution rewrites a matched badge to its head followed by the new version |
| VersionValidation.HeadedRematch | goal/version_validation.py:112-122 | a rewritten badge is matched again, in full |
| VersionValidation.VersionKeepsAt | goal/version_validation.py:112-116 | after the first substitution, a rewritten version badge still matches at the same place and still starts with the same character |
| VersionValidation.AppendBadges | goal/version_validation.py:87-98 | the append loop adds one badge per match, in order, after the ones already found |
| VersionValidation.ExtractBadgeVersions | goal/version_validation.py:72-100 | no README gives no badges; otherwise all `version-`/`v-` badges in text order, then all `pypi-` badges |
| VersionValidation.MatchesAreUrls | goal/version_validation.py:87-98 | every match of either badge pattern is a badge URL of its kind |
| VersionValidation.BadgesWellFormed | goal/version_validation.py:72-100 | every extracted badge holds a well-formed URL whose version is its `x.y.z` group |
| VersionValidation.UpdateBadgeVersions | goal/version_validation.py:103-129 | no README gives no change; otherwise the text after both substitutions is written, and the result is true exactly when the text changed |
| VersionValidation.MatcherFacts | goal/version_validation.py:112-122 | the two badge patterns advance, are local, do not overlap each other or themselves, and their rewrites keep matching |
| VersionValidation.UpdatedFinds | goal/version_validation.py:103-122 | after the update, each pattern's matches are exactly the old matches, rewritten with the new version |
| VersionValidation.RebadgedUrl | goal/version_validation.py:112-122 | a rewritten badge URL is the old one with its version replaced by the new one |
| VersionValidation.RebadgedVersion | goal/version_validation.py:112-116 | a rewritten version badge keeps its kind and carries the new version |
| VersionValidation.RebadgedPypi | goal/version_validation.py:119-122 | a rewritten PyPI badge keeps its kind and carries the new version |
| VersionValidation.UpdateThenExtract | goal/version_validation.py:72-129 | for an `x.y.z` version, extraction after the update finds the same number of badges, in the same order, each carrying the new version |
| VersionValidation.AnyStale | goal/version_validation.py:265-268 | true exactly when some badge's version differs from the current one |
| VersionValidation.CheckReadmeBadges | goal/version_validation.py:252-282 | no README gives the not-found report; otherwise one entry per badge with its URL and version, flagged exactly when it differs from the current version, and the overall flag and message follow whether any is flagged |
| VersionValidation.UpdatedReadmeIsCurrent | goal/version_validation.py:103-282 | after updating to an `x.y.z` version, the README check finds the same badges, all current |
| VersionValidation.MessageIcons | goal/version_validation.py:285-301 | the error icon appears exactly when there is an error, the check mark exactly when there is none and the version is current and known, the warning sign otherwise |
| VersionValidation.FormatValidationResults | goal/version_validation.py:285-301 | one message per result, in order, each the message for that ecosystem's result |
| VersionValidation.MessageShowsVersions | goal/version_validation.py:285-301 | every line names its ecosystem right after the icon; an error line ends with the error, an up-to-date line with `Version X is up to date`, and a line for a version behind the registry with `Local X != Registry Y` |
| GitOps.HostSepPathForm | goal-2.1.68/goal/git_ops.py:84-87 | the left-to-right recogniser of one URL pattern accepts exactly the scheme, host, separator and path form |
| GitOps.ValidateRepoUrlForms | goal-2.1.68/goal/git_ops.py:80-89 | after stripping, a URL is accepted exactly when it is `git@HOST:PATH`, `http://HOST/PATH` or `https://HOST/PATH` with the host and path character classes of the patterns |
| GitOps.AcceptedForm | goal-2.1.68/goal/git_ops.py:80-89 | every URL built from an accepted scheme, a host and a path is accepted |
| GitOps.RejectedEmptyHost | goal-2.1.68/goal/git_ops.py:84 | an SSH URL with an empty host is rejected |
| GitOps.ValidateIgnoresPadding | goal-2.1.68/goal/git_ops.py:82 | surrounding whitespace does not change the verdict |
| GitOps.DropGitSuffix | goal-2.1.68/goal/git_ops.py:185-186 | one trailing `.git` is removed and nothing else; a name without it is kept |
| GitOps.LastSegment | goal-2.1.68/goal/git_ops.py:184 | the corrected splitter at `/` or `:`: the longest suffix without a separator, preceded by a separator unless it is the whole text |
| GitOps.LastSegmentOf | goal-2.1.68/goal/git_ops.py:184 | for the corrected splitter at `/` or `:`, whatever precedes the last separator, the segment is what follows it |
| GitOps.RepoNameOf | goal-2.1.68/goal/git_ops.py:178-188 | corrected: a URL ending in a separator, a name, `.git` and any number of slashes yields that name as the directory |
| GitOps.GitNamedFacts | goal-2.1.68/goal/git_ops.py:185-186 | `name.git` stays separator-free and drops back to `name` |
| GitOps.RStripSlashes | goal-2.1.68/goal/git_ops.py:184 | `rstrip('/')` removes exactly the trailing slashes |
| GitOps.RepoNamesAgree | goal-2.1.68/goal/git_ops.py:178-188 | the directory name as written and the corrected one agree whenever the last `/`-segment holds no `:`, as for every HTTP(S) URL |
| GitOps.NoSeparatorIsWhole | goal-2.1.68/goal/git_ops.py:184 | a name without separators is its own last segment |
| GitOps.SshNameAsWrittenKeepsHost | goal-2.1.68/goal/git_ops.py:182-188 | for an accepted `git@HOST:NAME.git` URL, the name as written is `git@HOST:NAME`, while the corrected name is `NAME` |
| GitOps.CloneArgs | goal-2.1.68/goal/git_ops.py:172-174 | git is called with `clone`, the stripped URL, and the target directory only when one is given |
| GitOps.CloneRepository | goal-2.1.68/goal/git_ops.py:158-190 | an invalid URL gives the invalid-URL message; success exactly when the URL is valid and git succeeds; then the target directory or the corrected name taken from the URL, and otherwise the failure message |
| GitOps.InvalidUrlNeverClones | goal-2.1.68/goal/git_ops.py:168-170 | an invalid URL fails whatever git would do, so git is never consulted |
| GitOps.ClonedDirectoryIsAName | goal-2.1.68/goal/git_ops.py:180-187 | a clone without a target reports the corrected directory name, with no `/` or `:` |
| GitOps.Entries | goal-2.1.68/goal/git_ops.py:110-113 | at most one remote entry per line |
| GitOps.ListRemotes | goal-2.1.68/goal/git_ops.py:104-114 | the loop over `git remote -v` builds exactly the remote list of the specification, the `seen` dictionary in insertion order |
| GitOps.RemotesFirstPerName | goal-2.1.68/goal/git_ops.py:109-114 | remote names are distinct, every name of a two-field line is listed, and each with the URL of its first line |
| GitOps.NoOutputNoRemotes | goal-2.1.68/goal/git_ops.py:107-108 | a failed command or blank output lists no remotes |
| GitOps.ListRemoteBranches | goal-2.1.68/goal/git_ops.py:132-145 | the loop keeps, in order, one branch per two-field tab line, with `refs/heads/` removed |
| GitOps.BranchOfHead | goal-2.1.68/goal/git_ops.py:139-144 | a `SHA<TAB>refs/heads/NAME` line gives the branch `NAME` |
| GitOps.BranchOfOneField | goal-2.1.68/goal/git_ops.py:140-141 | a line without a tab names no branch |
| GitOps.Cleaned | goal-2.1.68/goal/git_ops.py:408-411 | at most one name per line, blanks dropped |
| GitOps.GetWorkingTreeFiles | goal-2.1.68/goal/git_ops.py:402-414 | the loop yields the stripped, non-blank lines of both outputs, first occurrences only, in order |
| GitOps.CleanLines | goal-2.1.68/goal/git_ops.py:408-413 | the loop yields the stripped, non-blank lines in order, each only at its first occurrence |
| GitOps.CleanedMembers | goal-2.1.68/goal/git_ops.py:408-411 | the cleaned lines are exactly the non-empty stripped lines |
| GitOps.CleanedFacts | goal-2.1.68/goal/git_ops.py:408-413 | deduplicated cleaned lines are distinct and stripped, and hold a name exactly when some line strips to it |
| GitOps.WorkingTreeFilesFacts | goal-2.1.68/goal/git_ops.py:402-414 | the working-tree files are distinct, non-empty and stripped, and a name is listed exactly when some output line strips to it |
| GitOps.StagedFiles | goal-2.1.68/goal/git_ops.py:390-393 | blank output gives no files; otherwise the files are newline-free and joined by newlines give back the stripped output |
| GitOps.PorcelainPaths | goal-2.1.68/goal/git_ops.py:396-399 | at most one path per porcelain line |
| GitOps.PorcelainPathsFacts | goal-2.1.68/goal/git_ops.py:396-399 | the unstaged paths are, in order, the paths after the status columns of exactly the non-empty lines |
| GitOps.BlankStatusNoFiles | goal-2.1.68/goal/git_ops.py:396-399 | blank status output lists no unstaged files |
| PackageManagers.NewPackageManager | goal/package_managers.py:16-37 | the dataclass keeps the given fields, and environment variables that are not given become the empty map |
| PackageManagers.TableNamesDistinct | goal/package_managers.py:41-446 | the table's entries have distinct names, as the keys of the source dictionary do |
| PackageManagers.Lookup | goal/package_managers.py:489-491 | the entry found has the name asked for and is in the table; none only when no entry has that name |
| PackageManagers.FindPresent | goal/package_managers.py:460-482 | the file loop stops at the first present file, a name with `*` being tried as a glob: true exactly when one of the files is present |
| PackageManagers.DetectPackageManagers | goal/package_managers.py:449-486 | the loop over the table appends each manager with a present lock or configuration file once, then sorts stably by priority, highest first |
| PackageManagers.DetectFacts | goal/package_managers.py:449-486 | exactly the detected managers are listed, each once, in descending priority, and managers of equal priority keep their table order |
| PackageManagers.ByLanguageFacts | goal/package_managers.py:494-496 | exactly the table's managers of that language, in table order |
| PackageManagers.CandidatesFacts | goal/package_managers.py:504-528 | the candidates are exactly the detected managers on the search path, of the requested language when one is given, in descending priority |
| PackageManagers.PreferredIsHighest | goal/package_managers.py:513-529 | the preferred manager is eligible and of the highest priority among eligible managers; none exactly when no manager is eligible |
| PackageManagers.FormatAfterPlain | goal/package_managers.py:549 | text without braces is copied in front of the formatted rest |
| PackageManagers.FormatPlain | goal/package_managers.py:549 | a template without braces formats to itself |
| PackageManagers.FormatField | goal/package_managers.py:549-551 | a named field is replaced by its keyword's value, and a missing keyword is the key error |
| PackageManagers.FormatEscapes | goal/package_managers.py:549 | `{{` and `}}` format to single braces |
| PackageManagers.FormatPackageManagerCommand | goal/package_managers.py:532-551 | a missing or empty template is the unsupported-command error; otherwise the formatted template, with a missing keyword reported as the missing-parameter error and other format errors failing too |
| PackageManagers.AddCommandNamesPackage | goal/package_managers.py:532-551 | an `add` template `TEXT{package}` formats to `TEXT` followed by the package, and without the keyword reports the missing `package` parameter |
| PackageManagers.SuggestPackageManagers | goal/package_managers.py:615-631 | the loop collects the available managers of each language, keeps one per name and sorts stably by priority, as the specification function does |
| PackageManagers.SuggestionsFacts | goal/package_managers.py:615-631 | suggestions have distinct names and descending priority; each is a table manager of a detected language on the search path, and every such manager's name is suggested |
| PackageManagers.FlatSuggestions | goal/package_managers.py:622-625 | a manager is collected exactly when it is in the table, of a detected language, and on the search path |
| Formatter.Get | goal/formatter.py:13-21 | a key has a value in the front matter exactly when it is among its keys |
| Formatter.UpsertGet | goal/formatter.py:21 | after setting one key, that key reads the new value and every other key reads what it did before |
| Formatter.UpsertKeys | goal/formatter.py:21 | setting a key keeps the key order, appending the key only when it is new |
| Formatter.UpsertDistinct | goal/formatter.py:21 | setting a key keeps the keys distinct |
| Formatter.UpdateAllFacts | goal/formatter.py:19-21 | `dict.update`: each key reads its last value among the arguments, or its old value when not given; old keys keep their order in front and stay distinct |
| Formatter.UpdateAllFresh | goal/formatter.py:19-21 | updating an empty front matter with distinct keys gives those entries in order |
| Formatter.JsonEscapeChar | goal/formatter.py:66-67 | every character `json.dumps` writes for one character is printable ASCII |
| Formatter.Hex4 | goal/formatter.py:66-67 | a `\uXXXX` code is four printable hexadecimal digits |
| Formatter.JsonEscapeFacts | goal/formatter.py:66-67 | the escaped text is printable ASCII, and printable text without quotes or backslashes is left as it is |
| Formatter.Repeat | goal/formatter.py:17 | `'#' * level`: `level` copies of the character, none for a level below one |
| Formatter.HeaderMarks | goal/formatter.py:15-17 | a header is `level` hash marks, a blank, the title and a newline |
| Formatter.ItemLines | goal/formatter.py:34-36 | one line per item |
| Formatter.ListNumbering | goal/formatter.py:31-36 | an ordered list's line `i` starts with the number `i + 1` and a dot before the item; an unordered one starts with a dash |
| Formatter.StatusReportsSuccess | goal/formatter.py:40-42 | a command's status line reports success exactly when the exit code is zero |
| Formatter.FailedLacksMark | goal/formatter.py:40 | the status line of a failed command has no check mark |
| Formatter.ActionLines | goal/formatter.py:50-51 | one line per action taken |
| Formatter.StepLines | goal/formatter.py:55-56 | one line per next step |
| Formatter.RenderLayout | goal/formatter.py:58-74 | the output is the front matter, the sections in order and the footer; the front matter is empty exactly when there is no metadata, and otherwise opens and closes with `---` |
| Formatter.MarkdownFormatter.constructor | goal/formatter.py:11-13 | a new formatter has no sections and no metadata |
| Formatter.MarkdownFormatter.AddHeader | goal/formatter.py:15-17 | appends the header line and leaves the metadata alone |
| Formatter.MarkdownFormatter.AddMetadata | goal/formatter.py:19-21 | the metadata becomes the old metadata updated with the arguments, keys staying distinct; the sections are unchanged |
| Formatter.MarkdownFormatter.AddSection | goal/formatter.py:23-29 | appends the section title, then the content, fenced with the language when asked |
| Formatter.MarkdownFormatter.AddList | goal/formatter.py:31-36 | appends the list title and one numbered or dashed line per item, in order |
| Formatter.MarkdownFormatter.AddCommandOutput | goal/formatter.py:38-44 | appends the command, its status and exit code, and the fenced output |
| Formatter.MarkdownFormatter.AddSummary | goal/formatter.py:46-56 | appends the summary title, one line per action, and the next steps only when there are some |
| Formatter.MarkdownFormatter.Render | goal/formatter.py:58-74 | the loop builds exactly the rendered text of the specification, with the timestamp as a parameter |
| Formatter.StatOf | goal/formatter.py:170-172 | a file's counts come from its first numstat entry, and are zero when it has none |
| Formatter.PushMetadataKeys | goal/formatter.py:101-108 | the push report's front matter has the six keys in source order, distinct, so updating an empty one keeps them as given |
| Formatter.ChangeHeadlineFacts | goal/formatter.py:117-135 | the overview names the first feature, mentions the second, ends with the count of further features or with `support`, and falls back to the summary or the file count |
| Formatter.MeaningfulFacts | goal/formatter.py:138-143 | at most six listed entities, each longer than two characters, taken in order from the entities |
| Formatter.EntityLines | goal/formatter.py:141-143 | one line per listed entity |
| Formatter.FileLines | goal/formatter.py:167-176 | one line per listed file |
| Formatter.FileDetailsFacts | goal/formatter.py:167-176 | the first ten files each get their line with their counts, and a closing line gives how many more there are when there are over ten |
| Formatter.NextStepsChoice | goal/formatter.py:195-214 | the success steps exactly when there is no error and the tests passed; the test-failure steps exactly when the tests failed; the error steps exactly for an error with passing tests |
| Formatter.PushSectionsEnds | goal/formatter.py:111-219 | the push report starts with its header and ends with the summary of actions and next steps |
| Formatter.FormatPushResult | goal/formatter.py:77-221 | the text is the rendering of the report's sections and front matter, with both timestamps as parameters |
| Formatter.AddPushOverview | goal/formatter.py:114-152 | appends exactly the overview, feature and entity parts and leaves the metadata alone |
| Formatter.AddKeyChanges | goal/formatter.py:140-143 | appends the key functions title, then one bullet per meaningful entity in order, and leaves the metadata alone |
| Formatter.AddPushDetails | goal/formatter.py:154-192 | appends the commit body, the changes, the tests, the actions and the error parts in that order and leaves the metadata alone |
| Formatter.AddPushChanges | goal/formatter.py:158-176 | appends exactly the domain and file parts and leaves the metadata alone |
| Formatter.SummarizeDomains | goal/formatter.py:161-163 | one `**Domain:** n files` line per domain that has files, in the order of the domains |
| Formatter.DescribeFiles | goal/formatter.py:169-171 | one `f (+adds/-dels)` line per shown file, in order, with the counts looked up in the stats |
| Formatter.UnstagedFacts | goal/formatter.py:250-253 | no unstaged files adds nothing; otherwise a title, the first twenty files, and a note of how many more when there are over twenty |
| Formatter.StatusReportLayout | goal/formatter.py:224-265 | the status report has no front matter and starts with its header |
| Formatter.FormatStatusOutput | goal/formatter.py:224-265 | the text is the rendering of the status sections with the timestamp as a parameter |

## Left out

- Running git and other programs (`run_git`, `run_command`, the `push`, `publish`, `validate` and `fix-summary` commands, `confirm`, `run_tests`, `publish_project`): these are subprocess calls, prompts and `sys.exit`. Git's exit status and standard output are parameters of the parsers that read them.
- `ensure_git_repository`, `ensure_remote` and the interactive clone flow in `goal-2.1.68/goal/git_ops.py` are prompts around git calls. `get_remote_url` and `get_remote_branch` only strip the output of a git call.
- `goal/user_config.py`: interactive licence prompts and JSON persistence under the home directory.
- The registry lookups (`get_pypi_version` and the other HTTP helpers) and `validate_project_versions`: network, TOML and JSON reading. The registry answers are a parameter of the dispatch.
- Python's `ast` analysis in the deep analyzer (`_analyze_python_diff`, `_extract_python_entities`, `_calculate_complexity`, `_get_decorator_name`, `generate_functional_summary`) and the `analyze_file_diff` dispatch that feeds it.
- File reads and filesystem probing: the read loop in `detect_file_relations`, the `GoalConfig` detection helpers and `save`, `sync_all_versions` and `get_current_version`. File contents are parameters, and so is the relation drawing that `detect_file_relations` produces.
- Globbing, `rglob` and `shutil.which` in the package-manager module are oracles (`Project`, `onPath`). `detect_project_language` is not modelled; its result is the `languages` parameter. `get_package_manager_info` and `list_all_package_managers` are not modelled; they are dictionary dumps of the table.
- The package-manager table is the parameter `ms`, with the shipped table as a constant.
- `str.format` is modelled for plain `{name}` fields and `{{`/`}}` escapes. It does not cover conversions, format specs, attribute or index fields, or a `{` inside a field. The IndexError message for a positional field leaves out the index number Python prints.
- Clocks: the CHANGELOG date and the formatter's timestamps are parameters. `datetime.now()` is not modelled.
- Floats: `relation_density` and `functional_coverage` are not modelled. For `format_complexity_delta`, only the branch choice is modelled (by integer cross-multiplication); the printed percentage is not. Likewise `SummaryQualityFilter.validate`'s complexity warning is the value `ComplexityOver(old, new)` in `Warnings`: its text `Complexity N% > M% (will be normalized)`, with the float percentage rounded by `:.0f`, is not rendered.
- Set-ordered results are not modelled: `extract_function_changes` (`list(set(...))[:5]`) and `analyze_diff_for_type`'s git call. Where the source iterates a `set` elsewhere, the model states order-independent facts or uses a sorted listing.
- `re.sub` replacement templates: only the literal replacements the source uses are modelled, not backslash escapes in general. Regular expressions are modelled as the specific recognisers of each table, not as a general engine. In `SmartCommit.LineEntity` the configured `entity_pattern` is an oracle `group1` that answers a capture or none; the IndexError that `match.group(1)` raises for a pattern without a capture group is not modelled (every shipped pattern has one).
- Unicode: `.lower()`, `.upper()`, `\w`, `\d`, `\s` and `int()` are modelled on ASCII only, with no Unicode case folding and no non-ASCII digits. Glyphs in the source (arrows, emoji) are the code points the file holds.
- `GoalConfig.get_strategy`, `get_registry`, `should_auto_update` and `to_dict` are one-line lookups over the modelled `get`. YAML parsing is a parameter: the loaded file is a `Value`.
- `CommitMessageGenerator`'s git getters are not modelled, except `get_diff_stats`, whose `self.cache` memoisation `GetDiffStats` models; staged files, diff text and numstat output are parameters. Also not modelled: `generate_abstraction_message` and `generate_changelog_entry` of the legacy generator (which delegate to other modules), and `extract_functions_changed` (set order).
- `generate_enhanced_summary` in `goal/enhanced_summary.py` is modelled only for the role and complexity steps. Its orchestration of the analyzer, file relations and the printed complexity delta is not.
- `SmartCommitGenerator.analyze_changes`: only the counting of added and removed lines (`CountChanges`) is modelled. Its calls into git and the deep analyzer, `_get_staged_files` and `_get_file_diff` are not.
- `diagnose_and_report`, `diagnose_and_report_with_todo` and `_log_issue` in the project doctor only print the report. A file write is modelled as a returned `Writes` record: the new text of `pyproject.toml`, and the new JSON value of `package.json` (its serialisation is not modelled).
- Front-matter values are text, integers, lists of strings and None, the kinds the reports store. Dictionary values and other nested JSON are not modelled.
- In the push report, a missing `analysis` key reads as its empty default, and `stats` is the per-file counts dictionary as a list in insertion order.
- `auto_fix`'s shallow copy is modelled by a `RelationsBlock` object that the input summary and the fixed summary share. Other aliasing between the dictionaries the source passes around is not modelled.
- UpdateChangelog: models the corrected domain-mode entry of the Findings row for goal/cli.py:664-673; the entry as written, which drops domains outside the fixed order, is `Cli.DockerFileDroppedAsWritten`'s subject.
- BuildRoles: uses the corrected noise rule of the Findings row for goal/enhanced_summary.py:22-28; with `is_noise` as written, a name such as `save_config_helper` keeps its role.
- CollectRoles: the loop of BuildRoles; it filters with the corrected noise rule (`KeepsRole`), so `save_config_helper` keeps its role in the source and not here.
- RoleEntriesMapped: states the corrected noise rule, not `is_noise` as written (see BuildRoles).
- RoleEntriesComplete: likewise states the corrected noise rule.
- BodySections: renders the corrected capability tree and flow lines of the Findings rows for goal/enhanced_summary.py:788-790 and 829-832; the text as written differs with six capabilities or a fork.
- FormatEnhancedBody: renders BodySections, so it carries the same corrections.
- FilterEntities: filters with the corrected noise rule; `filter_entities` as written keeps `parse_helper` (`SummaryQuality.NoiseSuffixCounterexample`).
- TableLoop: computes the corrected feature table, matching anchored patterns per file; the loop as written searches the joined text and misses `main.tf` (`SmartCommit.TerraformFileMissedAsWritten`).
- DetectFeatures: built on the corrected table, so it reports Terraform for `main.tf`, which `detect_features` as written does not.
- GenerateMessage: the corrected message; as written the verb branches and the final fallback raise AttributeError, modelled by `SmartCommit.GenerateMessageAsWritten`.
- InsertRequiresPython: the corrected insertion, after whatever break ends the first `[project]` header's line, with a newline added first when that line ends the text; as written only `[project]` directly followed by `\n` is matched, so nothing is inserted into a file ending in `[project]` (`ProjectDoctor.RequiresPythonNotInsertedAsWritten`). Where the header is followed by `\n` the two agree (`ProjectDoctor.InsertAgreesAfterNewline`).
- CheckRequiresPython: uses the corrected insertion, so a repaired text always holds `requires-python`, which the source does not ensure for a file ending in `[project]`, nor for a header followed by a comment or `\r\n`.
- DiagnosePython: runs the corrected PY007 insertion, so its written text differs from `_diagnose_python` on a file ending in `[project]`.
- LastSegment: the corrected splitter at `/` or `:`; line 184 as written splits at `/` only, which `GitOps.SshNameAsWrittenKeepsHost` models.
- LastSegmentOf: about the corrected splitter, not the `rsplit('/', 1)` as written.
- CloneRepository: returns the corrected directory name; for `git@host:repo.git` the source returns `git@host:repo`.
- ClonedDirectoryIsAName: holds of the corrected name only; the source's directory for `git@host:repo.git` contains `:`.
- Show: a list renders as `<list>` and a mapping as `<mapping>`, not as the Python `repr` the f-strings of `GoalConfig.validate` print (goal/config.py:694, 699); quoting and escaping of nested strings is not modelled.
- GoalConfig.Validate: its `Invalid versioning.strategy` and `Invalid git.commit.strategy` messages use `Show`, so for a list or mapping value the message text differs from the source's; which errors are reported is unaffected.
- Validate: a mapping under `versioning.files` is iterated by the source over its keys in file order; the model's mappings keep no order, so `Iterated` reports it as not iterable and `Validate` returns Err.
- Config.DefaultConfig: reproduces the `version` field, the project and versioning tables, `advanced.auto_update_config`, and of `git` the commit strategy, scope, abstraction level, domain mapping, benefit keywords and templates, the changelog switches and the tag settings. Left out are `git.commit.abstraction_levels`, `classify_by`, `value_patterns` and `relations`, the changelog `template`, `sections` and `domain_sections`, `advanced.performance`, and the `strategies`, `registries`, `hooks`, `quality` and `code_parsers` tables. They are large literal tables, and the model of `GoalConfig.get` on a missing path returns the caller's default, so a lookup there gives the default instead of the shipped value. `CodeAbstraction` takes its parsers from its own configuration record, not from this table.
- Glob: `fnmatch` character classes `[...]` are not modelled; `[` is taken literally. No pattern of the shipped tables holds `[`.

## Findings

| source | as written | input that shows it | evidently intended | confidence | as-written member | corrected member |
|---|---|---|---|---|---|---|
| goal/enhanced_summary.py:22-28 | the noise patterns `_helper$` and `_internal$` are applied with `re.match`, so they only match from the start of the name; any name they match already starts with `_` | `parse_helper` is not noise, though it ends in `_helper` | names ending in `_helper` or `_internal` are noise | high, not executed | SummaryQuality.NoiseSuffixCounterexample | SummaryQuality.IsNoiseIntendedSuffixes |
| goal/smart_commit.py:596 | `generate_message` calls `self.abstraction._get_verb_for_commit_type`, which `CodeAbstraction` does not define, so these paths raise AttributeError | a `feat` change to `goal/parser.py` with the entity `parse_config`, at abstraction level `low` | the verb comes from `get_action_verb`, defined at goal/smart_commit.py:258 | high, not executed | SmartCommit.LowLevelEntityRaises | SmartCommit.DescriptionWithVerb |
| goal/smart_commit.py:612 | the final fallback of `generate_message` makes the same undefined call | any change that reaches the last return | the fallback uses `get_action_verb` | high, not executed | SmartCommit.MessageAsWrittenRaises | SmartCommit.GenerateMessage |
| goal/enhanced_summary.py:829-832 | the relation drawing drops its first line as a header, but that line is the first flow line | a fork from `a` to `b` and `c`: the drawing's first line, the `a` to `b` branch, is not shown | every flow line of the drawing is shown | medium, not executed | EnhancedSummary.FlowDropsFirstTarget | EnhancedSummary.FlowShowsEveryLine |
| goal/enhanced_summary.py:788-790 | the closing branch glyph is chosen against the full capability count, while only the first five are listed | six capabilities: every listed line, the fifth and last included, gets the open branch glyph | the last listed capability closes the tree | high, not executed | EnhancedSummary.UnclosedCapabilityTree | EnhancedSummary.CapabilityLinesAgree |
| goal/smart_commit.py:208 | `\.tf$` is searched in the file names and the entities joined with spaces, so `$` only matches at the very end of that text | the file `main.tf` and no entities: the searched text is `main.tf` followed by a space | a changed `.tf` file marks the Terraform feature | high, not executed | SmartCommit.TerraformFileMissedAsWritten | SmartCommit.TerraformFileFound |
| goal/smart_commit.py:218 | `\.service$` is searched the same way | the file `app.service` and no entities: no pattern ending in a non-space character and `$` can match | a changed `.service` file marks the systemd feature | high, not executed | SmartCommit.AnchoredAlternativesBlind | SmartCommit.TableFeatures |
| goal/cli.py:664-673 | the domain-mode CHANGELOG entry lists only the domains of a fixed order, so changes filed under any other domain vanish | a changed `Dockerfile`, which the default configuration maps to `docker` | every described change appears under its domain | high, not executed | Cli.DockerFileDroppedAsWritten | Cli.DescribedFileWritten |
| goal/project_doctor.py:259-263 | the PY007 fix inserts `requires-python` only after `[project]` followed by a newline, yet marks the issue fixed either way | a `pyproject.toml` that ends with `[project]` and no newline | the line is inserted after the `[project]` header whenever the issue is reported fixed | high, not executed | ProjectDoctor.RequiresPythonNotInsertedAsWritten | ProjectDoctor.CheckRequiresPython |
| goal-2.1.68/goal/git_ops.py:182-188 | the clone directory is the text after the last `/`, so an SSH URL without a `/` keeps its host | `git@host:repo.git` gives the directory `git@host:repo` | the directory git itself creates, `repo` | high, not executed | GitOps.SshNameAsWrittenKeepsHost | GitOps.RepoNameOf |
