# Package walker and descriptor normalisers

This project models two parts of a package toolkit for Node.js and proves
properties of them.

**The walker** (`lib/walker.js`) lists the files of a package tree. Each
directory may hold an ignore file (`.distignore`, `.npmignore` or
`.gitignore`, or a built-in default set when none is found). Each line is
filed as a rule in one of three tables:

- `include`: lines starting with `!`;
- `top`: lines starting with `/`;
- `every`: every other line.

The key a rule is filed under is the text before its first `*`. `ignore`
looks for the group with the exact key, else the first key that is a prefix
of the path, else the empty key. The group decides, and `include` wins over
`top`, which wins over `every`. The walk descends depth first:

- it records files, directories and symbolic links in a manifest;
- it counts rules, files, ignored files and the total size;
- it enters a directory reached through a link only once;
- it enters an ignored directory only when an `include` rule lies under it.

Modules:

- `Glob`: the matcher a rule compiles to.
- `Rules`: the tables, filing a rule, `select` and `ignore`.
- `Walker`: the `RuleSet` and `Walker` classes with their in-place methods,
  each proved against a specification function, and lemmas on those functions.
- `WalkerFixture`: the walker's own test tree. The model lists exactly seven
  paths for it.

**The descriptor normalisers** map a raw `package.json` object (`raw`) into
a normalised descriptor (`normalized`). They record which raw keys they
consumed in `copied`, and warn about every raw key left unconsumed. There are
two of them:

- `normalize` of `lib/package-insight.js`, with the merge helpers of
  `makeMergeHelpers`;
- `normalize` of `lib/packagewrap.js`, with its local helpers.

They run on an explicit JavaScript heap:

- `Js` and `Props` model values and objects. Properties keep JavaScript's
  order, and reads and writes follow sloppy mode.
- `normalized[key] = raw[key]` shares one object. A later write through either
  name is visible through both.

The remaining modules:

- `Merge`: every helper as a function from the state (heap, warnings,
  copied set) to an outcome. A throw stops at the state it reached.
- `MergeHelpers.Helpers`: a class whose methods update that state in place.
  Each is proved equal to its function.
- `Formats`: the value formatters.
- `Json`: `JSON.stringify` for the locator warning.
- `Steps`: the statements outside the helpers.
- `PackageInsight` and `PackageWrap`: the two mapping sequences, as phase
  functions and as methods on `Helpers`.
- `MergeLaws`: what the helpers and the unused-key pass guarantee.

## Model

| member | source | states |
|---|---|---|
| Glob.AcceptsIff | lib/walker.js:54-57 | a rule accepts a path exactly when some substring of the path matches the whole rule, where `*` stands for any run of non-`/` characters |
| Glob.SomewhereIff | lib/walker.js:54 | the unanchored scan over start positions agrees with the existential substring definition |
| Glob.LiteralAccepts | lib/walker.js:54-57 | a rule without `*` accepts a path exactly when it occurs in it |
| Rules.KeyText | lib/walker.js:42 | the key is the longest `*`-free prefix of the rule |
| Rules.Place | lib/walker.js:32-50 | the dependency rules are dropped only when dependencies are included; `!` files under `include` with the `!` stripped; `/` files under `top`; the rest under `every`; a `/`-key gets `subPath` in front when `subPath` is non-empty |
| Rules.WithTable | lib/walker.js:51-55 | replacing one scope's table leaves the other two and the filename unchanged |
| Rules.InsertEffect | lib/walker.js:51-59 | filing a rule appends its text to exactly one group, creating the group when missing; every other group keeps its contents; the rule counter goes up by one exactly when the rule is filed |
| Rules.InsertOrdered | lib/walker.js:51-53 | the tables stay in JavaScript property order after a rule is filed |
| Rules.FirstPrefix | lib/walker.js:163-168 | the `for…in` scan finds the first key in property order that is a prefix of the path, or reports that none is |
| Rules.SelectExact | lib/walker.js:158-181 | when the path is itself a key, that group alone decides |
| Rules.SelectFirstPrefix | lib/walker.js:158-181 | otherwise the first prefix key's group decides |
| Rules.SelectNone | lib/walker.js:158-181 | with no prefix key at all, `select` is false |
| Walker.Lines | lib/walker.js:65 | `split("\n")` gives at least one piece and no piece contains a newline |
| Walker.UnlinesLines | lib/walker.js:65 | joining the pieces with newlines gives back the file text |
| Walker.LinesUnlines | lib/walker.js:65 | splitting newline-free lines joined by newlines gives back the lines |
| Walker.NonEmpty | lib/walker.js:66 | the lines that are kept are non-empty, and there are no more of them than lines |
| Walker.InsertLinesNonEmpty | lib/walker.js:65-68 | empty lines have no effect on the loaded rules |
| Walker.InsertLinesCount | lib/walker.js:59-68 | without dependency dropping, the rule count grows by the number of non-empty lines |
| Walker.FirstPresent | lib/walker.js:96-102 | finds the first candidate ignore file that exists |
| Walker.TryCandidatesFirst | lib/walker.js:96-102 | only the first existing candidate is loaded, and it names the filename; an unreadable one fails the walk; with none, nothing changes |
| Walker.LoadRulesNamed | lib/walker.js:83-122 | after loading, a filename is always set; with no file and no inherited name, the defaults are loaded and the name is `"default"`; with an inherited name, nothing changes |
| Walker.LoadRulesStats | lib/walker.js:83-122 | loading rules changes no counter but the rule count |
| Walker.TailRulesEnd | lib/walker.js:78-79 | after a file is loaded, the every-groups for `""` and `.sm/` end with `*~backup-*/` and `.sm/`; the `.git/` group is untouched |
| Walker.ProbeRulesGit | lib/walker.js:70-74 | when the probed `.git` exists, the `.git/` group ends with `.git/` |
| Walker.LoadFileImplicit | lib/walker.js:62-81 | every loaded ignore file brings the backup and `.sm/` rules, and the `.git/` rule when `.git` is present |
| Walker.WalkDirGrows | lib/walker.js:130-297 | a directory walk only adds manifest entries under its own path, never lowers a counter and never forgets a traversed link |
| Walker.FoldGrows | lib/walker.js:154-295 | the same for the walk over a directory's entries |
| Walker.StepGrows | lib/walker.js:192-293 | the same for one entry |
| Walker.IgnoredDirNoEntry | lib/walker.js:251-277 | an ignored directory gets no entry of its own and is not entered unless an include key lies under it |
| Walker.LinkEnteredOnce | lib/walker.js:213-239 | a link to a directory is recorded and counted; the directory behind it is entered only when its real path has not been traversed, and it is then marked traversed |
| Walker.BrokenLinkSkipped | lib/walker.js:204-210 | a link whose target does not exist changes nothing |
| Walker.FileAccounted | lib/walker.js:279-291 | a file is counted; if ignored it is counted as ignored, otherwise it is recorded with its mtime and size and its mtime is added to the total size |
| Walker.Select | lib/walker.js:158-181 | the loop computes `select` exactly |
| Walker.Ignore | lib/walker.js:157-190 | `include` wins over `top`, which wins over `every`; an entry path gets a trailing `/` for a directory |
| Walker.HasIncludeUnder | lib/walker.js:260-265 | the loop finds whether some include key starts with the directory path |
| Walker.RuleSet.constructor | lib/walker.js:12-20 | three empty tables and no filename |
| Walker.RuleSet.Clone | lib/walker.js:134 | the deep clone holds the same rules as its parent |
| Walker.Walker.constructor | lib/walker.js:10-27 | empty rules and zero counters |
| Walker.Walker.InsertIgnoreRule | lib/walker.js:31-60 | the rule set and counters become exactly what filing the rule specifies |
| Walker.Walker.LoadIgnoreRulesFile | lib/walker.js:62-81 | an absent file gives `false` and no change; an unreadable one, an error naming its path; otherwise `true` and the file's rules plus the implicit ones |
| Walker.Walker.LoadFirstIgnoreFile | lib/walker.js:95-102 | the candidates loop has the outcome of the specification, error included |
| Walker.Walker.LoadIgnoreRules | lib/walker.js:83-123 | the candidate list by options, then the defaults, as the specification gives |
| Walker.Walker.WalkTree | lib/walker.js:130-144 | clone the inherited rules, load the directory's own, walk its entries: outcome, manifest, counters and traversed links equal `Walker.WalkDir`'s (whose growth is `Walker.WalkDirGrows`) |
| Walker.Walker.WalkEntries | lib/walker.js:140-296 | the entries in listing order; the first error ends the walk |
| Walker.Walker.WalkEntry | lib/walker.js:192-293 | one entry, by kind (file, directory, link, other), equal to `Walker.Step` (characterised by `Walker.FileAccounted`, `Walker.IgnoredDirNoEntry`, `Walker.LinkEnteredOnce` and `Walker.BrokenLinkSkipped`) |
| Walker.Walker.Walk | lib/walker.js:125-306 | loads the root rules into the walker's own set, then walks from the root |
| WalkerFixture.WalkFixture | test/walker.js:27-55 | the walk of the test tree succeeds with the expected rules and manifest |
| WalkerFixture.WalkFixtureListing | test/walker.js:47-53 | the manifest has exactly the seven paths the test counts, and the counters are 7 rules, 6 files, 2 ignored and total size 4 |
| Formats.PrefixRelativePath | lib/package-insight.js:438-441 | the result starts with `.` or `/`; it is the input exactly when the input already does, and `./` + the input otherwise |
| Formats.PrefixIdempotent | lib/package-insight.js:438-441 | prefixing twice is prefixing once |
| Formats.PrefixRelative | lib/package-insight.js:610 | as a formatter: a string becomes a relative path; the heap is unchanged |
| Formats.StripLeadingAt | lib/package-insight.js:521-523 | removes exactly one leading `@` and nothing else |
| Formats.StripAt | lib/package-insight.js:521-523 | the twitter formatter throws on a non-string (there is no `replace`); otherwise it returns the handle with or without one `@` |
| Formats.RepoUrl | lib/package-insight.js:526-531 | creates one new object `{type: "git", url: "http://github.com/" + value + ".git"}` and changes nothing else |
| Formats.DashedFirstSlash | lib/package-insight.js:536 | `replace("/", "-")` replaces only the first `/` |
| Formats.ComponentDeps | lib/package-insight.js:546-547 | as a formatter, it returns a new object and leaves the existing heap as it was |
| Formats.FormatComponentDependencies | lib/package-insight.js:533-545 | the method builds exactly the dependency map the specification gives |
| Formats.DependencyEntries | lib/package-insight.js:535-543 | the loop gives the map from dashed ids to new objects, and those objects |
| Formats.DepsMapGet | lib/package-insight.js:535-543 | a dashed key maps to the record of the last id that dashes to it, or is absent |
| Formats.DepsMadeAt | lib/package-insight.js:536-542 | each id's record holds its GitHub repository and its selector `value[id]` |
| Formats.ComponentExports | lib/package-insight.js:626-630 | as a formatter, it creates exactly one new object and leaves the existing heap as it was |
| Formats.FormatComponentExports | lib/package-insight.js:613-625 | the method builds exactly the export map the specification gives, for an array and for a map |
| Formats.ExportPaths | lib/package-insight.js:615-618 | the `forEach` loop gives the path map of an array |
| Formats.ArrayExportsOfStrings | lib/package-insight.js:616-618 | over an array of strings, each element maps to its relative path, and nothing else is present |
| Formats.ExportKeys | lib/package-insight.js:620-622 | the `for…in` loop gives the path map of an object |
| Formats.KeyExportsEntries | lib/package-insight.js:620-622 | each key maps to its own value made relative, and nothing else is present |
| Json.Quote | lib/package-insight.js:489-492 | a JSON string is enclosed in double quotes |
| Json.UnescapeEscape | lib/package-insight.js:489-492 | the escaping loses nothing: reading the written string back gives the original |
| Json.JsonPair | lib/package-insight.js:489-492 | for two strings the message holds `["a","b"]` with both quoted |
| Merge.Mark | lib/package-insight.js:299 | `copied[key] = true` adds the key and changes nothing else |
| Merge.Warn | lib/package-insight.js:370-372 | a warning is appended as `["normalize", message]` and nothing else changes |
| Merge.Ensure | lib/package-insight.js:354-356 | `if (!v[k]) v[k] = {}` neither warns nor marks |
| Merge.Format | lib/package-insight.js:375-377 | with no formatter the value passes unchanged |
| Merge.MergeTarget | lib/package-insight.js:349-363 | finding the merge target neither warns nor marks; which object it is, is `MergeLaws.MergeTargetLocates` |
| Merge.Prepend | lib/package-insight.js:393 | `unshift` neither warns nor marks |
| Merge.Nest | lib/package-insight.js:412-426 | placing a value neither warns nor marks |
| Merge.NestDeep | lib/package-insight.js:421-424 | the third level neither warns nor marks |
| Merge.NestTwo | lib/packagewrap.js:161-164 | packagewrap's placement neither warns nor marks |
| MergeHelpers.Helpers.constructor | lib/package-insight.js:293-295 | the helpers start on the given heap with no warnings and nothing copied |
| MergeHelpers.Helpers.Ensure | lib/package-insight.js:354-356 | the in-place step leaves the state `Merge.Ensure` gives |
| MergeHelpers.Helpers.String | lib/package-insight.js:296-301 | `string`, as `Merge.String` gives (packagewrap.js:60-65 is the same) |
| MergeHelpers.Helpers.StringToArray | lib/package-insight.js:302-306 | `stringToArray` in place, equal to `Merge.StringToArray` (a string gate around `Merge.AnyToArray`, characterised by `MergeLaws.AnyToArrayPrepends`) |
| MergeHelpers.Helpers.BooleanToObject | lib/package-insight.js:307-311 | `booleanToObject` for either variant in place, equal to `Merge.BooleanToObject` (placement by `MergeLaws.AnyToObjectTwo`) |
| MergeHelpers.Helpers.StringToObject | lib/package-insight.js:312-316 | `stringToObject` for either variant in place, equal to `Merge.StringToObject` (placement by `MergeLaws.AnyToObjectTwo`) |
| MergeHelpers.Helpers.ObjectToObject | lib/package-insight.js:317-324 | `objectToObject` for either variant (packagewrap.js:81-88) in place, equal to `Merge.ObjectToObject`, characterised by `MergeLaws.EmptyContainersOnlyMark` and `MergeLaws.AnyToObjectTwo` |
| MergeHelpers.Helpers.ArrayToObject | lib/package-insight.js:325-332 | `arrayToObject` for either variant (packagewrap.js:89-96) in place, equal to `Merge.ArrayToObject`; an empty array is only marked (`MergeLaws.EmptyContainersOnlyMark`) |
| MergeHelpers.Helpers.Array | lib/package-insight.js:333-340 | `array` in place, equal to `Merge.Array`, characterised by `MergeLaws.EmptyContainersOnlyMark` |
| MergeHelpers.Helpers.Object | lib/package-insight.js:341-346 | `object` in place, equal to `Merge.Object`, characterised by `MergeLaws.ObjectGated` |
| MergeHelpers.Helpers.MergeTarget | lib/package-insight.js:349-363 | creates and returns the merge target as `Merge.MergeTarget` computes it, or stops where that stops; `MergeLaws.MergeTargetLocates` proves that this is the object at the end of the key path, with each missing level a new empty object |
| MergeHelpers.Helpers.MergeName | lib/package-insight.js:366-379 | one round of the merge loop in place, equal to `Merge.MergeName`, characterised by `MergeLaws.MergeNameEffect` |
| MergeHelpers.Helpers.Assign | lib/package-insight.js:374-378 | format, then assign |
| MergeHelpers.Helpers.MergeObjectTo | lib/package-insight.js:347-383 | `mergeObjectTo` in place, as `Merge.MergeObjectTo` computes it (packagewrap.js:111-143 with no formatter); `MergeLaws.MergeObjectToEffect` proves the key is marked, every for-in name is merged and exactly the clashing names are reported |
| MergeHelpers.Helpers.MergeInto | lib/package-insight.js:365-380 | the merge loop over the source's for-in keys, in place, as `Merge.MergeInto` computes it; `MergeLaws.MergeFoldEffect` proves what each key ends holding and which warnings are added |
| MergeHelpers.Helpers.MergeFor | lib/package-insight.js:365-380 | the loop over a given key list equals the fold, and the first throw ends it; the fold's effect is `MergeLaws.MergeFoldEffect` |
| MergeHelpers.Helpers.AnyToArray | lib/package-insight.js:384-396 | `anyToArray` in place (packagewrap.js:144-152), equal to `Merge.AnyToArray`, characterised by `MergeLaws.AnyToArrayPrepends` |
| MergeHelpers.Helpers.Nest | lib/package-insight.js:412-426 | places a value one, two or three levels down in place, equal to `Merge.Nest`; read back by `MergeLaws.NestReadsBack` |
| MergeHelpers.Helpers.NestDeep | lib/package-insight.js:421-424 | the third level in place, equal to `Merge.NestDeep`, characterised by `MergeLaws.NestDeepFresh` |
| MergeHelpers.Helpers.NestTwo | lib/packagewrap.js:161-164 | packagewrap's two-level placement in place, equal to `Merge.NestTwo`, which `MergeLaws.NestTwoAgrees` shows agrees with `Merge.Nest` |
| MergeHelpers.Helpers.AnyToObject | lib/package-insight.js:397-429 | `anyToObject` for either variant (packagewrap.js:153-167) in place, equal to `Merge.AnyToObject`, characterised by `MergeLaws.AnyToObjectTwo` |
| MergeHelpers.Helpers.RemoveIfMatch | lib/package-insight.js:430-434 | marks the key exactly when its raw value is strictly equal to the match |
| MergeHelpers.Helpers.Remove | lib/package-insight.js:435-437 | marks the key unconditionally |
| MergeHelpers.Helpers.Unused | lib/package-insight.js:909-914 | the unused-key pass in place, equal to `Merge.Unused`, characterised by `MergeLaws.UnusedWarns` |
| Steps.IdCheckMarks | lib/package-insight.js:477 | the `_id` check changes neither heap nor warnings; it marks `_id` exactly when `raw._id` equals `name@version` |
| Steps.FirstAt | lib/package-insight.js:479 | finds the first `@` of `_from`, or reports that there is none |
| Steps.FromPartsExactly | lib/package-insight.js:479 | `/^([^@]*)@(.*?)$/` matches exactly `name@pointer` with an `@`-free name and a pointer on one line |
| Steps.FromLocator | lib/package-insight.js:478-499 | `_from` changes the state only when it is a string that matches and names the package; it then sets the pointer (both directions: `StepLaws.FromLocatorSets`) |
| Steps.SetPointer | lib/package-insight.js:481-497 | either `_from` is marked with no warning, or one warning is appended and nothing is marked; which of the two happens, and what is written, is `StepLaws.SetPointerCases` |
| Steps.SetPointerReads | lib/package-insight.js:495-496 | when `_from` is marked, `locator.pointer` reads back as the pointer |
| Steps.DefaultObjectFresh | lib/package-insight.js:601-605 | an object-typed raw key puts a new empty object in place when the normalised key is undefined, and otherwise changes nothing; packagewrap's overlay is always reset (packagewrap.js:253-255) |
| Steps.RunIdCheck | lib/package-insight.js:477 | runs `Steps.IdCheck` in place, characterised by `Steps.IdCheckMarks` |
| Steps.RunFromLocator | lib/package-insight.js:478-499 | runs `Steps.FromLocator` in place; `StepLaws.FromLocatorSets` and `StepLaws.SetPointerCases` say what that does to the locator, the warnings and `copied` |
| Steps.RunSetPointer | lib/package-insight.js:481-497 | runs `Steps.SetPointer` in place; `StepLaws.SetPointerCases` gives its outcome in each case of the existing pointer |
| StepLaws.FromLocatorSets | lib/package-insight.js:478-480 | `_from` sets the pointer exactly when it is a string `name@pointer` whose name is the normalised name; otherwise the state is unchanged |
| StepLaws.PointerNotInherited | lib/package-insight.js:484-487 | a new empty locator has no `pointer`, so the clash test sees `undefined` |
| StepLaws.SetPointerCases | lib/package-insight.js:481-497 | with no pointer or the same one, the locator (a new object holding just the pointer when it was missing) ends holding the pointer, `_from` is marked and nothing is reported; with a different one, nothing is written or marked and exactly the message with the JSON pair is reported |
| Steps.RunDefaultObject | lib/package-insight.js:632-636 | runs `Steps.DefaultObject` in place, characterised by `Steps.DefaultObjectFresh` |
| Steps.RunResetOverlay | lib/packagewrap.js:253-255 | runs `Steps.ResetOverlay` in place, characterised by `Steps.DefaultObjectFresh` |
| PackageInsight.BundledNamesEntries | lib/package-insight.js:564-566 | the bundled object has a `false` entry exactly for the text of each listed name, and nothing else |
| PackageInsight.BundledEntries | lib/package-insight.js:564-566 | the `forEach` loop builds exactly those entries |
| PackageInsight.RunIdentity | lib/package-insight.js:470-477 | `@extends`, the strings and the `_id` check in place, equal to `PackageInsight.Identity` |
| PackageInsight.RunOrigin | lib/package-insight.js:478-503 | `_from`, `boot` and `dist` in place, equal to `PackageInsight.Origin` |
| PackageInsight.RunInstallDefault | lib/package-insight.js:508-515 | a component's default `pm.install` in place, equal to `PackageInsight.InstallDefault` |
| PackageInsight.RunPackageManager | lib/package-insight.js:506-515 | `pm` and `pm.install` in place, equal to `PackageInsight.PackageManager` |
| PackageInsight.RunSocial | lib/package-insight.js:517-523 | `homepage`, `bugs` and `twitter` in place, equal to `PackageInsight.Social` |
| PackageInsight.RunComponentSources | lib/package-insight.js:525-547 | a component's repository and dependency maps in place, equal to `PackageInsight.ComponentSources` |
| PackageInsight.RunPackageSources | lib/package-insight.js:550-557 | a package's repositories and dependency maps in place, equal to `PackageInsight.PackageSources` |
| PackageInsight.RunBundled | lib/package-insight.js:558-567 | the bundled list made into an object in place, equal to `PackageInsight.Bundled`, characterised by `MergeLaws.BundledMapsNames` |
| PackageInsight.RunMappings | lib/package-insight.js:569-571 | the mappings merged in place, equal to `PackageInsight.Mappings` |
| PackageInsight.RunSources | lib/package-insight.js:525-572 | the sources for either kind in place, equal to `PackageInsight.Sources` |
| PackageInsight.RunRequirements | lib/package-insight.js:574-583 | `shrinkwrap` to `bin` in place, equal to `PackageInsight.Requirements` |
| PackageInsight.RunLayout | lib/package-insight.js:585-605 | `scripts` to the overlay object in place, equal to `PackageInsight.Layout` |
| PackageInsight.RunComponentExportKeys | lib/package-insight.js:626-630 | a component's exported files in place, equal to `PackageInsight.ComponentExportKeys` |
| PackageInsight.RunExports | lib/package-insight.js:607-637 | licenses, `main` and the exports in place, equal to `PackageInsight.Exports` |
| PackageInsight.RunFiles | lib/package-insight.js:639-650 | `readme` to `author` in place, equal to `PackageInsight.Files` |
| PackageInsight.Normalize | lib/package-insight.js:468-650 | the whole synchronous mapping leaves exactly the state `Normalized` gives, or stops at the same throw |
| PackageWrap.RunIdentity | lib/packagewrap.js:179-207 | the strings, the `_id` check, `_from` and `dist` in place, equal to `PackageWrap.Identity` |
| PackageWrap.RunContacts | lib/packagewrap.js:210-216 | `pm`, `homepage` and `bugs` in place, equal to `PackageWrap.Contacts` |
| PackageWrap.RunSources | lib/packagewrap.js:218-229 | repositories, dependency maps and mappings in place, equal to `PackageWrap.Sources` |
| PackageWrap.RunRequirements | lib/packagewrap.js:231-240 | `shrinkwrap` to `bin` under `config` in place, equal to `PackageWrap.Requirements` |
| PackageWrap.RunConfig | lib/packagewrap.js:242-255 | `main` to the overlay object in place, equal to `PackageWrap.Config` |
| PackageWrap.RunFiles | lib/packagewrap.js:257-271 | licenses to `author` in place, equal to `PackageWrap.Files` |
| PackageWrap.Normalize | lib/packagewrap.js:177-271 | the whole synchronous mapping leaves exactly the state `Normalized` gives, or stops at the same throw |
| MergeLaws.StringGated | lib/package-insight.js:296-301 | reading a key of `null`/`undefined` raw throws; a non-string changes nothing; a string is shared into `normalized` and marked, with no warning |
| MergeLaws.ObjectGated | lib/package-insight.js:341-346 | a value that is not a truthy object changes nothing; an object is shared and marked |
| MergeLaws.EmptyContainersOnlyMark | lib/package-insight.js:317-340 | an empty array or an object with no keys is only marked; a non-empty array is shared; `typeof null === "object"` makes `objectToObject` throw on `null` |
| MergeLaws.AnyToArrayPrepends | lib/package-insight.js:384-396 | an existing array gets the value in front of its old elements; a missing target becomes a new one-element array; a truthy non-array throws |
| MergeLaws.PathReadSteps | lib/package-insight.js:412-426 | reading a key path is reading each key in turn |
| MergeLaws.NestOne | lib/package-insight.js:412-413 | a path of one assigns directly |
| MergeLaws.EnsureFresh | lib/package-insight.js:415-417 | a missing level becomes a new empty object at the end of the heap |
| MergeLaws.NestTwoFresh | lib/package-insight.js:415-419 | a path of two through a missing level reads back the value |
| MergeLaws.NestDeepFresh | lib/package-insight.js:421-424 | the third level is created under an existing second-level object |
| MergeLaws.NestThreeFresh | lib/package-insight.js:415-424 | a path of three through missing levels creates both objects and reads back the value |
| MergeLaws.NestReadsBack | lib/package-insight.js:412-426 | after placing a value at a fresh key path, reading that path gives the value |
| MergeLaws.AnyToObjectTwo | lib/package-insight.js:397-429 | for both variants and a path of two: success, the key marked, no warning, and the raw value at the path |
| MergeLaws.NestTwoAgrees | lib/packagewrap.js:161-164 | packagewrap's placement agrees with package-insight's on paths of two |
| MergeLaws.MergeNameEffect | lib/package-insight.js:366-379 | a defined, different existing value is kept and reported with the exact message; otherwise the source's value is assigned |
| MergeLaws.MergeNameReports | lib/package-insight.js:366-379 | a round marks nothing and adds at most its one warning |
| MergeLaws.MergeFoldReports | lib/package-insight.js:365-380 | with any formatter, the merge loop marks nothing, keeps the earlier warnings and adds at most one per key; the exact effect is `MergeLaws.MergeFoldEffect` |
| MergeLaws.MergeObjectToMarks | lib/package-insight.js:347-383 | with any formatter, a value that is not a truthy object changes nothing; otherwise the key is marked and the warnings only grow; the exact effect is `MergeLaws.MergeObjectToEffect` |
| MergeLaws.EnsureLevel | lib/package-insight.js:354-357 | one level of the target path is the value already there when truthy, and otherwise a new empty object written into the key |
| MergeLaws.MergeTargetLocates | lib/package-insight.js:349-363 | the merge target is the value at the end of the key path once the path is in place; a missing first or second level is a new empty object and a truthy one is kept as it was |
| MergeLaws.MergeRoundEffect | lib/package-insight.js:366-379 | one more round of the loop keeps the merged keys merged, merges its own name and adds its own report |
| MergeLaws.MergeFoldEffect | lib/package-insight.js:365-380 | without a formatter, into a plain object that is neither `raw` nor `raw[key]`: every listed name ends holding the source's value, or its defined, different old value; no other key or object changes; the warnings added are exactly the messages of the clashing names, in the loop's order |
| MergeLaws.MergeObjectToEffect | lib/package-insight.js:347-383 | on a truthy object, without a formatter: the key is marked and the loop over `raw[key]`'s for-in names has the effect `MergeFoldEffect` states, on the target `MergeTargetLocates` locates |
| MergeLaws.GatherAppend | lib/package-insight.js:909-914 | the owed warnings of two key lists are the concatenation of each list's |
| MergeLaws.UnusedFoldWarns | lib/package-insight.js:909-914 | the pass appends exactly one warning per raw key not copied, in key order, and changes nothing else |
| MergeLaws.IgnoredWarningInjective | lib/package-insight.js:911-913 | different keys give different warnings |
| MergeLaws.IgnoredNames | lib/package-insight.js:909-914 | a key is reported exactly when it is a raw key and not copied; the names of `Object.prototype` members count as copied |
| MergeLaws.UnusedWarns | lib/packagewrap.js:305-310 | both passes throw on a `null`/`undefined` raw, and otherwise add exactly the owed warnings |
| MergeLaws.BundledNamesOfStrings | lib/package-insight.js:564-566 | over a list of strings, the bundled object maps each of them, and nothing else, to `false` |
| MergeLaws.BundledMapsNames | lib/package-insight.js:558-567 | `dependencies.bundled` becomes a new object mapping each listed name to `false` |

## Left out

- Numbers are integers: no floating point, `NaN` or `-0`. String conversion covers integers only.
- `__proto__` is an ordinary key. The names of `Object.prototype` members read as opaque built-ins, and JSON writes them as `{}` or leaves them out.
- The properties of `Array.prototype` and of primitive values are left out. So are named (non-index) properties on arrays, other than `length`.
- A formatter reads the heap as it stood when it was called. `formatComponentDependencies` computes all dashed keys before it writes.
- `JSON.stringify` is bounded by a fuel of one level per heap object. That is enough for any acyclic value.
- `unshift` on an array at the length limit throws `RangeError` without moving any element. Arrays are limited to 2^32 - 1 elements.
- The bundled object is written once, after the whole `forEach`. No element conversion can observe the partial object.
- `processComponent`, `processOverlays`, the `detect*` steps and `extraNormalization` (including the trailing-slash step for `layout.directories`) are not part of this model. Nor are `parse`, `parseDescriptor` and `normalizeSub`. These steps read the filesystem and run asynchronously.
- The unused-key pass is modelled on the state it is given, not after those steps.
- `try`/`catch` around `normalize` is modelled as the outcome that carries the throw. Callbacks are not modelled.
- MergeLaws.AnyToArrayPrepends: stated without a formatter. With one, the formatter's result is what gets prepended.
- MergeLaws.NestReadsBack: stated for key paths whose first level is missing (and, for three keys, whose second key is not an `Object.prototype` name). An existing intermediate object may be shared and is covered only by `NestDeepFresh`.
- Walker: the directory entries are processed one after another, depth first, in listing order. The source fans out asynchronously, so the order of `list` insertion and of counter updates can differ. When two links resolve to the same real directory, the race on `traversedSymlink` also decides which of them has its subtree walked. That changes which paths end up in `list` and the counters, not just their order. The model always walks the first link in listing order.
- Walker: the counters after an error are not specified. The source lets work already in flight go on.
- Walker: `PATH.join` normalisation is left out. The `.git`/`.svn` probe path is the root, `subPath` twice and the name, as the code joins it.
- Walker: the names of `Object.prototype` members are treated as ordinary names, both as rule keys and as the names of entries. The rule tables in the source are plain objects, so `select(ignoreRules.every, basename)` on a file named after a member reads the inherited member when the table has no such own key. The other two tables are looked up with paths that start with `/` and are not affected. In the source:
  - For `constructor`, `hasOwnProperty`, `isPrototypeOf`, `propertyIsEnumerable`, `__defineGetter__`, `__defineSetter__`, `__lookupGetter__` and `__lookupSetter__`, the member is a function of length at least 1. `rules[0]` is then `undefined`, and calling it throws a `TypeError` inside the `lstat` callback. Nothing catches it, so the process stops and the walk never calls back.
  - For `toString`, `valueOf` and `toLocaleString` (length 0) and for `__proto__` (no `length`), `select` returns false without consulting the prefix or `""` groups. An every-rule therefore never ignores such a file.
  - The model instead looks such a file up like any other name. `Rules.SelectNone`, `Walker.Select` and `Walker.Ignore` state the model's lookup, not these two outcomes.
- Walker: `lstat`, `readlink` and `realpath` are a tree value in which a link carries its resolution. A candidate ignore file is looked up by its name in the directory's listing from that tree, following a link to what it resolves to. Only the `.git`/`.svn` probe with `existsSync` is a set of path strings given with the walk. Symbolic link cycles unfold only as far as the tree value goes.
- Walker.Step: a link whose real path cannot be resolved for a reason other than a missing file ends the walk with `ResolveFailed`. The source rethrows that error inside the `readlink` callback, where nothing catches it. The process then stops with an uncaught exception, and the walk's callback is never called.
- Strings are sequences of code points. `length`, indexing and for-in over a string count characters, where JavaScript counts UTF-16 code units. They differ for characters outside the Basic Multilingual Plane, for example when `formatComponentExports` walks the keys of a string value.
- MergeLaws.MergeTargetLocates: stated for paths of one or two keys, where a truthy first level of a two-key path is a plain object other than `normalized`. A string or array there is written to, or read, as the model's `Write` and `Lookup` define.
- MergeLaws.MergeFoldEffect: stated without a formatter, for a plain target that is neither `raw` nor `raw[key]`, and for distinct names. With a formatter, the formatted value is assigned, and the formatter may change the heap. An aliased target changes the source values the later rounds read.
- MergeLaws.MergeObjectToEffect: stated under the conditions of `MergeFoldEffect`, taken on the state after the target path is in place.
- StepLaws.SetPointerCases: stated for a locator that is missing or a plain object. A truthy string or array locator is read and written as the model's `Lookup` and `Write` define.
- Walker: the `EventEmitter` prototype (commented out in the source) is not part of this model.
