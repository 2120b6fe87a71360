# 3D Commerce validator command line: a Dafny model

The command-line entry point of the 3D Commerce validator does two things
on its own. Everything else is delegated to the validator library.

1. **It resolves the input paths.** It takes the directory of the entry
   script, which is `argv[1]` cut just after its last `/`. It appends the
   schema (`argv[2]`), the model (`argv[3]`) and the optional
   product-information file (`argv[4]`) to that directory. A missing schema
   or model argument raises an error with a fixed message. A missing
   product-information argument gives the empty string, and then that file
   is not loaded.
2. **It renders the validation report.** A first pass over the report
   items finds the longest name and whether any item is untested. A second
   pass prints one row per item, between two banner lines:
   - the name, right-aligned so that every `": "` lines up;
   - the status token `PASS`, `FAIL` or `NOT TESTED`. When some item is
     untested, `PASS` and `FAIL` are padded with six spaces;
   - `" | "` and the item's message.

`command_line.dfy` (module `CommandLine`) models the path helpers as pure
functions over an explicit argument sequence `argv: seq<string>`. Errors are
returned as a `PathResult` that carries the message.

`report.dfy` (module `Report`) models the report section in two layers:
- specification functions (`LongestNameLength`, `HasNotTestedItems`,
  `PaddedName`, `StatusToken`, `Row`, `Rows`, `RenderedReport`);
- the source's loops as methods proved against those functions
  (`ScanItems`, `FormatName`, `RenderLines`).

Lemmas state the column layout of every row, the uniform token width, and
the rendering of the three-item example report. Printed lines are modelled
as the strings of the returned sequence, without colour codes.

## Model

| member | source | states |
|---|---|---|
| CommandLine.LastIndexOf | index.js:7 | `lastIndexOf("/")`: -1 when the character is absent; otherwise a position holding it with no later occurrence |
| CommandLine.BasePath | index.js:5-8 | the script directory is a prefix of the script path that is empty or ends in `/`, with no `/` after it; it is empty exactly when the path has no `/` |
| CommandLine.BasePathUnique | index.js:5-8 | any prefix with those three properties equals `BasePath`, so they define the directory completely |
| CommandLine.SchemaPath | index.js:11-18 | error iff fewer than 3 arguments, with the message "A schema and 3D model need to be provided as arguments"; otherwise directory + `argv[2]` |
| CommandLine.ModelPath | index.js:21-28 | error iff fewer than 4 arguments, with the message "A 3D model needs to be provided as the second argument"; otherwise directory + `argv[3]` |
| CommandLine.ProductInfoPath | index.js:31-38 | never fails: `""` with fewer than 5 arguments, otherwise directory + `argv[4]` |
| CommandLine.LoadsProductInfo | index.js:62 | product information is loaded when the product-info path is non-empty; this needs a third positional argument |
| CommandLine.LoadsProductInfoIff | index.js:61-64 | product information is loaded iff there are at least 5 arguments and either `argv[4]` is non-empty or the script path contains `/` |
| CommandLine.ResolvedPathsShareScriptDirectory | index.js:5-38 | every resolved path is its argument appended to one directory of the script path; when the script path contains `/` that directory is the script's own, otherwise it is empty and the bare argument is resolved against the working directory |
| CommandLine.ResolveInputs | index.js:53-61 | resolution in the driver's order: fails iff fewer than 4 arguments; the schema message wins over the model message; on success holds the three resolved paths |
| Report.LongestNameLength | index.js:74-79 | the result bounds every name length and is 0 or the length of some name, i.e. the maximum name length (0 for no items) |
| Report.HasNotTestedItems | index.js:75-83 | some item has `tested == false`; never true of an empty report |
| Report.HasNotTestedItemsSnoc | index.js:80-82 | after one more item the flag is set iff it was set before or that item is untested |
| Report.PaddedName | index.js:87-90 | the padded name has length the larger of `width` and the name length, plus 2 |
| Report.StatusToken | index.js:93-97 | the token is 4 characters for a tested item in a report with no untested item, and 10 characters otherwise |
| Report.Row | index.js:91-100 | a printed line: the padded name column, the status token, the separator (space, bar, space) and the message, which ends the line; its length is the sum of those parts |
| Report.Rows | index.js:86-101 | exactly one row per item, and row `i` is the row of item `i` |
| Report.RenderedReport | index.js:84-102 | opening banner, then one row per item in the items' order, then closing banner; two more lines than items |
| Report.PaddedNameLayout | index.js:87-90 | for a name no longer than the width: `width` minus the name length spaces, then the name ending at offset `width`, then `": "`; total length `width + 2` |
| Report.TokenWidthUniform | index.js:80-97 | every token in a report has the same width: 10 if some item is untested, 4 otherwise |
| Report.StatusTokenDistinguishes | index.js:93-97 | equal tokens imply equal `tested` flags, and equal `pass` flags for tested items |
| Report.RowLayout | index.js:87-99 | a row whose name fits the width and whose token has the report width follows the column layout |
| Report.RowColumns | index.js:74-101 | every row of a report follows one column layout: spaces, name ending at the longest name length, `": "`, token, separator, message |
| Report.EmptyReport | index.js:84-102 | an empty item list renders as the two banners only |
| Report.ScenarioScan | index.js:74-83 | for the example items the longest name is 10 ("Model Size") and some item is untested |
| Report.ScenarioRowSchema | index.js:87-99 | the example's `Schema` row is padded by 4 spaces and shows `PASS` plus 6 spaces |
| Report.ScenarioRowModelSize | index.js:87-99 | the example's `Model Size` row is unpadded and shows `FAIL` plus 6 spaces |
| Report.ScenarioRowTextures | index.js:87-99 | the example's `Textures` row is padded by 2 spaces and shows `NOT TESTED` with an empty message |
| Report.ThreeItemScenario | index.js:74-102 | the full five-line rendering of the example report |
| Report.ScanItems | index.js:74-83 | the first loop computes exactly `LongestNameLength` and `HasNotTestedItems` of the items |
| Report.FormatName | index.js:87-90 | the space-prepending loop yields `PaddedName(name, longestNameLength)` |
| Report.RenderLines | index.js:74-102 | both loops together produce exactly `RenderedReport(items)` |

## Left out

- Loading the schema, model and product information, and `generateReport()` (index.js:48, 54, 58, 63, 67). These are asynchronous calls into the external validator library, which is not part of this model. The report items are an input of the renderer.
- CommandLine.ResolveInputs: the driver loads the schema before it resolves the model path (index.js:53-58). A failed schema load would therefore be reported before a missing model argument. Loads are not modelled, so this ordering is not captured.
- Colouring with `chalk` (index.js:42-43, 84, 95-99, 102, 105-107). Lines are plain text.
- The welcome message, `console.log` output and the top-level `try`/`catch` that prints `ERROR: …` (index.js:41-50, 103-109). These are I/O; the lines are returned as strings instead.
- CommandLine.ResolvedPathsShareScriptDirectory: the paths are relative to the script's directory only when the script path contains `/`. Otherwise (for example a Windows path with `\` separators) the directory is empty, and the validator resolves the bare argument against the working directory; how it does so is not modelled.
- `decimalDisplayPrecision` (index.js:49). It is a setting of the library.
- String length: JavaScript's `.length` counts UTF-16 code units, while the model counts Dafny characters. They differ only for names outside the Basic Multilingual Plane.
- Report.ReportItem: `tested` and `pass` are booleans. So `item.tested === false` (index.js:80) and the truthiness test of `item.tested` (index.js:93) agree. A library that supplied a non-boolean value could make them disagree; that case is not modelled.
- The two passes read `validator.report.getItems()` twice (index.js:76, 86). The model assumes both calls return the same list.
- Rendering twice gives identical output because `RenderedReport` is a function; no separate lemma states this.
