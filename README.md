# CWL CommandLineTool binding, modelled in Dafny

This project models how the repository turns a Common Workflow Language
(CWL) `CommandLineTool` document into a shell command line and into the
keyword arguments of a parsl bash app. It models the current class in
`cwl/command_line_tool.py`, the three older revisions of that class
(`cwl/cwl.py`, `cwl.py` and `nk/cwl.py`), and the `find` tool of the
correctness test.

The model works on the parsed document, not on the file. The document is
the value tree `yaml.safe_load` returns (`PyValue.Value`: strings,
integers, booleans, `None`, lists and insertion-ordered dictionaries).
Python exceptions become `Failure` values of a `Result`, and the model
names the exception class each one would have (`KeyError("items")`,
`TypeError`, `AttributeError`, a missing input, a missing output value,
an invalid document).

Modules, in dependency order:

- `PyValue` (py_value.dfy): the values, together with the Python
  builtins the code relies on: `str()`, truthiness, iteration, `join`,
  `rstrip`, `in`, `dict.get`.
- `Arguments` (arguments.dfy): `InputArgument`, `OutputArgument`,
  `to_string_template`, `__lt__`, and the order "positioned first, by
  position" that `__lt__` induces.
- `Ordering` (ordering.dfy): `inputs.sort()`, written as an in-place
  insertion sort on an array driven by `__lt__`.
- `Resolution` (resolution.dfy): the `get_command` loop that all three
  class revisions share. It is parameterised by the revision's
  `to_string`.
- `ToolSchema` (tool_schema.dfy): the rules `validate_cwl` checks, as
  predicates. Types follow the `schema` library from release 0.7 on, where
  a boolean does not pass where an `int` is asked for.
- `BashApp` (bash_app.dfy): the output checks and file lists of
  `__get_parsl_bash_app_args`.
- `CommandLineTool` (command_line_tool.dfy): the current class,
  `CommandLineTool.Tool`.
- `CwlPackage`, `CwlScript` and `NkPrototype`: the older revisions. Each
  has its own `Tool` class, and each has lemmas stating where it differs
  from the current class.
- `Scenarios` (scenarios.dfy): the `find` document. Each revision's
  command line for it is proved as a lemma.

Two behaviours of the current code are modelled as written:

- `to_string` tests the builtin `input` (line 101), not its argument.
  The builtin is always truthy, so a boolean input always renders its
  prefix, whatever value is passed (`CommandLineTool.BooleanIgnoresValue`).
- `validate_cwl` accepts list-form inputs only when their `type` is a
  list of names. `process_input` then calls `rstrip` on that list, which
  raises `AttributeError` (`CommandLineTool.ListFormInputsNeverLoad`).

The `find` document follows the correctness test
(tests/test_correctness.py:15-63). That test expects
`find '.' -name '*.cwl' -maxdepth 3` whether `maxdepth` is given or not.
The document is reconstructed as:

- `dir`: `string`, position 1.
- `name`: `string`, position 2, prefix `-name`.
- `maxdepth`: `int?`, default 3, position 3, prefix `-maxdepth`.

The `find.cwl` file itself is not part of this model.

## Model

| member | source | states |
|---|---|---|
| PyValue.Iterate | cwl/command_line_tool.py:116-118 | iterating a value fails with TypeError exactly when it is not a list, string or dict; a list yields its items |
| PyValue.JoinValue | cwl.py:91-93 | `sep.join(v)` succeeds exactly when `v` iterates to strings, and then joins them |
| PyValue.RStrip | cwl/command_line_tool.py:333 | `rstrip` gives the longest prefix that does not end in a stripped character, and removes only stripped characters |
| PyValue.RStripUnique | cwl/command_line_tool.py:333 | any prefix with those two properties is the result of `rstrip` |
| PyValue.JoinQuoted | cwl/cwl.py:119 | joining quoted strings equals quoting the join with the quote-separator-quote glue |
| PyValue.Get | cwl/command_line_tool.py:337-341 | a dict lookup finds a value exactly when the key is present, and the value is that key's entry |
| PyValue.GetFirst | cwl/command_line_tool.py:337-341 | the lookup returns the first entry whose key matches |
| PyValue.MapAllPointwise | cwl/command_line_tool.py:355-359 | a pass over a collection succeeds exactly when every item does, keeps the order, and otherwise raises the first item's error |
| PyValue.MapAllAppend | cwl/command_line_tool.py:355-359 | a pass over two concatenated collections is the passes over each, with the first failure winning |
| Arguments.ItemSep | cwl/command_line_tool.py:117 | the item separator is the declared one when it is truthy, and is never empty |
| Arguments.TemplateReadsBack | cwl/command_line_tool.py:72-92 | a boolean template is its bracketed prefix; any other template is bracketed exactly when the input is optional, around the prefixed placeholder |
| Arguments.TemplateCoreParts | cwl/command_line_tool.py:77-87 | the template core ends in the placeholder and starts with the prefix and its separator when there is a prefix |
| Arguments.UsageTemplate | cwl/command_line_tool.py:392-402 | `command_template` starts with the header and base command; with no inputs it is exactly that |
| Arguments.UsageTemplateAppend | cwl/command_line_tool.py:392-402 | one more input appends one space-separated token |
| Arguments.LtAgreesWithBefore | cwl/command_line_tool.py:129-139 | `__lt__` agrees with "positioned first, then by position" in both directions; two unpositioned inputs are each less than the other |
| Arguments.BeforeTransitive | cwl/command_line_tool.py:129-139 | the order `__lt__` induces is transitive |
| Arguments.SortedMeansPositionOrder | cwl/command_line_tool.py:361 | in a sorted list, positioned inputs precede unpositioned ones, in non-decreasing position |
| Ordering.SwapDown | cwl/command_line_tool.py:361 | one exchange step of the sort swaps two neighbours and keeps the multiset |
| Ordering.Insert | cwl/command_line_tool.py:361 | inserting the next element extends the sorted prefix, keeps the multiset and keeps inputs sharing a position in their order |
| Ordering.InsertionSort | cwl/command_line_tool.py:361 | the array ends sorted by `__lt__`, is a permutation of the original, and inputs sharing a position keep their original order |
| Ordering.SortInputs | cwl/command_line_tool.py:361 | `inputs.sort()` returns a sorted permutation of its input in which inputs sharing a position keep their order, as a stable sort keeps them |
| Ordering.SwapKeepsTies | cwl/command_line_tool.py:129-139 | exchanging two neighbours that `__lt__` orders never reorders two inputs at the same position |
| Ordering.SortedPermutationUnique | cwl/command_line_tool.py:361 | when every input has a distinct position, the sorted permutation is unique |
| Resolution.Command | cwl/command_line_tool.py:409-431 | the command succeeds exactly when every input resolves, and starts with the base command and a space |
| Resolution.CollectTokens | cwl/command_line_tool.py:417-429 | the loop over inputs computes the specified token list, stopping at the first exception |
| Resolution.FailurePersists | cwl/command_line_tool.py:428-429 | once an input raises, the rest of the inputs do not change the result |
| Resolution.TokensAreContributions | cwl/command_line_tool.py:417-431 | the tokens are exactly each input's contribution in order (a supplied value, a truthy default, or nothing for an optional input) |
| Resolution.FirstFailureWins | cwl/command_line_tool.py:417-429 | the first input that raises decides the error |
| Resolution.MissingInputReported | cwl/command_line_tool.py:428-429 | "missing input" is raised for `id` exactly when `id` is the first input that has no value, no truthy default and is not optional, and every earlier input renders |
| Resolution.ExtraKeywordsIgnored | cwl/command_line_tool.py:417-431 | keyword arguments that name no input do not change the command |
| ToolSchema.EmptyBindingRejected | cwl/command_line_tool.py:217-226 | an `inputBinding` with no entries makes the document invalid (the `len` check) |
| ToolSchema.EmptyBindingNotOk | cwl/command_line_tool.py:217-226 | an empty binding fails the inputs rule |
| ToolSchema.ExtraKeyAccepted | cwl/command_line_tool.py:307 | an extra top-level key keeps a valid document valid exactly when the key is non-empty and its value passes `any` |
| ToolSchema.IdentifierExamples | cwl/command_line_tool.py:263-265 | input and output ids are Python identifiers; `$` also matches before a final newline |
| ToolSchema.VersionExamples | cwl/command_line_tool.py:254 | `cwlVersion` is `v` followed by one to three dot-separated numbers |
| ToolSchema.GetEntryHolds | cwl/command_line_tool.py:252-309 | a rule that every entry of a mapping satisfies holds of the entry a lookup returns |
| BashApp.CheckOutputsLoop | cwl/command_line_tool.py:454-471 | the output loop computes the specified stream values or the first missing-value error |
| BashApp.CheckFailurePersists | cwl/command_line_tool.py:454-471 | once an output check raises, later outputs do not change the result |
| BashApp.OutputsCheckedIff | cwl/command_line_tool.py:454-471 | the checks pass exactly when every stdout, stderr and File output has a value |
| BashApp.FirstUnmetOutputReported | cwl/command_line_tool.py:456-471 | the first output without a value decides which exception is raised |
| BashApp.LastStreamWins | cwl/command_line_tool.py:456-468 | the stdout (stderr) slot is left unset exactly when no output has that type; otherwise it holds the value passed for the last such output, even when that value is `None` |
| BashApp.CollectFilesLoop | cwl/command_line_tool.py:476-493 | the file loop computes the specified file list, or fails when an array value does not iterate |
| BashApp.FilesFailurePersists | cwl/command_line_tool.py:476-493 | once a file value fails to iterate, later slots do not change the result |
| BashApp.FilesExact | cwl/command_line_tool.py:476-493 | the list succeeds exactly when every slot's value iterates, and holds exactly the values of supplied File slots |
| BashApp.UnflattenedFilesOnePerArgument | cwl/cwl.py:464-474 | without flattening, there is one file per supplied File argument |
| BashApp.AppArgsSucceedIff | cwl/command_line_tool.py:433-505 | the bash-app arguments exist exactly when the command renders, every needed output value is given, and every file value iterates; they carry that command and exactly the supplied files |
| BashApp.BuildAppArgs | cwl/command_line_tool.py:433-505 | the method computes the specified bash-app arguments |
| CommandLineTool.BooleanIgnoresValue | cwl/command_line_tool.py:100-105 | a boolean input renders its prefix whatever value is passed, because the test is on the builtin `input` |
| CommandLineTool.FalsyValueUsesDefault | cwl/command_line_tool.py:108-109 | a falsy value renders as the default would |
| CommandLineTool.ToStringFailsIff | cwl/command_line_tool.py:107-121 | rendering fails exactly for a non-boolean array input whose chosen value does not iterate, and then with TypeError |
| CommandLineTool.ToStringRaisesOnlyTypeError | cwl/command_line_tool.py:94-127 | `to_string` raises nothing but TypeError |
| CommandLineTool.TokenFillsTemplate | cwl/command_line_tool.py:72-127 | a rendered token is the usage template's core with the placeholder replaced by the value text |
| CommandLineTool.StringValuesQuoted | cwl/command_line_tool.py:111-121 | string values are single-quoted; a string array quotes each item and joins the items with the separator |
| CommandLineTool.TypeSuffixes | cwl/command_line_tool.py:333-336 | `T`, `T[]` and `T?` parse to element `T` with the array and optional flags set as written |
| CommandLineTool.OptionalArrayKeepsBrackets | cwl/command_line_tool.py:333-336 | `string[]?` keeps its brackets in the element type, because `rstrip("[]")` runs before `rstrip("?")` |
| CommandLineTool.ProcessInput | cwl/command_line_tool.py:327-353 | a read input keeps its id, and its default is the declared one or None |
| CommandLineTool.ProcessInputTypes | cwl/command_line_tool.py:328-336 | `array` without `items` raises KeyError, `array` with `items` takes that element type, another type name is parsed by its suffixes, and a non-string type raises AttributeError |
| CommandLineTool.ProcessInputBinding | cwl/command_line_tool.py:337-341 | position, prefix, item separator and `separate` are the `inputBinding` values when present; each absent key, or an absent binding, gives no position, no prefix, no item separator and `separate` true |
| CommandLineTool.BoundBinding | cwl/command_line_tool.py:338-353 | the same field-by-field binding facts for the constructed argument, whatever its type |
| CommandLineTool.ProcessInputsPointwise | cwl/command_line_tool.py:355-359 | reading all inputs succeeds exactly when each does, keeps declaration order, and otherwise raises the first failure |
| CommandLineTool.ProcessOutput | cwl/command_line_tool.py:372-382 | an `array` output needs `items` and is an array of it; any other type is right-stripped of brackets and is an array exactly when it contains `[]` |
| CommandLineTool.FileOutputTypes | cwl/command_line_tool.py:372-382 | `File[]` reads as an array of File and `File` as a single File |
| CommandLineTool.ProcessOutputsPointwise | cwl/command_line_tool.py:384-390 | reading all outputs succeeds exactly when each does, in order, with the first failure raised |
| CommandLineTool.BindingOkTyped | cwl/command_line_tool.py:217-226 | a binding that passes the schema has an int position, str prefix and item separator, and a bool `separate` |
| CommandLineTool.OptionsProcessable | cwl/command_line_tool.py:261-283 | options that pass the schema can be read by `process_input` |
| CommandLineTool.InputsOkShaped | cwl/command_line_tool.py:261-283 | valid inputs have the shape `__set_inputs` reads |
| CommandLineTool.OutputsOkShaped | cwl/command_line_tool.py:285-306 | valid outputs have the shape `__set_outputs` reads |
| CommandLineTool.ValidCwlLoadable | cwl/command_line_tool.py:156-175 | a valid document has every key `__set_cwl_args__` reads, in the shape it reads them |
| CommandLineTool.ListFormInputsNeverLoad | cwl/command_line_tool.py:272-283 | a valid document with non-empty list-form inputs always fails to load, with AttributeError |
| CommandLineTool.Tool.constructor | cwl/command_line_tool.py:161-163 | a new tool has no base command, inputs or outputs |
| CommandLineTool.Tool.CollectInputs | cwl/command_line_tool.py:355-359 | the input loop computes the specified input list or its first failure |
| CommandLineTool.Tool.SetInputs | cwl/command_line_tool.py:319-362 | on success the inputs are a sorted permutation of the declared inputs, inputs sharing a position in declaration order; on failure the error is raised and the inputs are unchanged |
| CommandLineTool.Tool.CollectOutputs | cwl/command_line_tool.py:384-388 | the output loop computes the specified output list or its first failure |
| CommandLineTool.Tool.SetOutputs | cwl/command_line_tool.py:364-390 | on success the outputs are the declared outputs in order; on failure the error is raised and the outputs are unchanged |
| CommandLineTool.Tool.SetCwlArgs | cwl/command_line_tool.py:167-175 | the tool holds the configuration the document specifies, or reports its error |
| CommandLineTool.Tool.Load | cwl/command_line_tool.py:146-175 | an invalid document raises; a valid one loads into a fresh tool holding its configuration, or raises that configuration's error |
| CommandLineTool.Tool.GetCommand | cwl/command_line_tool.py:409-431 | the method returns the command line the inputs specify |
| CommandLineTool.Tool.ParslBashAppArgs | cwl/command_line_tool.py:433-505 | the method returns the specified bash-app arguments, with array File values flattened |
| CwlPackage.RendersAsCurrentUnlessArray | cwl/cwl.py:95-128 | for boolean and scalar inputs this `to_string` agrees with the current one |
| CwlPackage.StringArrayLacksOuterQuotes | cwl/cwl.py:115-119 | a string array is joined with quote-separator-quote glue and so has no outer quotes, where the current revision adds them |
| CwlPackage.StringArrayExample | cwl/cwl.py:115-119 | `["a", "b"]` with separator `,` renders as `a','b` here and `'a','b'` in the current revision |
| CwlPackage.ArrayItemsMustBeStrings | cwl/cwl.py:117-119 | an array value renders exactly when its items are strings, else TypeError; for non-string types it then agrees with the current revision |
| CwlPackage.ToStringRaisesOnlyTypeError | cwl/cwl.py:95-128 | this `to_string` raises nothing but TypeError |
| CwlPackage.ProcessInputAgainstCurrent | cwl/cwl.py:303-353 | reading an input agrees with the current revision except for type `array`, which this revision keeps as a plain type named `array` |
| CwlPackage.ProcessInputs | cwl/cwl.py:297-356 | one input argument per declaration, in declaration order |
| CwlPackage.PlainOutputType | cwl/command_line_tool.py:372-382 | a bracket-free output type other than `array` reads as that type, not an array |
| CwlPackage.OutputsAgainstCurrent | cwl/cwl.py:358-381 | mapping-form outputs read as in the current revision; list-form outputs raise TypeError (`cwl_outputs["id"]` on a list) |
| CwlPackage.ExtraKeyRefused | cwl/cwl.py:205-293 | any top-level key outside the five known ones makes the document invalid |
| CwlPackage.BindingRuleWeaker | cwl/cwl.py:223-230 | every binding the current schema accepts is accepted here, and the empty binding is accepted only here |
| CwlPackage.OptionsProcessable | cwl/cwl.py:214-259 | options that pass this schema can be read |
| CwlPackage.InputsOkShaped | cwl/cwl.py:214-258 | valid inputs have the shape `__set_inputs` reads |
| CwlPackage.OutputsOkShaped | cwl/cwl.py:260-291 | valid outputs have the shape `__set_outputs` reads |
| CwlPackage.ValidCwlLoadable | cwl/cwl.py:161-184 | a valid document has the keys and shapes `__set_cwl_args__` reads, except possibly `outputs` |
| CwlPackage.ListFormOutputsNeverLoad | cwl/cwl.py:367-372 | list-form outputs always make loading fail with TypeError |
| CwlPackage.CommandArgsFilesOnePerArgument | cwl/cwl.py:420-486 | the parsl arguments exist exactly when the command renders and every needed output value is given; there is one file per supplied File argument |
| CwlPackage.Tool.constructor | cwl/cwl.py:171-173 | a new tool has no base command, inputs or outputs |
| CwlPackage.Tool.ReadInputs | cwl/cwl.py:303-353 | the input loop computes the specified input list |
| CwlPackage.Tool.SetInputs | cwl/cwl.py:297-356 | the inputs become a sorted permutation of the declared inputs, inputs sharing a position in declaration order |
| CwlPackage.Tool.SetOutputs | cwl/cwl.py:358-381 | on success the outputs are the declared ones; on failure the error is raised and the outputs are unchanged |
| CwlPackage.Tool.SetCwlArgs | cwl/cwl.py:177-184 | the base command and sorted inputs are set; a missing `outputs` key raises KeyError; otherwise the outputs are read or their error is raised |
| CwlPackage.Tool.Load | cwl/cwl.py:142-184 | an invalid document raises; otherwise the tool loads with the state `SetCwlArgs` describes (base command, sorted inputs with ties in declaration order, outputs), or raises its error |
| CwlPackage.Tool.GetCommand | cwl/cwl.py:395-418 | the method returns the command line this revision's `to_string` specifies |
| CwlPackage.Tool.ParslCommandArgs | cwl/cwl.py:420-486 | the method returns the specified parsl arguments, without flattening arrays |
| CwlScript.NeverQuoted | cwl.py:79-102 | this `to_string` never quotes; where the package revision quotes a string or string array, it adds exactly those quotes |
| CwlScript.BooleanAndFalsyValues | cwl.py:80-89 | a boolean renders its prefix whatever the value, and a falsy value renders as the default |
| CwlScript.ToStringRaisesOnlyTypeError | cwl.py:79-102 | this `to_string` raises nothing but TypeError |
| CwlScript.PositionLtAgreesWithLt | cwl.py:104-105 | comparing positions works exactly when both are positioned, and then agrees with the current `__lt__` |
| CwlScript.PositionedIffBound | cwl.py:178-208 | an input has a position exactly when it has a non-empty binding, which this schema requires to hold `position` |
| CwlScript.OptionsProcessable | cwl.py:172-212 | options that pass this schema can be read |
| CwlScript.InputsOkShaped | cwl.py:172-212 | valid inputs have the shape `__set_inputs` reads |
| CwlScript.ValidCwlLoadable | cwl.py:126-146 | a valid document has the keys and shapes the constructor reads, except possibly `outputs` |
| CwlScript.KeysOutnumberInputs | cwl.py:303 | distinct inputs all named among the keys, plus one extra key, means more keys than inputs |
| CwlScript.ExtraKeywordRefused | cwl.py:303-305 | a keyword naming no input raises "too many arguments" here when every input is supplied, while the current revision ignores it |
| CwlScript.Tool.constructor | cwl.py:142-143 | a new tool has no base command, inputs or outputs |
| CwlScript.Tool.AppendInputs | cwl.py:221-276 | each declared input is appended in order |
| CwlScript.Tool.SetInputs | cwl.py:221-278 | when the sort can compare every input, the inputs are a sorted permutation, inputs sharing a position in declaration order; with two or more inputs and one unpositioned it raises TypeError |
| CwlScript.Tool.SetOutputs | cwl.py:280-282 | the declared outputs are stored as they are |
| CwlScript.Tool.ReadSettings | cwl.py:136-146 | the sort's TypeError, then a missing `outputs` key, are raised; otherwise base command, sorted inputs and declared outputs are set |
| CwlScript.Tool.Load | cwl.py:107-146 | an invalid document raises; otherwise the tool loads with the state `ReadSettings` describes (base command, sorted inputs with ties in declaration order, declared outputs), or raises its error |
| CwlScript.Tool.GetCommand | cwl.py:296-322 | the method returns the command line this revision specifies, including the keyword-count check |
| NkPrototype.Without | nk/cwl.py:39-41 | removing a key leaves no entry for it and every other lookup unchanged |
| NkPrototype.MergedLookup | nk/cwl.py:39-42 | the merged dictionary's `id` is the options' own `id` if present, else the mapping key; every other key reads as in the options |
| NkPrototype.NormaliseMappingForm | nk/cwl.py:34-45 | the mapping form reads exactly when every value is a dict, giving one merged dict per entry in order |
| NkPrototype.IdOf | nk/cwl.py:53 | `inpt["id"]` succeeds exactly on a dict with `id`, and raises KeyError or TypeError otherwise |
| NkPrototype.TemplateListsIds | nk/cwl.py:51-54 | the template succeeds exactly when every input has an id, and lists `<id>` for each in order |
| NkPrototype.Somes | nk/cwl.py:59-69 | skipping absent arguments never adds any |
| NkPrototype.SomesAppend | nk/cwl.py:59-69 | skipping distributes over concatenation |
| NkPrototype.SkippedInputDropsOut | nk/cwl.py:68-69 | an input with no value and no default has the same effect as not being declared |
| NkPrototype.SomesDropNone | nk/cwl.py:68-69 | an absent argument in the middle is dropped |
| NkPrototype.DefaultUsedByPresence | nk/cwl.py:65-66 | an unsupplied input with a `default` key uses it, whatever its truthiness |
| NkPrototype.SuppliedValueUsed | nk/cwl.py:62-63 | a supplied input uses the supplied value with its declared type |
| NkPrototype.UnsuppliedSkipped | nk/cwl.py:68-69 | an unsupplied input without a default contributes nothing and raises nothing |
| NkPrototype.CommandInDeclarationOrder | nk/cwl.py:56-78 | the command succeeds exactly when every input can be looked up, and is the base command then the tokens of the present arguments in declaration order |
| NkPrototype.StringsDoubleQuoted | nk/cwl.py:74-77 | values of type `string` are double-quoted and others are rendered bare |
| NkPrototype.Tool.constructor | nk/cwl.py:18-19 | a new tool has empty inputs and outputs |
| NkPrototype.Tool.SetInputs | nk/cwl.py:34-45 | the list form replaces the inputs, the mapping form appends its merged entries, other values add nothing |
| NkPrototype.Tool.Load | nk/cwl.py:10-22 | the keys `baseCommand`, `inputs` and `outputs` are read in that order, with KeyError for the first missing one; the tool stores the base command, the normalised inputs and the declared outputs |
| NkPrototype.Tool.GetCommand | nk/cwl.py:56-78 | the method returns the command line the prototype specifies |
| Scenarios.FindDocValid | tests/test_correctness.py:35 | the `find` document passes the current schema |
| Scenarios.FindInputsRead | tests/test_correctness.py:35 | its inputs read as `dir`, `name` and `maxdepth` with their bindings |
| Scenarios.FindOutputsRead | tests/test_correctness.py:35 | its output reads as the stdout stream `example_out` |
| Scenarios.FindConfigured | tests/test_correctness.py:35 | the document configures base command `find`, the three inputs and the one output |
| Scenarios.FindSortedOrder | tests/test_correctness.py:35 | any sorted permutation of the three inputs is in position order |
| Scenarios.FindCommandCurrent | tests/test_correctness.py:25-31 | the current revision renders `find '.' -name '*.cwl' -maxdepth 3` both with and without `maxdepth` |
| Scenarios.FindBashArgs | tests/test_correctness.py:38-43 | the bash-app arguments carry that command, `example_out` as stdout, and no files |
| Scenarios.FindScenario | tests/test_correctness.py:15-63 | the two calls of the test render the manual command, and the app arguments redirect stdout to the output file |
| Scenarios.FindCommandPackage | tests/test_correctness.py:25-31 | the package revision renders the same command |
| Scenarios.FindCommandScript | tests/test_correctness.py:38-55 | the script revision refuses the first call's four keywords as too many, and renders the second call without quotes |
| Scenarios.FindCommandNk | tests/test_correctness.py:38-55 | the prototype renders `find "." "*.cwl" 3`, with no prefixes, for both calls |
| Scenarios.MissingDirCurrent | cwl/command_line_tool.py:428-429 | without `dir` the current revision raises the missing-input error for `dir` |
| Scenarios.MissingDirNk | nk/cwl.py:68-69 | without `dir` the prototype leaves `dir` out instead of raising |

## Left out

- Reading the YAML file, `os.system`, `subprocess` and parsl itself: the
  model starts from the parsed document. The bash-app arguments hold the
  raw values that would be wrapped in `File`.
- `run`, `run_local` and `__call__`, which only execute the command or
  hand it to parsl.
- The `Workflow` classes and `extract_commands_from_cwl` in every
  revision. They lie outside the CommandLineTool binding.
- Floating-point values: `Value` has no float, so float defaults and
  `double`/`float` values cannot be written. The type names themselves
  are kept.
- `repr`, `__str__`, `print` and the `version` accessor. `str()` of
  nested lists and dicts is modelled without Python's escaping of quotes
  inside strings.
- The schema library's error messages and exception types. The model
  only says which documents pass.
- nk/test.py, which only drives the prototype on files.
- Ordering.SortInputs: CPython's TimSort is replaced by an insertion sort
  using the same `__lt__`. The contract states sortedness, permutation
  and that inputs sharing a position keep their order. It does not state
  the relative order of unpositioned inputs: `__lt__` answers True for
  two of them, so where they end up depends on which pairs TimSort
  compares.
- CwlScript.SortRaises: assumes `list.sort` compares every element at
  least once when there are two or more. So it raises TypeError exactly
  when some input has no position; which comparison raises first is not
  modelled.
- NkPrototype.MergeEntry: `dict.update` with a list of pairs or a
  string is treated as a TypeError, not as the pairs it would accept.
- NkPrototype.Tool.SetInputs: when the mapping form fails midway, the
  inputs already appended are not stated.
