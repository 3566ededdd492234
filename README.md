# Markdown field of the record store, in Dafny

This project models the "markdown" field type of a schema-driven record store.
A field is one column of a collection. It has an identity (`Name`, `Id`) and the flags `System`, `Hidden` and `Presentable`.
It is configured by `MaxSize`, a byte ceiling where zero or less means 5 MiB, and by `Required`.

The record layer calls three operations on a field:
- `PrepareValue` coerces a raw value to a string.
- `ValidateValue` checks the stored value. It checks the type first, then the required flag, then the resolved ceiling, and stops at the first failure.
- `ValidateSettings` checks the field's configuration when a schema is saved and reports every failing attribute.

The request layer calls `CalculateMaxBodySize`. It returns the resolved ceiling that limits how much of a request body is buffered.

Files:
- `field_markdown.dfy` (module `FieldMarkdown`) holds the field as a class. The setters update its fields in place. The getters, the ceiling, the value check and the settings check are functions that read it. Lemmas relate these operations to each other.
- `validation.dfy` (module `Validation`) models how the settings check composes its rules. Each attribute has an ordered list of rules, and the first failing rule decides that attribute's error. Every attribute is visited, and failures are collected in a map keyed by the attribute's name (`id`, `name`, `maxSize`). `ValidateStructReportsEveryFailure` proves, by induction, that this map reports each failing attribute. The contract of `ValidateStruct` states that no other key is reported.

A string value is a sequence of bytes (`seq<byte>`). Its length is counted in bytes, as Go's `len` counts it.
The configured ceiling is a signed 64-bit integer (`int64`).
The default ceiling is 5 << 20 = 5242880 bytes. The settings bound `maxSafeJSONInt` is 2^53 − 1 = 9007199254740991.

The doc comment of `Id` calls it the unique stable field identifier (core/field_markdown.go:33-36). Even so, `SetId` (core/field_markdown.go:70-72) overwrites it without any check, and the model follows the code.

## Model

| member | source | states |
|---|---|---|
| `FieldMarkdown.MarkdownField.constructor` | core/field_markdown.go:11-15 | The instance registered for the type is zero-valued: empty name and id, every flag false, `MaxSize` 0. Its resolved ceiling is therefore the 5 MiB default. |
| `FieldMarkdown.MarkdownField.Type` | core/field_markdown.go:59-62 | Returns "markdown", the registry key, whatever the field's state. |
| `FieldMarkdown.MarkdownField.ColumnType` | core/field_markdown.go:104-107 | Returns the column declaration `TEXT DEFAULT '' NOT NULL`, whatever the field's state. |
| `FieldMarkdown.MarkdownField.GetId` | core/field_markdown.go:64-67 | Returns the field's current `Id`. |
| `FieldMarkdown.MarkdownField.GetName` | core/field_markdown.go:74-77 | Returns the field's current `Name`. |
| `FieldMarkdown.MarkdownField.GetSystem` | core/field_markdown.go:84-87 | Returns the field's current `System` flag. |
| `FieldMarkdown.MarkdownField.GetHidden` | core/field_markdown.go:94-97 | Returns the field's current `Hidden` flag. |
| `FieldMarkdown.MarkdownField.SetId` | core/field_markdown.go:69-72 | After `SetId(id)`, `GetId()` returns `id`. Every other attribute is unchanged. |
| `FieldMarkdown.MarkdownField.SetName` | core/field_markdown.go:79-82 | After `SetName(name)`, `GetName()` returns `name`. Every other attribute is unchanged. |
| `FieldMarkdown.MarkdownField.SetSystem` | core/field_markdown.go:89-92 | After `SetSystem(b)`, `GetSystem()` returns `b`. Every other attribute is unchanged. |
| `FieldMarkdown.MarkdownField.SetHidden` | core/field_markdown.go:99-102 | After `SetHidden(b)`, `GetHidden()` returns `b`. Every other attribute is unchanged. |
| `FieldMarkdown.MarkdownField.CalculateMaxBodySize` | core/field_markdown.go:148-155 | The ceiling is exactly 5242880 when `MaxSize <= 0` and exactly `MaxSize` otherwise. It is always positive and never below `MaxSize`. |
| `FieldMarkdown.MarkdownField.PrepareValue` | core/field_markdown.go:109-112 | Preparation is total: any raw value becomes a string, with no error. |
| `FieldMarkdown.MarkdownField.ValidateValue` | core/field_markdown.go:114-137 | A non-string fails with the type error. A string fails with the required error iff the field is required and the string is empty. Otherwise it fails with the size error iff its byte length exceeds the resolved ceiling, and that error's `maxSize` equals the ceiling. It passes iff none of the three applies. |
| `FieldMarkdown.MarkdownField.ValidateSettings` | core/field_markdown.go:139-146 | The report names `id` iff the id rule rejects `Id`, and `name` iff the name rule rejects `Name`. It names `maxSize` iff `MaxSize` lies outside [0, 2^53 − 1], with the lower-bound error below 0 and the upper-bound error above. No other key is reported. |
| `Validation.FirstFailure` | core/field_markdown.go:144 | The rules of one attribute run in order: no error iff every rule passes, and otherwise the error of the first failing rule. |
| `Validation.ValidateStructReportsEveryFailure` | core/field_markdown.go:141-145 | With distinct keys, an attribute's key is in the report iff one of its rules fails, and it is mapped to that attribute's first failure. |
| `Validation.ValidateStruct` | core/field_markdown.go:141-145 | Every attribute is visited and each failure is recorded under its key, so the report holds only the attributes' keys. |
| `FieldMarkdown.PreparedValueHasSupportedType` | core/field_markdown.go:109-119 | A value produced by `PrepareValue` never draws the unsupported-type error from `ValidateValue`. |
| `FieldMarkdown.TypeErrorMasksConfiguration` | core/field_markdown.go:115-119 | A non-string value draws the type error under every configuration of `Required` and `MaxSize`. |
| `FieldMarkdown.RequiredAndSizeFailuresDisjoint` | core/field_markdown.go:121-134 | The empty string draws the required error iff the field is required, and otherwise passes. The size check never fails on it, because the ceiling is positive. |
| `FieldMarkdown.ShorterValueStillPasses` | core/field_markdown.go:127-136 | If a string passes, any no-longer string also passes, unless it is empty and the field is required. |
| `FieldMarkdown.AcceptedSettingsBoundCeiling` | core/field_markdown.go:139-155 | When the settings check does not flag `maxSize`, the resolved ceiling lies in (0, 2^53 − 1]. |
| `FieldMarkdown.SettingsIgnoreFlags` | core/field_markdown.go:140-146 | Two fields that agree on `Id`, `Name` and `MaxSize` get the same settings report, whatever their flags and `Required`. |
| `FieldMarkdown.ScenarioRequiredEmpty` | core/field_markdown.go:121-125 | With `MaxSize = 0` and `Required` set, the empty string fails with the required error. |
| `FieldMarkdown.ScenarioTenByteCeiling` | core/field_markdown.go:127-136 | With `MaxSize = 10`, "hello" (5 bytes) passes and "hello world!" (12 bytes) fails with the size error carrying `maxSize = 10`. |

## Left out

- The global `Fields` registry and the `init` function that fills it (core/field_markdown.go:11-15): the map is declared outside this file, and registration runs as a side effect at process start. The model keeps only the zero-valued instance that the registered constructor returns.
- The `MaxBodySizeCalculator` capability probe (core/field_markdown.go:21-24): the interface and the request layer that probes for it are outside this model. `CalculateMaxBodySize` is modelled as the function the probe would call.
- `PrepareValue`: `cast.ToString` is a library call outside this model. It is a parameter (`toString`), and the model states only that the result is a string and that there is no error.
- `ValidateSettings`: the id and name shape rules and the `maxSafeJSONInt` constant are defined outside this file. The two rules are parameters (string predicates), and their own errors are reduced to `CustomRuleFailed`. The constant is fixed at 2^53 − 1, as the `MaxSize` doc comment states.
- `Validation.Apply`: the engine's bound rules skip a zero value. The model applies them to zero as well, which gives the same outcome here because 0 lies in [0, 2^53 − 1]. The engine's internal-error path, which aborts the whole check, is not modelled.
- Error messages and their templating: only the error kind and the `maxSize` parameter of `validation_content_size_limit` are kept. The codes of the unsupported-type and required errors are defined outside this file. They appear only as the constructors `UnsupportedValueType` and `ValueRequired`.
- `Record`, `App`, `Collection` and `context.Context`: `record.GetRaw(f.Name)` becomes the raw value passed to `ValidateValue`. The unused `app` argument of `ColumnType` is dropped.
- `ValidateValue`: the Go conversion `int64(len(val))` is taken as exact. It is exact for every string shorter than 2^63 bytes.
- JSON and form struct tags, and `Presentable`: these are serialisation metadata and a UI hint with no logic. `Presentable` is kept as a field that nothing reads.
