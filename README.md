# Kobo matrix group handler

A Dafny model of `KoboMatrixGroupHandler`, the XLSForm preprocessor that turns
a `begin_kobomatrix` … `end_kobomatrix` block of survey rows into a table.
Given a choice list of items, and the column questions written between
the two rows, it emits:

- one header block, `begin_group <name>_header`. It holds a note with the
  item label, then one note per column with that column's label, and
  closes with `end_group`;
- one block per item, `begin_group <name>_<item>`. It holds a note with the
  item's label, then one copy of every column question renamed
  `<name>_<item>_<column>`. Each copy's labels are prefixed with the item
  name and wrapped in a hidden span. The block closes with `end_group`.

The model is split into five modules:

- `Rows` holds the row shapes. A dictionary key that may be absent is an
  `Option` field.
- `Labels` holds the wrap templates and `_format_all_labels`.
- `Builders` holds `_header`, `_rows_for_item` and `_make_row`. These are pure
  functions that return a block or the error the source raises while
  building it. Lemmas state each block's layout and which error comes
  first.
- `Expansion` is a function of the handler's state that says what `finish`
  appends and what it raises. Lemmas state:
  - the row count;
  - that the header block comes first;
  - that block k+1 is item k's block;
  - that a failing item stops the output after the earlier blocks;
  - what an empty item list gives.
- `MatrixHandler` holds the stateful objects. `KoboMatrixGroupHandler` is a
  class whose `Begin` configures the fields and whose `HandleRow`
  accumulates column rows. Its `Finish` appends rows one at a time to a
  caller-owned `SurveyContents` object. The loops are proved against
  `Expansion.Expand`.

`Scenario` works one concrete matrix through the lemmas: group `m1`, items
`car` and `bike`, a `select_one` column and a `text` column. It also shows
that names are not guaranteed unique. An item named `header` opens a group
named `m1_header` and a note named `m1_header_note`, which are exactly the
header block's names.

Where the class docstring (`kobomatrix_handler.py:21-71`) and the code
disagree, the model follows the code. The docstring's per-item question names
omit the group prefix (`car_q1` rather than `m1_car_q1`). Its header notes are
shown as `m1_q1` rather than `m1_header_q1`. It also gives the numbered
question rows appearance `w2`, while the code makes it `w2 horizontal-compact`
or `w2 no-label`.

## Model

| member | source | states |
|---|---|---|
| Labels.DefaultTemplates | kpi/utils/xlsform_preprocessors/kobomatrix_handler.py:5-7 | the three default templates are `<span style="display:none">{}</span>`, `**{}**` and `##### {}` |
| Labels.FormatAllLabels | kpi/utils/xlsform_preprocessors/kobomatrix_handler.py:95-98 | the result has one entry per label, and entry i is the template applied to label i |
| Labels.ItemPrefixed | kpi/utils/xlsform_preprocessors/kobomatrix_handler.py:149-151 | entry i is the item name, a dash and label i, with nothing dropped or reordered |
| Builders.HeaderNotes | kpi/utils/xlsform_preprocessors/kobomatrix_handler.py:113-121 | the column notes are built exactly when every column has a label and a name, and then there is one note per column |
| Builders.HeaderNotesAt | kpi/utils/xlsform_preprocessors/kobomatrix_handler.py:113-121 | note i is built from column i |
| Builders.HeaderNotesFirstError | kpi/utils/xlsform_preprocessors/kobomatrix_handler.py:113-121 | a failure is the error of the first column that lacks a label or a name |
| Builders.Header | kpi/utils/xlsform_preprocessors/kobomatrix_handler.py:100-122 | the header is built exactly when the item label is present and every column has a label and a name, and then it has one row per column plus three |
| Builders.HeaderLayout | kpi/utils/xlsform_preprocessors/kobomatrix_handler.py:100-122 | the rows are `begin_group <name>_header` (w7), then the note `<name>_header_note` (w1) with the header-wrapped item labels, then one w2 note `<name>_header_<col>` per column in order with the header-wrapped column labels, then `end_group` |
| Builders.HeaderError | kpi/utils/xlsform_preprocessors/kobomatrix_handler.py:100-122 | a missing item label fails first; otherwise the first incomplete column fails, with a missing label before a missing name |
| Builders.QuestionAppearance | kpi/utils/xlsform_preprocessors/kobomatrix_handler.py:141-145 | the appearance is `w2 horizontal-compact` if and only if the type is `select_one` or `select_multiple`, and `w2 no-label` otherwise |
| Builders.Question | kpi/utils/xlsform_preprocessors/kobomatrix_handler.py:139-157 | a question is built exactly when the column has a type, a name and a label; the type is checked first, then the name, then the label |
| Builders.QuestionFields | kpi/utils/xlsform_preprocessors/kobomatrix_handler.py:139-157 | the question keeps the type, is named `<base>_<col>`, and gets the type's appearance; label j is the span-wrapped `<item>-<label j>`; `required` is copied or defaults to false; the choice list name is copied |
| Builders.Questions | kpi/utils/xlsform_preprocessors/kobomatrix_handler.py:159 | the questions are built exactly when all columns are complete, and then there is one question per column |
| Builders.QuestionsAt | kpi/utils/xlsform_preprocessors/kobomatrix_handler.py:159 | question i is built from column i |
| Builders.QuestionsFirstError | kpi/utils/xlsform_preprocessors/kobomatrix_handler.py:159 | a failure is the error of the first incomplete column |
| Builders.RowsForItem | kpi/utils/xlsform_preprocessors/kobomatrix_handler.py:124-159 | an item block is built exactly when the item has a name and a label and every column is complete, and then it has one row per column plus three |
| Builders.ItemBlockLayout | kpi/utils/xlsform_preprocessors/kobomatrix_handler.py:124-159 | the rows are `begin_group <name>_<item>` (w7), then the note `<name>_<item>_note` (w1) with the row-header-wrapped item labels, then column i's question at position i+2, then `end_group` |
| Builders.ItemBlockError | kpi/utils/xlsform_preprocessors/kobomatrix_handler.py:124-159 | a missing item name fails first, then a missing item label, then the first incomplete column |
| Expansion.ItemResults | kpi/utils/xlsform_preprocessors/kobomatrix_handler.py:91-92 | entry k is item k's block or its error, and every block built has (columns + 3) rows |
| Expansion.Emit | kpi/utils/xlsform_preprocessors/kobomatrix_handler.py:91-93 | appending blocks succeeds exactly when none fails, and then it yields k blocks' worth of rows |
| Expansion.EmitFirstFailure | kpi/utils/xlsform_preprocessors/kobomatrix_handler.py:91-93 | a failure is the first failing block's error, and the rows are exactly the complete emission of the blocks before it |
| Expansion.EmitStopsAt | kpi/utils/xlsform_preprocessors/kobomatrix_handler.py:91-93 | when block k is the first failing one, the emission of any n > k blocks is the complete emission of the first k blocks with block k's error |
| Expansion.FailureSticks | kpi/utils/xlsform_preprocessors/kobomatrix_handler.py:91-93 | once a block has failed, later blocks change nothing |
| Expansion.EmitBlockAt | kpi/utils/xlsform_preprocessors/kobomatrix_handler.py:91-93 | in a full emission, rows `k*size .. (k+1)*size` are block k |
| Expansion.Expand | kpi/utils/xlsform_preprocessors/kobomatrix_handler.py:85-93 | a header error appends nothing and raises that error; otherwise finish completes exactly when every item block can be built |
| Expansion.ExpandSize | kpi/utils/xlsform_preprocessors/kobomatrix_handler.py:85-93 | a complete expansion has (items + 1) * (columns + 3) rows |
| Expansion.ExpandHeaderFirst | kpi/utils/xlsform_preprocessors/kobomatrix_handler.py:88-89 | once the header is built it is the first (columns + 3) rows, whatever the items do |
| Expansion.ExpandNoItems | kpi/utils/xlsform_preprocessors/kobomatrix_handler.py:85-93 | with no items the output is the header block alone |
| Expansion.ExpandFailsAtFirstBadItem | kpi/utils/xlsform_preprocessors/kobomatrix_handler.py:85-93 | a failing item stops the output: the error is the first bad item's error, and the rows are the header followed by the blocks of the k items before it, (k + 1) * (columns + 3) rows |
| Expansion.ExpandStopsAtItem | kpi/utils/xlsform_preprocessors/kobomatrix_handler.py:85-93 | when item k is the first bad item, finish raises its error after appending exactly what a complete finish over the items before k appends |
| Expansion.ExpandBlockAt | kpi/utils/xlsform_preprocessors/kobomatrix_handler.py:85-93 | rows (k + 1) * (columns + 3) up to (k + 2) * (columns + 3) of a complete expansion are `_rows_for_item` of item k, so nothing is reordered or dropped |
| MatrixHandler.SurveyContents.Append | kpi/utils/xlsform_preprocessors/kobomatrix_handler.py:89 | the row is appended at the end and the earlier rows are unchanged |
| MatrixHandler.AppendAll | kpi/utils/xlsform_preprocessors/kobomatrix_handler.py:88-89 | appending a block one row at a time leaves the old contents followed by the block |
| MatrixHandler.AppendBlocks | kpi/utils/xlsform_preprocessors/kobomatrix_handler.py:91-93 | the loop appends exactly `Emit`'s rows and raises exactly `Emit`'s failure |
| MatrixHandler.KoboMatrixGroupHandler.constructor | kpi/utils/xlsform_preprocessors/kobomatrix_handler.py:20-72 | a fresh handler holds its name, no rows, and is not yet begun |
| MatrixHandler.KoboMatrixGroupHandler.Begin | kpi/utils/xlsform_preprocessors/kobomatrix_handler.py:74-83 | a missing choice-list key raises and changes nothing; otherwise the key is popped, the items are looked up, the labels are kept, each template defaults when absent, and the rows are reset |
| MatrixHandler.KoboMatrixGroupHandler.AppendItemBlocks | kpi/utils/xlsform_preprocessors/kobomatrix_handler.py:91-93 | appends the item blocks of `Expand`, stopping at its failure |
| MatrixHandler.KoboMatrixGroupHandler.Finish | kpi/utils/xlsform_preprocessors/kobomatrix_handler.py:85-93 | the old contents stay an unchanged prefix, and exactly `Expand`'s rows are appended with exactly its error raised |
| MatrixHandler.KoboMatrixGroupHandler.HandleRow | kpi/utils/xlsform_preprocessors/kobomatrix_handler.py:161-167 | on `end_kobomatrix` the handler finishes, the rows are unchanged and the handler is popped (or the error raised); any other row is appended to the rows, the output is untouched and the handler stays |
| Scenario.M1Header | kpi/utils/xlsform_preprocessors/kobomatrix_handler.py:100-122 | for `m1`, the header note is `**Items**` named `m1_header_note`, and the first column note is `**Q1**` named `m1_header_q1` |
| Scenario.BikeBlock | kpi/utils/xlsform_preprocessors/kobomatrix_handler.py:124-159 | the `bike` block opens `m1_bike` and has the note `##### Bike`; the `select_one` question is compact, required and keeps its list; the `text` question has no label shown and defaults to not required |
| Scenario.BikeQ1 | kpi/utils/xlsform_preprocessors/kobomatrix_handler.py:139-157 | the `q1` question of `bike`, written out in full |
| Scenario.BikeQ2 | kpi/utils/xlsform_preprocessors/kobomatrix_handler.py:139-157 | the `q2` question of `bike`, written out in full |
| Scenario.TwoItemMatrix | kpi/utils/xlsform_preprocessors/kobomatrix_handler.py:85-93 | two items over two columns give 15 rows: the header first, and rows 10-15 are the `bike` block |
| Scenario.ItemNamedHeaderCollides | kpi/utils/xlsform_preprocessors/kobomatrix_handler.py:101-107 | an item named `header` gives a group and a note with the same names as the header block's |

## Left out

- The parent class's `begin` (`GroupHandler` in `base_handlers`) is not part of this model. The group name it presumably sets is a constructor parameter, and whether `begin` ran is the `begun` field, which `Finish` and `HandleRow` require.
- `self._base_handler.choices(...)` becomes a function parameter `lookup` of `Begin`. The choice list's shape beyond an item's name and label is not modelled.
- `str.format` is modelled only for templates with one `{}` placeholder (text before and after it). Custom templates from the `kobomatrix--*-wrap` keys are taken as already split. Format specs, escaped braces and extra placeholders are not modelled.
- Labels are lists of strings (one per translation). A label given as a bare string (which Python would iterate character by character) is not modelled.
- Python raises `KeyError` for an absent `type` or `name` key (`col[...]`), and `TypeError` for a missing or `None` name or label (joining or iterating `None`). The model has one error per missing field (`MissingType`, `MissingName`, `MissingLabel`, `MissingChoiceList`); the exception class and message are not modelled.
- `None` in the model row types means the key is absent. A key present with value `None` is not modelled separately: a `type` key holding `None` is emitted by the source with type `None` and appearance `w2 no-label` (lines 140-148), where the model raises `MissingType`; a `required` key holding `None` is copied as `None`, where the model gives `false`; a `select_from_list_name` key holding `None` is copied as a key holding `None`, where the model row has no choice list.
- `required` is a `bool` when present. A column's other keys (hint, constraint, relevant, …) are not copied by `_make_row` and are not in the model's row type.
- The type check for the compact appearance is exact string equality with `select_one` or `select_multiple`, as in the code. A type still written as `select_one yn` gets `w2 no-label`; whether a caller splits the type first is outside this file.
- `finish` is not atomic, and neither is the model. When the header or an item block cannot be built, the blocks before it stay appended before the error is raised.
- The constant strings `name` and `description` on the class (lines 11 and 16-18), the unused `pprint` import, and the dispatcher that routes rows between handlers are not part of this model. `StartType` and `EndType` (lines 13-14) are kept; the dispatcher's use of `StartType` is not modelled.
- Name uniqueness across blocks is not guaranteed by the source (see `Scenario.ItemNamedHeaderCollides`), so no uniqueness property is claimed.
