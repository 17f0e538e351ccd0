/**
 * The rows that flow through the matrix group handler.
 *
 * The source passes rows around as dictionaries; here each kind of row is a
 * datatype with one field per key the handler reads or writes, and a key that
 * may be missing from the dictionary is an `Option` (`None` = key absent).
 */
module Rows {

  datatype Option<T> = None | Some(value: T)

  /** Why an expansion stops. Each stands for an exception the source raises. */
  datatype Error =
    | MissingChoiceList   // `initial_row.pop('kobo--matrix_list')` on a row without the key
    | MissingType         // `col['type']` on a column row without a type
    | MissingName         // a name that is absent (`col['name']`, or `None` given to `'_'.join`)
    | MissingLabel        // iterating an absent label

  datatype Result<T> = Ok(value: T) | Err(error: Error)

  /**
   * A survey row received between `begin_kobomatrix` and `end_kobomatrix`:
   * one column of the matrix. Labels are ordered per-language sequences.
   */
  datatype Column = Column(
    ty: Option<string>,
    name: Option<string>,
    labels: Option<seq<string>>,
    required: Option<bool>,
    selectFromListName: Option<string>)

  /** One entry of the resolved choice list: a matrix item. */
  datatype Item = Item(name: Option<string>, labels: Option<seq<string>>)

  /** A row the handler appends to the survey contents. */
  datatype OutRow = OutRow(
    ty: string,
    name: Option<string>,
    labels: Option<seq<string>>,
    appearance: Option<string>,
    required: Option<bool>,
    selectFromListName: Option<string>)
}
