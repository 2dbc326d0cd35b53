/**
 * The feature resolver, `build_features`: look the (sku, time_key) row up in the
 * read-only feature store, project it onto the column manifests of pipelines A and
 * B, and coerce each projection to its dtype manifest.
 */
module Features {
  import opened Wrappers

  /** The composite key shared by feature rows and forecasts. */
  datatype Key = Key(sku: string, timeKey: int)

  /** A stored column value. */
  datatype Cell = Null | Integer(i: int) | Real(r: real) | Text(t: string)

  /** A stored feature row, by column name. */
  type Row = map<string, Cell>

  /**
   * A single-row frame, by column name. Its column order is that of the manifest
   * it was projected on, which is fixed configuration.
   */
  type Frame = map<string, Cell>

  /** A dtype manifest: column name to dtype name. */
  type DTypes = map<string, string>

  /** A column manifest and a dtype manifest, loaded once at start-up. */
  datatype Schema = Schema(columns: seq<string>, dtypes: DTypes)

  /** The externally populated feature table. */
  type FeatureStore = map<Key, Row>

  /** `DataFrame.astype(dtypes)`: a coercion that may fail. */
  type Caster = (Frame, DTypes) -> Option<Frame>

  /**
   * How `build_features` can end without frames: the error dictionary it returns
   * for a missing row or a failed cast, or the `KeyError` its projection raises
   * outside any `try` when the row lacks a manifest column.
   */
  datatype FeatureError = NotFound | DtypeError | MissingColumn

  /** Every column of the manifest is present in the row. */
  predicate HasColumns(row: Row, columns: seq<string>)
  {
    forall i :: 0 <= i < |columns| ==> columns[i] in row
  }

  /** The row restricted to the manifest's columns. */
  ghost function Restrict(row: Row, columns: seq<string>): Frame
  {
    map c | c in columns && c in row :: row[c]
  }

  /**
   * `{col: row[col] for col in columns}`: None when a column is missing (the
   * comprehension raises `KeyError`), otherwise the row restricted to the columns.
   */
  function Project(row: Row, columns: seq<string>): (r: Option<Frame>)
    ensures r.Some? <==> HasColumns(row, columns)
    ensures r.Some? ==> r.value == Restrict(row, columns)
  {
    if columns == [] then Some(map[])
    else if columns[0] !in row then None
    else
      match Project(row, columns[1..])
      case None => None
      case Some(rest) =>
        Some(rest[columns[0] := row[columns[0]]])
  }

  /**
   * `build_features(sku, time_key)`: the two coerced frames, or why there are none.
   * Pipeline A's frame is built and cast first; any failure ends the resolution.
   */
  function BuildFeatures(store: FeatureStore, cast: Caster, a: Schema, b: Schema, key: Key)
    : (r: Result<(Frame, Frame), FeatureError>)
    ensures r == Failure(NotFound) <==> key !in store
    ensures r == Failure(MissingColumn) <==>
      key in store && !(HasColumns(store[key], a.columns) && HasColumns(store[key], b.columns))
    ensures r == Failure(DtypeError) <==>
      && key in store && HasColumns(store[key], a.columns) && HasColumns(store[key], b.columns)
      && (cast(Restrict(store[key], a.columns), a.dtypes).None?
          || cast(Restrict(store[key], b.columns), b.dtypes).None?)
    ensures r.Success? ==>
      && key in store
      && cast(Restrict(store[key], a.columns), a.dtypes) == Some(r.value.0)
      && cast(Restrict(store[key], b.columns), b.dtypes) == Some(r.value.1)
  {
    if key !in store then Failure(NotFound)
    else
      var row := store[key];
      match Project(row, a.columns)
      case None => Failure(MissingColumn)
      case Some(frameA) =>
        match Project(row, b.columns)
        case None => Failure(MissingColumn)
        case Some(frameB) =>
          match cast(frameA, a.dtypes)
          case None => Failure(DtypeError)
          case Some(typedA) =>
            match cast(frameB, b.dtypes)
            case None => Failure(DtypeError)
            case Some(typedB) => Success((typedA, typedB))
  }
}
