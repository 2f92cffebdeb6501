/** Records, active models and update records of one backend table, and what each update record does to a row.
    Column 0 is the primary key, as in every entity of the simulation. */
module Records {

  datatype Option<+T> = None | Some(value: T)

  datatype Value = Int(i: int) | Text(s: string) | Null

  type Key = Value

  type Row = seq<Value>

  type Rows = map<Key, Row>

  // SeaORM's `ActiveValue`; equality distinguishes `Set(v)` from `Unchanged(v)`.
  datatype ActiveValue = Set(v: Value) | Unchanged(v: Value) | NotSet {

    function IntoValue(): Option<Value> {
      match this
      case Set(x) => Some(x)
      case Unchanged(x) => Some(x)
      case NotSet => None
    }
  }

  type ActiveModel = seq<ActiveValue>

  datatype CacheUpdate = Insert(am: ActiveModel) | Update(am: ActiveModel) | Delete

  function Lookup<K, V>(m: map<K, V>, k: K): Option<V> {
    if k in m then Some(m[k]) else None
  }

  // `Model::into()`: every column of the record becomes `Unchanged`.
  function IntoActive(row: Row): ActiveModel {
    seq(|row|, i requires 0 <= i < |row| => Unchanged(row[i]))
  }

  // The row an INSERT of this active model creates; a column that is not set gets the column default.
  function Stored(am: ActiveModel): Row {
    seq(|am|, i requires 0 <= i < |am| => if am[i].NotSet? then Null else am[i].v)
  }

  // The row an UPDATE with this active model leaves behind: only the `Set` columns are written.
  function Patched(row: Row, am: ActiveModel): Row {
    seq(|row|, i requires 0 <= i < |row| => if i < |am| && am[i].Set? then am[i].v else row[i])
  }

  predicate Fits(k: Key, row: Row, width: nat) {
    |row| == width && 0 < width && row[0] == k
  }

  // Does the backend accept this update record when the row for its key is `cur`?
  predicate Accepts(u: CacheUpdate, cur: Option<Row>) {
    match u
    case Insert(_) => cur.None?
    case Update(_) => cur.Some?
    case Delete => true
  }

  // What the row for the key is after the update record has been written.
  function Apply(u: CacheUpdate, cur: Option<Row>): Option<Row> {
    match u
    case Insert(am) => Some(Stored(am))
    case Update(am) => if cur.Some? then Some(Patched(cur.value, am)) else None
    case Delete => None
  }

  // The update record addresses the row `k` of a table with `width` columns.
  predicate WellKeyed(k: Key, u: CacheUpdate, width: nat) {
    u.Delete? || (|u.am| == width && 0 < width && u.am[0].IntoValue() == Some(k))
  }

  // The update record can be written over the row `cur` of key `k`, and the columns an Update does not write
  // agree with that row.
  ghost predicate Coherent(k: Key, u: CacheUpdate, cur: Option<Row>, width: nat) {
    WellKeyed(k, u, width) && Accepts(u, cur) &&
    match u
    case Insert(am) => forall i :: 0 <= i < |am| ==> !am[i].NotSet?
    case Update(am) =>
      && Fits(k, cur.value, width)
      && forall i :: 0 <= i < |am| ==> am[i].Set? || am[i] == Unchanged(cur.value[i])
    case Delete => true
  }

  // The value a reader must see when `pending` has not reached the backend row yet.
  function Seen(pending: Option<CacheUpdate>, cur: Option<Row>): Option<Row> {
    if pending.Some? then Apply(pending.value, cur) else cur
  }
}
