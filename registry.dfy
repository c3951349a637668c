/**
 * The registry pattern of src/lib/useApi.ts: a fixed, ordered table of
 * named implementations per capability slot, searched with
 * `Array.prototype.find` either by name (to select) or by identity of the
 * implementation (to recover the current name).
 */
module Registry {
  import opened Wrappers

  /** One registered implementation: `{ name, api }`. */
  datatype Entry<T> = Entry(name: string, api: T)

  /** The names of a table in registration order: `table.map(({ name }) => name)`. */
  function Names<T>(table: seq<Entry<T>>): (r: seq<string>)
    ensures |r| == |table|
    ensures forall i :: 0 <= i < |table| ==> r[i] == table[i].name
  {
    if table == [] then [] else [table[0].name] + Names(table[1..])
  }

  /** `api` is the implementation of some entry of `table`. */
  predicate Registered<T(==)>(table: seq<Entry<T>>, api: T) {
    exists i :: 0 <= i < |table| && table[i].api == api
  }

  /** Entry `i` is the first one named `name`: the entry `find` returns. */
  predicate IsFirstNamed<T>(table: seq<Entry<T>>, name: string, i: int) {
    0 <= i < |table| && table[i].name == name &&
    forall j :: 0 <= j < i ==> table[j].name != name
  }

  /** Entry `i` is the first one whose implementation is identical to `api`. */
  predicate IsFirstWith<T(==)>(table: seq<Entry<T>>, api: T, i: int) {
    0 <= i < |table| && table[i].api == api &&
    forall j :: 0 <= j < i ==> table[j].api != api
  }

  /** No implementation is registered under two entries. */
  predicate Distinct<T(==)>(table: seq<Entry<T>>) {
    forall i, j :: 0 <= i < j < |table| ==> table[i].api != table[j].api
  }

  /** Index of `table.find(e => e.name === name)`, or None when no entry matches. */
  function FindByName<T>(table: seq<Entry<T>>, name: string): (r: Option<nat>)
    ensures r.Some? ==> IsFirstNamed(table, name, r.value)
    ensures r.None? <==> name !in Names(table)
  {
    if table == [] then None
    else if table[0].name == name then Some(0)
    else match FindByName(table[1..], name)
      case None => None
      case Some(i) => Some(i + 1)
  }

  /** Index of `table.find(e => e.api === api)`, or None when no entry matches. */
  function FindByApi<T(==)>(table: seq<Entry<T>>, api: T): (r: Option<nat>)
    ensures r.Some? ==> IsFirstWith(table, api, r.value)
    ensures r.None? <==> !Registered(table, api)
  {
    if table == [] then None
    else if table[0].api == api then Some(0)
    else match FindByApi(table[1..], api)
      case None => None
      case Some(i) => Some(i + 1)
  }

  /** The name of the first entry whose implementation is `api`, if any. */
  function NameOf<T(==)>(table: seq<Entry<T>>, api: T): (r: Option<string>)
    ensures r.Some? <==> Registered(table, api)
    ensures r.Some? ==> r.value in Names(table)
    ensures r.Some? ==> exists i :: IsFirstWith(table, api, i) && table[i].name == r.value
  {
    match FindByApi(table, api)
    case None => None
    case Some(i) => Some(table[i].name)
  }

  /**
   * The implementation in force after selecting `name`: the first entry
   * named `name` when there is one, otherwise `current` unchanged.
   */
  function Select<T(==)>(table: seq<Entry<T>>, name: string, current: T): (r: T)
    ensures name !in Names(table) ==> r == current
    ensures name in Names(table) ==> Registered(table, r)
    ensures Registered(table, current) ==> Registered(table, r)
  {
    match FindByName(table, name)
    case None => current
    case Some(i) => table[i].api
  }

  /** Selecting a registered name installs the first entry carrying that name. */
  lemma SelectFirstNamed<T>(table: seq<Entry<T>>, name: string, current: T, i: int)
    requires IsFirstNamed(table, name, i)
    ensures Select(table, name, current) == table[i].api
  {
    var found := FindByName(table, name);
    assert table[i].name in Names(table) by { assert Names(table)[i] == table[i].name; }
  }

  /** The name of the first entry holding `api` is what NameOf recovers. */
  lemma NameOfFirstWith<T>(table: seq<Entry<T>>, api: T, i: int)
    requires IsFirstWith(table, api, i)
    ensures NameOf(table, api) == Some(table[i].name)
  {
    var found := FindByApi(table, api);
    assert found.Some?;
  }

  /**
   * Round trip: in a table whose implementations are distinct, selecting a
   * registered name and then asking for the current name gives that name back.
   */
  lemma SelectThenNameOf<T>(table: seq<Entry<T>>, name: string, current: T)
    requires Distinct(table)
    requires name in Names(table)
    ensures NameOf(table, Select(table, name, current)) == Some(name)
  {
    var i := FindByName(table, name).value;
    SelectFirstNamed(table, name, current, i);
    assert IsFirstWith(table, table[i].api, i);
    NameOfFirstWith(table, table[i].api, i);
  }

  /** Selecting the same name twice is the same as selecting it once. */
  lemma SelectIdempotent<T>(table: seq<Entry<T>>, name: string, current: T)
    ensures Select(table, name, Select(table, name, current)) == Select(table, name, current)
  {
  }
}
