/** The body of `run_cypher` in app.py (lines 20-28): the rows a Cypher query
    returned are flattened to a bare list when the first row has exactly one
    column, and handed back unchanged otherwise. */
module ResultNormalizer {
  import opened Results

  /** One record of `result.data()`: column name to value. */
  type Row<V> = map<string, V>

  /** What `run_cypher` returns: a flat list of one column's values, or the rows as they came. */
  datatype Normalized<V> = Column(values: seq<V>) | Table(rows: seq<Row<V>>)

  /** A set with one element has no other element. */
  lemma {:induction false} SingletonHasOneElement(keys: set<string>)
    requires |keys| == 1
    ensures forall a, b :: a in keys && b in keys ==> a == b
  {
    forall a, b | a in keys && b in keys
      ensures a == b
    {
      SubsetSize({a, b}, keys);
    }
  }

  /** A subset is no larger than its superset. */
  lemma {:induction false} SubsetSize(small: set<string>, big: set<string>)
    requires small <= big
    ensures |small| <= |big|
    decreases small
  {
    if small != {} {
      var x :| x in small;
      SubsetSize(small - {x}, big - {x});
    }
  }

  /** `list(row.keys())[0]` for a row with exactly one column: its only key. */
  function SoleKey<V>(row: Row<V>): (k: string)
    requires |row| == 1
    ensures row.Keys == {k}
  {
    SingletonHasOneElement(row.Keys);
    var k :| k in row.Keys;
    k
  }

  /** `[row[key] for row in rows]`: the column `key`, or None (Python's KeyError)
      when some row lacks it. */
  function Project<V>(rows: seq<Row<V>>, key: string): (r: Option<seq<V>>)
    ensures r.Some? <==> forall i :: 0 <= i < |rows| ==> key in rows[i]
    ensures r.Some? ==> |r.value| == |rows| && forall i :: 0 <= i < |rows| ==> r.value[i] == rows[i][key]
  {
    if rows == [] then Some([])
    else if key !in rows[0] then None
    else match Project(rows[1..], key)
      case None => None
      case Some(rest) => Some([rows[0][key]] + rest)
  }

  /** The normalisation step of `run_cypher`. Only the first row's columns decide
      the branch; a later row that lacks the chosen column raises KeyError, given
      here as a Failure carrying the missing column name. */
  function Normalize<V>(data: seq<Row<V>>): (r: Result<Normalized<V>, string>)
    ensures r == Success(Table(data)) <==> data == [] || |data[0]| != 1
    ensures r.Failure? <==>
              && data != [] && |data[0]| == 1
              && exists i :: 0 <= i < |data| && SoleKey(data[0]) !in data[i]
    ensures r.Failure? ==> r.error == SoleKey(data[0])
    ensures r.Success? && data != [] && |data[0]| == 1 ==>
              && r.value.Column?
              && |r.value.values| == |data|
              && forall i :: 0 <= i < |data| ==> r.value.values[i] == data[i][SoleKey(data[0])]
  {
    if data != [] && |data[0]| == 1 then
      var key := SoleKey(data[0]);
      match Project(data, key)
      case None => Failure(key)
      case Some(values) => Success(Column(values))
    else
      Success(Table(data))
  }

  /** A one-column result: every row maps `key` to the next value. */
  function SingleColumn<V>(key: string, values: seq<V>): (rows: seq<Row<V>>)
    ensures |rows| == |values|
    ensures forall i :: 0 <= i < |values| ==> rows[i] == map[key := values[i]]
  {
    if values == [] then [] else [map[key := values[0]]] + SingleColumn(key, values[1..])
  }

  /** A non-empty one-column result is flattened to exactly its values, in order. */
  lemma {:induction false} SingleColumnIsFlattened<V>(key: string, values: seq<V>)
    requires values != []
    ensures Normalize(SingleColumn(key, values)) == Success(Column(values))
  {
    var rows := SingleColumn(key, values);
    assert rows[0].Keys == {key};
    assert SoleKey(rows[0]) == key;
    var r := Normalize(rows);
    assert forall i :: 0 <= i < |rows| ==> key in rows[i];
    assert r.value.values == values;
  }

  /** When every row has exactly one column, the rows flatten exactly when they
      all name the same column, and the flat list then determines the rows. */
  lemma {:induction false} OneColumnPerRow<V>(data: seq<Row<V>>)
    requires data != []
    requires forall i :: 0 <= i < |data| ==> |data[i]| == 1
    ensures var key := SoleKey(data[0]);
            Normalize(data).Success? <==> forall i :: 0 <= i < |data| ==> data[i].Keys == {key}
    ensures Normalize(data).Success? ==>
              Normalize(data).value.Column? &&
              data == SingleColumn(SoleKey(data[0]), Normalize(data).value.values)
  {
    var key := SoleKey(data[0]);
    forall i | 0 <= i < |data|
      ensures key in data[i] <==> data[i].Keys == {key}
    {
      SingletonHasOneElement(data[i].Keys);
    }
    var r := Normalize(data);
    if r.Success? {
      var rows := SingleColumn(key, r.value.values);
      forall i | 0 <= i < |data|
        ensures data[i] == rows[i]
      {
        assert data[i].Keys == rows[i].Keys;
      }
    }
  }

  /** The example of a question about one film's director: one row, one column. */
  lemma DirectorExample()
    ensures Normalize([map["name" := "Ron Howard"]]) == Success(Column(["Ron Howard"]))
  {
    assert [map["name" := "Ron Howard"]] == SingleColumn("name", ["Ron Howard"]);
    SingleColumnIsFlattened("name", ["Ron Howard"]);
  }
}
