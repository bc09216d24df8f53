/** SQL tables with a text primary key, as rows in insertion (rowid) order. */
module Tables {
  import opened Wrappers

  datatype Row<V> = Row(id: string, cells: V)

  type Table<V> = seq<Row<V>>

  function Find<V>(t: Table<V>, id: string): Option<V> {
    if t == [] then None
    else if t[0].id == id then Some(t[0].cells)
    else Find(t[1..], id)
  }

  /** `INSERT ... ON CONFLICT(id) DO UPDATE`: a known key keeps its place, a new one goes last. */
  function Upsert<V>(t: Table<V>, id: string, cells: V): Table<V> {
    if t == [] then [Row(id, cells)]
    else if t[0].id == id then [Row(id, cells)] + t[1..]
    else [t[0]] + Upsert(t[1..], id, cells)
  }

  lemma {:induction false} UpsertThenFind<V>(t: Table<V>, id: string, cells: V, other: string)
    ensures Find(Upsert(t, id, cells), other) == if other == id then Some(cells) else Find(t, other)
  {
    if t != [] && t[0].id != id {
      UpsertThenFind(t[1..], id, cells, other);
      assert Upsert(t, id, cells)[1..] == Upsert(t[1..], id, cells);
    } else if t != [] {
      assert Upsert(t, id, cells)[1..] == t[1..];
    }
  }

  /** Row by row: nothing but the named row changes, and only an unknown key adds one. */
  lemma {:induction false} UpsertRows<V>(t: Table<V>, id: string, cells: V)
    ensures
      var u := Upsert(t, id, cells);
      && |u| == (if Find(t, id).Some? then |t| else |t| + 1)
      && (Find(t, id).None? ==> u == t + [Row(id, cells)])
      && forall i | 0 <= i < |t| :: u[i].id == t[i].id && (t[i].id != id ==> u[i] == t[i])
  {
    if t != [] && t[0].id != id {
      UpsertRows(t[1..], id, cells);
    }
  }

  lemma {:induction false} FindRow<V>(t: Table<V>, id: string)
    ensures Find(t, id).Some? <==> exists i | 0 <= i < |t| :: t[i].id == id
    ensures Find(t, id).Some? ==> exists i | 0 <= i < |t| :: t[i] == Row(id, Find(t, id).value)
  {
    if t != [] && t[0].id != id {
      FindRow(t[1..], id);
      if Find(t, id).Some? {
        var i :| 0 <= i < |t[1..]| && t[1..][i] == Row(id, Find(t[1..], id).value);
        assert t[i + 1] == Row(id, Find(t, id).value);
      } else {
        forall i | 0 <= i < |t| ensures t[i].id != id {
          if i > 0 {
            assert t[1..][i - 1].id != id;
          }
        }
      }
    }
  }
}
