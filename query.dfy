/** The read queries of the handlers: `.eq(column, value)` filters,
    `.order(column, { ascending })` keys and `.range(from, to)`, evaluated
    over the rows of a table. Values are ordered as PostgreSQL orders them,
    with `null` above every other value, so that it comes last in an
    ascending key and first in a descending one. Rows that tie on every key
    keep their table order here; SQL leaves that order open, and the
    properties below hold for any tie order. */
module Query {
  import opened Wrappers
  import opened Text
  import opened Json
  import opened Store

  function Sign(x: int): int { if x < 0 then -1 else if x > 0 then 1 else 0 }

  /** Code-unit order of strings; ISO dates and timestamps of one format
      compare chronologically under it. */
  function CompareStrings(a: string, b: string): (c: int)
    ensures -1 <= c <= 1
  {
    if a == [] || b == [] then Sign(|a| - |b|)
    else if a[0] != b[0] then Sign(a[0] as int - b[0] as int)
    else CompareStrings(a[1..], b[1..])
  }

  lemma {:induction false} CompareStringsAntisymmetric(a: string, b: string)
    ensures CompareStrings(a, b) == -CompareStrings(b, a)
  {
    if a != [] && b != [] && a[0] == b[0] {
      CompareStringsAntisymmetric(a[1..], b[1..]);
    }
  }

  /** Values of different kinds are ordered by kind. */
  function Kind(v: Json): nat {
    match v
    case Bool(_) => 0
    case Num(_) => 1
    case Str(_) => 2
    case Arr(_) => 3
    case Obj(_) => 4
    case Null => 5
  }

  function CompareValues(a: Json, b: Json): (c: int)
    ensures -1 <= c <= 1
  {
    if Kind(a) != Kind(b) then Sign(Kind(a) - Kind(b))
    else match (a, b)
      case (Bool(x), Bool(y)) => Sign((if x then 1 else 0) - (if y then 1 else 0))
      case (Num(x), Num(y)) => Sign(x - y)
      case (Str(x), Str(y)) => CompareStrings(x, y)
      case _ => 0
  }

  lemma CompareValuesAntisymmetric(a: Json, b: Json)
    ensures CompareValues(a, b) == -CompareValues(b, a)
  {
    if a.Str? && b.Str? {
      CompareStringsAntisymmetric(a.s, b.s);
    }
  }

  datatype Direction = Ascending | Descending

  /** One `.order(column, { ascending })` call. */
  datatype OrderKey = OrderKey(column: string, direction: Direction)

  /** Rows compared key by key, the first key that tells them apart deciding. */
  function CompareRows(a: Row, b: Row, keys: seq<OrderKey>): (c: int)
    ensures -1 <= c <= 1
  {
    if keys == [] then 0
    else
      var c := CompareValues(Column(a, keys[0].column), Column(b, keys[0].column));
      var d := if keys[0].direction == Descending then -c else c;
      if d != 0 then d else CompareRows(a, b, keys[1..])
  }

  lemma {:induction false} CompareRowsAntisymmetric(a: Row, b: Row, keys: seq<OrderKey>)
    ensures CompareRows(a, b, keys) == -CompareRows(b, a, keys)
  {
    if keys != [] {
      CompareValuesAntisymmetric(Column(a, keys[0].column), Column(b, keys[0].column));
      CompareRowsAntisymmetric(a, b, keys[1..]);
    }
  }

  predicate InOrder(a: Row, b: Row, keys: seq<OrderKey>) { CompareRows(a, b, keys) <= 0 }

  predicate SortedBy(rows: seq<Row>, keys: seq<OrderKey>) {
    forall i :: 0 <= i < |rows| - 1 ==> InOrder(rows[i], rows[i + 1], keys)
  }

  /** Puts `x` before the first row it does not come after. */
  function InsertInOrder(x: Row, s: seq<Row>, keys: seq<OrderKey>): (r: seq<Row>)
    ensures |r| == |s| + 1 && multiset(r) == multiset(s) + multiset{x}
    ensures r[0] == x || (s != [] && r[0] == s[0])
  {
    if s == [] || InOrder(x, s[0], keys) then [x] + s
    else
      assert s == [s[0]] + s[1..];
      [s[0]] + InsertInOrder(x, s[1..], keys)
  }

  lemma {:induction false} InsertInOrderSorted(x: Row, s: seq<Row>, keys: seq<OrderKey>)
    requires SortedBy(s, keys)
    ensures SortedBy(InsertInOrder(x, s, keys), keys)
  {
    if s != [] && !InOrder(x, s[0], keys) {
      CompareRowsAntisymmetric(x, s[0], keys);
      InsertInOrderSorted(x, s[1..], keys);
      var t := InsertInOrder(x, s[1..], keys);
      assert InOrder(s[0], t[0], keys);
    }
  }

  /** The rows as the `.order` keys arrange them. */
  function OrderBy(rows: seq<Row>, keys: seq<OrderKey>): (r: seq<Row>)
    ensures multiset(r) == multiset(rows)
  {
    if rows == [] then []
    else
      assert rows == [rows[0]] + rows[1..];
      InsertInOrder(rows[0], OrderBy(rows[1..], keys), keys)
  }

  /** The arranged rows are a permutation of the input in key order. */
  lemma {:induction false} OrderBySorted(rows: seq<Row>, keys: seq<OrderKey>)
    ensures SortedBy(OrderBy(rows, keys), keys) && multiset(OrderBy(rows, keys)) == multiset(rows)
  {
    if rows != [] {
      OrderBySorted(rows[1..], keys);
      InsertInOrderSorted(rows[0], OrderBy(rows[1..], keys), keys);
    }
  }

  /** One `.eq(column, value)` filter. */
  datatype Condition = Equals(column: string, value: Json)

  predicate Satisfies(r: Row, conds: seq<Condition>) {
    forall i :: 0 <= i < |conds| ==> Column(r, conds[i].column) == conds[i].value
  }

  /** Chained filters hold together. */
  lemma SatisfiesAll(r: Row, a: seq<Condition>, b: seq<Condition>)
    ensures Satisfies(r, a + b) <==> Satisfies(r, a) && Satisfies(r, b)
  {
    if Satisfies(r, a) && Satisfies(r, b) {
      forall i | 0 <= i < |a + b|
        ensures Column(r, (a + b)[i].column) == (a + b)[i].value
      {
        if i >= |a| {
          assert (a + b)[i] == b[i - |a|];
        }
      }
    }
    if Satisfies(r, a + b) {
      forall i | 0 <= i < |a|
        ensures Column(r, a[i].column) == a[i].value
      {
        assert (a + b)[i] == a[i];
      }
      forall i | 0 <= i < |b|
        ensures Column(r, b[i].column) == b[i].value
      {
        assert (a + b)[|a| + i] == b[i];
      }
    }
  }

  /** The rows every filter holds for, in table order. */
  function Where(rows: seq<Row>, conds: seq<Condition>): (r: seq<Row>)
    ensures forall x :: x in r <==> x in rows && Satisfies(x, conds)
    ensures multiset(r) <= multiset(rows)
  {
    if rows == [] then []
    else
      assert rows == [rows[0]] + rows[1..];
      (if Satisfies(rows[0], conds) then [rows[0]] else []) + Where(rows[1..], conds)
  }

  function Min(a: int, b: int): int { if a <= b then a else b }

  /** `.range(offset, offset + limit - 1)`: the rows from position `offset`
      on, at most `limit` of them. */
  function Page(rows: seq<Row>, offset: nat, limit: nat): (r: seq<Row>)
    ensures |r| == if offset >= |rows| then 0 else Min(limit, |rows| - offset)
    ensures forall i :: 0 <= i < |r| ==> r[i] == rows[offset + i]
  {
    if offset >= |rows| then [] else rows[offset..offset + Min(limit, |rows| - offset)]
  }

  /** `.select('*').eq(…)….order(…)…`: the filtered rows in key order. */
  function Select(rows: seq<Row>, conds: seq<Condition>, keys: seq<OrderKey>): (r: seq<Row>)
    ensures SortedBy(r, keys)
    ensures forall x :: x in r <==> x in rows && Satisfies(x, conds)
    ensures multiset(r) <= multiset(rows)
    ensures |r| == |Where(rows, conds)|
  {
    OrderBySorted(Where(rows, conds), keys);
    var r := OrderBy(Where(rows, conds), keys);
    assert forall x :: x in r <==> x in Where(rows, conds) by {
      forall x ensures x in r <==> x in Where(rows, conds) {
        assert x in r <==> x in multiset(r);
      }
    }
    assert |r| == |multiset(r)|;
    r
  }

  function RowsJson(rows: seq<Row>): (r: seq<Json>)
    ensures |r| == |rows| && forall i :: 0 <= i < |rows| ==> r[i] == RowJson(rows[i])
  {
    seq(|rows|, i requires 0 <= i < |rows| => RowJson(rows[i]))
  }

  /** The query string of a catalogue listing, with the defaults of
      `const { category, featured, limit = 50, offset = 0 } = req.query`. */
  datatype ListQuery = ListQuery(category: Option<string>, featured: Option<string>, limit: nat, offset: nat)

  function Lookup(q: map<string, string>, key: string): Option<string> {
    if key in q then Some(q[key]) else None
  }

  /** `parseInt` of a parameter written in decimal digits, or the default. */
  function Count(q: map<string, string>, key: string, default: nat): (n: nat)
    ensures key !in q ==> n == default
    ensures key in q && q[key] != "" && AllDigits(q[key]) ==> n == DigitsValue(q[key])
  {
    if key in q && q[key] != "" && AllDigits(q[key]) then DigitsValue(q[key]) else default
  }

  function ListQueryOf(q: map<string, string>): ListQuery {
    ListQuery(Lookup(q, "category"), Lookup(q, "featured"), Count(q, "limit", 50), Count(q, "offset", 0))
  }

  /** `.eq('is_published', true)`, then `.eq('category', category)` for a
      non-empty category and `.eq(featuredColumn, true)` for
      `featured === 'true'`. */
  function CatalogFilter(q: ListQuery, featuredColumn: string): (conds: seq<Condition>)
    ensures forall r :: Satisfies(r, conds) <==>
              && Column(r, "is_published") == Bool(true)
              && (q.category.Some? && q.category.value != "" ==> Column(r, "category") == Str(q.category.value))
              && (q.featured == Some("true") ==> Column(r, featuredColumn) == Bool(true))
  {
    var published := [Equals("is_published", Bool(true))];
    var category := if q.category.Some? && q.category.value != "" then [Equals("category", Str(q.category.value))] else [];
    var featured := if q.featured == Some("true") then [Equals(featuredColumn, Bool(true))] else [];
    var conds := published + category + featured;
    forall r
      ensures Satisfies(r, conds) <==>
              && Column(r, "is_published") == Bool(true)
              && (q.category.Some? && q.category.value != "" ==> Column(r, "category") == Str(q.category.value))
              && (q.featured == Some("true") ==> Column(r, featuredColumn) == Bool(true))
    {
      SatisfiesAll(r, published + category, featured);
      SatisfiesAll(r, published, category);
      assert Satisfies(r, published) <==> Column(r, "is_published") == Bool(true) by {
        assert published[0] == Equals("is_published", Bool(true));
      }
      if category != [] {
        assert Satisfies(r, category) <==> Column(r, "category") == Str(q.category.value) by {
          assert category[0] == Equals("category", Str(q.category.value));
        }
      }
      if featured != [] {
        assert Satisfies(r, featured) <==> Column(r, featuredColumn) == Bool(true) by {
          assert featured[0] == Equals(featuredColumn, Bool(true));
        }
      }
    }
    conds
  }

  /** Without a category or featured filter, a row of the table is listed
      exactly when it is published. */
  lemma ListedIffPublished(rows: seq<Row>, r: Row, q: ListQuery, featuredColumn: string, keys: seq<OrderKey>)
    requires r in rows && (q.category.None? || q.category.value == "") && q.featured != Some("true")
    ensures r in Select(rows, CatalogFilter(q, featuredColumn), keys) <==> Column(r, "is_published") == Bool(true)
  {
  }

  /** `{ <key>: data, pagination: { total: count, limit, offset } }`: one
      page of the selected rows and the number of all of them. */
  function Paginated(key: string, all: seq<Row>, q: ListQuery): Json {
    Obj(map[key := Arr(RowsJson(Page(all, q.offset, q.limit))),
            "pagination" := Obj(map["total" := Num(|all|), "limit" := Num(q.limit), "offset" := Num(q.offset)])])
  }
}
