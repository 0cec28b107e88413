/**
 * The customer search of `GET /customers/search` (server.js:153-177).
 *
 * The handler starts from a fixed statement and, for each of City, State and
 * PinCode that is truthy, pushes the value onto the parameter list and appends
 * an equality condition on the next `$n` placeholder. Here the statement is a
 * sequence of fragments (fixed text or a placeholder number), and `Execute`
 * is what the store does with such a statement: it resolves `$n` to the n-th
 * parameter and keeps the rows that meet every condition.
 */
module Search {
  import opened Records

  /** The columns the search can filter on. */
  datatype Column = CityColumn | StateColumn | PinCodeColumn

  /** A piece of the statement: SQL text, or the placeholder `$index`. */
  datatype Fragment = Text(text: string) | Placeholder(index: nat)

  /** The condition `column = value`. */
  datatype Filter = Filter(column: Column, value: string)

  const BaseQuery: string := "SELECT * FROM Customers WHERE 1=1"

  /** The text appended before the placeholder of a condition on `col`. */
  function ConditionText(col: Column): string {
    match col
    case CityColumn => " AND City = "
    case StateColumn => " AND State = "
    case PinCodeColumn => " AND PinCode = "
  }

  /** Every piece of SQL text the builder can emit; none depends on a request value. */
  const QueryTexts: set<string> :=
    {BaseQuery, ConditionText(CityColumn), ConditionText(StateColumn), ConditionText(PinCodeColumn)}

  function ColumnValue(c: Customer, col: Column): string {
    match col
    case CityColumn => c.city
    case StateColumn => c.state
    case PinCodeColumn => c.pinCode
  }

  /** The position at which the handler tests a column. */
  function Rank(col: Column): nat {
    match col
    case CityColumn => 0
    case StateColumn => 1
    case PinCodeColumn => 2
  }

  /** The query-string value the request gave for `col`. */
  function Requested(col: Column, city: Option<string>, state: Option<string>, pinCode: Option<string>): Option<string> {
    match col
    case CityColumn => city
    case StateColumn => state
    case PinCodeColumn => pinCode
  }

  /** JavaScript truthiness of a query-string value: a missing value and "" are falsy. */
  predicate Truthy(v: Option<string>) {
    v.Some? && v.value != ""
  }

  /**
   * The conditions the handler adds: one for each truthy field, in the order
   * City, State, PinCode, each carrying the field's value.
   */
  function Filters(city: Option<string>, state: Option<string>, pinCode: Option<string>): (r: seq<Filter>)
    ensures |r| <= 3
    ensures forall k :: 0 <= k < |r| ==>
      Truthy(Requested(r[k].column, city, state, pinCode))
      && r[k].value == Requested(r[k].column, city, state, pinCode).value
  {
    AddIfTruthy(AddIfTruthy(AddIfTruthy([], CityColumn, city), StateColumn, state), PinCodeColumn, pinCode)
  }

  /** One `if` of the handler: a condition on `col` is added when its value is truthy. */
  function AddIfTruthy(fs: seq<Filter>, col: Column, v: Option<string>): seq<Filter> {
    if Truthy(v) then fs + [Filter(col, v.value)] else fs
  }

  /**
   * The conditions are exactly the truthy fields, each with its own value,
   * each once, in the order City, State, PinCode.
   */
  lemma FiltersExactly(city: Option<string>, state: Option<string>, pinCode: Option<string>)
    ensures var r := Filters(city, state, pinCode);
      && (forall k :: 0 <= k < |r| ==>
            Truthy(Requested(r[k].column, city, state, pinCode))
            && r[k].value == Requested(r[k].column, city, state, pinCode).value)
      && (forall col :: Truthy(Requested(col, city, state, pinCode)) ==>
            exists k :: 0 <= k < |r| && r[k].column == col)
      && (forall k, j :: 0 <= k < j < |r| ==> Rank(r[k].column) < Rank(r[j].column))
  {
    var r := Filters(city, state, pinCode);
    var atState := if Truthy(city) then 1 else 0;
    var atPinCode := atState + if Truthy(state) then 1 else 0;
    assert Truthy(city) ==> r[0].column == CityColumn;
    assert Truthy(state) ==> r[atState].column == StateColumn;
    assert Truthy(pinCode) ==> r[atPinCode].column == PinCodeColumn;
  }

  /**
   * `query` is the base statement followed by one condition per filter, the
   * k-th condition (counting from 0) uses placeholder `$(k+1)`, and
   * `params[k]` is that condition's value.
   */
  predicate Aligned(query: seq<Fragment>, params: seq<string>, fs: seq<Filter>) {
    && |query| == 1 + 2 * |fs|
    && |params| == |fs|
    && query[0] == Text(BaseQuery)
    && forall k :: 0 <= k < |fs| ==>
         && query[1 + 2 * k] == Text(ConditionText(fs[k].column))
         && query[2 + 2 * k] == Placeholder(k + 1)
         && params[k] == fs[k].value
  }

  /** The statement and parameter list of the search handler (server.js:156-170). */
  method BuildSearch(city: Option<string>, state: Option<string>, pinCode: Option<string>)
    returns (query: seq<Fragment>, params: seq<string>)
    ensures Aligned(query, params, Filters(city, state, pinCode))
    ensures forall i :: 0 <= i < |query| && query[i].Text? ==> query[i].text in QueryTexts
    ensures !Truthy(city) && !Truthy(state) && !Truthy(pinCode) ==>
      query == [Text(BaseQuery)] && params == []
  {
    query := [Text(BaseQuery)];
    params := [];
    // the conditions appended so far
    ghost var added: seq<Filter> := [];
    if Truthy(city) {
      AlignedExtend(query, params, added, CityColumn, city.value);
      params := params + [city.value];
      query := query + [Text(ConditionText(CityColumn)), Placeholder(|params|)];
      added := added + [Filter(CityColumn, city.value)];
    }
    if Truthy(state) {
      AlignedExtend(query, params, added, StateColumn, state.value);
      params := params + [state.value];
      query := query + [Text(ConditionText(StateColumn)), Placeholder(|params|)];
      added := added + [Filter(StateColumn, state.value)];
    }
    if Truthy(pinCode) {
      AlignedExtend(query, params, added, PinCodeColumn, pinCode.value);
      params := params + [pinCode.value];
      query := query + [Text(ConditionText(PinCodeColumn)), Placeholder(|params|)];
      added := added + [Filter(PinCodeColumn, pinCode.value)];
    }
    assert added == Filters(city, state, pinCode);
    AlignedTexts(query, params, added);
  }

  /** Appending one condition on the next placeholder keeps the statement aligned. */
  lemma AlignedExtend(query: seq<Fragment>, params: seq<string>, fs: seq<Filter>, col: Column, v: string)
    requires Aligned(query, params, fs)
    ensures Aligned(query + [Text(ConditionText(col)), Placeholder(|params + [v]|)], params + [v], fs + [Filter(col, v)])
  {
    var params' := params + [v];
    var query', fs' := query + [Text(ConditionText(col)), Placeholder(|params'|)], fs + [Filter(col, v)];
    forall k | 0 <= k < |fs'|
      ensures query'[1 + 2 * k] == Text(ConditionText(fs'[k].column))
      ensures query'[2 + 2 * k] == Placeholder(k + 1)
      ensures params'[k] == fs'[k].value
    {
      if k < |fs| {
        assert query'[1 + 2 * k] == query[1 + 2 * k] && query'[2 + 2 * k] == query[2 + 2 * k];
      }
    }
  }

  /** An aligned statement holds no text but the fixed pieces: request values are only parameters. */
  lemma AlignedTexts(query: seq<Fragment>, params: seq<string>, fs: seq<Filter>)
    requires Aligned(query, params, fs)
    ensures forall i :: 0 <= i < |query| && query[i].Text? ==> query[i].text in QueryTexts
  {
    forall i | 0 < i < |query|
      ensures query[i].Text? ==> query[i].text in QueryTexts
    {
      var k := (i - 1) / 2;
      if i == 2 + 2 * k {
        assert query[i] == Placeholder(k + 1);
      } else {
        assert i == 1 + 2 * k;
        assert query[i] == Text(ConditionText(fs[k].column));
      }
    }
  }

  // ---------------------------------------------------------------------
  // The statement's text, as the driver receives it
  // ---------------------------------------------------------------------

  function Digit(d: nat): (c: char)
    requires d < 10
    ensures '0' <= c <= '9' && DigitValue(c) == d
  {
    (('0' as int) + d) as char
  }

  function DigitValue(c: char): int {
    (c as int) - ('0' as int)
  }

  /** The number a string of decimal digits denotes, most significant digit first. */
  function NumeralValue(s: string): int {
    if s == [] then 0 else 10 * NumeralValue(s[..|s| - 1]) + DigitValue(s[|s| - 1])
  }

  /**
   * The decimal numeral of `n`, as a template literal prints it: digits only,
   * denoting `n`, and with no leading zero.
   */
  function DecimalText(n: nat): (s: string)
    ensures |s| >= 1
    ensures forall i :: 0 <= i < |s| ==> '0' <= s[i] <= '9'
    ensures NumeralValue(s) == n
    ensures s[0] == '0' <==> n == 0
  {
    if n < 10 then [Digit(n)]
    else
      var prefix := DecimalText(n / 10);
      var s := prefix + [Digit(n % 10)];
      assert s[..|s| - 1] == prefix;
      s
  }

  function FragmentText(f: Fragment): string {
    match f
    case Text(t) => t
    case Placeholder(n) => "$" + DecimalText(n)
  }

  function Render(query: seq<Fragment>): string {
    if query == [] then "" else FragmentText(query[0]) + Render(query[1..])
  }

  // ---------------------------------------------------------------------
  // What the store does with the statement
  // ---------------------------------------------------------------------

  /** A customer meets every condition of `fs`. */
  predicate Satisfies(c: Customer, fs: seq<Filter>) {
    forall k :: 0 <= k < |fs| ==> ColumnValue(c, fs[k].column) == fs[k].value
  }

  /** The rows of `customers` that meet every condition of `fs`. */
  function Select(customers: map<Uuid, Customer>, fs: seq<Filter>): map<Uuid, Customer> {
    map id | id in customers && Satisfies(customers[id], fs) :: customers[id]
  }

  /** The column a condition fragment compares, if it is one. */
  function ColumnOf(f: Fragment): Option<Column> {
    if f == Text(ConditionText(CityColumn)) then Some(CityColumn)
    else if f == Text(ConditionText(StateColumn)) then Some(StateColumn)
    else if f == Text(ConditionText(PinCodeColumn)) then Some(PinCodeColumn)
    else None
  }

  /**
   * The conditions from fragment `i` on, each a condition text followed by a
   * placeholder `$n` bound to `params[n - 1]`; `None` when the fragments are
   * not of that shape or a placeholder has no parameter.
   */
  function Conditions(query: seq<Fragment>, params: seq<string>, i: nat): Option<seq<Filter>>
    decreases |query| - i
  {
    if i >= |query| then Some([])
    else if i + 1 == |query| then None
    else
      match (ColumnOf(query[i]), query[i + 1])
      case (Some(col), Placeholder(n)) =>
        if 1 <= n <= |params| then
          match Conditions(query, params, i + 2)
          case Some(rest) => Some([Filter(col, params[n - 1])] + rest)
          case None => None
        else None
      case _ => None
  }

  /** The rows the store returns for `query` bound to `params`; `None` for a statement it rejects. */
  function Execute(customers: map<Uuid, Customer>, query: seq<Fragment>, params: seq<string>): (r: Option<map<Uuid, Customer>>)
    ensures |query| == 0 || query[0] != Text(BaseQuery) ==> r == None
    ensures r.Some? ==> r.value.Keys <= customers.Keys && forall id :: id in r.value ==> r.value[id] == customers[id]
  {
    if |query| == 0 || query[0] != Text(BaseQuery) then None
    else
      match Conditions(query, params, 1)
      case Some(fs) => Some(Select(customers, fs))
      case None => None
  }

  // ---------------------------------------------------------------------
  // What the search means
  // ---------------------------------------------------------------------

  /** A customer equals every value the request supplied. */
  predicate Matches(c: Customer, city: Option<string>, state: Option<string>, pinCode: Option<string>) {
    && (Truthy(city) ==> c.city == city.value)
    && (Truthy(state) ==> c.state == state.value)
    && (Truthy(pinCode) ==> c.pinCode == pinCode.value)
  }

  /** The customers the search should return. */
  function SearchCustomers(customers: map<Uuid, Customer>, city: Option<string>, state: Option<string>, pinCode: Option<string>)
    : (r: map<Uuid, Customer>)
    ensures r.Keys <= customers.Keys
    ensures forall id :: id in r ==> r[id] == customers[id]
  {
    map id | id in customers && Matches(customers[id], city, state, pinCode) :: customers[id]
  }

  // ---------------------------------------------------------------------
  // Lemmas
  // ---------------------------------------------------------------------

  lemma ColumnOfCondition(col: Column)
    ensures ColumnOf(Text(ConditionText(col))) == Some(col)
  {
  }

  /** An aligned statement declares, from condition `j` on, exactly the filters `fs[j..]`. */
  lemma {:induction false} ConditionsAligned(query: seq<Fragment>, params: seq<string>, fs: seq<Filter>, j: nat)
    requires Aligned(query, params, fs)
    requires j <= |fs|
    ensures Conditions(query, params, 1 + 2 * j) == Some(fs[j..])
    decreases |fs| - j
  {
    var i := 1 + 2 * j;
    if j < |fs| {
      ConditionsAligned(query, params, fs, j + 1);
      ColumnOfCondition(fs[j].column);
      assert query[i] == Text(ConditionText(fs[j].column));
      assert query[i + 1] == Placeholder(j + 1);
      assert params[j] == fs[j].value;
      assert Conditions(query, params, i + 2) == Some(fs[j + 1..]);
      assert fs[j..] == [Filter(fs[j].column, params[j])] + fs[j + 1..];
    } else {
      assert i == |query| && fs[j..] == [];
    }
  }

  /** The store runs an aligned statement as the conjunction of its filters. */
  lemma ExecuteAligned(customers: map<Uuid, Customer>, query: seq<Fragment>, params: seq<string>, fs: seq<Filter>)
    requires Aligned(query, params, fs)
    ensures Execute(customers, query, params) == Some(Select(customers, fs))
  {
    ConditionsAligned(query, params, fs, 0);
    assert fs[0..] == fs;
  }

  /** Meeting the built conditions is the same as equalling every supplied value. */
  lemma FiltersMeaning(c: Customer, city: Option<string>, state: Option<string>, pinCode: Option<string>)
    ensures Satisfies(c, Filters(city, state, pinCode)) <==> Matches(c, city, state, pinCode)
  {
    var fs := Filters(city, state, pinCode);
    FiltersExactly(city, state, pinCode);
    if Satisfies(c, fs) {
      forall col | Truthy(Requested(col, city, state, pinCode))
        ensures ColumnValue(c, col) == Requested(col, city, state, pinCode).value
      {
        var k :| 0 <= k < |fs| && fs[k].column == col;
      }
      assert Truthy(city) ==> ColumnValue(c, CityColumn) == city.value;
      assert Truthy(state) ==> ColumnValue(c, StateColumn) == state.value;
      assert Truthy(pinCode) ==> ColumnValue(c, PinCodeColumn) == pinCode.value;
    }
  }

  /** The rows meeting the built conditions are the rows the search means. */
  lemma SelectFilters(customers: map<Uuid, Customer>, city: Option<string>, state: Option<string>, pinCode: Option<string>)
    ensures Select(customers, Filters(city, state, pinCode)) == SearchCustomers(customers, city, state, pinCode)
  {
    var fs := Filters(city, state, pinCode);
    var selected, searched := Select(customers, fs), SearchCustomers(customers, city, state, pinCode);
    forall id | id in customers
      ensures id in selected <==> id in searched
    {
      FiltersMeaning(customers[id], city, state, pinCode);
    }
    assert selected.Keys == searched.Keys;
  }

  /** Running the built statement returns exactly the customers the search means. */
  lemma SearchExecutes(customers: map<Uuid, Customer>, query: seq<Fragment>, params: seq<string>,
                       city: Option<string>, state: Option<string>, pinCode: Option<string>)
    requires Aligned(query, params, Filters(city, state, pinCode))
    ensures Execute(customers, query, params) == Some(SearchCustomers(customers, city, state, pinCode))
  {
    ExecuteAligned(customers, query, params, Filters(city, state, pinCode));
    SelectFilters(customers, city, state, pinCode);
  }

  /** With no truthy field the search returns every customer. */
  lemma SearchWithoutFilters(customers: map<Uuid, Customer>, city: Option<string>, state: Option<string>, pinCode: Option<string>)
    requires !Truthy(city) && !Truthy(state) && !Truthy(pinCode)
    ensures SearchCustomers(customers, city, state, pinCode) == customers
  {
  }

  /** Each supplied field narrows the result: supplying one more field never adds a customer. */
  lemma SearchNarrows(customers: map<Uuid, Customer>, city: Option<string>, state: Option<string>, pinCode: Option<string>)
    ensures SearchCustomers(customers, city, state, pinCode).Keys <= SearchCustomers(customers, None, state, pinCode).Keys
    ensures SearchCustomers(customers, city, state, pinCode).Keys <= SearchCustomers(customers, city, None, pinCode).Keys
    ensures SearchCustomers(customers, city, state, pinCode).Keys <= SearchCustomers(customers, city, state, None).Keys
  {
  }

  /** With nothing supplied the driver receives exactly the base statement. */
  lemma RenderBase()
    ensures Render([Text(BaseQuery)]) == BaseQuery
  {
  }

  /** The text of the conditions `fs`, numbered from placeholder `$first` on. */
  function ConditionsText(fs: seq<Filter>, first: nat): string {
    if fs == [] then ""
    else ConditionText(fs[0].column) + (("$" + DecimalText(first)) + ConditionsText(fs[1..], first + 1))
  }

  /** `Render` of a suffix is the text of its first fragment followed by the rest. */
  lemma RenderFrom(query: seq<Fragment>, i: nat)
    requires i < |query|
    ensures Render(query[i..]) == FragmentText(query[i]) + Render(query[i + 1..])
  {
    assert query[i..][1..] == query[i + 1..];
  }

  /** A condition fragment and its placeholder render as the condition text, `$` and the number. */
  lemma RenderCondition(query: seq<Fragment>, i: nat, col: Column, n: nat)
    requires i + 1 < |query| && query[i] == Text(ConditionText(col)) && query[i + 1] == Placeholder(n)
    ensures Render(query[i..]) == ConditionText(col) + (("$" + DecimalText(n)) + Render(query[i + 2..]))
  {
    RenderFrom(query, i);
    RenderFrom(query, i + 1);
  }

  /**
   * A run of conditions `fs` whose placeholders are numbered from `first`
   * renders as their condition texts, each followed by `$` and its number.
   */
  lemma {:induction false} RenderConditions(q: seq<Fragment>, fs: seq<Filter>, first: nat)
    requires |q| == 2 * |fs|
    requires forall k :: 0 <= k < |fs| ==>
      q[2 * k] == Text(ConditionText(fs[k].column)) && q[2 * k + 1] == Placeholder(first + k)
    ensures Render(q) == ConditionsText(fs, first)
    decreases |fs|
  {
    if fs == [] {
      assert q == [];
    } else {
      var rest, tail := q[2..], fs[1..];
      var condition, placeholder := ConditionText(fs[0].column), "$" + DecimalText(first);
      assert Render(rest) == ConditionsText(tail, first + 1) by {
        forall k | 0 <= k < |tail|
          ensures rest[2 * k] == Text(ConditionText(tail[k].column)) && rest[2 * k + 1] == Placeholder(first + 1 + k)
        {
          assert rest[2 * k] == q[2 * (k + 1)] && rest[2 * k + 1] == q[2 * (k + 1) + 1];
        }
        RenderConditions(rest, tail, first + 1);
      }
      assert Render(q) == condition + (placeholder + Render(rest)) by {
        assert q[0] == Text(ConditionText(fs[0].column)) && q[1] == Placeholder(first);
        RenderCondition(q, 0, fs[0].column, first);
        assert q[0..] == q;
      }
      assert ConditionsText(fs, first) == condition + (placeholder + ConditionsText(tail, first + 1));
    }
  }

  /**
   * The text the driver receives for an aligned statement: the base text, then
   * ` AND <Field> = $k` for the k-th condition.
   */
  lemma RenderAligned(query: seq<Fragment>, params: seq<string>, fs: seq<Filter>)
    requires Aligned(query, params, fs)
    ensures Render(query) == BaseQuery + ConditionsText(fs, 1)
  {
    var conditions := query[1..];
    forall k | 0 <= k < |fs|
      ensures conditions[2 * k] == Text(ConditionText(fs[k].column)) && conditions[2 * k + 1] == Placeholder(1 + k)
    {
      assert conditions[2 * k] == query[1 + 2 * k] && conditions[2 * k + 1] == query[2 + 2 * k];
    }
    RenderConditions(conditions, fs, 1);
    RenderFrom(query, 0);
    assert query[0..] == query;
  }

  /** The statement built when all three fields are supplied. */
  const AllThreeQuery: seq<Fragment> :=
    [Text(BaseQuery), Text(" AND City = "), Placeholder(1), Text(" AND State = "), Placeholder(2),
     Text(" AND PinCode = "), Placeholder(3)]

  /** With all three fields supplied the driver receives this statement. */
  lemma AlignedAllThree(query: seq<Fragment>, params: seq<string>, city: string, state: string, pinCode: string)
    requires city != "" && state != "" && pinCode != ""
    requires Aligned(query, params, Filters(Some(city), Some(state), Some(pinCode)))
    ensures query == AllThreeQuery && params == [city, state, pinCode]
  {
    var fs := Filters(Some(city), Some(state), Some(pinCode));
    assert fs == [Filter(CityColumn, city), Filter(StateColumn, state), Filter(PinCodeColumn, pinCode)];
    assert fs[0].value == params[0] && fs[1].value == params[1] && fs[2].value == params[2];
  }

  /**
   * With State alone supplied its condition takes placeholder `$1`: numbers
   * follow the count of conditions added, not a fixed position per field.
   */
  lemma AlignedStateOnly(query: seq<Fragment>, params: seq<string>, state: string)
    requires state != ""
    requires Aligned(query, params, Filters(None, Some(state), None))
    ensures query == [Text(BaseQuery), Text(" AND State = "), Placeholder(1)] && params == [state]
  {
    var fs := Filters(None, Some(state), None);
    assert fs == [Filter(StateColumn, state)];
    assert fs[0].value == params[0];
  }

  /** The text of the three-condition statement, as the driver receives it. */
  lemma RenderAllThree(query: seq<Fragment>, params: seq<string>, city: string, state: string, pinCode: string)
    requires city != "" && state != "" && pinCode != ""
    requires Aligned(query, params, Filters(Some(city), Some(state), Some(pinCode)))
    ensures Render(query) == BaseQuery + (" AND City = " + ("$1" + (" AND State = " + ("$2" + (" AND PinCode = " + "$3")))))
  {
    var fs := Filters(Some(city), Some(state), Some(pinCode));
    RenderAligned(query, params, fs);
    assert fs == [Filter(CityColumn, city), Filter(StateColumn, state), Filter(PinCodeColumn, pinCode)];
    var last := " AND PinCode = " + "$3";
    assert ConditionsText(fs[2..], 3) == last by {
      assert fs[2..][1..] == [] && "$" + DecimalText(3) == "$3";
    }
    var middle := " AND State = " + ("$2" + last);
    assert ConditionsText(fs[1..], 2) == middle by {
      assert fs[1..][1..] == fs[2..] && "$" + DecimalText(2) == "$2";
    }
    assert ConditionsText(fs, 1) == " AND City = " + ("$1" + middle) by {
      assert "$" + DecimalText(1) == "$1";
    }
  }
}
