/** The parameterised statement builders of the Postgres user gateway
    (internal/gateway/user.go): `SelectQueryBuilder` turns pagination and a
    partially filled filter into a SELECT, `UpdateQueryBuilder` turns a
    partially filled user into an UPDATE. Each returns the statement text and
    the ordered argument list bound to its `$n` placeholders. The users table
    name is a package constant defined elsewhere; here it is a parameter. */
module Gateway {
  import opened SqlText

  /** The filter of a user listing; a field left at Go's zero value ("" or 0)
      is not filtered on. The gender is a string type in the source. */
  datatype UserFilter = UserFilter(
    name: string, surname: string, patronymic: string,
    age: int, gender: string, country: string)

  /** A stored user: its identity and the same six attributes. */
  datatype User = User(
    id: int, name: string, surname: string, patronymic: string,
    age: int, gender: string, country: string)

  /** A value appended to the `args []interface{}` slice. */
  datatype Arg = Text(s: string) | Number(n: int)

  /** A statement as the builders return it: text and bound arguments. */
  datatype Statement = Statement(text: string, args: seq<Arg>)

  /** The six attribute columns both builders may touch. */
  datatype Column = Name | Surname | Patronymic | Age | Gender | Country

  function ColumnName(c: Column): string {
    match c
    case Name => "name"
    case Surname => "surname"
    case Patronymic => "patronymic"
    case Age => "age"
    case Gender => "gender"
    case Country => "country"
  }

  /** The six attributes of a user, as the update builder reads them. */
  function Attributes(u: User): UserFilter {
    UserFilter(u.name, u.surname, u.patronymic, u.age, u.gender, u.country)
  }

  /** The value a record holds in a column, as it is appended to `args`. */
  function Field(f: UserFilter, c: Column): Arg {
    match c
    case Name => Text(f.name)
    case Surname => Text(f.surname)
    case Patronymic => Text(f.patronymic)
    case Age => Number(f.age)
    case Gender => Text(f.gender)
    case Country => Text(f.country)
  }

  /** A field is present when it differs from Go's zero value: "" for text,
      0 for the age (so an age of 0 can never be filtered on or set). */
  predicate Present(a: Arg) {
    match a
    case Text(s) => s != ""
    case Number(n) => n != 0
  }

  /** How many of the six attributes are present, counted field by field. */
  function PresentCount(f: UserFilter): nat {
    (if f.name != "" then 1 else 0) + (if f.surname != "" then 1 else 0) +
    (if f.patronymic != "" then 1 else 0) + (if f.age != 0 then 1 else 0) +
    (if f.gender != "" then 1 else 0) + (if f.country != "" then 1 else 0)
  }

  /** Two records have the same fields present, whatever their values. */
  predicate SamePresence(f1: UserFilter, f2: UserFilter) {
    forall c :: Present(Field(f1, c)) == Present(Field(f2, c))
  }

  // ------------------------------------------------------ present columns

  /** The columns a single field test emits: the column, or nothing. */
  function Keep(f: UserFilter, c: Column): seq<Column> {
    if Present(Field(f, c)) then [c] else []
  }

  /** The columns of `order` that hold a present field, in the order given. */
  function PresentColumns(f: UserFilter, order: seq<Column>): (cs: seq<Column>)
    ensures |cs| <= |order|
  {
    if order == [] then [] else PresentColumns(f, order[..|order| - 1]) + Keep(f, order[|order| - 1])
  }

  lemma PresentColumnsSnoc(f: UserFilter, order: seq<Column>, c: Column)
    ensures PresentColumns(f, order + [c]) == PresentColumns(f, order) + Keep(f, c)
  {
    assert (order + [c])[..|order|] == order;
  }

  /** A column is emitted exactly when it is in the order and its field is
      present. */
  lemma {:induction false} PresentColumnsMembers(f: UserFilter, order: seq<Column>, c: Column)
    ensures c in PresentColumns(f, order) <==> c in order && Present(Field(f, c))
  {
    if order != [] {
      var init := order[..|order| - 1];
      PresentColumnsMembers(f, init, c);
      assert order == init + [order[|order| - 1]];
    }
  }

  /** Present columns come out in the order the builder tests them: ranks
      that increase along `order` increase along the emitted columns. */
  lemma {:induction false} PresentColumnsOrdered(f: UserFilter, order: seq<Column>, rank: Column -> int)
    requires forall i, j :: 0 <= i < j < |order| ==> rank(order[i]) < rank(order[j])
    ensures forall i, j :: 0 <= i < j < |PresentColumns(f, order)| ==>
      rank(PresentColumns(f, order)[i]) < rank(PresentColumns(f, order)[j])
  {
    if order != [] {
      var init := order[..|order| - 1];
      var last := order[|order| - 1];
      PresentColumnsOrdered(f, init, rank);
      var cs := PresentColumns(f, init);
      forall i | 0 <= i < |cs| ensures rank(cs[i]) < rank(last) {
        PresentColumnsMembers(f, init, cs[i]);
        var p :| 0 <= p < |init| && init[p] == cs[i];
        assert order[p] == cs[i];
      }
    }
  }

  /** Which columns are emitted depends only on which fields are present. */
  lemma {:induction false} PresentColumnsSamePresence(f1: UserFilter, f2: UserFilter, order: seq<Column>)
    requires SamePresence(f1, f2)
    ensures PresentColumns(f1, order) == PresentColumns(f2, order)
  {
    if order != [] {
      PresentColumnsSamePresence(f1, f2, order[..|order| - 1]);
      assert Present(Field(f1, order[|order| - 1])) == Present(Field(f2, order[|order| - 1]));
    }
  }

  /** The field values of the columns `cs`, in the same order. */
  function Values(f: UserFilter, cs: seq<Column>): (args: seq<Arg>)
    ensures |args| == |cs|
    ensures forall j :: 0 <= j < |cs| ==> args[j] == Field(f, cs[j])
  {
    if cs == [] then [] else Values(f, cs[..|cs| - 1]) + [Field(f, cs[|cs| - 1])]
  }

  lemma ValuesSnoc(f: UserFilter, cs: seq<Column>, c: Column)
    ensures Values(f, cs + [c]) == Values(f, cs) + [Field(f, c)]
  {
    assert (cs + [c])[..|cs|] == cs;
  }

  // ------------------------------------------------------------ fragments

  /** The two kinds of field fragment: a SELECT filter or an UPDATE assignment. */
  datatype Clause = WhereClause | SetClause

  /** A placeholder as `$%d` prints it. */
  function Placeholder(n: nat): string {
    "$" + Decimal(n)
  }

  /** The text in front of a SELECT filter's column: the name, surname and
      patronymic filters open with a space, the age, gender and country ones
      do not. */
  function SelectLead(c: Column): string {
    if c == Name || c == Surname || c == Patronymic then " AND " else "AND "
  }

  /** An UPDATE assignment is preceded by a comma when the counter says an
      assignment was already emitted (`i > 1`). */
  function Separator(n: nat): string {
    if n > 1 then "," else ""
  }

  /** The fragment a present column adds, bound to placeholder `$n`. */
  function Fragment(clause: Clause, c: Column, n: nat): string {
    match clause
    case WhereClause => SelectLead(c) + ColumnName(c) + "=" + Placeholder(n) + " "
    case SetClause => Separator(n) + Assignment(c, n)
  }

  /** An UPDATE assignment of column `c` to placeholder `$n`. */
  function Assignment(c: Column, n: nat): string {
    " " + ColumnName(c) + " = " + Placeholder(n)
  }

  /** The fragments of the emitted columns `cs`, the j-th bound to `$j`. */
  function Fragments(clause: Clause, cs: seq<Column>): string {
    if cs == [] then "" else Fragments(clause, cs[..|cs| - 1]) + Fragment(clause, cs[|cs| - 1], |cs|)
  }

  /** One field test of a builder: a present field appends its fragment,
      numbered after the arguments so far, and its value; an absent field
      changes nothing. */
  function Step(clause: Clause, st: Statement, f: UserFilter, c: Column): Statement {
    if Present(Field(f, c))
    then Statement(st.text + Fragment(clause, c, |st.args| + 1), st.args + [Field(f, c)])
    else st
  }

  /** A builder's text and arguments after it has tested the fields of
      `done` one after the other, starting from `head`. */
  function Partial(clause: Clause, head: string, f: UserFilter, done: seq<Column>): Statement {
    if done == [] then Statement(head, [])
    else Step(clause, Partial(clause, head, f, done[..|done| - 1]), f, done[|done| - 1])
  }

  lemma PartialSnoc(clause: Clause, head: string, f: UserFilter, done: seq<Column>, c: Column)
    ensures Partial(clause, head, f, done + [c]) == Step(clause, Partial(clause, head, f, done), f, c)
  {
    assert (done + [c])[..|done|] == done;
  }

  /** Step by step, a builder emits the fragments and the values of exactly
      the present columns, in order, the j-th bound to `$j`. */
  lemma {:induction false} PartialClosed(clause: Clause, head: string, f: UserFilter, done: seq<Column>)
    ensures Partial(clause, head, f, done) ==
      Statement(head + Fragments(clause, PresentColumns(f, done)), Values(f, PresentColumns(f, done)))
  {
    if done != [] {
      var init := done[..|done| - 1];
      var c := done[|done| - 1];
      PartialClosed(clause, head, f, init);
      var cs := PresentColumns(f, init);
      if Present(Field(f, c)) {
        assert PresentColumns(f, done) == cs + [c];
        assert (cs + [c])[..|cs|] == cs;
        ValuesSnoc(f, cs, c);
        AppendAssoc(head, Fragments(clause, cs), Fragment(clause, c, |cs| + 1));
      } else {
        assert PresentColumns(f, done) == cs + [] == cs;
      }
    }
  }

  // ---------------------------------------------------------- placeholders

  lemma NoMarkInColumnName(c: Column)
    ensures '$' !in ColumnName(c) && ',' !in ColumnName(c)
  {
  }

  lemma NoMarkInDecimal(n: nat)
    ensures '$' !in Decimal(n) && ',' !in Decimal(n)
  {
    var s := Decimal(n);
    forall i | 0 <= i < |s| ensures s[i] != ',' && s[i] != '$' {
      assert IsDigit(s[i]);
    }
  }

  /** Each fragment holds exactly one placeholder, the one it was bound to. */
  lemma FragmentPlaceholders(clause: Clause, c: Column, n: nat)
    ensures Placeholders(Fragment(clause, c, n)) == [n]
    ensures StartsWithNonDigit(Fragment(clause, c, n))
  {
    NoMarkInColumnName(c);
    match clause
    case WhereClause =>
      var lead := SelectLead(c) + ColumnName(c) + "=";
      assert Fragment(clause, c, n) == lead + ("$" + Decimal(n) + " ");
      PlaceholdersSkip(lead, "$" + Decimal(n) + " ");
      PlaceholderAt(n, " ");
    case SetClause =>
      var lead := Separator(n) + " " + ColumnName(c) + " = ";
      AppendAssoc(Separator(n), " " + ColumnName(c) + " = ", Placeholder(n));
      assert Fragment(clause, c, n) == lead + ("$" + Decimal(n) + "");
      PlaceholdersSkip(lead, "$" + Decimal(n) + "");
      PlaceholderAt(n, "");
  }

  /** The placeholders of the emitted fragments are $1, $2, ..., in order. */
  lemma {:induction false} FragmentsPlaceholders(clause: Clause, cs: seq<Column>)
    ensures Placeholders(Fragments(clause, cs)) == Ordinals(|cs|)
    ensures StartsWithNonDigit(Fragments(clause, cs))
  {
    if cs != [] {
      var init := cs[..|cs| - 1];
      FragmentsPlaceholders(clause, init);
      FragmentPlaceholders(clause, cs[|cs| - 1], |cs|);
      PlaceholdersAppend(Fragments(clause, init), Fragment(clause, cs[|cs| - 1], |cs|));
    }
  }

  /** Every assignment but the first carries one comma. */
  lemma {:induction false} FragmentsCommas(cs: seq<Column>)
    ensures Occurrences(Fragments(SetClause, cs), ',') == if cs == [] then 0 else |cs| - 1
  {
    if cs != [] {
      var init := cs[..|cs| - 1];
      var c := cs[|cs| - 1];
      var n := |cs|;
      FragmentsCommas(init);
      var rest := Assignment(c, n);
      NoMarkInColumnName(c);
      NoMarkInDecimal(n);
      assert ',' !in rest;
      OccurrencesAbsent(rest, ',');
      OccurrencesAppend(Separator(n), rest, ',');
      OccurrencesAppend(Fragments(SetClause, init), Fragment(SetClause, c, n), ',');
    }
  }

  /** Scanning head, fragments and tail: the head contributes nothing and
      the fragments contribute $1 .. $k. */
  lemma StatementPlaceholders(head: string, clause: Clause, cs: seq<Column>, tail: string)
    requires '$' !in head && StartsWithNonDigit(tail)
    ensures Placeholders(head + Fragments(clause, cs) + tail) == Ordinals(|cs|) + Placeholders(tail)
  {
    FragmentsPlaceholders(clause, cs);
    AppendAssoc(head, Fragments(clause, cs), tail);
    PlaceholdersSkip(head, Fragments(clause, cs) + tail);
    PlaceholdersAppend(Fragments(clause, cs), tail);
  }

  // --------------------------------------------------------------- SELECT

  /** The order in which `SelectQueryBuilder` tests the filter fields. */
  const SelectOrder: seq<Column> := [Name, Surname, Patronymic, Age, Gender, Country]

  function SelectRank(c: Column): int {
    match c
    case Name => 0
    case Surname => 1
    case Patronymic => 2
    case Age => 3
    case Gender => 4
    case Country => 5
  }

  /** The unconditionally true predicate the filters are appended to. */
  function SelectHead(table: string): string {
    "SELECT * FROM " + table + " WHERE 1=1"
  }

  /** The pagination clause after `k` filter placeholders. */
  function Pagination(k: nat): string {
    " LIMIT " + Placeholder(k + 1) + " OFFSET " + Placeholder(k + 2)
  }

  /** The statement `SelectQueryBuilder` builds: the base predicate, then a
      filter for each present field in the order the builder tests them,
      numbered from $1, then the pagination clause; the arguments are the
      present fields' values, then `limit` and `offset`. */
  function SelectQuery(table: string, limit: int, offset: int, filter: UserFilter): Statement {
    var cs := PresentColumns(filter, SelectOrder);
    Statement(SelectHead(table) + Fragments(WhereClause, cs) + Pagination(|cs|),
              Values(filter, cs) + [Number(limit), Number(offset)])
  }

  lemma SelectOrderSpelled()
    ensures [] + [Name] + [Surname] + [Patronymic] + [Age] + [Gender] + [Country] == SelectOrder
  {
  }

  /** One `if filter.X != ... { ... }` block of the SELECT builder. */
  method AddFilter(query: string, args: seq<Arg>, i: nat, filter: UserFilter, c: Column)
    returns (query': string, args': seq<Arg>, i': nat)
    requires i == |args| + 1
    ensures Statement(query', args') == Step(WhereClause, Statement(query, args), filter, c)
    ensures i' == |args'| + 1
  {
    query', args', i' := query, args, i;
    if Present(Field(filter, c)) {
      query' := query' + (SelectLead(c) + ColumnName(c) + "=" + Placeholder(i') + " ");
      i' := i' + 1;
      args' := args' + [Field(filter, c)];
    }
  }

  /** Builds the paginated, filtered listing statement. */
  method SelectQueryBuilder(table: string, limit: int, offset: int, filter: UserFilter)
    returns (query: string, args: seq<Arg>)
    ensures Statement(query, args) == SelectQuery(table, limit, offset, filter)
  {
    query := "SELECT * FROM " + table + " WHERE 1=1";
    args := [];
    var i: nat := 1;
    // the fields tested so far
    ghost var done: seq<Column> := [];

    query, args, i := AddFilter(query, args, i, filter, Name);
    PartialSnoc(WhereClause, SelectHead(table), filter, done, Name);
    done := done + [Name];
    query, args, i := AddFilter(query, args, i, filter, Surname);
    PartialSnoc(WhereClause, SelectHead(table), filter, done, Surname);
    done := done + [Surname];
    query, args, i := AddFilter(query, args, i, filter, Patronymic);
    PartialSnoc(WhereClause, SelectHead(table), filter, done, Patronymic);
    done := done + [Patronymic];
    query, args, i := AddFilter(query, args, i, filter, Age);
    PartialSnoc(WhereClause, SelectHead(table), filter, done, Age);
    done := done + [Age];
    query, args, i := AddFilter(query, args, i, filter, Gender);
    PartialSnoc(WhereClause, SelectHead(table), filter, done, Gender);
    done := done + [Gender];
    query, args, i := AddFilter(query, args, i, filter, Country);
    PartialSnoc(WhereClause, SelectHead(table), filter, done, Country);
    done := done + [Country];
    SelectOrderSpelled();
    PartialClosed(WhereClause, SelectHead(table), filter, SelectOrder);

    query := query + (" LIMIT " + Placeholder(i) + " OFFSET " + Placeholder(i + 1));
    args := args + [Number(limit), Number(offset)];
  }

  /** The columns the SELECT builder emits, field test by field test. */
  lemma SelectColumnsSpelled(f: UserFilter)
    ensures PresentColumns(f, SelectOrder) ==
      Keep(f, Name) + Keep(f, Surname) + Keep(f, Patronymic) + Keep(f, Age) + Keep(f, Gender) + Keep(f, Country)
  {
    SelectOrderSpelled();
    PresentColumnsSnoc(f, [], Name);
    PresentColumnsSnoc(f, [] + [Name], Surname);
    PresentColumnsSnoc(f, [] + [Name] + [Surname], Patronymic);
    PresentColumnsSnoc(f, [] + [Name] + [Surname] + [Patronymic], Age);
    PresentColumnsSnoc(f, [] + [Name] + [Surname] + [Patronymic] + [Age], Gender);
    PresentColumnsSnoc(f, [] + [Name] + [Surname] + [Patronymic] + [Age] + [Gender], Country);
  }

  /** The builder emits one filter per present field. */
  lemma SelectColumnsCount(f: UserFilter)
    ensures |PresentColumns(f, SelectOrder)| == PresentCount(f)
  {
    SelectColumnsSpelled(f);
  }

  /** The listing statement binds the present filter fields' values, one
      per present field, then the limit and the offset, and its text ends
      with a pagination clause numbered after the filters. */
  lemma SelectQueryShape(table: string, limit: int, offset: int, filter: UserFilter)
    ensures var s := SelectQuery(table, limit, offset, filter);
      var cs := PresentColumns(filter, SelectOrder);
      var k := PresentCount(filter);
      |cs| == k && |s.args| == k + 2 &&
      (forall j :: 0 <= j < k ==> s.args[j] == Field(filter, cs[j])) &&
      s.args[k] == Number(limit) && s.args[k + 1] == Number(offset) &&
      |Pagination(k)| <= |s.text| && s.text[|s.text| - |Pagination(k)|..] == Pagination(k)
  {
    SelectColumnsCount(filter);
  }

  lemma PaginationPlaceholders(k: nat)
    ensures Placeholders(Pagination(k)) == [k + 1, k + 2]
    ensures StartsWithNonDigit(Pagination(k))
  {
    var d1, d2 := Decimal(k + 1), Decimal(k + 2);
    var last := " OFFSET " + ("$" + d2 + "");
    assert Pagination(k) == " LIMIT " + ("$" + d1 + last);
    PlaceholdersSkip(" OFFSET ", "$" + d2 + "");
    PlaceholderAt(k + 2, "");
    assert Placeholders(last) == [k + 2];
    PlaceholderAt(k + 1, last);
    PlaceholdersSkip(" LIMIT ", "$" + d1 + last);
  }

  /** When the table name holds no `$`, the placeholders of the listing
      statement are exactly $1 .. $n for its n arguments, in order, so the
      j-th placeholder is bound to the j-th argument. */
  lemma SelectPlaceholdersNumbered(table: string, limit: int, offset: int, filter: UserFilter)
    requires '$' !in table
    ensures var s := SelectQuery(table, limit, offset, filter);
      Placeholders(s.text) == Ordinals(|s.args|)
  {
    var s := SelectQuery(table, limit, offset, filter);
    var cs := PresentColumns(filter, SelectOrder);
    var k := |cs|;
    PaginationPlaceholders(k);
    StatementPlaceholders(SelectHead(table), WhereClause, cs, Pagination(k));
    assert Ordinals(k + 2) == Ordinals(k) + [k + 1, k + 2];
  }

  /** The filters are those of the present fields, each field that is
      present (and no other), in the order name, surname, patronymic, age,
      gender, country. */
  lemma SelectColumnsOrdered(filter: UserFilter)
    ensures var cs := PresentColumns(filter, SelectOrder);
      (forall c :: c in cs <==> Present(Field(filter, c))) &&
      (forall i, j :: 0 <= i < j < |cs| ==> SelectRank(cs[i]) < SelectRank(cs[j]))
  {
    var cs := PresentColumns(filter, SelectOrder);
    forall c ensures c in cs <==> Present(Field(filter, c)) {
      PresentColumnsMembers(filter, SelectOrder, c);
    }
    PresentColumnsOrdered(filter, SelectOrder, SelectRank);
  }

  /** The statement text depends only on which filter fields are present:
      filter values, limit and offset reach the arguments, never the text. */
  lemma SelectTextIgnoresValues(table: string, limit1: int, offset1: int, f1: UserFilter,
                                limit2: int, offset2: int, f2: UserFilter)
    requires SamePresence(f1, f2)
    ensures SelectQuery(table, limit1, offset1, f1).text == SelectQuery(table, limit2, offset2, f2).text
  {
    PresentColumnsSamePresence(f1, f2, SelectOrder);
  }

  lemma SmallPlaceholders()
    ensures Placeholder(1) == "$1" && Placeholder(2) == "$2" && Placeholder(3) == "$3"
  {
    assert Decimal(1) == "1" && Decimal(2) == "2" && Decimal(3) == "3";
  }

  lemma FirstPaginations()
    ensures Pagination(0) == " LIMIT $1 OFFSET $2"
    ensures Pagination(1) == " LIMIT $2 OFFSET $3"
  {
    SmallPlaceholders();
  }

  /** With no filter field set, the statement is the base predicate and the
      pagination clause. */
  lemma SelectWithoutFilters(table: string, limit: int, offset: int)
    ensures SelectQuery(table, limit, offset, UserFilter("", "", "", 0, "", "")) ==
      Statement("SELECT * FROM " + table + " WHERE 1=1" + " LIMIT $1 OFFSET $2", [Number(limit), Number(offset)])
  {
    var f := UserFilter("", "", "", 0, "", "");
    SelectColumnsSpelled(f);
    assert PresentColumns(f, SelectOrder) == [];
    FirstPaginations();
    assert SelectHead(table) + Fragments(WhereClause, []) == SelectHead(table);
  }

  /** An age-only filter: its fragment has no leading space, so it runs into
      the base predicate ("1=1AND"), and its trailing space doubles before
      LIMIT. */
  lemma SelectAgeOnly(table: string, limit: int, offset: int, age: int)
    requires age != 0
    ensures SelectQuery(table, limit, offset, UserFilter("", "", "", age, "", "")) ==
      Statement("SELECT * FROM " + table + " WHERE 1=1" + "AND age=$1 " + " LIMIT $2 OFFSET $3",
                [Number(age), Number(limit), Number(offset)])
  {
    var f := UserFilter("", "", "", age, "", "");
    SelectColumnsSpelled(f);
    assert PresentColumns(f, SelectOrder) == [Age];
    SmallPlaceholders();
    assert Fragments(WhereClause, [Age]) == "" + Fragment(WhereClause, Age, 1) == "AND age=$1 ";
    FirstPaginations();
    assert Values(f, [Age]) == [Number(age)];
  }

  // --------------------------------------------------------------- UPDATE

  /** The order in which `UpdateQueryBuilder` tests the user's fields. */
  const UpdateOrder: seq<Column> := [Name, Surname, Patronymic, Country, Gender, Age]

  function UpdateRank(c: Column): int {
    match c
    case Name => 0
    case Surname => 1
    case Patronymic => 2
    case Country => 3
    case Gender => 4
    case Age => 5
  }

  function UpdateHead(table: string): string {
    "UPDATE " + table + " SET "
  }

  /** The row selector after `k` assignment placeholders. */
  function WhereId(k: nat): string {
    " WHERE id = " + Placeholder(k + 1)
  }

  /** The statement `UpdateQueryBuilder` builds: an assignment for each
      present field in the order the builder tests them, numbered from $1 and
      separated by commas, then the row selector; the arguments are the
      present fields' values, then the user's id. Nothing rejects a user with
      no field present. */
  function UpdateQuery(table: string, user: User): Statement {
    var f := Attributes(user);
    var cs := PresentColumns(f, UpdateOrder);
    Statement(UpdateHead(table) + Fragments(SetClause, cs) + WhereId(|cs|),
              Values(f, cs) + [Number(user.id)])
  }

  lemma UpdateOrderSpelled()
    ensures [] + [Name] + [Surname] + [Patronymic] + [Country] + [Gender] + [Age] == UpdateOrder
  {
  }

  /** One `if user.X != ... { ... }` block of the UPDATE builder. */
  method AddAssignment(query: string, args: seq<Arg>, i: nat, f: UserFilter, c: Column)
    returns (query': string, args': seq<Arg>, i': nat)
    requires i == |args| + 1
    ensures Statement(query', args') == Step(SetClause, Statement(query, args), f, c)
    ensures i' == |args'| + 1
  {
    query', args', i' := query, args, i;
    if Present(Field(f, c)) {
      ghost var before := query';
      if i' > 1 {
        query' := query' + ",";
      } else {
        assert query' == before + "";
      }
      query' := query' + (" " + ColumnName(c) + " = " + Placeholder(i'));
      AppendAssoc(before, Separator(i'), Assignment(c, i'));
      args' := args' + [Field(f, c)];
      i' := i' + 1;
    }
  }

  /** Builds the statement that overwrites the present fields of a user. */
  method UpdateQueryBuilder(table: string, user: User) returns (query: string, args: seq<Arg>)
    ensures Statement(query, args) == UpdateQuery(table, user)
  {
    var f := Attributes(user);
    query := "UPDATE " + table + " SET ";
    args := [];
    var i: nat := 1;
    // the fields tested so far
    ghost var done: seq<Column> := [];

    query, args, i := AddAssignment(query, args, i, f, Name);
    PartialSnoc(SetClause, UpdateHead(table), f, done, Name);
    done := done + [Name];
    query, args, i := AddAssignment(query, args, i, f, Surname);
    PartialSnoc(SetClause, UpdateHead(table), f, done, Surname);
    done := done + [Surname];
    query, args, i := AddAssignment(query, args, i, f, Patronymic);
    PartialSnoc(SetClause, UpdateHead(table), f, done, Patronymic);
    done := done + [Patronymic];
    query, args, i := AddAssignment(query, args, i, f, Country);
    PartialSnoc(SetClause, UpdateHead(table), f, done, Country);
    done := done + [Country];
    query, args, i := AddAssignment(query, args, i, f, Gender);
    PartialSnoc(SetClause, UpdateHead(table), f, done, Gender);
    done := done + [Gender];
    query, args, i := AddAssignment(query, args, i, f, Age);
    PartialSnoc(SetClause, UpdateHead(table), f, done, Age);
    done := done + [Age];
    UpdateOrderSpelled();
    PartialClosed(SetClause, UpdateHead(table), f, UpdateOrder);

    query := query + (" WHERE id = " + Placeholder(i));
    args := args + [Number(user.id)];
  }

  /** The columns the UPDATE builder emits, field test by field test. */
  lemma UpdateColumnsSpelled(f: UserFilter)
    ensures PresentColumns(f, UpdateOrder) ==
      Keep(f, Name) + Keep(f, Surname) + Keep(f, Patronymic) + Keep(f, Country) + Keep(f, Gender) + Keep(f, Age)
  {
    UpdateOrderSpelled();
    PresentColumnsSnoc(f, [], Name);
    PresentColumnsSnoc(f, [] + [Name], Surname);
    PresentColumnsSnoc(f, [] + [Name] + [Surname], Patronymic);
    PresentColumnsSnoc(f, [] + [Name] + [Surname] + [Patronymic], Country);
    PresentColumnsSnoc(f, [] + [Name] + [Surname] + [Patronymic] + [Country], Gender);
    PresentColumnsSnoc(f, [] + [Name] + [Surname] + [Patronymic] + [Country] + [Gender], Age);
  }

  /** The builder emits one assignment per present field. */
  lemma UpdateColumnsCount(f: UserFilter)
    ensures |PresentColumns(f, UpdateOrder)| == PresentCount(f)
  {
    UpdateColumnsSpelled(f);
  }

  /** The update binds the present fields' values, one per present field,
      then the id, and its text starts with the SET clause and ends with the
      row selector numbered after the assignments. */
  lemma UpdateQueryShape(table: string, user: User)
    ensures var s := UpdateQuery(table, user);
      var f := Attributes(user);
      var cs := PresentColumns(f, UpdateOrder);
      var k := PresentCount(f);
      |cs| == k && |s.args| == k + 1 &&
      (forall j :: 0 <= j < k ==> s.args[j] == Field(f, cs[j])) &&
      s.args[k] == Number(user.id) &&
      |UpdateHead(table)| + |WhereId(k)| <= |s.text| &&
      s.text[..|UpdateHead(table)|] == UpdateHead(table) &&
      s.text[|s.text| - |WhereId(k)|..] == WhereId(k)
  {
    UpdateColumnsCount(Attributes(user));
  }

  lemma WhereIdPlaceholders(k: nat)
    ensures Placeholders(WhereId(k)) == [k + 1]
    ensures StartsWithNonDigit(WhereId(k))
  {
    assert WhereId(k) == " WHERE id = " + ("$" + Decimal(k + 1) + "");
    PlaceholdersSkip(" WHERE id = ", "$" + Decimal(k + 1) + "");
    PlaceholderAt(k + 1, "");
  }

  /** When the table name holds no `$`, the placeholders of the update are
      exactly $1 .. $n for its n arguments, in order: the id is bound to the
      last one. */
  lemma UpdatePlaceholdersNumbered(table: string, user: User)
    requires '$' !in table
    ensures var s := UpdateQuery(table, user);
      Placeholders(s.text) == Ordinals(|s.args|)
  {
    var cs := PresentColumns(Attributes(user), UpdateOrder);
    var k := |cs|;
    WhereIdPlaceholders(k);
    StatementPlaceholders(UpdateHead(table), SetClause, cs, WhereId(k));
    assert Ordinals(k + 1) == Ordinals(k) + [k + 1];
  }

  /** The assignments are those of the present fields, each field that is
      present (and no other), in the order name, surname, patronymic,
      country, gender, age. */
  lemma UpdateColumnsOrdered(f: UserFilter)
    ensures var cs := PresentColumns(f, UpdateOrder);
      (forall c :: c in cs <==> Present(Field(f, c))) &&
      (forall i, j :: 0 <= i < j < |cs| ==> UpdateRank(cs[i]) < UpdateRank(cs[j]))
  {
    var cs := PresentColumns(f, UpdateOrder);
    forall c ensures c in cs <==> Present(Field(f, c)) {
      PresentColumnsMembers(f, UpdateOrder, c);
    }
    PresentColumnsOrdered(f, UpdateOrder, UpdateRank);
  }

  lemma UpdateHeadCommas(table: string)
    requires ',' !in table
    ensures Occurrences(UpdateHead(table), ',') == 0
  {
    OccurrencesAbsent(table, ',');
    OccurrencesAbsent("UPDATE ", ',');
    OccurrencesAbsent(" SET ", ',');
    OccurrencesAppend("UPDATE ", table, ',');
    OccurrencesAppend("UPDATE " + table, " SET ", ',');
  }

  lemma WhereIdCommas(k: nat)
    ensures Occurrences(WhereId(k), ',') == 0
  {
    NoMarkInDecimal(k + 1);
    OccurrencesAbsent(Decimal(k + 1), ',');
    OccurrencesAbsent(" WHERE id = ", ',');
    OccurrencesAbsent("$", ',');
    OccurrencesAppend("$", Decimal(k + 1), ',');
    OccurrencesAppend(" WHERE id = ", Placeholder(k + 1), ',');
  }

  /** When the table name holds no comma, the update holds one comma fewer
      than it has assignments, and none when it has none. */
  lemma UpdateCommas(table: string, user: User)
    requires ',' !in table
    ensures var k := PresentCount(Attributes(user));
      Occurrences(UpdateQuery(table, user).text, ',') == if k == 0 then 0 else k - 1
  {
    var s := UpdateQuery(table, user);
    var cs := PresentColumns(Attributes(user), UpdateOrder);
    assert s.text == UpdateHead(table) + Fragments(SetClause, cs) + WhereId(|cs|);
    UpdateColumnsCount(Attributes(user));
    FragmentsCommas(cs);
    UpdateHeadCommas(table);
    WhereIdCommas(|cs|);
    OccurrencesAppend(UpdateHead(table), Fragments(SetClause, cs), ',');
    OccurrencesAppend(UpdateHead(table) + Fragments(SetClause, cs), WhereId(|cs|), ',');
  }

  lemma {:induction false} FragmentsOpenWithSpace(cs: seq<Column>)
    requires cs != []
    ensures |Fragments(SetClause, cs)| > 0 && Fragments(SetClause, cs)[0] == ' '
  {
    var init := cs[..|cs| - 1];
    if init != [] {
      FragmentsOpenWithSpace(init);
    }
  }

  /** No comma directly follows `SET`: the first assignment, or the row
      selector when there is none, opens with a space. */
  lemma UpdateNoLeadingComma(table: string, user: User)
    ensures var s := UpdateQuery(table, user);
      |UpdateHead(table)| < |s.text| && s.text[|UpdateHead(table)|] == ' '
  {
    var cs := PresentColumns(Attributes(user), UpdateOrder);
    var rest := Fragments(SetClause, cs) + WhereId(|cs|);
    AppendAssoc(UpdateHead(table), Fragments(SetClause, cs), WhereId(|cs|));
    if cs != [] {
      FragmentsOpenWithSpace(cs);
    }
    assert rest[0] == ' ';
  }

  /** The update's text depends only on which fields are present: values
      and the id reach the arguments, never the text. */
  lemma UpdateTextIgnoresValues(table: string, u1: User, u2: User)
    requires SamePresence(Attributes(u1), Attributes(u2))
    ensures UpdateQuery(table, u1).text == UpdateQuery(table, u2).text
  {
    PresentColumnsSamePresence(Attributes(u1), Attributes(u2), UpdateOrder);
  }

  /** With no field present the update is still built: an empty SET list. */
  lemma UpdateWithoutFields(table: string, id: int)
    ensures UpdateQuery(table, User(id, "", "", "", 0, "", "")) ==
      Statement("UPDATE " + table + " SET " + " WHERE id = $1", [Number(id)])
  {
    var f := Attributes(User(id, "", "", "", 0, "", ""));
    UpdateColumnsSpelled(f);
    assert PresentColumns(f, UpdateOrder) == [];
    SmallPlaceholders();
    assert WhereId(0) == " WHERE id = $1";
    assert UpdateHead(table) + Fragments(SetClause, []) == UpdateHead(table);
  }

  /** A name and an age: age is assigned last, after a comma. */
  lemma UpdateNameAndAge(table: string, id: int, name: string, age: int)
    requires name != "" && age != 0
    ensures UpdateQuery(table, User(id, name, "", "", age, "", "")) ==
      Statement("UPDATE " + table + " SET " + " name = $1" + ", age = $2" + " WHERE id = $3",
                [Text(name), Number(age), Number(id)])
  {
    var f := Attributes(User(id, name, "", "", age, "", ""));
    UpdateColumnsSpelled(f);
    assert PresentColumns(f, UpdateOrder) == [Name, Age];
    SmallPlaceholders();
    assert [Name, Age][..1] == [Name];
    assert Fragments(SetClause, [Name]) == "" + Fragment(SetClause, Name, 1) == " name = $1";
    assert Fragment(SetClause, Age, 2) == ", age = $2";
    assert WhereId(2) == " WHERE id = $3";
    AppendAssoc(UpdateHead(table), " name = $1", ", age = $2");
    assert Values(f, [Name, Age]) == [Text(name), Number(age)];
  }
}
