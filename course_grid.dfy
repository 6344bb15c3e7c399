/** The course grid's data fetch: it builds a SQL text and a parameter list
    (adding a category join and `WHERE cc.category_id = ?` when a category is
    selected), runs the query, and keeps the rows. The query text is kept as
    pieces of at most thirty characters so that the substring facts the mock
    database's dispatch depends on can be shown piece by piece. */
module CourseGrid {
  import opened Basics
  import opened MockDb

  // The base query: four lines after a leading newline.
  const SelectHead := "          SELECT c.*, "
  const SelectTail := "u.name AS author_name "
  const SelectLine := SelectHead + SelectTail
  const FromHead := "          FROM "
  const FromTail := "Courses c"
  const FromLine := FromHead + FromTail
  const UsersHead := "          LEFT JOIN Users u "
  const UsersTail := "ON c.created_by = u.id"
  const UsersLine := UsersHead + UsersTail
  const BaseIndent := "        "
  const BaseQuery := "\n" + SelectLine + "\n" + FromLine + "\n" + UsersLine + "\n" + BaseIndent

  // The category join: three lines after a leading newline.
  const JoinHead := "            JOIN Course_"
  const JoinMiddle := "Categories cc ON c.id = "
  const JoinTail := "cc.course_id"
  const JoinLine := JoinHead + JoinMiddle + JoinTail
  const WhereIndent := "            WHERE "
  const WhereColumn := "cc.category"
  const WhereTail := "id = ?"
  const WhereLine := WhereIndent + WhereColumn + "_" + WhereTail
  const JoinIndent := "          "
  const CategoryJoin := "\n" + JoinLine + "\n" + WhereLine + "\n" + JoinIndent

  const OrderClause := " ORDER BY c.created_at DESC"

  /** The query for a selected category, and for none. */
  const FilteredQuery := BaseQuery + CategoryJoin + OrderClause
  const UnfilteredQuery := BaseQuery + OrderClause

  // The phrases of the mock database's dispatch that the grid's queries meet.
  const CategoriesPhrase := "FROM Categories"
  const CoursesPhrase := "Courses c"
  const CategoryFilterPhrase := "cc.category_id = ?"
  const IdFilterPhrase := "c.id = ?"

  /** The query text `fetchCourses` sends: the join only for a truthy id. */
  function GridQuery(categoryId: JsNumber): (q: string)
    ensures q == if Truthy(categoryId) then FilteredQuery else UnfilteredQuery
  {
    BaseQuery + (if Truthy(categoryId) then CategoryJoin else "") + OrderClause
  }

  /** The parameters it sends: `[categoryId]` for a truthy id, else none. */
  function GridParams(categoryId: JsNumber): (ps: seq<Value>)
    ensures Truthy(categoryId) ==> ps == [Int(categoryId.n)]
    ensures !Truthy(categoryId) ==> ps == []
  {
    if Truthy(categoryId) then [Int(categoryId.n)] else []
  }

  /** Every grid query starts with the base query and ends with the order clause. */
  lemma GridQueryFrame(categoryId: JsNumber)
    ensures |BaseQuery| + |OrderClause| <= |GridQuery(categoryId)|
    ensures GridQuery(categoryId)[..|BaseQuery|] == BaseQuery
    ensures GridQuery(categoryId)[|GridQuery(categoryId)| - |OrderClause|..] == OrderClause
  {
    PrefixAndSuffix(BaseQuery, if Truthy(categoryId) then CategoryJoin else "", OrderClause);
  }

  lemma PrefixAndSuffix(a: string, b: string, c: string)
    ensures (a + b + c)[..|a|] == a && (a + b + c)[|a + b + c| - |c|..] == c
  {
  }

  /** What the pool's `executeQuery` did with a query: rows, or a throw. */
  datatype Response = Returned(rows: seq<MockCourse>) | Threw

  /** The grid's state: `courses` starts empty and `loading` true. */
  class GridState {
    var courses: seq<MockCourse>
    var loading: bool

    constructor()
      ensures courses == [] && loading
    {
      courses := [];
      loading := true;
    }

    /** The query and parameters, built by appending to them step by step. */
    static method BuildQuery(categoryId: JsNumber) returns (query: string, params: seq<Value>)
      ensures query == GridQuery(categoryId) && params == GridParams(categoryId)
    {
      query := BaseQuery;
      params := [];
      if Truthy(categoryId) {
        query := query + CategoryJoin;
        params := params + [Int(categoryId.n)];
      }
      query := query + OrderClause;
    }

    /** `fetchCourses`: the rows replace `courses` when the query returns;
        a throw leaves them; `loading` ends false either way. The database
        is the function `execute`. */
    method FetchCourses(categoryId: JsNumber, execute: (string, seq<Value>) -> Response)
      returns (query: string, params: seq<Value>)
      modifies this
      ensures query == GridQuery(categoryId) && params == GridParams(categoryId)
      ensures !loading
      ensures courses == match execute(query, params)
        case Returned(rows) => rows
        case Threw => old(courses)
    {
      query, params := BuildQuery(categoryId);
      var response := execute(query, params);
      if response.Returned? {
        courses := response.rows;
      }
      loading := false;
    }
  }

  // ---- the pieces' substring facts ----------------------------------------

  /** A pattern without newlines occurs in the newline-separated lines of the
      filtered query only if it occurs in one line. */
  lemma FilteredShape(b1: string, b2: string, b3: string, b4: string,
                      j1: string, j2: string, j3: string, o: string, t: string)
    requires |t| > 0 && '\n' !in t
    requires !Contains(b1, t) && !Contains(b2, t) && !Contains(b3, t) && !Contains(b4, t)
    requires !Contains(j1, t) && !Contains(j2, t) && !Contains(j3 + o, t)
    ensures !Contains(("\n" + b1 + "\n" + b2 + "\n" + b3 + "\n" + b4) + ("\n" + j1 + "\n" + j2 + "\n" + j3) + o, t)
  {
    var p1 := [] + "\n" + b1;
    SplitAtSeparator([], '\n', b1, t);
    var p2 := p1 + "\n" + b2;
    SplitAtSeparator(p1, '\n', b2, t);
    var p3 := p2 + "\n" + b3;
    SplitAtSeparator(p2, '\n', b3, t);
    var p4 := p3 + "\n" + b4;
    SplitAtSeparator(p3, '\n', b4, t);
    var p5 := p4 + "\n" + j1;
    SplitAtSeparator(p4, '\n', j1, t);
    var p6 := p5 + "\n" + j2;
    SplitAtSeparator(p5, '\n', j2, t);
    SplitAtSeparator(p6, '\n', j3 + o, t);
    assert ("\n" + b1 + "\n" + b2 + "\n" + b3 + "\n" + b4) + ("\n" + j1 + "\n" + j2 + "\n" + j3) + o
        == p6 + "\n" + (j3 + o);
  }

  /** The same for the unfiltered query. */
  lemma UnfilteredShape(b1: string, b2: string, b3: string, b4: string, o: string, t: string)
    requires |t| > 0 && '\n' !in t
    requires !Contains(b1, t) && !Contains(b2, t) && !Contains(b3, t) && !Contains(b4 + o, t)
    ensures !Contains(("\n" + b1 + "\n" + b2 + "\n" + b3 + "\n" + b4) + o, t)
  {
    var p1 := [] + "\n" + b1;
    SplitAtSeparator([], '\n', b1, t);
    var p2 := p1 + "\n" + b2;
    SplitAtSeparator(p1, '\n', b2, t);
    var p3 := p2 + "\n" + b3;
    SplitAtSeparator(p2, '\n', b3, t);
    SplitAtSeparator(p3, '\n', b4 + o, t);
    assert ("\n" + b1 + "\n" + b2 + "\n" + b3 + "\n" + b4) + o == p3 + "\n" + (b4 + o);
  }

  // Each line lacks a character of each phrase (`F` or `g` of `FROM Categories`,
  // `?` of `c.id = ?`), except the WHERE line, which is split at `_`.

  lemma SelectLineLacksCategories() ensures !Contains(SelectLine, CategoriesPhrase) {
    assert 'F' !in SelectLine;
    MissingChar(SelectLine, CategoriesPhrase, 0);
  }

  lemma SelectLineLacksIdFilter() ensures !Contains(SelectLine, IdFilterPhrase) {
    assert '?' !in SelectLine;
    MissingChar(SelectLine, IdFilterPhrase, 7);
  }

  lemma FromLineLacksCategories() ensures !Contains(FromLine, CategoriesPhrase) {
    assert 'g' !in FromLine;
    MissingChar(FromLine, CategoriesPhrase, 9);
  }

  lemma FromLineLacksIdFilter() ensures !Contains(FromLine, IdFilterPhrase) {
    assert '?' !in FromLine;
    MissingChar(FromLine, IdFilterPhrase, 7);
  }

  lemma UsersLineLacksCategories() ensures !Contains(UsersLine, CategoriesPhrase) {
    assert 'g' !in UsersLine;
    MissingChar(UsersLine, CategoriesPhrase, 9);
  }

  lemma UsersLineLacksIdFilter() ensures !Contains(UsersLine, IdFilterPhrase) {
    assert '?' !in UsersLine;
    MissingChar(UsersLine, IdFilterPhrase, 7);
  }

  lemma IndentLacksCategories()
    ensures !Contains(BaseIndent, CategoriesPhrase) && !Contains(BaseIndent + OrderClause, CategoriesPhrase)
  {
    assert 'F' !in BaseIndent;
    MissingChar(BaseIndent, CategoriesPhrase, 0);
    assert 'F' !in BaseIndent + OrderClause;
    MissingChar(BaseIndent + OrderClause, CategoriesPhrase, 0);
  }

  lemma IndentLacksIdFilter() ensures !Contains(BaseIndent, IdFilterPhrase) {
    assert '?' !in BaseIndent;
    MissingChar(BaseIndent, IdFilterPhrase, 7);
  }

  lemma JoinLineLacksCategories() ensures !Contains(JoinLine, CategoriesPhrase) {
    assert 'F' !in JoinLine;
    MissingChar(JoinLine, CategoriesPhrase, 0);
  }

  lemma JoinLineLacksIdFilter() ensures !Contains(JoinLine, IdFilterPhrase) {
    assert '?' !in JoinLine;
    MissingChar(JoinLine, IdFilterPhrase, 7);
  }

  lemma WhereLineLacksCategories() ensures !Contains(WhereLine, CategoriesPhrase) {
    assert 'F' !in WhereLine;
    MissingChar(WhereLine, CategoriesPhrase, 0);
  }

  /** `c.id = ?` is absent because the only `id = ?` follows `category_`. */
  lemma WhereLineLacksIdFilter() ensures !Contains(WhereLine, IdFilterPhrase) {
    assert '?' !in WhereIndent + WhereColumn;
    MissingChar(WhereIndent + WhereColumn, IdFilterPhrase, 7);
    assert '_' !in IdFilterPhrase;
    SplitAtSeparator(WhereIndent + WhereColumn, '_', WhereTail, IdFilterPhrase);
  }

  lemma TailLacksCategories() ensures !Contains(JoinIndent + OrderClause, CategoriesPhrase) {
    assert 'F' !in JoinIndent + OrderClause;
    MissingChar(JoinIndent + OrderClause, CategoriesPhrase, 0);
  }

  lemma TailLacksIdFilter() ensures !Contains(JoinIndent + OrderClause, IdFilterPhrase) {
    assert '?' !in JoinIndent + OrderClause;
    MissingChar(JoinIndent + OrderClause, IdFilterPhrase, 7);
  }

  /** Neither grid query names the categories table. */
  lemma GridQueriesLackCategories()
    ensures !Contains(FilteredQuery, CategoriesPhrase) && !Contains(UnfilteredQuery, CategoriesPhrase)
  {
    SelectLineLacksCategories();
    FromLineLacksCategories();
    UsersLineLacksCategories();
    IndentLacksCategories();
    JoinLineLacksCategories();
    WhereLineLacksCategories();
    TailLacksCategories();
    FilteredShape(SelectLine, FromLine, UsersLine, BaseIndent, JoinLine, WhereLine, JoinIndent, OrderClause,
                  CategoriesPhrase);
    UnfilteredShape(SelectLine, FromLine, UsersLine, BaseIndent, OrderClause, CategoriesPhrase);
  }

  /** The filtered query has no `c.id = ?` clause. */
  lemma FilteredQueryLacksIdFilter()
    ensures !Contains(FilteredQuery, IdFilterPhrase)
  {
    SelectLineLacksIdFilter();
    FromLineLacksIdFilter();
    UsersLineLacksIdFilter();
    IndentLacksIdFilter();
    JoinLineLacksIdFilter();
    WhereLineLacksIdFilter();
    TailLacksIdFilter();
    FilteredShape(SelectLine, FromLine, UsersLine, BaseIndent, JoinLine, WhereLine, JoinIndent, OrderClause,
                  IdFilterPhrase);
  }

  /** Both grid queries name `Courses c`; the filtered one has the category clause. */
  lemma GridQueriesHavePhrases()
    ensures Contains(BaseQuery, CoursesPhrase)
    ensures Contains(FilteredQuery, CoursesPhrase) && Contains(UnfilteredQuery, CoursesPhrase)
    ensures Contains(FilteredQuery, CategoryFilterPhrase)
  {
    ContainsAt(FromTail, CoursesPhrase, 0);
    ContainsInRight(FromHead, FromTail, CoursesPhrase);
    var upToFrom := "\n" + SelectLine + "\n" + FromLine;
    ContainsInRight("\n" + SelectLine + "\n", FromLine, CoursesPhrase);
    ContainsInLeft(upToFrom, "\n", CoursesPhrase);
    ContainsInLeft(upToFrom + "\n", UsersLine, CoursesPhrase);
    ContainsInLeft(upToFrom + "\n" + UsersLine, "\n", CoursesPhrase);
    ContainsInLeft(upToFrom + "\n" + UsersLine + "\n", BaseIndent, CoursesPhrase);
    ContainsInLeft(BaseQuery, CategoryJoin, CoursesPhrase);
    ContainsInLeft(BaseQuery + CategoryJoin, OrderClause, CoursesPhrase);
    ContainsInLeft(BaseQuery, OrderClause, CoursesPhrase);
    WhereLineHasCategoryFilter();
    var upToWhere := "\n" + JoinLine + "\n" + WhereLine;
    ContainsInRight("\n" + JoinLine + "\n", WhereLine, CategoryFilterPhrase);
    ContainsInLeft(upToWhere, "\n", CategoryFilterPhrase);
    ContainsInLeft(upToWhere + "\n", JoinIndent, CategoryFilterPhrase);
    ContainsInRight(BaseQuery, CategoryJoin, CategoryFilterPhrase);
    ContainsInLeft(BaseQuery + CategoryJoin, OrderClause, CategoryFilterPhrase);
  }

  lemma WhereLineHasCategoryFilter()
    ensures Contains(WhereLine, CategoryFilterPhrase)
  {
    var t := WhereColumn + "_" + WhereTail;
    assert t == CategoryFilterPhrase;
    ContainsAt(t, t, 0);
    ContainsInRight(WhereIndent, t, t);
    assert WhereIndent + t == WhereLine;
  }

  // ---- the grid's queries against the mock database ----------------------

  /** With a truthy category id the grid's query reaches the mock's courses
      branch, and the answer is exactly the seed courses mapped to that id, in
      seed order. */
  lemma FilteredGridQueryOnMock(db: MockDatabase, id: int)
    requires id != 0
    ensures Route(GridQuery(Number(id))) == CoursesBranch
    ensures db.Answer(GridQuery(Number(id)), GridParams(Number(id))).CourseRows?
    ensures var rows := db.Answer(GridQuery(Number(id)), GridParams(Number(id))).courses;
      && Subsequence(rows, db.courses)
      && forall c :: c in rows <==>
           c in db.courses && exists m :: m in db.courseCategories && m.courseId == c.id && m.categoryId == id
  {
    GridQueriesLackCategories();
    FilteredQueryLacksIdFilter();
    GridQueriesHavePhrases();
  }

  /** Without a category the grid's query returns every seed course. */
  lemma UnfilteredGridQueryOnMock(db: MockDatabase, categoryId: JsNumber)
    requires !Truthy(categoryId)
    ensures Route(GridQuery(categoryId)) == CoursesBranch
    ensures db.Answer(GridQuery(categoryId), GridParams(categoryId)) == CourseRows(db.courses)
  {
    GridQueriesLackCategories();
    GridQueriesHavePhrases();
  }
}
