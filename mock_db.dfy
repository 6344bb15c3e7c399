/** The in-memory stand-in for the SQL pool: `executeQuery(query, params)`
    picks a branch by looking for fixed phrases in the query text, in a fixed
    order, and answers from seed tables. Course, category and mapping rows
    are never changed; enrollment and payment inserts append to their arrays
    with `id = length + 1`. */
module MockDb {
  import opened Basics
  import opened Records

  /** A course as the seed data holds it: a numeric creator id and the
      author name already filled in. Prices are integer cents. */
  datatype MockCourse = MockCourse(
    id: int,
    title: string,
    description: string,
    price: int,
    imageUrl: string,
    createdBy: int,
    createdAt: string,
    authorName: string)

  /** Inserted rows keep whatever values the caller passed in `params`. */
  datatype MockEnrollment = MockEnrollment(id: int, userId: Value, courseId: Value, enrolledAt: string)

  datatype MockPayment = MockPayment(
    id: int,
    userId: Value,
    courseId: Value,
    amount: Value,
    paymentStatus: Value,
    paymentDate: string)

  /** What `executeQuery` resolves to. */
  datatype QueryResult =
    | CategoryRows(categories: seq<Category>)
    | CourseRows(courses: seq<MockCourse>)
    | EnrollmentRows(enrollments: seq<MockEnrollment>)
    | Inserted(insertId: int)
    | NoRows

  /** The branches of `executeQuery`, in the order they are tried. */
  datatype Branch =
    | CategoriesBranch
    | CoursesBranch
    | EnrollmentsBranch
    | CourseCategoriesBranch
    | InsertEnrollmentBranch
    | InsertPaymentBranch
    | NoBranch

  /** The first branch whose phrase the query contains. */
  function Route(query: string): (b: Branch)
    ensures Contains(query, "FROM Categories") <==> b == CategoriesBranch
    ensures b == CoursesBranch <==> !Contains(query, "FROM Categories") && Contains(query, "Courses c")
  {
    if Contains(query, "FROM Categories") then CategoriesBranch
    else if Contains(query, "FROM Courses c") || Contains(query, "Courses c") then
      if Contains(query, "FROM Courses c") then
        assert "FROM " + "Courses c" + "" == "FROM Courses c";
        PhraseInside("FROM ", "Courses c", "", query);
        CoursesBranch
      else CoursesBranch
    else if Contains(query, "FROM Enrollments") then EnrollmentsBranch
    else if Contains(query, "cat.id, cat.name") && Contains(query, "JOIN Course_Categories") then
      CourseCategoriesBranch
    else if Contains(query, "INSERT INTO Enrollments") then InsertEnrollmentBranch
    else if Contains(query, "INSERT INTO Payments") then InsertPaymentBranch
    else NoBranch
  }

  /** A query that holds `a + t + b` holds `t`. */
  lemma {:induction false} PhraseInside(a: string, t: string, b: string, query: string)
    requires Contains(query, a + t + b)
    ensures Contains(query, t)
    decreases |query|
  {
    var w := a + t + b;
    if query[..|w|] == w {
      assert query[|a|..|a| + |t|] == w[|a|..|a| + |t|] == t;
      ContainsAt(query, t, |a|);
    } else {
      PhraseInside(a, t, b, query[1..]);
      ContainsShift(query, t);
    }
  }

  /** An occurrence in the tail is an occurrence. */
  lemma ContainsShift(s: string, t: string)
    requires s != [] && Contains(s[1..], t)
    ensures Contains(s, t)
  {
    ContainsInRight([s[0]], s[1..], t);
    assert [s[0]] + s[1..] == s;
  }

  class MockDatabase {
    const courses: seq<MockCourse>
    const categories: seq<Category>
    const courseCategories: seq<CourseCategory>
    var enrollments: seq<MockEnrollment>
    var payments: seq<MockPayment>

    /** Row `i` carries id `i + 1`. */
    ghost predicate Valid()
      reads this
    {
      && (forall i :: 0 <= i < |enrollments| ==> enrollments[i].id == i + 1)
      && (forall i :: 0 <= i < |payments| ==> payments[i].id == i + 1)
    }

    /** The tables of `mockData`. */
    constructor Seeded()
      ensures courses == SeedCourses && categories == SeedCategories
      ensures courseCategories == SeedCourseCategories
      ensures enrollments == SeedEnrollments && payments == SeedPayments
      ensures Valid()
    {
      courses := SeedCourses;
      categories := SeedCategories;
      courseCategories := SeedCourseCategories;
      enrollments := SeedEnrollments;
      payments := SeedPayments;
    }

    /** The course ids mapped to a category (`cc.category_id === categoryId`), in mapping order. */
    function CourseIdsOfCategory(categoryId: Value): (ids: seq<int>)
      ensures forall id :: id in ids <==>
        exists m :: m in courseCategories && Int(m.categoryId) == categoryId && m.courseId == id
    {
      var rows := Filter((m: CourseCategory) => Int(m.categoryId) == categoryId, courseCategories);
      var ids := seq(|rows|, i requires 0 <= i < |rows| => rows[i].courseId);
      forall m | m in rows ensures m.courseId in ids {
        var k :| 0 <= k < |rows| && rows[k] == m;
        assert ids[k] == m.courseId;
      }
      forall id | id in ids
        ensures exists m :: m in courseCategories && Int(m.categoryId) == categoryId && m.courseId == id
      {
        var k :| 0 <= k < |ids| && ids[k] == id;
        assert rows[k] in rows;
      }
      ids
    }

    /** The category ids mapped to a course (`cc.course_id === courseId`). */
    function CategoryIdsOfCourse(courseId: Value): (ids: seq<int>)
      ensures forall id :: id in ids <==>
        exists m :: m in courseCategories && Int(m.courseId) == courseId && m.categoryId == id
    {
      var rows := Filter((m: CourseCategory) => Int(m.courseId) == courseId, courseCategories);
      var ids := seq(|rows|, i requires 0 <= i < |rows| => rows[i].categoryId);
      forall m | m in rows ensures m.categoryId in ids {
        var k :| 0 <= k < |rows| && rows[k] == m;
        assert ids[k] == m.categoryId;
      }
      forall id | id in ids
        ensures exists m :: m in courseCategories && Int(m.courseId) == courseId && m.categoryId == id
      {
        var k :| 0 <= k < |ids| && ids[k] == id;
        assert rows[k] in rows;
      }
      ids
    }

    /** The category step of the courses branch: applied when the query has
        `cc.category_id = ?` and `params` is non-empty. */
    function CategoryStep(query: string, params: seq<Value>): (r: seq<MockCourse>)
      ensures !(Contains(query, "cc.category_id = ?") && |params| > 0) ==> r == courses
      ensures Subsequence(r, courses)
      ensures forall c :: c in r <==>
        c in courses && (Contains(query, "cc.category_id = ?") && |params| > 0 ==> c.id in CourseIdsOfCategory(params[0]))
    {
      if Contains(query, "cc.category_id = ?") && |params| > 0 then
        var inCategory := CourseIdsOfCategory(params[0]);
        var p := (c: MockCourse) => c.id in inCategory;
        FilterSubsequence(p, courses);
        Filter(p, courses)
      else
        SubsequenceReflexive(courses);
        courses
    }

    /** The id step of the courses branch: applied when the query has
        `c.id = ?` and `params` is non-empty. */
    static function IdStep(query: string, params: seq<Value>, rows: seq<MockCourse>): (r: seq<MockCourse>)
      ensures !(Contains(query, "c.id = ?") && |params| > 0) ==> r == rows
      ensures Subsequence(r, rows)
      ensures forall c :: c in r <==> c in rows && (Contains(query, "c.id = ?") && |params| > 0 ==> Int(c.id) == params[0])
    {
      if Contains(query, "c.id = ?") && |params| > 0 then
        var courseId := params[0];
        var p := (c: MockCourse) => Int(c.id) == courseId;
        FilterSubsequence(p, rows);
        Filter(p, rows)
      else
        SubsequenceReflexive(rows);
        rows
    }

    /** The courses branch: a copy of the seed courses, narrowed by category,
        then by id. */
    function CoursesAnswer(query: string, params: seq<Value>): (r: seq<MockCourse>)
      ensures params == [] ==> r == courses
      ensures Subsequence(r, courses)
      ensures forall c :: c in r <==>
        && c in courses
        && (Contains(query, "cc.category_id = ?") && |params| > 0 ==> c.id in CourseIdsOfCategory(params[0]))
        && (Contains(query, "c.id = ?") && |params| > 0 ==> Int(c.id) == params[0])
    {
      var byCategory := CategoryStep(query, params);
      var r := IdStep(query, params, byCategory);
      SubsequenceTransitive(r, byCategory, courses);
      r
    }

    /** The enrollments branch: all enrollments, or those of `params[0]` and
        `params[1]` when the query has `user_id = ? AND course_id = ?` and
        exactly two params. */
    function EnrollmentsAnswer(query: string, params: seq<Value>): (r: seq<MockEnrollment>)
      reads this
      ensures !(Contains(query, "user_id = ? AND course_id = ?") && |params| == 2) ==> r == enrollments
      ensures Contains(query, "user_id = ? AND course_id = ?") && |params| == 2 ==>
        forall e :: e in r <==> e in enrollments && e.userId == params[0] && e.courseId == params[1]
    {
      if Contains(query, "user_id = ? AND course_id = ?") && |params| == 2 then
        Filter((e: MockEnrollment) => e.userId == params[0] && e.courseId == params[1], enrollments)
      else enrollments
    }

    /** The course-categories branch: the categories mapped to `params[0]`. */
    function CourseCategoriesAnswer(params: seq<Value>): (r: seq<Category>)
      ensures forall c :: c in r <==> c in categories && c.id in CategoryIdsOfCourse(Param(params, 0))
    {
      var ids := CategoryIdsOfCourse(Param(params, 0));
      Filter((c: Category) => c.id in ids, categories)
    }

    /** What `executeQuery(query, params)` resolves to in the current state. */
    function Answer(query: string, params: seq<Value>): (r: QueryResult)
      reads this
      ensures Contains(query, "FROM Categories") ==> r == CategoryRows(categories)
      ensures r.CourseRows? <==> !Contains(query, "FROM Categories") && Contains(query, "Courses c")
      ensures r.CourseRows? ==> Subsequence(r.courses, courses)
      ensures r.Inserted? ==> r.insertId == (if Route(query) == InsertEnrollmentBranch
                                             then |enrollments| + 1 else |payments| + 1)
      ensures
        (&& !Contains(query, "FROM Categories") && !Contains(query, "Courses c")
         && !Contains(query, "FROM Enrollments")
         && !(Contains(query, "cat.id, cat.name") && Contains(query, "JOIN Course_Categories"))
         && !Contains(query, "INSERT INTO Enrollments") && !Contains(query, "INSERT INTO Payments"))
        <==> r == NoRows
    {
      match Route(query)
      case CategoriesBranch => CategoryRows(categories)
      case CoursesBranch => CourseRows(CoursesAnswer(query, params))
      case EnrollmentsBranch => EnrollmentRows(EnrollmentsAnswer(query, params))
      case CourseCategoriesBranch => CategoryRows(CourseCategoriesAnswer(params))
      case InsertEnrollmentBranch => Inserted(|enrollments| + 1)
      case InsertPaymentBranch => Inserted(|payments| + 1)
      case NoBranch => NoRows
    }

    /** `executeQuery(query, params)`; `now` stands for `new Date().toISOString()`. */
    method ExecuteQuery(query: string, params: seq<Value>, now: string) returns (r: QueryResult)
      requires Valid()
      modifies this
      ensures Valid()
      ensures r == old(Answer(query, params))
      ensures enrollments == old(enrollments) +
        if Route(query) == InsertEnrollmentBranch
        then [MockEnrollment(|old(enrollments)| + 1, Param(params, 0), Param(params, 1), now)]
        else []
      ensures payments == old(payments) +
        if Route(query) == InsertPaymentBranch
        then [MockPayment(|old(payments)| + 1, Param(params, 0), Param(params, 1), Param(params, 2),
                          Param(params, 3), now)]
        else []
    {
      if Contains(query, "FROM Categories") {
        return CategoryRows(categories);
      }
      if Contains(query, "FROM Courses c") || Contains(query, "Courses c") {
        var results := courses;
        if Contains(query, "cc.category_id = ?") && |params| > 0 {
          var categoryId := params[0];
          var inCategory := CourseIdsOfCategory(categoryId);
          results := Filter((c: MockCourse) => c.id in inCategory, results);
        }
        if Contains(query, "c.id = ?") && |params| > 0 {
          var courseId := params[0];
          results := Filter((c: MockCourse) => Int(c.id) == courseId, results);
        }
        return CourseRows(results);
      }
      if Contains(query, "FROM Enrollments") {
        var results := enrollments;
        if Contains(query, "user_id = ? AND course_id = ?") && |params| == 2 {
          results := Filter((e: MockEnrollment) => e.userId == params[0] && e.courseId == params[1], results);
        }
        return EnrollmentRows(results);
      }
      if Contains(query, "cat.id, cat.name") && Contains(query, "JOIN Course_Categories") {
        var courseId := Param(params, 0);
        var categoriesForCourse := CategoryIdsOfCourse(courseId);
        return CategoryRows(Filter((c: Category) => c.id in categoriesForCourse, categories));
      }
      if Contains(query, "INSERT INTO Enrollments") {
        var newId := |enrollments| + 1;
        enrollments := enrollments + [MockEnrollment(newId, Param(params, 0), Param(params, 1), now)];
        return Inserted(newId);
      }
      if Contains(query, "INSERT INTO Payments") {
        var newId := |payments| + 1;
        payments := payments + [MockPayment(newId, Param(params, 0), Param(params, 1), Param(params, 2),
                                            Param(params, 3), now)];
        return Inserted(newId);
      }
      return NoRows;
    }
  }

  /** `SELECT * FROM Categories`, the category list query, answers every category. */
  lemma CategoryListQuery(db: MockDatabase, params: seq<Value>)
    ensures db.Answer("SELECT * FROM Categories", params) == CategoryRows(db.categories)
  {
    assert "SELECT * FROM Categories"[9..] == "FROM Categories";
    ContainsAt("SELECT * FROM Categories", "FROM Categories", 9);
  }

  /** A category-join query that also names `FROM Categories` never reaches the
      join branch: it answers every category, whereas with the seed mappings
      the join branch itself would answer for course 1 only the category with id 1. */
  lemma JoinBranchShadowed(db: MockDatabase, query: string)
    requires db.courseCategories == SeedCourseCategories
    requires Contains(query, "FROM Categories")
    requires Contains(query, "cat.id, cat.name") && Contains(query, "JOIN Course_Categories")
    ensures db.Answer(query, [Int(1)]) == CategoryRows(db.categories)
    ensures forall c :: c in db.CourseCategoriesAnswer([Int(1)]) ==> c.id == 1
  {
    SeedCourseOneInOneCategory(db);
  }

  /** In the seed mappings, course 1 belongs to category 1 alone. */
  lemma SeedCourseOneInOneCategory(db: MockDatabase)
    requires db.courseCategories == SeedCourseCategories
    ensures forall c :: c in db.CourseCategoriesAnswer([Int(1)]) ==> c.id == 1
  {
    assert Param([Int(1)], 0) == Int(1);
    forall c | c in db.CourseCategoriesAnswer([Int(1)]) ensures c.id == 1 {
      SeedMappingsOfCourseOne(db, c.id);
    }
  }

  lemma SeedMappingsOfCourseOne(db: MockDatabase, id: int)
    requires db.courseCategories == SeedCourseCategories
    requires id in db.CategoryIdsOfCourse(Int(1))
    ensures id == 1
  {
    var m :| m in db.courseCategories && Int(m.courseId) == Int(1) && m.categoryId == id;
    SeedMappingOfCourseOne(m);
  }

  lemma SeedMappingOfCourseOne(m: CourseCategory)
    requires m in SeedCourseCategories && m.courseId == 1
    ensures m.categoryId == 1
  {}

  lemma {:induction false} SubsequenceReflexive<T>(s: seq<T>)
    ensures Subsequence(s, s)
    decreases |s|
  {
    if s != [] {
      SubsequenceReflexive(s[1..]);
    }
  }

  lemma {:induction false} SubsequenceTransitive<T>(a: seq<T>, b: seq<T>, c: seq<T>)
    requires Subsequence(a, b) && Subsequence(b, c)
    ensures Subsequence(a, c)
    decreases |c|
  {
    if a != [] && c != [] {
      if b[0] == c[0] && Subsequence(b[1..], c[1..]) {
        if a[0] == b[0] && Subsequence(a[1..], b[1..]) {
          SubsequenceTransitive(a[1..], b[1..], c[1..]);
        } else {
          SubsequenceTransitive(a, b[1..], c[1..]);
        }
      } else {
        SubsequenceTransitive(a, b, c[1..]);
      }
    }
  }

  // ---- seed tables (prices in cents) ------------------------------------

  const SeedCourses: seq<MockCourse> := [
    MockCourse(1, "Introduction to React",
      "Learn the fundamentals of React, including components, props, state, and hooks. "
      + "This comprehensive course will take you from beginner to advanced concepts.",
      4999, "https://images.unsplash.com/photo-1633356122102-3fe601e05bd2?auto=format&fit=crop",
      1, "2025-01-15T00:00:00Z", "Admin User"),
    MockCourse(2, "JavaScript for Beginners",
      "Master JavaScript fundamentals with this beginner-friendly course. "
      + "Explore variables, functions, objects, and more with practical examples.",
      3999, "https://images.unsplash.com/photo-1627398242454-45a1465c2479?auto=format&fit=crop",
      1, "2025-01-16T00:00:00Z", "Admin User"),
    MockCourse(3, "Advanced CSS Techniques",
      "Take your CSS skills to the next level with advanced layouts, animations, "
      + "and responsive design techniques for modern web development.",
      5999, "https://images.unsplash.com/photo-1523437113738-bbd3cc89fb19?auto=format&fit=crop",
      1, "2025-01-17T00:00:00Z", "Admin User"),
    MockCourse(4, "Full Stack Development",
      "Become a full stack developer by learning both frontend and backend technologies. "
      + "Build complete web applications from scratch.",
      7999, "https://images.unsplash.com/photo-1571171637578-41bc2dd41cd2?auto=format&fit=crop",
      1, "2025-01-18T00:00:00Z", "Admin User")
  ]

  const SeedCategories: seq<Category> := [
    Category(1, "Web Development", "Courses related to web development technologies"),
    Category(2, "Mobile Development", "Learn to build mobile applications"),
    Category(3, "Data Science", "Learn data analysis and machine learning"),
    Category(4, "Design", "UI/UX and graphic design courses")
  ]

  const SeedCourseCategories: seq<CourseCategory> := [
    CourseCategory(1, 1, 1),
    CourseCategory(2, 2, 1),
    CourseCategory(3, 3, 1),
    CourseCategory(4, 3, 4),
    CourseCategory(5, 4, 1),
    CourseCategory(6, 4, 3)
  ]

  const SeedEnrollments: seq<MockEnrollment> := [
    MockEnrollment(1, Int(2), Int(1), "2025-02-01T00:00:00Z")
  ]

  const SeedPayments: seq<MockPayment> := [
    MockPayment(1, Int(2), Int(1), Int(4999), Text("completed"), "2025-02-01T00:00:00Z")
  ]
}
