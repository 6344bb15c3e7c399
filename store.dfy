/** The hosted relational store behind the catalogue service, reduced to the
    client calls the service makes: `from(t).select(...)` with `eq`, `in`,
    `order` and `single()`, `insert`, `update().eq` and `delete().eq`.

    Every call takes a `fail` flag standing for an unreachable or rejecting
    store; besides that, the store enforces the foreign keys the schema
    declares (a row may only reference existing users, courses and categories,
    and a course that is still referenced cannot be deleted). Generated ids
    are drawn from one serial counter. */
module TableStore {
  import opened Basics
  import opened Records
  import opened Ordering

  /** A course row with its creator's name embedded (`users:created_by (name)`);
      the embedding is null when no user has the `created_by` id. */
  datatype JoinedCourse = JoinedCourse(row: CourseRow, creatorName: Option<string>)

  /** The fields `insert(courseData)` supplies; the store adds the id.
      A draft always names its creator and creation time and never an id. */
  datatype CourseDraft = CourseDraft(
    title: string,
    description: string,
    price: int,
    imageUrl: string,
    createdBy: string,
    createdAt: nat)

  /** `update(courseData)` with a partial course: absent fields are left alone.
      Only the four editable fields are modelled; a patch cannot name the id,
      the creator or the creation time. */
  datatype CoursePatch = CoursePatch(
    title: Option<string>,
    description: Option<string>,
    price: Option<int>,
    imageUrl: Option<string>)

  /** One `{ course_id, category_id }` object of a bulk mapping insert. */
  datatype MappingDraft = MappingDraft(courseId: int, categoryId: int)

  /** The name embedded for a `created_by` id: the first user with that id. */
  function CreatorName(users: seq<UserRow>, id: string): (r: Option<string>)
    ensures r.None? <==> forall k :: 0 <= k < |users| ==> users[k].id != id
    ensures r.Some? ==> exists k :: 0 <= k < |users| && users[k].id == id && users[k].name == r.value
  {
    if users == [] then None
    else if users[0].id == id then Some(users[0].name)
    else
      var r := CreatorName(users[1..], id);
      assert forall k :: 1 <= k < |users| ==> users[k] == users[1..][k - 1];
      r
  }

  /** The category embedded for a `category_id` (`categories:category_id(*)`). */
  function CategoryById(categories: seq<Category>, id: int): (r: Option<Category>)
    ensures r.None? <==> forall k :: 0 <= k < |categories| ==> categories[k].id != id
    ensures r.Some? ==> r.value in categories && r.value.id == id
  {
    if categories == [] then None
    else if categories[0].id == id then Some(categories[0])
    else
      var r := CategoryById(categories[1..], id);
      assert forall k :: 1 <= k < |categories| ==> categories[k] == categories[1..][k - 1];
      r
  }

  function ApplyPatch(c: CourseRow, p: CoursePatch): CourseRow {
    c.(title := if p.title.Some? then p.title.value else c.title,
       description := if p.description.Some? then p.description.value else c.description,
       price := if p.price.Some? then p.price.value else c.price,
       imageUrl := if p.imageUrl.Some? then p.imageUrl.value else c.imageUrl)
  }

  /** Newest first: `.order('created_at', { ascending: false })`. */
  predicate NewerOrSame(a: CourseRow, b: CourseRow) {
    a.createdAt >= b.createdAt
  }

  /** `.order('name')`. */
  predicate NameBefore(a: Category, b: Category) {
    LexLe(a.name, b.name)
  }

  function RowsOf(js: seq<JoinedCourse>): (rows: seq<CourseRow>)
    ensures |rows| == |js| && forall i :: 0 <= i < |js| ==> rows[i] == js[i].row
  {
    seq(|js|, i requires 0 <= i < |js| => js[i].row)
  }

  /** The mapping rows a bulk insert creates, numbered from `firstId`. */
  function MappingRows(firstId: int, drafts: seq<MappingDraft>): (rows: seq<CourseCategory>)
    ensures |rows| == |drafts|
    ensures forall i :: 0 <= i < |drafts| ==>
      rows[i] == CourseCategory(firstId + i, drafts[i].courseId, drafts[i].categoryId)
  {
    seq(|drafts|, i requires 0 <= i < |drafts| =>
      CourseCategory(firstId + i, drafts[i].courseId, drafts[i].categoryId))
  }

  /** The mapping rows of one course, in table order. */
  function MappingsOf(ms: seq<CourseCategory>, courseId: int): (r: seq<CourseCategory>)
    ensures forall m :: m in r <==> m in ms && m.courseId == courseId
  {
    Filter((m: CourseCategory) => m.courseId == courseId, ms)
  }

  /** What `delete().eq('course_id', id)` leaves of the mapping table. */
  function MappingsNotOf(ms: seq<CourseCategory>, courseId: int): (r: seq<CourseCategory>)
    ensures forall m :: m in r <==> m in ms && m.courseId != courseId
  {
    Filter((m: CourseCategory) => m.courseId != courseId, ms)
  }

  /** The enrollment rows of one user and course, in table order. */
  function PairEnrollments(es: seq<Enrollment>, userId: string, courseId: int): (r: seq<Enrollment>)
    ensures forall e :: e in r <==> e in es && e.userId == userId && e.courseId == courseId
  {
    Filter((e: Enrollment) => e.userId == userId && e.courseId == courseId, es)
  }

  /** Appending a row adds it to its own pair's rows and to no other pair's. */
  lemma PairEnrollmentsAppend(es: seq<Enrollment>, e: Enrollment, userId: string, courseId: int)
    ensures PairEnrollments(es + [e], userId, courseId) ==
      PairEnrollments(es, userId, courseId) + (if e.userId == userId && e.courseId == courseId then [e] else [])
  {
    FilterAppend((e: Enrollment) => e.userId == userId && e.courseId == courseId, es, [e]);
  }

  /** What `delete().eq('course_id', id)` leaves of the enrollments. */
  function EnrollmentsNotOf(es: seq<Enrollment>, courseId: int): (r: seq<Enrollment>)
    ensures forall e :: e in r <==> e in es && e.courseId != courseId
  {
    Filter((e: Enrollment) => e.courseId != courseId, es)
  }

  /** What `delete().eq('course_id', id)` leaves of the payments. */
  function PaymentsNotOf(ps: seq<Payment>, courseId: int): (r: seq<Payment>)
    ensures forall p :: p in r <==> p in ps && p.courseId != courseId
  {
    Filter((p: Payment) => p.courseId != courseId, ps)
  }

  /** What `delete().eq('id', id)` leaves of the courses. */
  function CoursesNotWithId(cs: seq<CourseRow>, id: int): (r: seq<CourseRow>)
    ensures forall c :: c in r <==> c in cs && c.id != id
  {
    Filter((c: CourseRow) => c.id != id, cs)
  }

  /** What `update(patch).eq('id', id)` makes of the courses. */
  function PatchWhereId(cs: seq<CourseRow>, id: int, patch: CoursePatch): (r: seq<CourseRow>)
    ensures |r| == |cs|
    ensures forall k :: 0 <= k < |cs| ==> r[k] == if cs[k].id == id then ApplyPatch(cs[k], patch) else cs[k]
  {
    seq(|cs|, k requires 0 <= k < |cs| => if cs[k].id == id then ApplyPatch(cs[k], patch) else cs[k])
  }

  /** No two rows share a key. */
  ghost predicate DistinctIds(s: seq<CourseRow>) {
    forall i, j :: 0 <= i < j < |s| ==> s[i].id != s[j].id
  }

  lemma {:induction false} FilterKeepsDistinct(p: CourseRow -> bool, s: seq<CourseRow>)
    requires DistinctIds(s)
    ensures DistinctIds(Filter(p, s))
    decreases |s|
  {
    if s != [] {
      FilterKeepsDistinct(p, s[1..]);
      var rest := Filter(p, s[1..]);
      forall x | x in rest ensures x.id != s[0].id {
        var k :| 0 <= k < |s[1..]| && s[1..][k] == x;
        assert s[k + 1] == x;
      }
    }
  }

  /** The key column of a course table. */
  function IdsOf(cs: seq<CourseRow>): set<int> {
    set c | c in cs :: c.id
  }

  /** Patching keeps every row's id and creator. */
  lemma PatchKeepsKeys(cs: seq<CourseRow>, id: int, patch: CoursePatch)
    ensures IdsOf(PatchWhereId(cs, id, patch)) == IdsOf(cs)
    ensures forall k :: 0 <= k < |cs| ==>
      PatchWhereId(cs, id, patch)[k].id == cs[k].id &&
      PatchWhereId(cs, id, patch)[k].createdBy == cs[k].createdBy
    ensures DistinctIds(cs) ==> DistinctIds(PatchWhereId(cs, id, patch))
  {
    var r := PatchWhereId(cs, id, patch);
    assert forall k :: 0 <= k < |cs| ==> r[k].id == cs[k].id && r[k].createdBy == cs[k].createdBy;
    forall x | x in IdsOf(cs) ensures x in IdsOf(r) {
      var c :| c in cs && c.id == x;
      var k :| 0 <= k < |cs| && cs[k] == c;
      assert r[k] in r;
    }
    forall x | x in IdsOf(r) ensures x in IdsOf(cs) {
      var c :| c in r && c.id == x;
      var k :| 0 <= k < |r| && r[k] == c;
      assert cs[k] in cs;
    }
  }

  // Per-table integrity: generated ids below the serial, references to existing rows.

  ghost predicate CoursesRefer(cs: seq<CourseRow>, userIds: set<string>, nextId: int) {
    forall c :: c in cs ==> c.id < nextId && c.createdBy in userIds
  }

  ghost predicate MappingsRefer(ms: seq<CourseCategory>, courseIds: set<int>, categoryIds: set<int>, nextId: int) {
    forall m :: m in ms ==> m.id < nextId && m.courseId in courseIds && m.categoryId in categoryIds
  }

  ghost predicate EnrollmentsRefer(es: seq<Enrollment>, userIds: set<string>, courseIds: set<int>, nextId: int) {
    forall e :: e in es ==> e.id < nextId && e.userId in userIds && e.courseId in courseIds
  }

  ghost predicate PaymentsRefer(ps: seq<Payment>, userIds: set<string>, courseIds: set<int>, nextId: int) {
    forall p :: p in ps ==> p.id < nextId && p.userId in userIds && p.courseId in courseIds
  }

  /** Under unique ids, exactly one row carries an id that occurs. */
  lemma {:induction false} DistinctIdMatchesOnce(s: seq<CourseRow>, id: int)
    requires DistinctIds(s)
    requires exists c :: c in s && c.id == id
    ensures |Filter((c: CourseRow) => c.id == id, s)| == 1
    decreases |s|
  {
    var p := (c: CourseRow) => c.id == id;
    if s[0].id == id {
      FilterNone(p, s[1..]);
    } else {
      var c :| c in s && c.id == id;
      assert c in s[1..];
      DistinctIdMatchesOnce(s[1..], id);
    }
  }

  class Store {
    var users: seq<UserRow>
    var courses: seq<CourseRow>
    var categories: seq<Category>
    var courseCategories: seq<CourseCategory>
    var enrollments: seq<Enrollment>
    var payments: seq<Payment>
    /** The next generated id. */
    var nextId: int

    function UserIds(): set<string>
      reads this
    {
      set u | u in users :: u.id
    }

    function CourseIds(): set<int>
      reads this
    {
      IdsOf(courses)
    }

    function CategoryIds(): set<int>
      reads this
    {
      set c | c in categories :: c.id
    }

    /** Generated ids lie below the serial, course ids are unique, and every
        reference names an existing row. */
    ghost predicate Valid()
      reads this
    {
      && DistinctIds(courses)
      && CoursesRefer(courses, UserIds(), nextId)
      && MappingsRefer(courseCategories, CourseIds(), CategoryIds(), nextId)
      && EnrollmentsRefer(enrollments, UserIds(), CourseIds(), nextId)
      && PaymentsRefer(payments, UserIds(), CourseIds(), nextId)
    }

    /** Whether any child row still references the course. */
    predicate Referenced(courseId: int)
      reads this
    {
      || (exists m :: m in courseCategories && m.courseId == courseId)
      || (exists e :: e in enrollments && e.courseId == courseId)
      || (exists p :: p in payments && p.courseId == courseId)
    }

    // ---- reads ----------------------------------------------------------

    /** `from('course_categories').select('course_id').eq('category_id', c)`:
        the course ids of the category's mapping rows, in table order. */
    function MappedCourseIds(categoryId: int): (ids: seq<int>)
      reads this
      ensures forall id :: id in ids <==>
        exists m :: m in courseCategories && m.categoryId == categoryId && m.courseId == id
    {
      var rows := Filter((m: CourseCategory) => m.categoryId == categoryId, courseCategories);
      var ids := seq(|rows|, i requires 0 <= i < |rows| => rows[i].courseId);
      forall m | m in rows ensures m.courseId in ids {
        var k :| 0 <= k < |rows| && rows[k] == m;
        assert ids[k] == m.courseId;
      }
      forall id | id in ids
        ensures exists m :: m in courseCategories && m.categoryId == categoryId && m.courseId == id
      {
        var k :| 0 <= k < |ids| && ids[k] == id;
        assert rows[k] in rows;
      }
      ids
    }

    function SelectMappedCourseIds(categoryId: int, fail: bool): (r: Option<seq<int>>)
      reads this
      ensures r == if fail then None else Some(MappedCourseIds(categoryId))
      ensures r.Some? <==> !fail
      ensures r.Some? ==> forall id :: id in r.value <==>
        exists m :: m in courseCategories && m.categoryId == categoryId && m.courseId == id
    {
      if fail then None else Some(MappedCourseIds(categoryId))
    }

    /** The courses an optional `.in('id', ids)` keeps. */
    function CoursesAmong(ids: Option<seq<int>>): (rows: seq<CourseRow>)
      reads this
      ensures forall c :: c in rows <==> c in courses && (ids.Some? ==> c.id in ids.value)
    {
      Filter((c: CourseRow) => ids.None? || c.id in ids.value, courses)
    }

    /** `from('courses').select('*, users:created_by (name)')`, optionally
        `.in('id', ids)`, then `.order('created_at', { ascending: false })`. */
    function SelectCourses(ids: Option<seq<int>>, fail: bool): (r: Option<seq<JoinedCourse>>)
      reads this
      ensures r.Some? <==> !fail
      ensures r.Some? ==> multiset(RowsOf(r.value)) == multiset(CoursesAmong(ids))
      ensures r.Some? ==> forall i, j :: 0 <= i < j < |r.value| ==>
        r.value[i].row.createdAt >= r.value[j].row.createdAt
      ensures r.Some? ==> forall k :: 0 <= k < |r.value| ==>
        r.value[k].creatorName == CreatorName(users, r.value[k].row.createdBy)
    {
      if fail then None
      else
        var ordered := SortBy(NewerOrSame, CoursesAmong(ids));
        var us := users;
        var joined := seq(|ordered|, i requires 0 <= i < |ordered| =>
          JoinedCourse(ordered[i], CreatorName(us, ordered[i].createdBy)));
        assert RowsOf(joined) == ordered;
        forall i, j | 0 <= i < j < |joined|
          ensures joined[i].row.createdAt >= joined[j].row.createdAt
        {
          SortedPairwise(NewerOrSame, ordered, i, j);
        }
        Some(joined)
    }

    /** `.eq('id', id).single()`: succeeds only when exactly one row matches. */
    function SelectCourseById(id: int, fail: bool): (r: Option<JoinedCourse>)
      reads this
      ensures r.Some? <==> !fail && |Filter((c: CourseRow) => c.id == id, courses)| == 1
      ensures r.Some? ==> r.value.row in courses && r.value.row.id == id
      ensures r.Some? ==> r.value.creatorName == CreatorName(users, r.value.row.createdBy)
    {
      var rows := Filter((c: CourseRow) => c.id == id, courses);
      if fail || |rows| != 1 then None
      else
        assert rows[0] in rows;
        Some(JoinedCourse(rows[0], CreatorName(users, rows[0].createdBy)))
    }

    /** `from('course_categories').select('categories:category_id(*)').eq('course_id', id)`:
        one entry per mapping row of the course, the embedded category or null.
        The query has no `order(...)`; table order is a choice of the model. */
    function SelectCategoriesOfCourse(courseId: int, fail: bool): (r: Option<seq<Option<Category>>>)
      reads this
      ensures r.Some? <==> !fail
      ensures r.Some? ==>
        var rows := MappingsOf(courseCategories, courseId);
        |r.value| == |rows| &&
        forall k :: 0 <= k < |rows| ==> r.value[k] == CategoryById(categories, rows[k].categoryId)
    {
      if fail then None
      else
        var rows := MappingsOf(courseCategories, courseId);
        var cats := categories;
        Some(seq(|rows|, k requires 0 <= k < |rows| => CategoryById(cats, rows[k].categoryId)))
    }

    /** `from('categories').select('*').order('name')`. */
    function SelectCategoriesByName(fail: bool): (r: Option<seq<Category>>)
      reads this
      ensures r.Some? <==> !fail
      ensures r.Some? ==> multiset(r.value) == multiset(categories)
      ensures r.Some? ==> forall i, j :: 0 <= i < j < |r.value| ==>
        LexLe(r.value[i].name, r.value[j].name)
    {
      if fail then None
      else
        forall a: Category, b: Category ensures NameBefore(a, b) || NameBefore(b, a) {
          LexLeTotal(a.name, b.name);
        }
        var sorted := SortBy(NameBefore, categories);
        forall a: Category, b: Category, c: Category | NameBefore(a, b) && NameBefore(b, c)
          ensures NameBefore(a, c)
        {
          LexLeTransitive(a.name, b.name, c.name);
        }
        forall i, j | 0 <= i < j < |sorted| ensures LexLe(sorted[i].name, sorted[j].name) {
          SortedPairwise(NameBefore, sorted, i, j);
        }
        Some(sorted)
    }

    /** The enrollment rows of one user and course, in table order. */
    function EnrollmentsOf(userId: string, courseId: int): (rows: seq<Enrollment>)
      reads this
      ensures forall e :: e in rows <==> e in enrollments && e.userId == userId && e.courseId == courseId
    {
      PairEnrollments(enrollments, userId, courseId)
    }

    /** `from('enrollments').select('id').eq('user_id', u).eq('course_id', c).single()`. */
    function SelectEnrollmentId(userId: string, courseId: int, fail: bool): (r: Option<int>)
      reads this
      ensures r.Some? <==> !fail && |EnrollmentsOf(userId, courseId)| == 1
      ensures r.Some? ==> (exists e :: e in enrollments && e.id == r.value &&
                                       e.userId == userId && e.courseId == courseId)
    {
      var rows := EnrollmentsOf(userId, courseId);
      if fail || |rows| != 1 then None
      else
        assert rows[0] in rows;
        Some(rows[0].id)
    }

    // ---- writes ---------------------------------------------------------

    /** `from('courses').insert(courseData).select('id').single()`. */
    method InsertCourse(d: CourseDraft, fail: bool) returns (id: Option<int>)
      requires Valid()
      modifies this
      ensures Valid()
      ensures id.Some? <==> !fail && d.createdBy in old(UserIds())
      ensures id.Some? ==> id.value == old(nextId) && id.value !in old(CourseIds())
      ensures courses == if id.Some? then
        old(courses) + [CourseRow(old(nextId), d.title, d.description, d.price, d.imageUrl, d.createdBy, d.createdAt)]
        else old(courses)
      ensures nextId == if id.Some? then old(nextId) + 1 else old(nextId)
      ensures users == old(users) && categories == old(categories)
      ensures courseCategories == old(courseCategories)
      ensures enrollments == old(enrollments) && payments == old(payments)
    {
      if fail || d.createdBy !in UserIds() {
        id := None;
        return;
      }
      var row := CourseRow(nextId, d.title, d.description, d.price, d.imageUrl, d.createdBy, d.createdAt);
      courses := courses + [row];
      id := Some(nextId);
      nextId := nextId + 1;
      assert CourseIds() == old(CourseIds()) + {row.id};
    }

    /** `from('course_categories').insert(rows)`: one statement, all rows or none. */
    method InsertMappings(drafts: seq<MappingDraft>, fail: bool) returns (ok: bool)
      requires Valid()
      modifies this
      ensures Valid()
      ensures ok <==> !fail && forall d :: d in drafts ==>
        d.courseId in old(CourseIds()) && d.categoryId in old(CategoryIds())
      ensures courseCategories == if ok then old(courseCategories) + MappingRows(old(nextId), drafts)
        else old(courseCategories)
      ensures nextId == if ok then old(nextId) + |drafts| else old(nextId)
      ensures users == old(users) && courses == old(courses) && categories == old(categories)
      ensures enrollments == old(enrollments) && payments == old(payments)
    {
      ok := !fail && forall d :: d in drafts ==> d.courseId in CourseIds() && d.categoryId in CategoryIds();
      if ok {
        var rows := MappingRows(nextId, drafts);
        forall m | m in rows
          ensures m.id < nextId + |drafts| && m.courseId in CourseIds() && m.categoryId in CategoryIds()
        {
          var k :| 0 <= k < |rows| && rows[k] == m;
          assert drafts[k] in drafts;
        }
        courseCategories := courseCategories + rows;
        nextId := nextId + |drafts|;
      }
    }

    /** `from('courses').update(patch).eq('id', id)`: matching no row is not an error. */
    method UpdateCoursesWhereId(id: int, patch: CoursePatch, fail: bool) returns (ok: bool)
      requires Valid()
      modifies this
      ensures Valid()
      ensures ok == !fail
      ensures courses == if ok then PatchWhereId(old(courses), id, patch) else old(courses)
      ensures CourseIds() == old(CourseIds())
      ensures nextId == old(nextId) && users == old(users) && categories == old(categories)
      ensures courseCategories == old(courseCategories)
      ensures enrollments == old(enrollments) && payments == old(payments)
    {
      ok := !fail;
      if ok {
        PatchKeepsKeys(courses, id, patch);
        var before := courses;
        courses := PatchWhereId(courses, id, patch);
        forall c | c in courses ensures c.id < nextId && c.createdBy in UserIds() {
          var k :| 0 <= k < |courses| && courses[k] == c;
          assert before[k] in before;
        }
      }
    }

    /** `from('course_categories').delete().eq('course_id', id)`. */
    method DeleteMappingsOfCourse(courseId: int, fail: bool) returns (ok: bool)
      requires Valid()
      modifies this
      ensures Valid()
      ensures ok == !fail
      ensures courseCategories == if ok then MappingsNotOf(old(courseCategories), courseId)
        else old(courseCategories)
      ensures nextId == old(nextId) && users == old(users) && courses == old(courses)
      ensures categories == old(categories)
      ensures enrollments == old(enrollments) && payments == old(payments)
    {
      ok := !fail;
      if ok {
        courseCategories := MappingsNotOf(courseCategories, courseId);
      }
    }

    /** `from('enrollments').delete().eq('course_id', id)`. */
    method DeleteEnrollmentsOfCourse(courseId: int, fail: bool) returns (ok: bool)
      requires Valid()
      modifies this
      ensures Valid()
      ensures ok == !fail
      ensures enrollments == if ok then EnrollmentsNotOf(old(enrollments), courseId) else old(enrollments)
      ensures nextId == old(nextId) && users == old(users) && courses == old(courses)
      ensures categories == old(categories) && courseCategories == old(courseCategories)
      ensures payments == old(payments)
    {
      ok := !fail;
      if ok {
        enrollments := EnrollmentsNotOf(enrollments, courseId);
      }
    }

    /** `from('payments').delete().eq('course_id', id)`. */
    method DeletePaymentsOfCourse(courseId: int, fail: bool) returns (ok: bool)
      requires Valid()
      modifies this
      ensures Valid()
      ensures ok == !fail
      ensures payments == if ok then PaymentsNotOf(old(payments), courseId) else old(payments)
      ensures nextId == old(nextId) && users == old(users) && courses == old(courses)
      ensures categories == old(categories) && courseCategories == old(courseCategories)
      ensures enrollments == old(enrollments)
    {
      ok := !fail;
      if ok {
        payments := PaymentsNotOf(payments, courseId);
      }
    }

    /** `from('courses').delete().eq('id', id)`: the foreign keys reject it
        while any mapping, enrollment or payment still references the course. */
    method DeleteCoursesWhereId(id: int, fail: bool) returns (ok: bool)
      requires Valid()
      modifies this
      ensures Valid()
      ensures ok <==> !fail && !old(Referenced(id))
      ensures courses == if ok then CoursesNotWithId(old(courses), id) else old(courses)
      ensures nextId == old(nextId) && users == old(users) && categories == old(categories)
      ensures courseCategories == old(courseCategories)
      ensures enrollments == old(enrollments) && payments == old(payments)
    {
      ok := !fail && !Referenced(id);
      if ok {
        FilterKeepsDistinct((c: CourseRow) => c.id != id, courses);
        courses := CoursesNotWithId(courses, id);
        assert CourseIds() == old(CourseIds()) - {id};
      }
    }

    /** `from('enrollments').insert({ user_id, course_id, enrolled_at })`. */
    method InsertEnrollment(userId: string, courseId: int, at: nat, fail: bool) returns (ok: bool)
      requires Valid()
      modifies this
      ensures Valid()
      ensures ok <==> !fail && userId in old(UserIds()) && courseId in old(CourseIds())
      ensures enrollments == if ok then old(enrollments) + [Enrollment(old(nextId), userId, courseId, at)]
        else old(enrollments)
      ensures nextId == if ok then old(nextId) + 1 else old(nextId)
      ensures users == old(users) && courses == old(courses) && categories == old(categories)
      ensures courseCategories == old(courseCategories) && payments == old(payments)
    {
      ok := !fail && userId in UserIds() && courseId in CourseIds();
      if ok {
        enrollments := enrollments + [Enrollment(nextId, userId, courseId, at)];
        nextId := nextId + 1;
      }
    }

    /** `from('payments').insert({ user_id, course_id, amount, payment_status, payment_date })`. */
    method InsertPayment(userId: string, courseId: int, amount: int, status: string, at: nat, fail: bool)
      returns (ok: bool)
      requires Valid()
      modifies this
      ensures Valid()
      ensures ok <==> !fail && userId in old(UserIds()) && courseId in old(CourseIds())
      ensures payments == if ok then old(payments) + [Payment(old(nextId), userId, courseId, amount, status, at)]
        else old(payments)
      ensures nextId == if ok then old(nextId) + 1 else old(nextId)
      ensures users == old(users) && courses == old(courses) && categories == old(categories)
      ensures courseCategories == old(courseCategories) && enrollments == old(enrollments)
    {
      ok := !fail && userId in UserIds() && courseId in CourseIds();
      if ok {
        payments := payments + [Payment(nextId, userId, courseId, amount, status, at)];
        nextId := nextId + 1;
      }
    }
  }
}
