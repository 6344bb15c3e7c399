/** The catalogue service: course listing (optionally by category), single
    course lookup, a course's categories, the category list, and the admin
    and enrollment writes, each a sequence of store calls. Every store call
    takes a flag standing for a returned `error`: where the source checks the
    error the flag ends the operation, where it ignores it the call only
    changes nothing. Thrown exceptions are not modelled separately. */
module CourseService {
  import opened Basics
  import opened Records
  import opened Ordering
  import opened TableStore

  const UnknownAuthor: string := "Unknown"

  /** `users?.name || 'Unknown'`: a missing creator and an empty name both fall back. */
  function AuthorName(creator: Option<string>): (name: string)
    ensures name != ""
    ensures creator.Some? && creator.value != "" ==> name == creator.value
    ensures creator.None? || creator.value == "" ==> name == UnknownAuthor
  {
    if creator.Some? && creator.value != "" then creator.value else UnknownAuthor
  }

  /** `data.map(course => ({ ...course, author_name: ... }))`. */
  function Views(js: seq<JoinedCourse>): (vs: seq<CourseView>)
    ensures |vs| == |js|
    ensures forall i :: 0 <= i < |js| ==> vs[i] == CourseView(js[i].row, AuthorName(js[i].creatorName))
  {
    seq(|js|, i requires 0 <= i < |js| => CourseView(js[i].row, AuthorName(js[i].creatorName)))
  }

  function CoursesOf(vs: seq<CourseView>): (rows: seq<CourseRow>)
    ensures |rows| == |vs| && forall i :: 0 <= i < |vs| ==> rows[i] == vs[i].course
  {
    seq(|vs|, i requires 0 <= i < |vs| => vs[i].course)
  }

  /** The id filter `fetchCourses` applies: none without a category, else the mapped ids. */
  function CategoryScope(store: Store, categoryId: JsNumber): Option<seq<int>>
    reads store
  {
    if Truthy(categoryId) then Some(store.MappedCourseIds(categoryId.n)) else None
  }

  /** The course query of `fetchCourses` (lines 29-40): `[]` on failure, else
      the selected courses newest first, each with its author name. */
  function QueryCourses(store: Store, scope: Option<seq<int>>, fail: bool): (r: seq<CourseView>)
    reads store
    ensures fail ==> r == []
    ensures !fail ==> multiset(CoursesOf(r)) == multiset(store.CoursesAmong(scope))
    ensures forall k :: 0 <= k < |r| ==> r[k].course in store.CoursesAmong(scope)
    ensures forall i, j :: 0 <= i < j < |r| ==> r[i].course.createdAt >= r[j].course.createdAt
    ensures forall k :: 0 <= k < |r| ==>
      (r[k].authorName != "" && r[k].authorName == AuthorName(CreatorName(store.users, r[k].course.createdBy)))
  {
    match store.SelectCourses(scope, fail)
    case None => []
    case Some(js) =>
      var r := Views(js);
      ViewsKeepRows(js);
      r
  }

  lemma ViewsKeepRows(js: seq<JoinedCourse>)
    ensures CoursesOf(Views(js)) == RowsOf(js)
    ensures forall k :: 0 <= k < |js| ==> Views(js)[k].course in multiset(RowsOf(js))
  {
    var rows := RowsOf(js);
    assert CoursesOf(Views(js)) == rows;
    forall k | 0 <= k < |js| ensures Views(js)[k].course in multiset(rows) {
      assert rows[k] in rows;
    }
  }

  /** `fetchCourses(categoryId?)`. A truthy category first looks up the mapped
      course ids; a failed lookup or no mapped ids returns `[]` before the
      course query. Any failure of the course query returns `[]`. */
  function FetchCourses(store: Store, categoryId: JsNumber, mapFail: bool, courseFail: bool)
    : (r: seq<CourseView>)
    reads store
    ensures courseFail ==> r == []
    ensures Truthy(categoryId) && (mapFail || store.MappedCourseIds(categoryId.n) == []) ==> r == []
    ensures Truthy(categoryId) ==> forall k :: 0 <= k < |r| ==> r[k].course.id in store.MappedCourseIds(categoryId.n)
    ensures forall i, j :: 0 <= i < j < |r| ==> r[i].course.createdAt >= r[j].course.createdAt
    ensures forall k :: 0 <= k < |r| ==>
      (r[k].course in store.courses && r[k].authorName != "" &&
       r[k].authorName == AuthorName(CreatorName(store.users, r[k].course.createdBy)))
    ensures !courseFail && (Truthy(categoryId) ==> !mapFail && store.MappedCourseIds(categoryId.n) != []) ==>
      multiset(CoursesOf(r)) == multiset(store.CoursesAmong(CategoryScope(store, categoryId)))
  {
    if Truthy(categoryId) then
      match store.SelectMappedCourseIds(categoryId.n, mapFail)
      case None => []
      case Some(ids) =>
        if |ids| == 0 then [] else QueryCourses(store, Some(ids), courseFail)
    else
      QueryCourses(store, None, courseFail)
  }

  /** `fetchCourseById(id)`: `single()` fails unless exactly one course has the id. */
  function FetchCourseById(store: Store, id: int, fail: bool): (r: Option<CourseView>)
    reads store
    ensures r.Some? <==> !fail && |Filter((c: CourseRow) => c.id == id, store.courses)| == 1
    ensures r.Some? ==> r.value.course in store.courses && r.value.course.id == id
    ensures r.Some? ==>
      (r.value.authorName != "" && r.value.authorName == AuthorName(CreatorName(store.users, r.value.course.createdBy)))
  {
    match store.SelectCourseById(id, fail)
    case None => None
    case Some(j) => Some(CourseView(j.row, AuthorName(j.creatorName)))
  }

  /** With unique course ids, an existing course is always found when the store answers. */
  lemma FetchCourseByIdFindsExisting(store: Store, id: int)
    requires store.Valid()
    requires id in store.CourseIds()
    ensures FetchCourseById(store, id, false).Some?
    ensures FetchCourseById(store, id, false).value.course.id == id
  {
    DistinctIdMatchesOnce(store.courses, id);
  }

  /** `fetchCourseCategories(courseId)`: the embedded category of each of the
      course's mapping rows (null where none exists); `[]` on failure. */
  function FetchCourseCategories(store: Store, courseId: int, fail: bool): (r: seq<Option<Category>>)
    reads store
    ensures fail ==> r == []
    ensures !fail ==> |r| == |MappingsOf(store.courseCategories, courseId)|
    ensures !fail ==> forall k :: 0 <= k < |r| ==>
      r[k] == CategoryById(store.categories, MappingsOf(store.courseCategories, courseId)[k].categoryId)
    ensures forall k :: 0 <= k < |r| && r[k].Some? ==>
      r[k].value in store.categories &&
      exists m :: m in store.courseCategories && m.courseId == courseId && m.categoryId == r[k].value.id
  {
    match store.SelectCategoriesOfCourse(courseId, fail)
    case None => []
    case Some(cats) =>
      var rows := MappingsOf(store.courseCategories, courseId);
      assert forall k :: 0 <= k < |rows| ==> rows[k] in rows;
      cats
  }

  /** The foreign key on `category_id` means no embedded category is null. */
  lemma {:induction false} CourseCategoriesAllPresent(store: Store, courseId: int)
    requires store.Valid()
    ensures forall k :: 0 <= k < |FetchCourseCategories(store, courseId, false)| ==>
      FetchCourseCategories(store, courseId, false)[k].Some?
  {
    var rows := MappingsOf(store.courseCategories, courseId);
    var r := FetchCourseCategories(store, courseId, false);
    forall k | 0 <= k < |r| ensures r[k].Some? {
      assert rows[k] in rows;
      assert rows[k].categoryId in store.CategoryIds();
      var c :| c in store.categories && c.id == rows[k].categoryId;
      var i :| 0 <= i < |store.categories| && store.categories[i] == c;
    }
  }

  /** `fetchCategories()`: every category, ordered by name; `[]` on failure. */
  function FetchCategories(store: Store, fail: bool): (r: seq<Category>)
    reads store
    ensures fail ==> r == []
    ensures !fail ==> multiset(r) == multiset(store.categories)
    ensures forall i, j :: 0 <= i < j < |r| ==> LexLe(r[i].name, r[j].name)
  {
    match store.SelectCategoriesByName(fail)
    case None => []
    case Some(cs) => cs
  }

  /** `checkEnrollment(userId, courseId)` as written: `single()` makes it true
      only when exactly one enrollment row matches; any error gives false. */
  function CheckEnrollment(store: Store, userId: string, courseId: int, fail: bool): (r: bool)
    reads store
    ensures r <==> !fail && |store.EnrollmentsOf(userId, courseId)| == 1
    ensures r ==> exists e :: e in store.enrollments && e.userId == userId && e.courseId == courseId
  {
    store.SelectEnrollmentId(userId, courseId, fail).Some?
  }

  /** The existence check `checkEnrollment` is meant to be: true when at least
      one enrollment row of the pair exists, false on any error. */
  function IsEnrolled(store: Store, userId: string, courseId: int, fail: bool): (r: bool)
    reads store
    ensures r <==> !fail && exists e :: e in store.enrollments && e.userId == userId && e.courseId == courseId
  {
    var rows := store.EnrollmentsOf(userId, courseId);
    if !fail && rows != [] then
      assert rows[0] in rows;
      true
    else false
  }

  /** Once a pair has two enrollment rows (nothing stops a second
      `enrollInCourse`), `checkEnrollment` reports the user as not enrolled. */
  lemma DuplicateEnrollmentHidden(store: Store, userId: string, courseId: int)
    requires |store.EnrollmentsOf(userId, courseId)| >= 2
    ensures !CheckEnrollment(store, userId, courseId, false)
    ensures IsEnrolled(store, userId, courseId, false)
  {
    assert store.EnrollmentsOf(userId, courseId)[0] in store.EnrollmentsOf(userId, courseId);
  }

  /** The two checks agree whenever at most one row matches. */
  lemma {:induction false} CheckAgreesWithoutDuplicates(store: Store, userId: string, courseId: int, fail: bool)
    requires |store.EnrollmentsOf(userId, courseId)| <= 1
    ensures CheckEnrollment(store, userId, courseId, fail) == IsEnrolled(store, userId, courseId, fail)
  {
    var rows := store.EnrollmentsOf(userId, courseId);
    if |rows| == 1 {
      assert rows[0] in rows;
    }
  }

  /** The mapping objects `categoryIds.map(categoryId => ({ course_id, category_id }))`. */
  function MappingDrafts(courseId: int, categoryIds: seq<int>): (ds: seq<MappingDraft>)
    ensures |ds| == |categoryIds|
    ensures forall k :: 0 <= k < |ds| ==> ds[k] == MappingDraft(courseId, categoryIds[k])
  {
    seq(|categoryIds|, k requires 0 <= k < |categoryIds| => MappingDraft(courseId, categoryIds[k]))
  }

  /** The category column of some mapping rows, in order. */
  function CategoryColumn(ms: seq<CourseCategory>): (ids: seq<int>)
    ensures |ids| == |ms| && forall k :: 0 <= k < |ms| ==> ids[k] == ms[k].categoryId
  {
    seq(|ms|, k requires 0 <= k < |ms| => ms[k].categoryId)
  }

  /** Whether the store accepts the bulk mapping insert for `categoryIds`. */
  predicate MappingsAccepted(store: Store, courseId: int, categoryIds: seq<int>, fail: bool)
    reads store
  {
    !fail && courseId in store.CourseIds() && forall c :: c in categoryIds ==> c in store.CategoryIds()
  }

  /** A table with no row of the course has no mapping rows of it. */
  lemma MappingsOfAbsent(ms: seq<CourseCategory>, courseId: int)
    requires forall m :: m in ms ==> m.courseId != courseId
    ensures MappingsOf(ms, courseId) == []
  {
    forall k | 0 <= k < |ms| ensures ms[k].courseId != courseId {
      assert ms[k] in ms;
    }
    FilterNone((m: CourseCategory) => m.courseId == courseId, ms);
  }

  /** Rows that all belong to the course are all its mapping rows. */
  lemma MappingsOfOwn(ms: seq<CourseCategory>, courseId: int)
    requires forall m :: m in ms ==> m.courseId == courseId
    ensures MappingsOf(ms, courseId) == ms
  {
    forall k | 0 <= k < |ms| ensures ms[k].courseId == courseId {
      assert ms[k] in ms;
    }
    FilterAll((m: CourseCategory) => m.courseId == courseId, ms);
  }

  /** The rows inserted for one course belong to it and carry `categoryIds` in order. */
  lemma NewRowsOfCourse(firstId: int, courseId: int, categoryIds: seq<int>)
    ensures forall m :: m in MappingRows(firstId, MappingDrafts(courseId, categoryIds)) ==> m.courseId == courseId
    ensures CategoryColumn(MappingRows(firstId, MappingDrafts(courseId, categoryIds))) == categoryIds
  {
    var rows := MappingRows(firstId, MappingDrafts(courseId, categoryIds));
    forall m | m in rows ensures m.courseId == courseId {
      var k :| 0 <= k < |rows| && rows[k] == m;
    }
  }

  /** Appending rows of the course to a table without any gives exactly those rows. */
  lemma MappingsOfAppendOwn(before: seq<CourseCategory>, added: seq<CourseCategory>, courseId: int)
    requires forall m :: m in before ==> m.courseId != courseId
    requires forall m :: m in added ==> m.courseId == courseId
    ensures MappingsOf(before + added, courseId) == added
  {
    FilterAppend((m: CourseCategory) => m.courseId == courseId, before, added);
    MappingsOfAbsent(before, courseId);
    MappingsOfOwn(added, courseId);
    assert [] + added == added;
  }

  /** Fresh mapping rows for one course are exactly that course's rows after the insert. */
  lemma {:induction false} NewMappingsOfCourse(before: seq<CourseCategory>, firstId: int, courseId: int, categoryIds: seq<int>)
    requires forall m :: m in before ==> m.courseId != courseId
    ensures CategoryColumn(MappingsOf(before + MappingRows(firstId, MappingDrafts(courseId, categoryIds)), courseId))
      == categoryIds
  {
    NewRowsOfCourse(firstId, courseId, categoryIds);
    MappingsOfAppendOwn(before, MappingRows(firstId, MappingDrafts(courseId, categoryIds)), courseId);
  }

  /** Appending rows of one course leaves every other course's mapping rows alone. */
  lemma OtherMappingsUnchanged(before: seq<CourseCategory>, added: seq<CourseCategory>, courseId: int)
    requires forall m :: m in added ==> m.courseId == courseId
    ensures forall c :: c != courseId ==> MappingsOf(before + added, c) == MappingsOf(before, c)
  {
    forall c | c != courseId ensures MappingsOf(before + added, c) == MappingsOf(before, c) {
      var p := (m: CourseCategory) => m.courseId == c;
      FilterAppend(p, before, added);
      forall k | 0 <= k < |added| ensures !p(added[k]) {
        assert added[k] in added;
      }
      FilterNone(p, added);
    }
  }

  /** The mapping half of `createCourse` (lines 129-142), for a course that has
      no mapping rows yet: one bulk insert when `categoryIds` is non-empty;
      a rejected insert is only logged. */
  method AddMappings(store: Store, courseId: int, categoryIds: seq<int>, mapFail: bool)
    requires store.Valid()
    requires courseId in store.CourseIds()
    requires forall m :: m in store.courseCategories ==> m.courseId != courseId
    modifies store
    ensures store.Valid()
    ensures CategoryColumn(MappingsOf(store.courseCategories, courseId)) ==
      if |categoryIds| > 0 && MappingsAccepted(store, courseId, categoryIds, mapFail) then categoryIds else []
    ensures forall c :: c != courseId ==>
      MappingsOf(store.courseCategories, c) == MappingsOf(old(store.courseCategories), c)
    ensures store.users == old(store.users) && store.courses == old(store.courses)
    ensures store.categories == old(store.categories)
    ensures store.enrollments == old(store.enrollments) && store.payments == old(store.payments)
  {
    var before := store.courseCategories;
    MappingsOfAbsent(before, courseId);
    if |categoryIds| == 0 {
      return;
    }
    var accepted := MappingsAccepted(store, courseId, categoryIds, mapFail);
    var drafts := MappingDrafts(courseId, categoryIds);
    var firstId := store.nextId;
    var mapOk := store.InsertMappings(drafts, mapFail);
    assert mapOk == accepted by {
      if mapOk {
        forall c | c in categoryIds ensures c in store.CategoryIds() {
          var k :| 0 <= k < |categoryIds| && categoryIds[k] == c;
          assert drafts[k] in drafts;
        }
      }
    }
    if mapOk {
      NewMappingsOfCourse(before, firstId, courseId, categoryIds);
      NewRowsOfCourse(firstId, courseId, categoryIds);
      OtherMappingsUnchanged(before, MappingRows(firstId, drafts), courseId);
    }
  }

  /** `createCourse(courseData, categoryIds)`: insert the course; on success
      insert one mapping row per category id (skipped for `[]`), and return the
      new id whether or not the mapping insert was accepted. */
  method CreateCourse(store: Store, draft: CourseDraft, categoryIds: seq<int>, fail: bool, mapFail: bool)
    returns (id: Option<int>)
    requires store.Valid()
    modifies store
    ensures store.Valid()
    ensures id.None? <==> fail || draft.createdBy !in old(store.UserIds())
    ensures id.None? ==>
      (store.courses == old(store.courses) && store.courseCategories == old(store.courseCategories))
    ensures id.Some? ==>
      (id.value !in old(store.CourseIds()) && store.courses == old(store.courses) +
       [CourseRow(id.value, draft.title, draft.description, draft.price, draft.imageUrl, draft.createdBy, draft.createdAt)])
    ensures id.Some? ==>
      (CategoryColumn(MappingsOf(store.courseCategories, id.value)) ==
       if |categoryIds| > 0 && MappingsAccepted(store, id.value, categoryIds, mapFail) then categoryIds else [])
    ensures forall c :: (id.None? || c != id.value) ==>
      MappingsOf(store.courseCategories, c) == MappingsOf(old(store.courseCategories), c)
    ensures store.users == old(store.users) && store.categories == old(store.categories)
    ensures store.enrollments == old(store.enrollments) && store.payments == old(store.payments)
  {
    id := store.InsertCourse(draft, fail);
    if id.None? {
      return;
    }
    assert forall m :: m in store.courseCategories ==> m.courseId != id.value;
    AddMappings(store, id.value, categoryIds, mapFail);
  }

  /** Deleting a course's mapping rows leaves every other course's rows alone. */
  lemma {:induction false} OtherMappingsSurviveDelete(ms: seq<CourseCategory>, courseId: int)
    ensures forall c :: c != courseId ==> MappingsOf(MappingsNotOf(ms, courseId), c) == MappingsOf(ms, c)
    ensures MappingsOf(MappingsNotOf(ms, courseId), courseId) == []
  {
    forall c | c != courseId ensures MappingsOf(MappingsNotOf(ms, courseId), c) == MappingsOf(ms, c) {
      FilterOfFilter((m: CourseCategory) => m.courseId == c, (m: CourseCategory) => m.courseId != courseId, ms);
    }
    var rest := MappingsNotOf(ms, courseId);
    forall k | 0 <= k < |rest| ensures rest[k].courseId != courseId {
      assert rest[k] in rest;
    }
    FilterNone((m: CourseCategory) => m.courseId == courseId, rest);
  }

  /** The mapping table after `updateCourse`'s delete-then-insert, given which
      of the two store calls took effect. */
  function Remapped(ms: seq<CourseCategory>, courseId: int, deleted: bool, added: seq<CourseCategory>)
    : seq<CourseCategory>
  {
    (if deleted then MappingsNotOf(ms, courseId) else ms) + added
  }

  /** The category half of `updateCourse` (lines 169-192): delete the course's
      mappings, ignoring any error, then insert `categoryIds` when non-empty;
      only a failed insert is reported. */
  method Remap(store: Store, courseId: int, categoryIds: seq<int>, deleteFail: bool, mapFail: bool)
    returns (ok: bool)
    requires store.Valid()
    modifies store
    ensures store.Valid()
    ensures ok <==> |categoryIds| == 0 || MappingsAccepted(store, courseId, categoryIds, mapFail)
    ensures store.courseCategories == Remapped(old(store.courseCategories), courseId, !deleteFail,
      if |categoryIds| > 0 && ok then MappingRows(old(store.nextId), MappingDrafts(courseId, categoryIds)) else [])
    ensures !deleteFail ==>
      CategoryColumn(MappingsOf(store.courseCategories, courseId)) == if |categoryIds| > 0 && ok then categoryIds else []
    ensures forall c :: c != courseId ==>
      MappingsOf(store.courseCategories, c) == MappingsOf(old(store.courseCategories), c)
    ensures store.users == old(store.users) && store.courses == old(store.courses)
    ensures store.categories == old(store.categories)
    ensures store.enrollments == old(store.enrollments) && store.payments == old(store.payments)
  {
    var before := store.courseCategories;
    var firstId := store.nextId;
    var deleted := store.DeleteMappingsOfCourse(courseId, deleteFail);
    OtherMappingsSurviveDelete(before, courseId);
    var kept := store.courseCategories;
    ok := true;
    if |categoryIds| > 0 {
      var drafts := MappingDrafts(courseId, categoryIds);
      if MappingsAccepted(store, courseId, categoryIds, mapFail) {
        forall d | d in drafts ensures d.courseId in store.CourseIds() && d.categoryId in store.CategoryIds() {
          var k :| 0 <= k < |drafts| && drafts[k] == d;
          assert categoryIds[k] in categoryIds;
        }
      }
      ok := store.InsertMappings(drafts, mapFail);
      if ok {
        assert drafts[0] in drafts;
        forall c | c in categoryIds ensures c in store.CategoryIds() {
          var k :| 0 <= k < |categoryIds| && categoryIds[k] == c;
          assert drafts[k] in drafts;
        }
        OtherMappingsUnchanged(kept, MappingRows(firstId, drafts), courseId);
        if deleted {
          NewMappingsOfCourse(kept, firstId, courseId, categoryIds);
        }
      } else {
        assert store.courseCategories == kept + [];
      }
    } else {
      assert store.courseCategories == kept + [];
    }
  }

  /** `updateCourse(courseId, courseData, categoryIds?)`: update the course; a
      failure returns false before touching mappings. With `categoryIds` given
      (even `[]`, which clears the course's mappings) the mappings are
      replaced by `Remap`; without it they are left alone. */
  method UpdateCourse(store: Store, courseId: int, patch: CoursePatch, categoryIds: Option<seq<int>>,
                      fail: bool, deleteFail: bool, mapFail: bool)
    returns (ok: bool)
    requires store.Valid()
    modifies store
    ensures store.Valid()
    ensures ok <==> !fail && (categoryIds.None? || |categoryIds.value| == 0 ||
                              MappingsAccepted(store, courseId, categoryIds.value, mapFail))
    ensures store.courses == if fail then old(store.courses) else PatchWhereId(old(store.courses), courseId, patch)
    ensures fail || categoryIds.None? ==> store.courseCategories == old(store.courseCategories)
    ensures !fail && categoryIds.Some? ==>
      store.courseCategories == Remapped(old(store.courseCategories), courseId, !deleteFail,
        if ok && |categoryIds.value| > 0
        then MappingRows(old(store.nextId), MappingDrafts(courseId, categoryIds.value)) else [])
    ensures !fail && categoryIds.Some? && !deleteFail ==>
      CategoryColumn(MappingsOf(store.courseCategories, courseId)) ==
        if ok && |categoryIds.value| > 0 then categoryIds.value else []
    ensures forall c :: c != courseId ==>
      MappingsOf(store.courseCategories, c) == MappingsOf(old(store.courseCategories), c)
    ensures store.users == old(store.users) && store.categories == old(store.categories)
    ensures store.enrollments == old(store.enrollments) && store.payments == old(store.payments)
  {
    ok := store.UpdateCoursesWhereId(courseId, patch, fail);
    if ok && categoryIds.Some? {
      ok := Remap(store, courseId, categoryIds.value, deleteFail, mapFail);
    }
  }

  /** `deleteCourse(courseId)`: delete the course's mappings, enrollments and
      payments, ignoring their errors, then the course; only the last delete
      decides the result, and the foreign keys make it fail while any child row
      survives. */
  method DeleteCourse(store: Store, courseId: int, mapFail: bool, enrollFail: bool, payFail: bool, courseFail: bool)
    returns (ok: bool)
    requires store.Valid()
    modifies store
    ensures store.Valid()
    ensures store.courseCategories == if mapFail then old(store.courseCategories)
      else MappingsNotOf(old(store.courseCategories), courseId)
    ensures store.enrollments == if enrollFail then old(store.enrollments)
      else EnrollmentsNotOf(old(store.enrollments), courseId)
    ensures store.payments == if payFail then old(store.payments)
      else PaymentsNotOf(old(store.payments), courseId)
    ensures ok <==>
      (&& !courseFail
       && (mapFail ==> forall m :: m in old(store.courseCategories) ==> m.courseId != courseId)
       && (enrollFail ==> forall e :: e in old(store.enrollments) ==> e.courseId != courseId)
       && (payFail ==> forall p :: p in old(store.payments) ==> p.courseId != courseId))
    ensures !mapFail && !enrollFail && !payFail && !courseFail ==> ok
    ensures store.courses == if ok then CoursesNotWithId(old(store.courses), courseId) else old(store.courses)
    ensures ok ==> courseId !in store.CourseIds() && !store.Referenced(courseId)
    ensures forall c :: c in store.courses <==> c in old(store.courses) && (ok ==> c.id != courseId)
    ensures store.users == old(store.users) && store.categories == old(store.categories)
  {
    var mapsGone := store.DeleteMappingsOfCourse(courseId, mapFail);
    var enrollmentsGone := store.DeleteEnrollmentsOfCourse(courseId, enrollFail);
    var paymentsGone := store.DeletePaymentsOfCourse(courseId, payFail);
    ok := store.DeleteCoursesWhereId(courseId, courseFail);
    if ok {
      assert courseId !in store.CourseIds();
    }
  }

  /** `enrollInCourse(userId, courseId, price)`: insert the enrollment, then a
      `'completed'` payment of `price`. A failed enrollment insert returns
      false with no payment; a failed payment insert returns false and the
      enrollment row stays. */
  method EnrollInCourse(store: Store, userId: string, courseId: int, price: int, now: nat,
                        enrollFail: bool, payFail: bool)
    returns (ok: bool)
    requires store.Valid()
    modifies store
    ensures store.Valid()
    ensures var enrolled := !enrollFail && userId in old(store.UserIds()) && courseId in old(store.CourseIds());
      && store.enrollments == (if enrolled then old(store.enrollments) + [Enrollment(old(store.nextId), userId, courseId, now)]
                               else old(store.enrollments))
      && (ok <==> enrolled && !payFail)
      && (enrolled ==> IsEnrolled(store, userId, courseId, false))
      && (enrolled ==> (CheckEnrollment(store, userId, courseId, false) <==>
                        |old(store.EnrollmentsOf(userId, courseId))| == 0))
    ensures store.payments == if ok
      then old(store.payments) + [Payment(old(store.nextId) + 1, userId, courseId, price, "completed", now)]
      else old(store.payments)
    ensures store.users == old(store.users) && store.courses == old(store.courses)
    ensures store.categories == old(store.categories) && store.courseCategories == old(store.courseCategories)
  {
    var before := store.enrollments;
    var id := store.nextId;
    ok := store.InsertEnrollment(userId, courseId, now, enrollFail);
    if !ok {
      return;
    }
    PairEnrollmentsAppend(before, Enrollment(id, userId, courseId, now), userId, courseId);
    ok := store.InsertPayment(userId, courseId, price, "completed", now, payFail);
  }
}
