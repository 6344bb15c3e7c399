/** The course-creation form of the admin dashboard: validating the form,
    toggling categories in the selection, and the statements
    `handleCreateCourse` issues (the course insert, one mapping insert per
    selected category, the admin-action log entry and the course-list refresh). */
module AdminDashboard {
  import opened Basics
  import opened Records

  /** `newCourse`. The price input is `parseFloat(...) || 0`; here it is integer cents. */
  datatype CourseForm = CourseForm(title: string, description: string, price: int, imageUrl: string)

  const EmptyForm: CourseForm := CourseForm("", "", 0, "")

  /** The default course image, kept in short pieces. */
  const DefaultImageUrl: string := ImageHost + ImagePhoto + ImageOptions
  const ImageHost: string := "https://images.unsplash.com/"
  const ImagePhoto: string := "photo-1488590528505-98d2b5aba04b"
  const ImageOptions: string := "?auto=format&fit=crop"

  datatype FormError = TitleRequired | DescriptionRequired | NegativePrice

  /** The checks before any statement, in order: title, description, price. */
  function Validate(form: CourseForm): (r: Option<FormError>)
    ensures r == Some(TitleRequired) <==> IsBlank(form.title)
    ensures r == Some(DescriptionRequired) <==> !IsBlank(form.title) && IsBlank(form.description)
    ensures r == Some(NegativePrice) <==>
      !IsBlank(form.title) && !IsBlank(form.description) && form.price < 0
    ensures r == None <==> !IsBlank(form.title) && !IsBlank(form.description) && form.price >= 0
  {
    BlankIffTrimmedEmpty(form.title);
    BlankIffTrimmedEmpty(form.description);
    if TrimStart(form.title) == [] then Some(TitleRequired)
    else if TrimStart(form.description) == [] then Some(DescriptionRequired)
    else if form.price < 0 then Some(NegativePrice)
    else None
  }

  /** The image parameter of the course insert: the form's URL, or the
      default image (the URL `DefaultImageUrl`). */
  datatype ImageParam = GivenImage(url: string) | DefaultImage

  /** `image_url || default`: an empty URL is replaced by the default one. */
  function ImageFor(imageUrl: string): (r: ImageParam)
    ensures r == DefaultImage <==> imageUrl == []
    ensures r.GivenImage? ==> r.url == imageUrl
  {
    if imageUrl == "" then DefaultImage else GivenImage(imageUrl)
  }

  /** The URL text the insert receives. */
  function ImageText(image: ImageParam): string {
    match image
    case GivenImage(url) => url
    case DefaultImage => DefaultImageUrl
  }

  /** The inserted image URL is never empty, and is the form's own when given. */
  lemma InsertedImageUrl(imageUrl: string)
    ensures ImageText(ImageFor(imageUrl)) != []
    ensures imageUrl != [] ==> ImageText(ImageFor(imageUrl)) == imageUrl
    ensures imageUrl == [] ==> ImageText(ImageFor(imageUrl)) == DefaultImageUrl
  {
    assert |DefaultImageUrl| == |ImageHost| + |ImagePhoto| + |ImageOptions|;
  }

  /** The admin action recorded for a new course. */
  datatype AdminAction = CreatedCourse(title: string)

  /** The action's text, `Created course: <title>`. */
  function ActionText(action: AdminAction): (text: string)
    ensures |text| == |action.title| + 16
    ensures text[..16] == "Created course: " && text[16..] == action.title
  {
    "Created course: " + action.title
  }

  /** A statement `handleCreateCourse` hands to the database, with its parameters. */
  datatype Statement =
    | InsertCourse(title: string, description: string, price: int, image: ImageParam, createdBy: int)
    | InsertCourseCategory(courseId: Value, categoryId: int)
    | InsertAdminAction(adminId: int, action: AdminAction)
    | SelectCourses

  /** The mapping inserts for `categories`, one per element, in order. */
  function MappingInserts(courseId: Value, categories: seq<int>): (ss: seq<Statement>)
    ensures |ss| == |categories|
  {
    if categories == [] then []
    else [InsertCourseCategory(courseId, categories[0])] + MappingInserts(courseId, categories[1..])
  }

  /** The `k`-th mapping insert is for the `k`-th selected category. */
  lemma {:induction false} MappingInsertAt(courseId: Value, categories: seq<int>, k: nat)
    requires k < |categories|
    ensures MappingInserts(courseId, categories)[k] == InsertCourseCategory(courseId, categories[k])
    decreases k
  {
    if k > 0 {
      MappingInsertAt(courseId, categories[1..], k - 1);
    }
  }

  /** Every statement of a successful creation, in order. */
  function CreationPlan(form: CourseForm, categories: seq<int>, adminId: int, courseId: Value): (plan: seq<Statement>)
    ensures |plan| == |categories| + 3
  {
    [InsertCourse(form.title, form.description, form.price, ImageFor(form.imageUrl), adminId)]
    + MappingInserts(courseId, categories)
    + [InsertAdminAction(adminId, CreatedCourse(form.title)), SelectCourses]
  }

  /** The course insert comes first and carries the form's fields with the
      image defaulted; then one mapping insert per selected category, in
      selection order and nothing else; then the admin-action entry and the
      refresh. With no category selected there is no mapping insert. */
  lemma PlanLayout(form: CourseForm, categories: seq<int>, adminId: int, courseId: Value)
    ensures var p := CreationPlan(form, categories, adminId, courseId);
      && |p| == |categories| + 3
      && p[0] == InsertCourse(form.title, form.description, form.price, ImageFor(form.imageUrl), adminId)
      && (forall k :: 0 <= k < |categories| ==> p[1 + k] == InsertCourseCategory(courseId, categories[k]))
      && (forall k :: 0 <= k < |p| ==> (p[k].InsertCourseCategory? <==> 1 <= k <= |categories|))
      && p[|p| - 2] == InsertAdminAction(adminId, CreatedCourse(form.title))
      && p[|p| - 1] == SelectCourses
  {
    var p := CreationPlan(form, categories, adminId, courseId);
    var m := MappingInserts(courseId, categories);
    assert p == [p[0]] + m + [p[|p| - 2], p[|p| - 1]];
    forall k | 0 <= k < |categories| ensures p[1 + k] == InsertCourseCategory(courseId, categories[k]) {
      assert p[1 + k] == m[k];
      MappingInsertAt(courseId, categories, k);
    }
    forall k | 0 <= k < |p| ensures p[k].InsertCourseCategory? <==> 1 <= k <= |categories| {
      if 1 <= k <= |categories| {
        assert p[k] == m[k - 1];
        MappingInsertAt(courseId, categories, k - 1);
      }
    }
  }

  // ---- category selection -------------------------------------------------

  predicate NoDuplicates(s: seq<int>) {
    forall i, j :: 0 <= i < j < |s| ==> s[i] != s[j]
  }

  /** `toggleCategorySelection(id)`: drop every `id` if present, else append it. */
  function Toggle(selected: seq<int>, id: int): (r: seq<int>)
    ensures id in r <==> id !in selected
    ensures forall x :: x != id ==> (x in r <==> x in selected)
    ensures id !in selected ==> r == selected + [id]
    ensures id in selected ==> Subsequence(r, selected)
    ensures id in selected ==> multiset(r) == multiset(selected)[id := 0]
  {
    if id in selected then
      var p := (x: int) => x != id;
      FilterSubsequence(p, selected);
      FilterOutCount(p, id, selected);
      Filter(p, selected)
    else selected + [id]
  }

  /** Filtering out one value removes every copy of it and nothing else. */
  lemma {:induction false} FilterOutCount(p: int -> bool, id: int, s: seq<int>)
    requires forall x :: p(x) <==> x != id
    ensures multiset(Filter(p, s)) == multiset(s)[id := 0]
    decreases |s|
  {
    if s != [] {
      FilterOutCount(p, id, s[1..]);
      assert s == [s[0]] + s[1..];
    }
  }

  /** Toggling an unselected category twice restores the selection. */
  lemma ToggleTwiceRestores(selected: seq<int>, id: int)
    requires id !in selected
    ensures Toggle(Toggle(selected, id), id) == selected
  {
    var p := (x: int) => x != id;
    FilterAppend(p, selected, [id]);
    FilterAll(p, selected);
    assert Filter(p, [id]) == [] by {
      assert [id][1..] == [];
    }
  }

  lemma {:induction false} FilterKeepsNoDuplicates(p: int -> bool, s: seq<int>)
    requires NoDuplicates(s)
    ensures NoDuplicates(Filter(p, s))
    decreases |s|
  {
    if s != [] {
      FilterKeepsNoDuplicates(p, s[1..]);
      var rest := Filter(p, s[1..]);
      forall x | x in rest ensures x != s[0] {
        var k :| 0 <= k < |s[1..]| && s[1..][k] == x;
        assert s[k + 1] == x;
      }
    }
  }

  /** A duplicate-free selection stays duplicate-free. */
  lemma ToggleKeepsNoDuplicates(selected: seq<int>, id: int)
    requires NoDuplicates(selected)
    ensures NoDuplicates(Toggle(selected, id))
  {
    if id in selected {
      FilterKeepsNoDuplicates((x: int) => x != id, selected);
    } else {
      var r := selected + [id];
      forall i, j | 0 <= i < j < |r| ensures r[i] != r[j] {
        if j == |selected| {
          assert r[i] == selected[i];
        }
      }
    }
  }

  // ---- component state ----------------------------------------------------

  datatype Outcome = NoUser | Invalid(error: FormError) | Created | Failed

  class DashboardState {
    var newCourse: CourseForm
    var selectedCategories: seq<int>
    var isCreatingCourse: bool
    var courses: seq<CourseView>
    /** The statements handed to the database so far, including one that threw. */
    var issued: seq<Statement>

    constructor ()
      ensures newCourse == EmptyForm && selectedCategories == [] && !isCreatingCourse
      ensures courses == [] && issued == []
    {
      newCourse := EmptyForm;
      selectedCategories := [];
      isCreatingCourse := false;
      courses := [];
      issued := [];
    }

    method ToggleCategorySelection(id: int)
      modifies this
      ensures selectedCategories == Toggle(old(selectedCategories), id)
      ensures newCourse == old(newCourse) && isCreatingCourse == old(isCreatingCourse)
      ensures courses == old(courses) && issued == old(issued)
    {
      selectedCategories := Toggle(selectedCategories, id);
    }

    /** `handleCreateCourse()`. `adminId` is the signed-in user's id, if any;
        the statement at position `throwsAt` of the plan throws (none does
        when `throwsAt` is past its end); `insertId` is what the course insert
        reports and `refreshed` what the course-list query returns. */
    method HandleCreateCourse(adminId: Option<int>, throwsAt: nat, insertId: Value, refreshed: seq<CourseView>)
      returns (outcome: Outcome)
      modifies this
      ensures adminId.None? || Validate(old(newCourse)).Some? ==>
        (&& outcome == (if adminId.None? then NoUser else Invalid(Validate(old(newCourse)).value))
         && issued == old(issued) && newCourse == old(newCourse)
         && selectedCategories == old(selectedCategories)
         && courses == old(courses) && isCreatingCourse == old(isCreatingCourse))
      ensures adminId.Some? && Validate(old(newCourse)).None? ==>
        var plan := CreationPlan(old(newCourse), old(selectedCategories), adminId.value, insertId);
        (&& issued == old(issued) + Attempted(plan, throwsAt)
         && outcome == (if throwsAt >= |plan| then Created else Failed)
         && !isCreatingCourse
         && (throwsAt >= |plan| - 1 ==> newCourse == EmptyForm && selectedCategories == [])
         && (throwsAt < |plan| - 1 ==>
               newCourse == old(newCourse) && selectedCategories == old(selectedCategories))
         && courses == (if throwsAt >= |plan| then refreshed else old(courses)))
    {
      if adminId.None? {
        return NoUser;
      }
      var error := Validate(newCourse);
      if error.Some? {
        return Invalid(error.value);
      }
      isCreatingCourse := true;
      ghost var plan := CreationPlan(newCourse, selectedCategories, adminId.value, insertId);
      outcome := Submit(adminId.value, throwsAt, insertId, refreshed, plan);
      isCreatingCourse := false;
    }

    /** The `try` block of `handleCreateCourse`: the course insert, then the
        rest of the plan. */
    method Submit(user: int, throwsAt: nat, insertId: Value, refreshed: seq<CourseView>, ghost plan: seq<Statement>)
      returns (outcome: Outcome)
      requires plan == CreationPlan(newCourse, selectedCategories, user, insertId)
      modifies this
      ensures issued == old(issued) + Attempted(plan, throwsAt)
      ensures outcome == (if throwsAt >= |plan| then Created else Failed)
      ensures isCreatingCourse == old(isCreatingCourse)
      ensures throwsAt >= |plan| - 1 ==> newCourse == EmptyForm && selectedCategories == []
      ensures throwsAt < |plan| - 1 ==> newCourse == old(newCourse) && selectedCategories == old(selectedCategories)
      ensures courses == (if throwsAt >= |plan| then refreshed else old(courses))
    {
      var form := newCourse;
      var head := InsertCourse(form.title, form.description, form.price, ImageFor(form.imageUrl), user);
      ghost var rest := MappingInserts(insertId, selectedCategories)
        + [InsertAdminAction(user, CreatedCourse(form.title)), SelectCourses];
      assert plan == [head] + rest;
      assert |plan| == 1 + |rest|;
      AttemptedAppend([head], rest, throwsAt);
      issued := issued + [head];
      if throwsAt == 0 {
        return Failed;
      }
      outcome := AfterCourseInsert(user, throwsAt - 1, insertId, refreshed, rest);
    }

    /** The mapping inserts, then the admin-action entry, the form reset and
        the refresh; the statement of `rest` at position `throwsAt` throws. */
    method AfterCourseInsert(user: int, throwsAt: nat, insertId: Value, refreshed: seq<CourseView>,
                             ghost rest: seq<Statement>)
      returns (outcome: Outcome)
      requires rest == MappingInserts(insertId, selectedCategories)
        + [InsertAdminAction(user, CreatedCourse(newCourse.title)), SelectCourses]
      modifies this
      ensures issued == old(issued) + Attempted(rest, throwsAt)
      ensures outcome == (if throwsAt >= |rest| then Created else Failed)
      ensures isCreatingCourse == old(isCreatingCourse)
      ensures throwsAt >= |rest| - 1 ==> newCourse == EmptyForm && selectedCategories == []
      ensures throwsAt < |rest| - 1 ==> newCourse == old(newCourse) && selectedCategories == old(selectedCategories)
      ensures courses == (if throwsAt >= |rest| then refreshed else old(courses))
    {
      var categories := selectedCategories;
      ghost var mappings := MappingInserts(insertId, categories);
      var tail := [InsertAdminAction(user, CreatedCourse(newCourse.title)), SelectCourses];
      AttemptedAppend(mappings, tail, throwsAt);
      var ok := IssueMappings(insertId, categories, throwsAt);
      if !ok {
        return Failed;
      }
      outcome := Finish(tail, throwsAt - |categories|, refreshed);
    }

    /** The statements after the mapping inserts: the admin-action entry
        `tail[0]`, the form reset, and the refresh `tail[1]`; the one at position
        `throwsAt` throws. */
    method Finish(tail: seq<Statement>, throwsAt: nat, refreshed: seq<CourseView>) returns (outcome: Outcome)
      requires |tail| == 2
      modifies this
      ensures issued == old(issued) + Attempted(tail, throwsAt)
      ensures outcome == (if throwsAt >= 2 then Created else Failed)
      ensures isCreatingCourse == old(isCreatingCourse)
      ensures throwsAt >= 1 ==> newCourse == EmptyForm && selectedCategories == []
      ensures throwsAt < 1 ==> newCourse == old(newCourse) && selectedCategories == old(selectedCategories)
      ensures courses == (if throwsAt >= 2 then refreshed else old(courses))
    {
      issued := issued + [tail[0]];
      if throwsAt == 0 {
        assert tail[..1] == [tail[0]];
        return Failed;
      }
      newCourse := EmptyForm;
      selectedCategories := [];
      issued := issued + [tail[1]];
      assert tail == [tail[0], tail[1]];
      if throwsAt == 1 {
        return Failed;
      }
      courses := refreshed;
      return Created;
    }

    /** The `for` loop over `selectedCategories`: one mapping insert each, until
        the one at position `throwsAt` throws. */
    method IssueMappings(courseId: Value, categories: seq<int>, throwsAt: nat) returns (ok: bool)
      modifies this
      ensures issued == old(issued) + Attempted(MappingInserts(courseId, categories), throwsAt)
      ensures ok <==> throwsAt >= |categories|
      ensures newCourse == old(newCourse) && selectedCategories == old(selectedCategories)
      ensures courses == old(courses) && isCreatingCourse == old(isCreatingCourse)
    {
      ghost var mappings := MappingInserts(courseId, categories);
      var i := 0;
      while i < |categories|
        invariant 0 <= i <= |categories| && i <= throwsAt
        invariant issued == old(issued) + mappings[..i]
        invariant newCourse == old(newCourse) && selectedCategories == old(selectedCategories)
        invariant courses == old(courses) && isCreatingCourse == old(isCreatingCourse)
      {
        issued := issued + [InsertCourseCategory(courseId, categories[i])];
        MappingInsertAt(courseId, categories, i);
        assert mappings[..i + 1] == mappings[..i] + [mappings[i]];
        if throwsAt == i {
          return false;
        }
        i := i + 1;
      }
      assert mappings[..i] == mappings;
      return true;
    }
  }

  /** The statements of `plan` that were handed over when the one at position
      `throwsAt` throws: all up to and including it. */
  function Attempted(plan: seq<Statement>, throwsAt: nat): (a: seq<Statement>)
    ensures a <= plan
    ensures throwsAt < |plan| ==> |a| == throwsAt + 1 && a[throwsAt] == plan[throwsAt]
    ensures throwsAt >= |plan| ==> a == plan
  {
    if throwsAt < |plan| then plan[..throwsAt + 1] else plan
  }

  /** Running `a + b`: a throw inside `a` stops there, otherwise all of `a` ran. */
  lemma AttemptedAppend(a: seq<Statement>, b: seq<Statement>, throwsAt: nat)
    ensures throwsAt < |a| ==> Attempted(a + b, throwsAt) == Attempted(a, throwsAt)
    ensures throwsAt >= |a| ==> Attempted(a + b, throwsAt) == a + Attempted(b, throwsAt - |a|)
  {
    if throwsAt < |a| {
      assert (a + b)[..throwsAt + 1] == a[..throwsAt + 1];
    } else if throwsAt < |a + b| {
      assert (a + b)[..throwsAt + 1] == a + b[..throwsAt - |a| + 1];
    }
  }
}
