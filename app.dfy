/** The single-page shell: which screen is showing, what the user picked on
    the way there, the lesson open in a course, the "Advance" button that
    opens the next lesson in reading order, and the two filters that decide
    which subjects and courses are offered. */
module Navigation {
  import opened Types
  import Storage

  datatype View = Home | SubjectSelect | CourseList | LessonView | UnitStatus

  /** The navigation part of the shell's state, as one value. */
  datatype Screen = Screen(
    view: View,
    gradeCategory: Option<string>,
    grade: Option<string>,
    subject: Option<string>,
    course: Option<Course>,
    lesson: Option<Lesson>)

  const START: Screen := Screen(Home, None, None, None, None, None)

  const ELECTIVES: string := "Electives"

  /** The subject buttons, in display order. */
  const SUBJECT_CHOICES: seq<string> := ["Math", "Science", "ELA", "Social Studies", "Electives"]

  // ---------------------------------------------------------------------
  // Transitions

  function GradeSelected(s: Screen, category: string, grade: string): Screen {
    s.(gradeCategory := Some(category), grade := Some(grade), view := SubjectSelect)
  }

  function SubjectSelected(s: Screen, subject: string): Screen {
    s.(subject := Some(subject), view := CourseList)
  }

  function CourseSelected(s: Screen, c: Course): Screen {
    s.(course := Some(c), view := LessonView, lesson := None)
  }

  function LessonSelected(s: Screen, l: Lesson): Screen {
    s.(lesson := Some(l))
  }

  /** The back arrow: an open lesson closes first; otherwise the view steps
      back one level, forgetting the choice made at that level. The grade
      category is never cleared. */
  function Back(s: Screen): (r: Screen)
    ensures s.lesson.Some? ==> r == s.(lesson := None)
    ensures s.lesson.None? && s.view == UnitStatus ==> r == s.(view := Home)
    ensures s.lesson.None? && s.view == LessonView ==> r == s.(view := CourseList, course := None)
    ensures s.lesson.None? && s.view == CourseList ==> r == s.(view := SubjectSelect, subject := None)
    ensures s.lesson.None? && s.view == SubjectSelect ==> r == s.(view := Home, grade := None)
    ensures s.lesson.None? && s.view == Home ==> r == s
  {
    if s.lesson.Some? then s.(lesson := None)
    else match s.view
      case UnitStatus => s.(view := Home)
      case LessonView => s.(view := CourseList, course := None)
      case CourseList => s.(view := SubjectSelect, subject := None)
      case SubjectSelect => s.(view := Home, grade := None)
      case Home => s
  }

  /** Each selection is undone by one step back, from the screen on which
      the selection is offered; undoing the grade keeps its category. */
  lemma BackUndoesSelection(s: Screen, category: string, grade: string, subject: string, c: Course, l: Lesson)
    requires s.lesson.None?
    ensures Back(LessonSelected(s, l)) == s
    ensures s.view == CourseList && s.course.None? ==> Back(CourseSelected(s, c)) == s
    ensures s.view == SubjectSelect && s.subject.None? ==> Back(SubjectSelected(s, subject)) == s
    ensures s.view == Home && s.grade.None? ==>
      Back(GradeSelected(s, category, grade)) == s.(gradeCategory := Some(category))
  {
  }

  /** From the start, picking a grade, a subject, a course and a lesson and
      then going back four times returns to the start screen, except that
      the grade category stays remembered. */
  lemma BackRetracesPath(category: string, grade: string, subject: string, c: Course, l: Lesson)
    ensures
      var s1 := GradeSelected(START, category, grade);
      var s2 := SubjectSelected(s1, subject);
      var s3 := CourseSelected(s2, c);
      var s4 := LessonSelected(s3, l);
      Back(s4) == s3 && Back(s3) == s2 && Back(s2) == s1
      && Back(s1) == START.(gradeCategory := Some(category))
  {
    var s1 := GradeSelected(START, category, grade);
    var s2 := SubjectSelected(s1, subject);
    var s3 := CourseSelected(s2, c);
    BackUndoesSelection(START, category, grade, subject, c, l);
    BackUndoesSelection(s1, category, grade, subject, c, l);
    BackUndoesSelection(s2, category, grade, subject, c, l);
    BackUndoesSelection(s3, category, grade, subject, c, l);
  }

  /** Four steps back reach the home screen from anywhere, with no lesson
      open, and home with no lesson open is a fixed point. */
  lemma BackReachesHome(s: Screen)
    ensures Back(Back(Back(Back(s)))).view == Home
    ensures Back(Back(Back(Back(s)))).lesson.None?
    ensures s.view == Home && s.lesson.None? ==> Back(s) == s
  {
  }

  // ---------------------------------------------------------------------
  // Filters

  /** A subject button is shown under a category exactly when the category
      is the electives one and the subject is the electives one, or neither
      is. With nothing picked yet the category counts as not electives. */
  predicate SubjectShown(category: Option<string>, subject: string) {
    (category == Some(ELECTIVES)) == (subject == ELECTIVES)
  }

  function KeepShown(category: Option<string>, subjects: seq<string>): (r: seq<string>)
    ensures |r| <= |subjects|
  {
    if subjects == [] then []
    else if SubjectShown(category, subjects[0]) then [subjects[0]] + KeepShown(category, subjects[1..])
    else KeepShown(category, subjects[1..])
  }

  /** A subject is kept exactly when it is listed and shown under the
      category. */
  lemma {:induction false} KeepShownMembers(category: Option<string>, subjects: seq<string>)
    ensures forall x :: x in KeepShown(category, subjects) <==> x in subjects && SubjectShown(category, x)
    decreases |subjects|
  {
    if subjects != [] {
      KeepShownMembers(category, subjects[1..]);
      assert subjects == [subjects[0]] + subjects[1..];
    }
  }

  /** The subject buttons shown under `category`, in display order. */
  function SubjectsShown(category: Option<string>): (r: seq<string>)
    ensures ELECTIVES in r <==> category == Some(ELECTIVES)
  {
    KeepShownMembers(category, SUBJECT_CHOICES);
    KeepShown(category, SUBJECT_CHOICES)
  }

  /** The buttons shown are exactly the allowed ones among the five. */
  lemma SubjectsShownMembers(category: Option<string>)
    ensures forall x :: x in SubjectsShown(category) <==> x in SUBJECT_CHOICES && SubjectShown(category, x)
  {
    KeepShownMembers(category, SUBJECT_CHOICES);
  }

  /** The electives category offers only Electives. */
  lemma SubjectsShownForElectives()
    ensures SubjectsShown(Some(ELECTIVES)) == [ELECTIVES]
  {
    var xs, c := SUBJECT_CHOICES, Some(ELECTIVES);
    assert xs[1..][1..][1..][1..] == ["Electives"];
    assert KeepShown(c, xs[1..][1..][1..][1..]) == ["Electives"];
    assert KeepShown(c, xs[1..][1..][1..]) == ["Electives"];
    assert KeepShown(c, xs[1..][1..]) == ["Electives"];
    assert KeepShown(c, xs[1..]) == ["Electives"];
  }

  /** Every category but the electives one filters as no category does. */
  lemma {:induction false} KeepShownAsNone(category: Option<string>, subjects: seq<string>)
    requires category != Some(ELECTIVES)
    ensures KeepShown(category, subjects) == KeepShown(None, subjects)
    decreases |subjects|
  {
    if subjects != [] {
      KeepShownAsNone(category, subjects[1..]);
    }
  }

  lemma KeepsCore(x: string, rest: seq<string>)
    requires x != ELECTIVES
    ensures KeepShown(None, [x] + rest) == [x] + KeepShown(None, rest)
  {
    assert ([x] + rest)[1..] == rest;
  }

  /** Every other category, and none, offers the four core subjects in
      display order. */
  lemma SubjectsShownForOthers(category: Option<string>)
    requires category != Some(ELECTIVES)
    ensures SubjectsShown(category) == ["Math", "Science", "ELA", "Social Studies"]
  {
    var s4: seq<string> := [ELECTIVES];
    assert KeepShown(None, s4) == [];
    KeepsCore("Social Studies", s4);
    KeepsCore("ELA", ["Social Studies"] + s4);
    KeepsCore("Science", ["ELA"] + (["Social Studies"] + s4));
    KeepsCore("Math", ["Science"] + (["ELA"] + (["Social Studies"] + s4)));
    assert SUBJECT_CHOICES == ["Math"] + (["Science"] + (["ELA"] + (["Social Studies"] + s4)));
    KeepShownAsNone(category, SUBJECT_CHOICES);
  }

  /** The courses of `courses` whose grade and subject are the ones picked,
      in catalog order; nothing matches a choice not yet made. */
  function AvailableCourses(courses: seq<Course>, grade: Option<string>, subject: Option<string>): (r: seq<Course>)
    ensures |r| <= |courses|
    ensures forall c :: c in r <==> c in courses && Some(c.grade) == grade && Some(c.subject) == subject
  {
    if courses == [] then []
    else
      var rest := AvailableCourses(courses[1..], grade, subject);
      if Some(courses[0].grade) == grade && Some(courses[0].subject) == subject then [courses[0]] + rest else rest
  }

  /** Filtering keeps catalog order: the filter of a concatenation is the
      concatenation of the filters. */
  lemma {:induction false} AvailableCoursesAppend(a: seq<Course>, b: seq<Course>, grade: Option<string>, subject: Option<string>)
    ensures AvailableCourses(a + b, grade, subject) == AvailableCourses(a, grade, subject) + AvailableCourses(b, grade, subject)
    decreases |a|
  {
    if a == [] {
      assert a + b == b;
    } else {
      assert (a + b)[0] == a[0];
      assert (a + b)[1..] == a[1..] + b;
      AvailableCoursesAppend(a[1..], b, grade, subject);
    }
  }

  // ---------------------------------------------------------------------
  // Reading order and the Advance button

  /** The lessons of `units`, unit by unit, each unit's lessons in order. */
  function LessonsInOrder(units: seq<Unit>): (ls: seq<Lesson>)
    decreases |units|
  {
    if units == [] then [] else LessonsInOrder(units[..|units| - 1]) + units[|units| - 1].lessons
  }

  lemma {:induction false} LessonsInOrderAppend(a: seq<Unit>, b: seq<Unit>)
    ensures LessonsInOrder(a + b) == LessonsInOrder(a) + LessonsInOrder(b)
    decreases |b|
  {
    if b == [] {
      assert a + b == a;
    } else {
      var last := |b| - 1;
      assert (a + b)[|a + b| - 1] == b[last];
      assert (a + b)[..|a + b| - 1] == a + b[..last];
      LessonsInOrderAppend(a, b[..last]);
    }
  }

  /** The position of the first lesson with id `id`, or -1 when none has it. */
  function FirstMatch(ls: seq<Lesson>, id: string): (k: int)
    ensures -1 <= k < |ls|
    ensures k >= 0 ==> ls[k].id == id
    ensures forall j :: 0 <= j < |ls| && (k == -1 || j < k) ==> ls[j].id != id
    decreases |ls|
  {
    if ls == [] then -1
    else
      var k := FirstMatch(ls[..|ls| - 1], id);
      if k >= 0 then k else if ls[|ls| - 1].id == id then |ls| - 1 else -1
  }

  /** The lesson Advance opens: the one right after the first lesson with id
      `id`, or none when that lesson is the last or no lesson has the id. */
  function NextAfter(ls: seq<Lesson>, id: string): Option<Lesson> {
    var k := FirstMatch(ls, id);
    if 0 <= k && k + 1 < |ls| then Some(ls[k + 1]) else None
  }

  lemma FirstMatchUnique(ls: seq<Lesson>, id: string, k: int)
    requires -1 <= k < |ls|
    requires k >= 0 ==> ls[k].id == id
    requires forall j :: 0 <= j < |ls| && (k == -1 || j < k) ==> ls[j].id != id
    ensures FirstMatch(ls, id) == k
  {
  }

  predicate DistinctIds(ls: seq<Lesson>) {
    forall i, j :: 0 <= i < j < |ls| ==> ls[i].id != ls[j].id
  }

  /** With distinct ids, Advance from the lesson at position `k` opens the
      lesson at `k + 1`, and from the last lesson opens none. */
  lemma NextAfterIsSuccessor(ls: seq<Lesson>, k: nat)
    requires DistinctIds(ls) && k < |ls|
    ensures k + 1 < |ls| ==> NextAfter(ls, ls[k].id) == Some(ls[k + 1])
    ensures k + 1 == |ls| ==> NextAfter(ls, ls[k].id) == None
  {
    FirstMatchUnique(ls, ls[k].id, k);
  }

  /** An id no lesson carries has no successor. */
  lemma NextAfterMissing(ls: seq<Lesson>, id: string)
    requires forall j :: 0 <= j < |ls| ==> ls[j].id != id
    ensures NextAfter(ls, id) == None
  {
    FirstMatchUnique(ls, id, -1);
  }

  lemma LessonsInOrderStep(units: seq<Unit>, i: nat)
    requires i < |units|
    ensures LessonsInOrder(units[..i + 1]) == LessonsInOrder(units[..i]) + units[i].lessons
  {
    assert units[..i + 1][..i] == units[..i];
  }

  /** The reading order around unit `i`: the units before it, its lessons,
      the units after it. */
  lemma LessonsInOrderAround(units: seq<Unit>, i: nat)
    requires i < |units|
    ensures LessonsInOrder(units) == LessonsInOrder(units[..i]) + units[i].lessons + LessonsInOrder(units[i + 1..])
  {
    assert units[..i + 1] + units[i + 1..] == units;
    LessonsInOrderAppend(units[..i + 1], units[i + 1..]);
    LessonsInOrderStep(units, i);
  }

  /** Lessons appended after a match leave the first match where it was. */
  lemma FirstMatchExtend(p: seq<Lesson>, q: seq<Lesson>, id: string)
    requires FirstMatch(p, id) >= 0
    ensures FirstMatch(p + q, id) == FirstMatch(p, id)
  {
    FirstMatchUnique(p + q, id, FirstMatch(p, id));
  }

  /** Once the last lesson seen is the first match, the next lesson read is
      the one Advance opens. */
  lemma NextAfterPrefix(seen: seq<Lesson>, rest: seq<Lesson>, id: string)
    requires |seen| >= 1 && FirstMatch(seen, id) == |seen| - 1 && |rest| >= 1
    ensures NextAfter(seen + rest, id) == Some(rest[0])
  {
    FirstMatchExtend(seen, rest, id);
    assert (seen + rest)[|seen|] == rest[0];
  }

  /** The reading order cut just before lesson `j` of unit `i`. */
  lemma ScanSplit(units: seq<Unit>, i: nat, j: nat)
    requires i < |units| && j < |units[i].lessons|
    ensures LessonsInOrder(units) ==
      (LessonsInOrder(units[..i]) + units[i].lessons[..j]) + (units[i].lessons[j..] + LessonsInOrder(units[i + 1..]))
  {
    var lessons := units[i].lessons;
    LessonsInOrderAround(units, i);
    assert lessons == lessons[..j] + lessons[j..];
  }

  /** Where the scan stops: the lessons seen so far, then lesson `j` of unit
      `i`, then the rest of the course. */
  lemma ScanPoint(units: seq<Unit>, i: nat, j: nat, seen: seq<Lesson>, id: string)
    requires i < |units| && j < |units[i].lessons|
    requires seen == LessonsInOrder(units[..i]) + units[i].lessons[..j]
    requires |seen| >= 1 && FirstMatch(seen, id) == |seen| - 1
    ensures NextAfter(LessonsInOrder(units), id) == Some(units[i].lessons[j])
  {
    var rest := units[i].lessons[j..] + LessonsInOrder(units[i + 1..]);
    ScanSplit(units, i, j);
    assert rest[0] == units[i].lessons[j];
    NextAfterPrefix(seen, rest, id);
  }

  /** One more lesson read while no match has been seen. */
  lemma ScanStep(seen: seq<Lesson>, l: Lesson, id: string)
    requires FirstMatch(seen, id) == -1
    ensures FirstMatch(seen + [l], id) == if l.id == id then |seen| else -1
  {
    assert (seen + [l])[..|seen|] == seen;
  }

  /** The Advance scan: walks the units and their lessons in order with a
      flag set on passing the current lesson, and stops at the lesson after
      it. */
  method FindNextLesson(units: seq<Unit>, currentId: string) returns (next: Option<Lesson>)
    ensures next == NextAfter(LessonsInOrder(units), currentId)
  {
    var found := false;
    ghost var seen: seq<Lesson> := [];
    var i := 0;
    while i < |units|
      invariant 0 <= i <= |units|
      invariant seen == LessonsInOrder(units[..i])
      invariant !found ==> FirstMatch(seen, currentId) == -1
      invariant found ==> |seen| >= 1 && FirstMatch(seen, currentId) == |seen| - 1
    {
      var lessons := units[i].lessons;
      var j := 0;
      while j < |lessons|
        invariant 0 <= j <= |lessons|
        invariant seen == LessonsInOrder(units[..i]) + lessons[..j]
        invariant !found ==> FirstMatch(seen, currentId) == -1
        invariant found ==> |seen| >= 1 && FirstMatch(seen, currentId) == |seen| - 1
      {
        if found {
          ScanPoint(units, i, j, seen, currentId);
          return Some(lessons[j]);
        }
        assert lessons[..j + 1] == lessons[..j] + [lessons[j]];
        ScanStep(seen, lessons[j], currentId);
        seen := seen + [lessons[j]];
        if lessons[j].id == currentId {
          found := true;
        }
        j := j + 1;
      }
      assert lessons[..j] == lessons;
      assert units[..i + 1][..i] == units[..i];
      i := i + 1;
    }
    assert units[..i] == units;
    next := None;
  }

  // ---------------------------------------------------------------------
  // The shell

  /** A lesson shows as completed when its id is among the completed ones. */
  predicate LessonDone(p: Progress, id: string) {
    id in p.completedLessons
  }

  class Shell {
    var view: View
    var gradeCategory: Option<string>
    var grade: Option<string>
    var subject: Option<string>
    var activeCourse: Option<Course>
    var activeLesson: Option<Lesson>
    var progress: Progress
    const store: Storage.ProgressStore

    function Current(): Screen
      reads this
    {
      Screen(view, gradeCategory, grade, subject, activeCourse, activeLesson)
    }

    /** The home screen with nothing picked, and the stored progress. */
    constructor(s: Storage.ProgressStore)
      ensures store == s
      ensures Current() == START
      ensures progress == Storage.Decode(s.slot)
    {
      store := s;
      view := Home;
      gradeCategory := None;
      grade := None;
      subject := None;
      activeCourse := None;
      activeLesson := None;
      new;
      progress := s.GetProgress();
    }

    method SelectGrade(category: string, g: string)
      modifies this
      ensures Current() == GradeSelected(old(Current()), category, g)
      ensures progress == old(progress)
    {
      gradeCategory := Some(category);
      grade := Some(g);
      view := SubjectSelect;
    }

    method SelectSubject(s: string)
      modifies this
      ensures Current() == SubjectSelected(old(Current()), s)
      ensures progress == old(progress)
    {
      subject := Some(s);
      view := CourseList;
    }

    method SelectCourse(c: Course)
      modifies this
      ensures Current() == CourseSelected(old(Current()), c)
      ensures progress == old(progress)
    {
      activeCourse := Some(c);
      view := LessonView;
      activeLesson := None;
    }

    method SelectLesson(l: Lesson)
      modifies this
      ensures Current() == LessonSelected(old(Current()), l)
      ensures progress == old(progress)
    {
      activeLesson := Some(l);
    }

    /** The "Content Status" button and the in-development badge. */
    method OpenUnitStatus()
      modifies this
      ensures Current() == old(Current()).(view := UnitStatus)
      ensures progress == old(progress)
    {
      view := UnitStatus;
    }

    /** The close buttons of the lesson screen. */
    method CloseLesson()
      modifies this
      ensures Current() == old(Current()).(lesson := None)
      ensures progress == old(progress)
    {
      activeLesson := None;
    }

    method GoBack()
      modifies this
      ensures Current() == Back(old(Current()))
      ensures progress == old(progress)
    {
      if activeLesson.Some? {
        activeLesson := None;
      } else if view == UnitStatus {
        view := Home;
      } else if view == LessonView {
        view := CourseList;
        activeCourse := None;
      } else if view == CourseList {
        view := SubjectSelect;
        subject := None;
      } else if view == SubjectSelect {
        view := Home;
        grade := None;
      }
    }

    /** "Mark as complete": with a lesson open, records it in the store and
      shows the stored result, after which the lesson shows as done. */
    method LessonComplete()
      modifies this, store
      ensures Current() == old(Current())
      ensures activeLesson.None? ==> progress == old(progress) && store.slot == old(store.slot)
      ensures activeLesson.Some? ==>
        progress == Storage.WithLesson(Storage.Decode(old(store.slot)), activeLesson.value.id)
        && Storage.Decode(store.slot) == progress
        && LessonDone(progress, activeLesson.value.id)
    {
      if activeLesson.Some? {
        var p := store.SaveLessonComplete(activeLesson.value.id);
        progress := p;
      }
    }

    /** A quiz block reported `score` for quiz `quizId`. */
    method QuizComplete(quizId: string, score: int)
      modifies this, store
      ensures Current() == old(Current())
      ensures progress == Storage.WithScore(Storage.Decode(old(store.slot)), quizId, score)
      ensures Storage.Decode(store.slot) == progress
    {
      var p := store.SaveQuizScore(quizId, score);
      progress := p;
    }

    /** "Advance": opens the lesson after the open one in the course's
      reading order, or closes the lesson when there is none. */
    method Advance()
      requires activeCourse.Some? && activeLesson.Some?
      modifies this
      ensures Current() == old(Current()).(lesson := NextAfter(LessonsInOrder(old(activeCourse).value.units), old(activeLesson).value.id))
      ensures progress == old(progress)
    {
      var next := FindNextLesson(activeCourse.value.units, activeLesson.value.id);
      match next
      case Some(l) => SelectLesson(l);
      case None => activeLesson := None;
    }
  }
}
