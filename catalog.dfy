/** What the generated catalog guarantees: its order and size, unambiguous
    lesson ids, well-formed quizzes, and quiz ids shared between units of the
    same title. */
module CatalogFacts {
  import opened Types
  import opened Strings
  import opened Courses

  /** Every position of the cross product is `g * n + s` for a grade `g` and
      a subject `s`, and holds the course of that pair. */
  lemma {:induction false} CrossProductIndex(make: (string, string) -> Course, grades: seq<string>, subjects: seq<string>, a: nat)
    requires a < |CrossProduct(make, grades, subjects)|
    ensures exists g, s :: (0 <= g < |grades| && 0 <= s < |subjects| && a == g * |subjects| + s
      && CrossProduct(make, grades, subjects)[a] == make(grades[g], subjects[s]))
  {
    var n := |subjects|;
    var init := grades[..|grades| - 1];
    var prefix := CrossProduct(make, init, subjects);
    var row := GradeRow(make, grades[|grades| - 1], subjects);
    assert CrossProduct(make, grades, subjects) == prefix + row;
    if a < |prefix| {
      CrossProductIndex(make, init, subjects, a);
      var g, s :| 0 <= g < |init| && 0 <= s < n && a == g * n + s && prefix[a] == make(init[g], subjects[s]);
      assert init[g] == grades[g];
    } else {
      var g, s := |grades| - 1, a - |prefix|;
      assert a == g * n + s;
      assert row[s] == make(grades[g], subjects[s]);
    }
  }

  /** The cross product is grade-major: grade `g`, subject `s` sits at
      position `g * n + s`. */
  lemma {:induction false} CrossProductAt(make: (string, string) -> Course, grades: seq<string>, subjects: seq<string>, g: nat, s: nat)
    requires g < |grades| && s < |subjects|
    ensures g * |subjects| + s < |CrossProduct(make, grades, subjects)|
    ensures CrossProduct(make, grades, subjects)[g * |subjects| + s] == make(grades[g], subjects[s])
  {
    var n := |subjects|;
    var init := grades[..|grades| - 1];
    var prefix := CrossProduct(make, init, subjects);
    assert CrossProduct(make, grades, subjects) == prefix + GradeRow(make, grades[|grades| - 1], subjects);
    if g < |init| {
      CrossProductAt(make, init, subjects, g, s);
      assert init[g] == grades[g];
    } else {
      assert |prefix| == g * n;
    }
  }

  /** A course is in the cross product exactly when it is the course of one
      of the grades and one of the subjects. */
  lemma {:induction false} CrossProductMember(make: (string, string) -> Course, grades: seq<string>, subjects: seq<string>, c: Course)
    ensures c in CrossProduct(make, grades, subjects) <==>
      exists g, s :: g in grades && s in subjects && c == make(g, s)
  {
    if grades != [] {
      var init, last := grades[..|grades| - 1], grades[|grades| - 1];
      var row := GradeRow(make, last, subjects);
      CrossProductMember(make, init, subjects, c);
      assert grades == init + [last];
      assert CrossProduct(make, grades, subjects) == CrossProduct(make, init, subjects) + row;
      if c in row {
        var j :| 0 <= j < |row| && row[j] == c;
        assert last in grades && subjects[j] in subjects && c == make(last, subjects[j]);
      }
      if exists g, s :: g in grades && s in subjects && c == make(g, s) {
        var g, s :| g in grades && s in subjects && c == make(g, s);
        if g != last {
          assert g in init;
        } else {
          var j :| 0 <= j < |subjects| && subjects[j] == s;
          assert row[j] == c;
        }
      }
    }
  }

  /** The catalog lists grade `g`'s course of main subject `s` at position
      `g * n + s`, for `n` main subjects. */
  lemma CatalogAt(tables: Tables, g: nat, s: nat)
    requires g < |tables.grades| && s < |tables.mainSubjects|
    ensures g * |tables.mainSubjects| + s < |Catalog(tables)| - 1
    ensures Catalog(tables)[g * |tables.mainSubjects| + s]
      == CreateCompleteCourse(tables, tables.grades[g], tables.mainSubjects[s])
  {
    CrossProductAt(Generator(tables), tables.grades, tables.mainSubjects, g, s);
  }

  /** Over the authored grade and subject lists the catalog holds 13 grades
      times 4 main subjects plus the elective. */
  lemma AuthoredCatalogSize(tables: Tables)
    requires tables.grades == GRADES && tables.mainSubjects == MAIN_SUBJECTS
    ensures |Catalog(tables)| == 53
  {
  }

  lemma Grade8SixTitles() ensures forall s :: s in CURRICULUM_GRADE_8 ==> |CURRICULUM_GRADE_8[s]| == 6 {}
  lemma Grade9SixTitles() ensures forall s :: s in CURRICULUM_GRADE_9 ==> |CURRICULUM_GRADE_9[s]| == 6 {}
  lemma Grade10SixTitles() ensures forall s :: s in CURRICULUM_GRADE_10 ==> |CURRICULUM_GRADE_10[s]| == 6 {}
  lemma Grade11SixTitles() ensures forall s :: s in CURRICULUM_GRADE_11 ==> |CURRICULUM_GRADE_11[s]| == 6 {}
  lemma Grade12SixTitles() ensures forall s :: s in CURRICULUM_GRADE_12 ==> |CURRICULUM_GRADE_12[s]| == 6 {}

  /** Every authored unit list has six titles, so every generated course has
      six units. */
  lemma AuthoredSixTitles()
    ensures SixTitlesEach(AUTHORED)
  {
    Grade8SixTitles();
    Grade9SixTitles();
    Grade10SixTitles();
    Grade11SixTitles();
    Grade12SixTitles();
  }

  /** The part of a lesson id after the lower-cased subject. */
  function LessonSuffix(i: nat, k: nat): string
    requires k < 3
  {
    "u" + NatToString(i) + LessonTag(k)
  }

  lemma LessonIdShape(g: string, s: string, i: nat, k: nat)
    requires k < 3
    ensures LessonId(g, s, i, k) == g + "-" + (Lower(s) + "-" + LessonSuffix(i, k))
  {
  }

  /** A lesson tag is a dash followed by a tail that names the lesson. */
  lemma LessonTagSplit(k: nat)
    requires k < 3
    ensures LessonTag(k) == "-" + LessonTag(k)[1..]
  {
  }

  lemma LessonTagTailInjective(k1: nat, k2: nat)
    requires k1 < 3 && k2 < 3
    requires LessonTag(k1)[1..] == LessonTag(k2)[1..]
    ensures k1 == k2
  {
    assert LessonTag(k1)[2] == LessonTag(k2)[2];
  }

  /** "u", a dash-free number, a dash and a tail: the number and the tail
      are read back unambiguously. */
  lemma NumberedSplit(i1: nat, t1: string, i2: nat, t2: string)
    requires "u" + NatToString(i1) + "-" + t1 == "u" + NatToString(i2) + "-" + t2
    ensures i1 == i2 && t1 == t2
  {
    NatToStringHasNoDash(i1);
    NatToStringHasNoDash(i2);
    var u1, u2 := NatToString(i1) + "-" + t1, NatToString(i2) + "-" + t2;
    assert "u" + NatToString(i1) + "-" + t1 == "u" + u1;
    assert "u" + NatToString(i2) + "-" + t2 == "u" + u2;
    assert u1 == ("u" + u1)[1..] == ("u" + u2)[1..] == u2;
    DashSplit(NatToString(i1), t1, NatToString(i2), t2);
    NatToStringInjective(i1, i2);
  }

  /** The suffix names unit index and lesson unambiguously. */
  lemma LessonSuffixInjective(i1: nat, k1: nat, i2: nat, k2: nat)
    requires k1 < 3 && k2 < 3
    requires LessonSuffix(i1, k1) == LessonSuffix(i2, k2)
    ensures i1 == i2 && k1 == k2
  {
    var t1, t2 := LessonTag(k1)[1..], LessonTag(k2)[1..];
    LessonTagSplit(k1);
    LessonTagSplit(k2);
    assert LessonSuffix(i1, k1) == "u" + NatToString(i1) + "-" + t1;
    assert LessonSuffix(i2, k2) == "u" + NatToString(i2) + "-" + t2;
    NumberedSplit(i1, t1, i2, t2);
    LessonTagTailInjective(k1, k2);
  }

  /** A generated lesson id names its grade, its lower-cased subject, its
      unit index and its lesson unambiguously, provided grade and subject
      contain no dash. */
  lemma LessonIdInjective(g1: string, s1: string, i1: nat, k1: nat, g2: string, s2: string, i2: nat, k2: nat)
    requires k1 < 3 && k2 < 3
    requires '-' !in g1 && '-' !in g2 && '-' !in s1 && '-' !in s2
    requires LessonId(g1, s1, i1, k1) == LessonId(g2, s2, i2, k2)
    ensures g1 == g2 && Lower(s1) == Lower(s2) && i1 == i2 && k1 == k2
  {
    LowerKeepsNoDash(s1);
    LowerKeepsNoDash(s2);
    LessonIdShape(g1, s1, i1, k1);
    LessonIdShape(g2, s2, i2, k2);
    DashSplit(g1, Lower(s1) + "-" + LessonSuffix(i1, k1), g2, Lower(s2) + "-" + LessonSuffix(i2, k2));
    DashSplit(Lower(s1), LessonSuffix(i1, k1), Lower(s2), LessonSuffix(i2, k2));
    LessonSuffixInjective(i1, k1, i2, k2);
  }

  /** No generated lesson id is the elective's lesson id. */
  lemma ElectiveIdIsNotGenerated(g: string, s: string, i: nat, k: nat)
    requires k < 3 && '-' !in g && '-' !in s
    ensures LessonId(g, s, i, k) != "l-cs-1"
  {
    LowerKeepsNoDash(s);
    LessonIdShape(g, s, i, k);
    var r := Lower(s) + "-" + LessonSuffix(i, k);
    if g + "-" + r == "l" + "-" + "cs-1" {
      DashSplit(g, r, "l", "cs-1");
    }
  }

  /** What makes generated ids unambiguous: dash-free grades and subjects,
      distinct grades, and subjects distinct once lower-cased. */
  ghost predicate IdSafe(grades: seq<string>, subjects: seq<string>) {
    && (forall i :: 0 <= i < |grades| ==> '-' !in grades[i])
    && (forall j :: 0 <= j < |subjects| ==> '-' !in subjects[j])
    && (forall i, i' :: 0 <= i < i' < |grades| ==> grades[i] != grades[i'])
    && (forall j, j' :: 0 <= j < j' < |subjects| ==> Lower(subjects[j]) != Lower(subjects[j']))
  }

  /** No two lessons at different places of a course list share an id. */
  ghost predicate LessonIdsDistinct(cs: seq<Course>) {
    forall a, u, k, b, v, m ::
      0 <= a < |cs| && 0 <= u < |cs[a].units| && 0 <= k < |cs[a].units[u].lessons| &&
      0 <= b < |cs| && 0 <= v < |cs[b].units| && 0 <= m < |cs[b].units[v].lessons| &&
      (a != b || u != v || k != m)
      ==> cs[a].units[u].lessons[k].id != cs[b].units[v].lessons[m].id
  }

  /** A generator that gives lesson `k` of unit `u` of its course for grade
      `g` and subject `s` the template id. */
  ghost predicate TemplateIds(make: (string, string) -> Course) {
    forall g, s, u, k :: 0 <= u < |make(g, s).units| && 0 <= k < |make(g, s).units[u].lessons| ==>
      k < 3 && make(g, s).units[u].lessons[k].id == LessonId(g, s, u, k)
  }

  /** The elective's shape: one unit holding one lesson, "l-cs-1". */
  ghost predicate ElectiveShape(c: Course) {
    |c.units| == 1 && |c.units[0].lessons| == 1 && c.units[0].lessons[0].id == "l-cs-1"
  }

  /** Lesson `k` of unit `u` of a generated course has the template id. */
  lemma GeneratedLessonId(tables: Tables, g: string, s: string, u: nat, k: nat)
    requires u < |CreateCompleteCourse(tables, g, s).units|
    requires k < |CreateCompleteCourse(tables, g, s).units[u].lessons|
    ensures k < 3 && CreateCompleteCourse(tables, g, s).units[u].lessons[k].id == LessonId(g, s, u, k)
  {
    assert CreateCompleteCourse(tables, g, s).units[u] == MakeUnit(tables, g, s, u, UnitTitles(tables, g, s)[u]);
  }

  lemma GeneratorIds(tables: Tables)
    ensures TemplateIds(Generator(tables))
  {
    forall g, s, u, k | 0 <= u < |Generator(tables)(g, s).units| && 0 <= k < |Generator(tables)(g, s).units[u].lessons|
      ensures k < 3 && Generator(tables)(g, s).units[u].lessons[k].id == LessonId(g, s, u, k)
    {
      GeneratedLessonId(tables, g, s, u, k);
    }
  }

  lemma ElectiveIsShaped(tables: Tables)
    ensures ElectiveShape(ElectiveCourse(tables))
  {
  }

  /** Where a lesson of the grid of generated courses followed by the
      elective comes from: the elective's lesson, or lesson `k` of unit `u`
      of the course of grade `g` and subject `s` (all indices from zero). */
  datatype Origin = ElectiveLesson | GeneratedLesson(g: nat, s: nat, u: nat, k: nat)

  ghost predicate ValidOrigin(grades: seq<string>, subjects: seq<string>, o: Origin) {
    o.GeneratedLesson? ==> o.g < |grades| && o.s < |subjects| && o.k < 3
  }

  /** The id a lesson of that origin gets. */
  ghost function OriginId(grades: seq<string>, subjects: seq<string>, o: Origin): string
    requires ValidOrigin(grades, subjects, o)
  {
    match o
    case ElectiveLesson => "l-cs-1"
    case GeneratedLesson(g, s, u, k) => LessonId(grades[g], subjects[s], u, k)
  }

  /** Lesson `k` of unit `u` of course `a` of the grid followed by the
      elective has an origin at that place, and the origin's id. */
  lemma GridLesson(make: (string, string) -> Course, grades: seq<string>, subjects: seq<string>, extra: Course,
                   a: nat, u: nat, k: nat) returns (o: Origin)
    requires TemplateIds(make) && ElectiveShape(extra)
    requires var cs := CrossProduct(make, grades, subjects) + [extra];
      a < |cs| && u < |cs[a].units| && k < |cs[a].units[u].lessons|
    ensures ValidOrigin(grades, subjects, o)
    ensures o.ElectiveLesson? ==> a == |CrossProduct(make, grades, subjects)| && u == 0 && k == 0
    ensures o.GeneratedLesson? ==> a == o.g * |subjects| + o.s && u == o.u && k == o.k
    ensures (CrossProduct(make, grades, subjects) + [extra])[a].units[u].lessons[k].id == OriginId(grades, subjects, o)
  {
    var generated := CrossProduct(make, grades, subjects);
    if a < |generated| {
      CrossProductIndex(make, grades, subjects, a);
      var g, s :| 0 <= g < |grades| && 0 <= s < |subjects| && a == g * |subjects| + s
        && generated[a] == make(grades[g], subjects[s]);
      assert make(grades[g], subjects[s]).units[u].lessons[k].id == LessonId(grades[g], subjects[s], u, k);
      o := GeneratedLesson(g, s, u, k);
    } else {
      o := ElectiveLesson;
    }
  }

  /** Given dash-free, distinct grades and subjects, different origins give
      different ids. */
  lemma OriginIdInjective(grades: seq<string>, subjects: seq<string>, o1: Origin, o2: Origin)
    requires IdSafe(grades, subjects) && ValidOrigin(grades, subjects, o1) && ValidOrigin(grades, subjects, o2)
    requires o1 != o2
    ensures OriginId(grades, subjects, o1) != OriginId(grades, subjects, o2)
  {
    match (o1, o2)
    case (ElectiveLesson, GeneratedLesson(g, s, u, k)) =>
      ElectiveIdIsNotGenerated(grades[g], subjects[s], u, k);
    case (GeneratedLesson(g, s, u, k), ElectiveLesson) =>
      ElectiveIdIsNotGenerated(grades[g], subjects[s], u, k);
    case (GeneratedLesson(g1, s1, u1, k1), GeneratedLesson(g2, s2, u2, k2)) =>
      if OriginId(grades, subjects, o1) == OriginId(grades, subjects, o2) {
        LessonIdInjective(grades[g1], subjects[s1], u1, k1, grades[g2], subjects[s2], u2, k2);
      }
    case (ElectiveLesson, ElectiveLesson) =>
  }

  /** A generator with template ids over safe grades and subjects, followed
      by the elective, never repeats a lesson id. */
  lemma GridIdsDistinct(make: (string, string) -> Course, grades: seq<string>, subjects: seq<string>, extra: Course)
    requires TemplateIds(make) && ElectiveShape(extra) && IdSafe(grades, subjects)
    ensures LessonIdsDistinct(CrossProduct(make, grades, subjects) + [extra])
  {
    var cs := CrossProduct(make, grades, subjects) + [extra];
    forall a, u, k, b, v, m |
      0 <= a < |cs| && 0 <= u < |cs[a].units| && 0 <= k < |cs[a].units[u].lessons| &&
      0 <= b < |cs| && 0 <= v < |cs[b].units| && 0 <= m < |cs[b].units[v].lessons| &&
      (a != b || u != v || k != m)
      ensures cs[a].units[u].lessons[k].id != cs[b].units[v].lessons[m].id
    {
      var o1 := GridLesson(make, grades, subjects, extra, a, u, k);
      var o2 := GridLesson(make, grades, subjects, extra, b, v, m);
      OriginIdInjective(grades, subjects, o1, o2);
    }
  }

  /** Given dash-free, distinct grades and subjects, no two lessons of the
      catalog share an id. */
  lemma CatalogLessonIdsDistinct(tables: Tables)
    requires IdSafe(tables.grades, tables.mainSubjects)
    ensures LessonIdsDistinct(Catalog(tables))
  {
    GeneratorIds(tables);
    ElectiveIsShaped(tables);
    GridIdsDistinct(Generator(tables), tables.grades, tables.mainSubjects, ElectiveCourse(tables));
  }

  /** The authored grade and subject lists meet those conditions. */
  lemma AuthoredIdSafe()
    ensures IdSafe(GRADES, MAIN_SUBJECTS)
  {
  }

  /** The content of lesson `k` of a generated unit is the template of its
      kind for the unit's title. */
  lemma GeneratedLessonContent(tables: Tables, g: string, s: string, u: nat, k: nat)
    requires u < |CreateCompleteCourse(tables, g, s).units|
    requires k < |CreateCompleteCourse(tables, g, s).units[u].lessons|
    ensures k < 3 && CreateCompleteCourse(tables, g, s).units[u].lessons[k].content
      == GenerateLessonContent(tables, UnitTitles(tables, g, s)[u], KindAt(k))
  {
    assert CreateCompleteCourse(tables, g, s).units[u] == MakeUnit(tables, g, s, u, UnitTitles(tables, g, s)[u]);
  }

  /** Every quiz in every lesson of a course list has a question, and every
      question's correct option is one of its options. */
  ghost predicate QuizzesValidThroughout(cs: seq<Course>) {
    forall a, u, k :: 0 <= a < |cs| && 0 <= u < |cs[a].units| && 0 <= k < |cs[a].units[u].lessons| ==>
      QuizzesValid(cs[a].units[u].lessons[k].content)
  }

  ghost predicate MakesValidQuizzes(make: (string, string) -> Course) {
    forall g, s, u, k :: 0 <= u < |make(g, s).units| && 0 <= k < |make(g, s).units[u].lessons| ==>
      QuizzesValid(make(g, s).units[u].lessons[k].content)
  }

  lemma GridQuizzesValid(make: (string, string) -> Course, grades: seq<string>, subjects: seq<string>, extra: Course)
    requires MakesValidQuizzes(make) && QuizzesValidThroughout([extra])
    ensures QuizzesValidThroughout(CrossProduct(make, grades, subjects) + [extra])
  {
    var generated := CrossProduct(make, grades, subjects);
    var cs := generated + [extra];
    forall a, u, k | 0 <= a < |cs| && 0 <= u < |cs[a].units| && 0 <= k < |cs[a].units[u].lessons|
      ensures QuizzesValid(cs[a].units[u].lessons[k].content)
    {
      if a < |generated| {
        CrossProductIndex(make, grades, subjects, a);
      } else {
        assert cs[a] == [extra][0];
      }
    }
  }

  lemma GeneratorQuizzes(tables: Tables)
    ensures MakesValidQuizzes(Generator(tables))
  {
    forall g, s, u, k | 0 <= u < |Generator(tables)(g, s).units| && 0 <= k < |Generator(tables)(g, s).units[u].lessons|
      ensures QuizzesValid(Generator(tables)(g, s).units[u].lessons[k].content)
    {
      GeneratedLessonContent(tables, g, s, u, k);
    }
  }

  lemma ElectiveQuizzes(tables: Tables)
    ensures QuizzesValidThroughout([ElectiveCourse(tables)])
  {
  }

  /** Every quiz anywhere in the catalog has at least one question, and
      every question's correct option is one of its options. */
  lemma CatalogQuizzesValid(tables: Tables)
    ensures QuizzesValidThroughout(Catalog(tables))
  {
    GeneratorQuizzes(tables);
    ElectiveQuizzes(tables);
    GridQuizzesValid(Generator(tables), tables.grades, tables.mainSubjects, ElectiveCourse(tables));
  }

  /** Units with the same title get the same three lessons' content, and so
      the same quiz ids (IntroQuizId and FinalQuizId of the title), whichever
      course they belong to. */
  lemma SameTitleSameContent(tables: Tables, g1: string, s1: string, i1: nat, g2: string, s2: string, i2: nat)
    requires i1 < |UnitTitles(tables, g1, s1)| && i2 < |UnitTitles(tables, g2, s2)|
    requires UnitTitles(tables, g1, s1)[i1] == UnitTitles(tables, g2, s2)[i2]
    ensures CreateCompleteCourse(tables, g1, s1).units[i1].lessons[0].content
      == CreateCompleteCourse(tables, g2, s2).units[i2].lessons[0].content
    ensures CreateCompleteCourse(tables, g1, s1).units[i1].lessons[1].content
      == CreateCompleteCourse(tables, g2, s2).units[i2].lessons[1].content
    ensures CreateCompleteCourse(tables, g1, s1).units[i1].lessons[2].content
      == CreateCompleteCourse(tables, g2, s2).units[i2].lessons[2].content
  {
    var title := UnitTitles(tables, g1, s1)[i1];
    assert CreateCompleteCourse(tables, g1, s1).units[i1] == MakeUnit(tables, g1, s1, i1, title);
    assert CreateCompleteCourse(tables, g2, s2).units[i2] == MakeUnit(tables, g2, s2, i2, title);
  }

  /** Every course without authored unit titles has units two to six titled
      "Unit 2" to "Unit 6", so those units share content and quiz ids across
      all such courses. */
  lemma FallbackTitlesShared(tables: Tables, g1: string, s1: string, g2: string, s2: string, i: nat)
    requires !(g1 in tables.curriculum && s1 in tables.curriculum[g1])
    requires !(g2 in tables.curriculum && s2 in tables.curriculum[g2])
    requires 1 <= i < 6
    ensures UnitTitles(tables, g1, s1)[i] == UnitTitles(tables, g2, s2)[i] == "Unit " + NatToString(i + 1)
  {
  }

  lemma SocialStudies8Unit5()
    ensures "Social Studies" in CURRICULUM_GRADE_8
    ensures |CURRICULUM_GRADE_8["Social Studies"]| == 6 && CURRICULUM_GRADE_8["Social Studies"][4] == "Modern Geopolitics"
  {
  }

  lemma SocialStudies10Unit5()
    ensures "Social Studies" in CURRICULUM_GRADE_10
    ensures |CURRICULUM_GRADE_10["Social Studies"]| == 6 && CURRICULUM_GRADE_10["Social Studies"][4] == "Modern Geopolitics"
  {
  }

  lemma CurriculumRow8()
    ensures "8" in CURRICULUM_MAP && CURRICULUM_MAP["8"] == CURRICULUM_GRADE_8
  {
  }

  lemma CurriculumRow10()
    ensures "10" in CURRICULUM_MAP && CURRICULUM_MAP["10"] == CURRICULUM_GRADE_10
  {
  }

  /** "Modern Geopolitics" is unit 5 of both grade 8 and grade 10 Social
      Studies, so those two units share their quiz ids. */
  lemma ModernGeopoliticsShared(tables: Tables)
    requires tables.curriculum == CURRICULUM_MAP
    ensures |UnitTitles(tables, "8", "Social Studies")| == 6 && |UnitTitles(tables, "10", "Social Studies")| == 6
    ensures UnitTitles(tables, "8", "Social Studies")[4] == UnitTitles(tables, "10", "Social Studies")[4] == "Modern Geopolitics"
  {
    CurriculumRow8();
    CurriculumRow10();
    SocialStudies8Unit5();
    SocialStudies10Unit5();
  }

  /** No topic record is authored for "Complexity". */
  lemma ComplexityIsIncomplete(tables: Tables)
    requires tables.topics == TOPIC_DETAILS
    ensures IsTopicIncomplete(tables, "Complexity")
  {
    assert Lower("Complexity") == "complexity";
  }

  /** So the elective's only lesson opens with the in-development warning. */
  lemma ElectiveIsInDevelopment(tables: Tables)
    requires tables.topics == TOPIC_DETAILS
    ensures ElectiveCourse(tables).units[0].lessons[0].content[1].variant == Warning
  {
    ComplexityIsIncomplete(tables);
    var content := IntroContent(tables, "Complexity");
    assert ElectiveCourse(tables).units[0].lessons[0].content == content;
  }
}
