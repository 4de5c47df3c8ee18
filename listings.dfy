/** What the shell's filters and the Advance button do over the generated
    catalog: each grade-and-subject pick lists its one generated course, the
    electives pick lists the elective, and Advance walks a catalog course's
    lessons one by one because their ids are distinct. */
module Listings {
  import opened Types
  import opened Courses
  import opened CatalogFacts
  import opened Navigation

  /** A generator that stamps each course with its own grade and subject. */
  ghost predicate Stamps(make: (string, string) -> Course) {
    forall g, s :: make(g, s).grade == g && make(g, s).subject == s
  }

  lemma GeneratorStamps(tables: Tables)
    ensures Stamps(Generator(tables))
  {
    forall g, s
      ensures Generator(tables)(g, s).grade == g && Generator(tables)(g, s).subject == s
    {
      var c := CreateCompleteCourse(tables, g, s);
    }
  }

  lemma ListingOfGrid(make: (string, string) -> Course, grades: seq<string>, subjects: seq<string>, extra: Course, g: string, s: string)
    requires Stamps(make) && g in grades && s in subjects && extra.grade !in grades
    ensures forall c :: c in AvailableCourses(CrossProduct(make, grades, subjects) + [extra], Some(g), Some(s)) <==> c == make(g, s)
  {
    forall c
      ensures c in AvailableCourses(CrossProduct(make, grades, subjects) + [extra], Some(g), Some(s)) <==> c == make(g, s)
    {
      CrossProductMember(make, grades, subjects, c);
    }
  }

  lemma ListingOfExtra(make: (string, string) -> Course, grades: seq<string>, subjects: seq<string>, extra: Course)
    requires Stamps(make) && extra.grade !in grades
    ensures forall c :: c in AvailableCourses(CrossProduct(make, grades, subjects) + [extra], Some(extra.grade), Some(extra.subject)) <==> c == extra
  {
    forall c
      ensures c in AvailableCourses(CrossProduct(make, grades, subjects) + [extra], Some(extra.grade), Some(extra.subject)) <==> c == extra
    {
      CrossProductMember(make, grades, subjects, c);
    }
  }

  /** Picking one of the grades and one of the main subjects lists the
      generated course of that grade and subject and nothing else. */
  lemma ListingIsTheCourse(tables: Tables, g: string, s: string)
    requires g in tables.grades && s in tables.mainSubjects && ELECTIVES !in tables.grades
    ensures forall c :: c in AvailableCourses(Catalog(tables), Some(g), Some(s)) <==> c == CreateCompleteCourse(tables, g, s)
  {
    GeneratorStamps(tables);
    ElectiveStamp(tables);
    ListingOfGrid(Generator(tables), tables.grades, tables.mainSubjects, ElectiveCourse(tables), g, s);
  }

  lemma ElectiveStamp(tables: Tables)
    ensures ElectiveCourse(tables).grade == ELECTIVES && ElectiveCourse(tables).subject == ELECTIVES
  {
  }

  /** Picking Electives under the electives category lists the elective and
      nothing else. */
  lemma ElectivesListing(tables: Tables)
    requires ELECTIVES !in tables.grades
    ensures forall c :: c in AvailableCourses(Catalog(tables), Some(ELECTIVES), Some(ELECTIVES)) <==> c == ElectiveCourse(tables)
  {
    GeneratorStamps(tables);
    ElectiveStamp(tables);
    ListingOfExtra(Generator(tables), tables.grades, tables.mainSubjects, ElectiveCourse(tables));
  }

  /** Electives is not one of the authored grades. */
  lemma ElectivesIsNotAGrade()
    ensures ELECTIVES !in GRADES
  {
  }

  /** No two lesson places of `units` share an id. */
  ghost predicate UnitLessonIdsDistinct(units: seq<Unit>) {
    forall u, k, v, m ::
      0 <= u < |units| && 0 <= k < |units[u].lessons| &&
      0 <= v < |units| && 0 <= m < |units[v].lessons| && (u != v || k != m)
      ==> units[u].lessons[k].id != units[v].lessons[m].id
  }

  /** Every lesson in reading order sits at some place of some unit. */
  lemma {:induction false} LessonsInOrderPlace(units: seq<Unit>, p: nat) returns (u: nat, k: nat)
    requires p < |LessonsInOrder(units)|
    ensures u < |units| && k < |units[u].lessons|
    ensures LessonsInOrder(units)[p] == units[u].lessons[k]
    ensures p == |LessonsInOrder(units[..u])| + k
    decreases |units|
  {
    var last := |units| - 1;
    var init := units[..last];
    assert LessonsInOrder(units) == LessonsInOrder(init) + units[last].lessons;
    if p < |LessonsInOrder(init)| {
      u, k := LessonsInOrderPlace(init, p);
      assert init[..u] == units[..u];
    } else {
      u, k := last, p - |LessonsInOrder(init)|;
      assert units[..u] == init;
    }
  }

  /** Distinct ids at distinct places make the reading order free of repeated
      ids. */
  lemma ReadingOrderDistinct(units: seq<Unit>)
    requires UnitLessonIdsDistinct(units)
    ensures DistinctIds(LessonsInOrder(units))
  {
    var ls := LessonsInOrder(units);
    forall p, q | 0 <= p < q < |ls|
      ensures ls[p].id != ls[q].id
    {
      var u, k := LessonsInOrderPlace(units, p);
      var v, m := LessonsInOrderPlace(units, q);
    }
  }

  /** With the id conditions met, Advance on a catalog course opens the
      lesson right after the open one in reading order, and after the last
      lesson opens none. */
  lemma AdvanceWalksCatalogCourse(tables: Tables, a: nat, p: nat)
    requires IdSafe(tables.grades, tables.mainSubjects) && a < |Catalog(tables)|
    requires p < |LessonsInOrder(Catalog(tables)[a].units)|
    ensures
      var ls := LessonsInOrder(Catalog(tables)[a].units);
      NextAfter(ls, ls[p].id) == if p + 1 < |ls| then Some(ls[p + 1]) else None
  {
    var units := Catalog(tables)[a].units;
    CatalogLessonIdsDistinct(tables);
    assert UnitLessonIdsDistinct(units);
    ReadingOrderDistinct(units);
    NextAfterIsSuccessor(LessonsInOrder(units), p);
  }
}
