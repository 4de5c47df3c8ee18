/** The static catalog: a course per grade and main subject, six units per
    course, three lessons per unit, and lesson content generated from an
    authored-topic table with a placeholder fallback for unauthored topics. */
module Courses {
  import opened Types
  import opened Strings

  const ELEMENTARY: seq<string> := ["K", "1", "2", "3", "4", "5"]
  const MIDDLE: seq<string> := ["6", "7", "8"]
  const HIGH: seq<string> := ["9", "10", "11", "12"]

  const GRADES: seq<string> := ELEMENTARY + MIDDLE + HIGH
  const MAIN_SUBJECTS: seq<string> := ["Math", "Science", "ELA", "Social Studies"]

  /** Authored unit titles of grades 8 to 12, one table per grade keyed by
      subject. */
  const CURRICULUM_GRADE_8: map<string, seq<string>> := map[
    "Math" := ["Irrational Numbers", "Exponents & Roots", "Linear Equations", "Functions Basics", "Pythagorean Theorem", "Scatter Plots"],
    "Science" := ["Atoms and Elements", "The Periodic Table", "Sound and Light Waves", "Natural Selection", "Plate Tectonics", "Stars and Galaxies"],
    "ELA" := ["Advanced Literary Analysis", "Research Methodology", "Modernism", "Journalism", "Debate Skills", "Speech Writing"],
    "Social Studies" := ["The Early Republic", "Manifest Destiny", "Reconstruction", "The Gilded Age", "Modern Geopolitics", "The Digital Age"]
  ]

  const CURRICULUM_GRADE_9: map<string, seq<string>> := map[
    "Math" := ["Algebra 1 Foundations", "Linear Functions", "Quadratic Equations", "Systems of Equations", "Exponential Growth", "Radical Expressions"],
    "Science" := ["Biology Foundations", "Cellular Biology", "Genetics & DNA", "Ecology", "Human Anatomy", "Biological Evolution"],
    "ELA" := ["World Literature", "Epic Poetry", "Short Story Analysis", "MLA Formatting", "Vocabulary Expansion", "Literary Criticism"],
    "Social Studies" := ["World History Part 1", "Early Civilizations", "Imperialism", "The Industrial Revolution", "Nationalism", "Global Conflicts"]
  ]

  const CURRICULUM_GRADE_10: map<string, seq<string>> := map[
    "Math" := ["Geometry Proofs", "Circles and Volume", "Trigonometry Basics", "Probability & Logic", "Coordinate Geometry", "Similarity"],
    "Science" := ["Chemistry Basics", "Stoichiometry", "The Mole Concept", "Gas Laws", "Solutions and Acids", "Organic Chemistry"],
    "ELA" := ["English Literature", "Medieval Classics", "Renaissance Writers", "Shakespearean Study", "Gothic Fiction", "The Novel Form"],
    "Social Studies" := ["World History Part 2", "WWI and WWII", "The Cold War", "Decolonization", "Modern Geopolitics", "Human Rights"]
  ]

  const CURRICULUM_GRADE_11: map<string, seq<string>> := map[
    "Math" := ["Algebra 2 & Trig", "Complex Numbers", "Logarithmic Functions", "Conic Sections", "Sequence and Series", "Matrix Algebra"],
    "Science" := ["Physics Dynamics", "Force and Motion", "Fluid Mechanics", "Thermodynamics", "Electricity", "Optics"],
    "ELA" := ["American Literature", "The Transcendentalists", "Harlem Renaissance", "Post-War Realism", "Beat Generation", "Contemporary Fiction"],
    "Social Studies" := ["Modern US History", "Industrialization", "The World Wars", "The Civil Rights Era", "Vietnam & Cold War", "21st Century Issues"]
  ]

  const CURRICULUM_GRADE_12: map<string, seq<string>> := map[
    "Math" := ["Calculus AB/BC", "Limits and Continuity", "Differentiation", "Integration", "Vector Calculus", "Multivariable Study"],
    "Science" := ["Environmental Science", "Ecology & Energy", "Pollution Control", "Sustainability", "Population Science", "Atmospheric Study"],
    "ELA" := ["Comparative Literature", "Poetry Through Ages", "Post-Colonial Texts", "Literary Theory", "Advanced Rhetoric", "Senior Capstone"],
    "Social Studies" := ["US Gov & Economics", "The Constitution", "Microeconomics", "Macroeconomics", "Elections & Policy", "Foreign Relations"]
  ]

  /** Authored unit titles, keyed by grade and then by subject. */
  const CURRICULUM_MAP: map<string, map<string, seq<string>>> := map[
    "8" := CURRICULUM_GRADE_8,
    "9" := CURRICULUM_GRADE_9,
    "10" := CURRICULUM_GRADE_10,
    "11" := CURRICULUM_GRADE_11,
    "12" := CURRICULUM_GRADE_12
  ]

  /** The material one unit's three lessons are built from. */
  datatype TopicDetail = TopicDetail(
    def: string,
    why: string,
    obj: seq<string>,
    prob: string,
    steps: seq<string>,
    quiz: seq<QuizQuestion>)

  /** A record the lesson generator can use: it has a first question, and
      every question's correct option is one of its options. */
  predicate ValidDetail(d: TopicDetail) {
    |d.quiz| >= 1 && forall q :: q in d.quiz ==> ValidQuestion(q)
  }

  /** An authored record with its prose left abstract: every authored topic
      has three objectives, `stepCount` worked steps and one question with
      four options whose first option is the correct one. */
  function Authored(key: string, quizId: string, stepCount: nat): (d: TopicDetail)
    ensures ValidDetail(d)
    ensures |d.obj| == 3 && |d.steps| == stepCount
    ensures |d.quiz| == 1 && d.quiz[0].id == quizId
    ensures |d.quiz[0].options| == 4 && d.quiz[0].correctIndex == 0
  {
    TopicDetail(
      key + "/def",
      key + "/why",
      [key + "/obj1", key + "/obj2", key + "/obj3"],
      key + "/prob",
      seq(stepCount, (i: nat) => key + "/step" + NatToString(i + 1)),
      [QuizQuestion(quizId, key + "/question",
        [key + "/option1", key + "/option2", key + "/option3", key + "/option4"], 0,
        key + "/explanation")])
  }

  /** What the authored-topic table records of each topic: the id of its one
      quiz question and the number of its worked steps. */
  datatype AuthoredTopic = AuthoredTopic(quizId: string, stepCount: nat)

  /** The authored-topic table, keyed by lower-cased unit title. */
  const TOPIC_DETAILS: map<string, AuthoredTopic> := map[
    "irrational numbers" := AuthoredTopic("8_m_irr_1", 5),
    "exponents & roots" := AuthoredTopic("8_m_exp_1", 4),
    "linear equations" := AuthoredTopic("8_m_lin_1", 4),
    "functions basics" := AuthoredTopic("8_m_fun_1", 4),
    "pythagorean theorem" := AuthoredTopic("8_m_pyth_1", 5),
    "scatter plots" := AuthoredTopic("8_m_sca_1", 4),
    "calculus ab/bc" := AuthoredTopic("12_m_ab_bc_1", 6),
    "limits and continuity" := AuthoredTopic("12_m_limits_1", 4),
    "differentiation" := AuthoredTopic("12_m_diff_1", 5),
    "integration" := AuthoredTopic("12_m_int_1", 6),
    "vector calculus" := AuthoredTopic("12_m_vec_1", 4),
    "multivariable study" := AuthoredTopic("12_m_multi_1", 5),
    "environmental science" := AuthoredTopic("12_s_env_1", 5),
    "ecology & energy" := AuthoredTopic("12_s_eco_1", 5),
    "pollution control" := AuthoredTopic("12_s_pol_1", 4),
    "sustainability" := AuthoredTopic("12_s_sus_1", 4),
    "population science" := AuthoredTopic("12_s_pop_1", 4),
    "atmospheric study" := AuthoredTopic("12_s_atm_1", 5)
  ]

  /** The two authored tables the generator reads. Every generating function
      takes them as a parameter; the catalog itself is generated from
      AUTHORED, the tables above. */
  datatype Tables = Tables(
    grades: seq<string>,
    mainSubjects: seq<string>,
    curriculum: map<string, map<string, seq<string>>>,
    topics: map<string, AuthoredTopic>)

  const AUTHORED: Tables := Tables(GRADES, MAIN_SUBJECTS, CURRICULUM_MAP, TOPIC_DETAILS)

  /** A unit is incomplete when its lower-cased title has no authored record. */
  predicate IsTopicIncomplete(tables: Tables, title: string) {
    Lower(title) !in tables.topics
  }

  /** The record synthesised for a topic nobody has authored yet: two
      objectives, two steps and one question with three options whose first
      option, acknowledging that the unit is in development, is correct. */
  function Placeholder(unitTitle: string): (d: TopicDetail)
    ensures ValidDetail(d)
    ensures |d.obj| == 2 && |d.steps| == 2
    ensures |d.quiz| == 1 && d.quiz[0].id == "gen_" + Lower(unitTitle)
    ensures |d.quiz[0].options| == 3 && d.quiz[0].correctIndex == 0
  {
    TopicDetail(
      "pending/def:" + unitTitle,
      "pending/why",
      ["pending/obj1", "pending/obj2"],
      "pending/prob:" + unitTitle,
      ["pending/step1", "pending/step2"],
      [QuizQuestion("gen_" + Lower(unitTitle), "pending/question",
        ["pending/option1", "pending/option2", "pending/option3"], 0,
        "pending/explanation")])
  }

  /** The record a unit's lessons are generated from: the authored one exactly
      when the topic is not incomplete, the placeholder otherwise. */
  function DetailFor(tables: Tables, unitTitle: string): (d: TopicDetail)
    ensures ValidDetail(d)
    ensures !IsTopicIncomplete(tables, unitTitle) ==>
      d == Authored(Lower(unitTitle), tables.topics[Lower(unitTitle)].quizId, tables.topics[Lower(unitTitle)].stepCount)
    ensures IsTopicIncomplete(tables, unitTitle) ==> d == Placeholder(unitTitle)
  {
    var norm := Lower(unitTitle);
    if norm in tables.topics then Authored(norm, tables.topics[norm].quizId, tables.topics[norm].stepCount)
    else Placeholder(unitTitle)
  }

  /** A generated quiz id: the prefix of its lesson kind and the lower-cased
      unit title, and nothing else. */
  function IntroQuizId(unitTitle: string): string { "q-intro-" + Lower(unitTitle) }
  function FinalQuizId(unitTitle: string): string { "q-final-" + Lower(unitTitle) }

  /** The three lesson templates of a unit: concepts, practice, validation. */
  datatype LessonKind = Intro | Practice | Final

  predicate QuizzesValid(blocks: seq<ContentBlock>) {
    forall b :: b in blocks && b.Quiz? ==> |b.questions| >= 1 && forall q :: q in b.questions ==> ValidQuestion(q)
  }

  /** The concepts lesson: an overview, a callout whose colour flags an
      unauthored topic, and a quiz holding the record's first question. */
  function IntroContent(tables: Tables, unitTitle: string): (r: seq<ContentBlock>)
    ensures QuizzesValid(r)
    ensures |r| == 3 && r[0].Text? && r[1].Callout? && r[2].Quiz?
    ensures r[1].variant == Warning <==> IsTopicIncomplete(tables, unitTitle)
    ensures r[1].variant == Info <==> !IsTopicIncomplete(tables, unitTitle)
    ensures r[2].id == IntroQuizId(unitTitle)
    ensures r[2].questions == [DetailFor(tables, unitTitle).quiz[0]]
  {
    var isIncomplete := IsTopicIncomplete(tables, unitTitle);
    var data := DetailFor(tables, unitTitle);
    [ Text("# " + unitTitle + ": " + (if isIncomplete then "[IN DEVELOPMENT]" else "Conceptual Foundations")
           + "\n\n" + data.def + "\n\n### Strategic Importance\n" + data.why),
      Callout(if isIncomplete then "Status: Pending Expansion" else "Success Metrics",
              Join(seq(|data.obj|, i requires 0 <= i < |data.obj| => "- " + data.obj[i]), "\n"),
              if isIncomplete then Warning else Info),
      Quiz(IntroQuizId(unitTitle), "Conceptual Audit", [data.quiz[0]]) ]
  }

  /** The practice lesson: a short introduction and the worked example. */
  function PracticeContent(tables: Tables, unitTitle: string): (r: seq<ContentBlock>)
    ensures QuizzesValid(r)
    ensures |r| == 2 && r[0].Text? && r[1].Example?
    ensures r[1].title == unitTitle && r[1].steps == DetailFor(tables, unitTitle).steps
  {
    var data := DetailFor(tables, unitTitle);
    [ Text("# Practical Application: " + unitTitle + "\n\n"
           + (if IsTopicIncomplete(tables, unitTitle) then "practice/pending"
              else "practice/authored")),
      Example(unitTitle, data.prob, data.steps) ]
  }

  /** The validation lesson: a short introduction and a quiz holding every
      question of the record. */
  function FinalContent(tables: Tables, unitTitle: string): (r: seq<ContentBlock>)
    ensures QuizzesValid(r)
    ensures |r| == 2 && r[0].Text? && r[1].Quiz?
    ensures r[1].id == FinalQuizId(unitTitle)
    ensures r[1].questions == DetailFor(tables, unitTitle).quiz
  {
    var data := DetailFor(tables, unitTitle);
    [ Text("# Final Proficiency Validation: " + unitTitle + "\n\n"
           + (if IsTopicIncomplete(tables, unitTitle) then "validation/pending"
              else "validation/authored")),
      Quiz(FinalQuizId(unitTitle), unitTitle + " Validation", data.quiz) ]
  }

  /** The content of one lesson of the unit titled `unitTitle`. */
  function GenerateLessonContent(tables: Tables, unitTitle: string, kind: LessonKind): (r: seq<ContentBlock>)
    ensures QuizzesValid(r)
  {
    match kind
    case Intro => IntroContent(tables, unitTitle)
    case Practice => PracticeContent(tables, unitTitle)
    case Final => FinalContent(tables, unitTitle)
  }

  /** Every authored unit list has six titles. */
  predicate SixTitlesEach(tables: Tables) {
    forall g, s :: g in tables.curriculum && s in tables.curriculum[g] ==> |tables.curriculum[g][s]| == 6
  }

  /** The six unit titles of a course: the authored list when the curriculum
      table has one for this grade and subject, else numbered placeholders. */
  function UnitTitles(tables: Tables, grade: string, subject: string): (r: seq<string>)
    ensures SixTitlesEach(tables) ==> |r| == 6
    ensures grade in tables.curriculum && subject in tables.curriculum[grade] ==> r == tables.curriculum[grade][subject]
    ensures !(grade in tables.curriculum && subject in tables.curriculum[grade]) ==>
      r == ["Grade " + grade + " " + subject + " Unit 1", "Unit 2", "Unit 3", "Unit 4", "Unit 5", "Unit 6"]
  {
    if grade in tables.curriculum && subject in tables.curriculum[grade] then tables.curriculum[grade][subject]
    else ["Grade " + grade + " " + subject + " Unit 1", "Unit 2", "Unit 3", "Unit 4", "Unit 5", "Unit 6"]
  }

  function CourseId(grade: string, subject: string): string {
    grade + "-" + Lower(subject)
  }

  function UnitId(grade: string, subject: string, idx: nat): string {
    CourseId(grade, subject) + "-u" + NatToString(idx)
  }

  /** The id suffix of a unit's lesson `k`, counted from zero. */
  function LessonTag(k: nat): string
    requires k < 3
  {
    if k == 0 then "-l1" else if k == 1 then "-l2" else "-l3"
  }

  /** The id of lesson `k` (from zero) of unit `idx`. */
  function LessonId(grade: string, subject: string, idx: nat, k: nat): string
    requires k < 3
  {
    UnitId(grade, subject, idx) + LessonTag(k)
  }

  /** The template of a unit's lesson `k`: concepts, practice, validation. */
  function KindAt(k: nat): LessonKind
    requires k < 3
  {
    if k == 0 then Intro else if k == 1 then Practice else Final
  }

  /** Unit `idx` of a generated course: its id, its title and three lessons,
      concepts, practice and validation, generated from the title. */
  function MakeUnit(tables: Tables, grade: string, subject: string, idx: nat, title: string): (u: Unit)
    ensures u.id == UnitId(grade, subject, idx) && u.title == title && |u.lessons| == 3
    ensures forall k :: 0 <= k < 3 ==> u.lessons[k].id == LessonId(grade, subject, idx, k)
    ensures forall k :: 0 <= k < 3 ==> u.lessons[k].content == GenerateLessonContent(tables, title, KindAt(k))
  {
    Unit(UnitId(grade, subject, idx), title, [
      Lesson(LessonId(grade, subject, idx, 0), "Concepts", "Theory and logic.", GenerateLessonContent(tables, title, Intro)),
      Lesson(LessonId(grade, subject, idx, 1), "Practice", "Applied logic.", GenerateLessonContent(tables, title, Practice)),
      Lesson(LessonId(grade, subject, idx, 2), "Validation", "Assessment.", GenerateLessonContent(tables, title, Final))
    ])
  }

  /** The generated course of one grade and subject: six units, one per unit
      title, in order. */
  function CreateCompleteCourse(tables: Tables, grade: string, subject: string): (c: Course)
    ensures c.id == CourseId(grade, subject) && c.grade == grade && c.subject == subject
    ensures |c.units| == |UnitTitles(tables, grade, subject)|
    ensures forall i :: 0 <= i < |c.units| ==> c.units[i] == MakeUnit(tables, grade, subject, i, UnitTitles(tables, grade, subject)[i])
  {
    var titles := UnitTitles(tables, grade, subject);
    Course(
      CourseId(grade, subject),
      subject + " Grade " + grade,
      grade,
      subject,
      "A specialized 6-unit academic curriculum for Grade " + grade + " " + subject + ", aligned with core proficiency standards.",
      seq(|titles|, i requires 0 <= i < |titles| => MakeUnit(tables, grade, subject, i, titles[i])))
  }

  /** The one elective, authored by hand; its single lesson reuses the intro
      template for the title "Complexity". */
  function ElectiveCourse(tables: Tables): Course {
    Course(
      "elec-cs",
      "Foundations of Computer Science",
      "Electives",
      "Electives",
      "A comprehensive look at algorithmic efficiency, data structures, and computational thinking.",
      [Unit("u-cs-1", "Complexity Theory", [
        Lesson("l-cs-1", "Big O Notation", "Measuring efficiency.", GenerateLessonContent(tables, "Complexity", Intro))
      ])])
  }

  /** The courses one grade contributes: one per subject, in order. */
  function GradeRow(make: (string, string) -> Course, grade: string, subjects: seq<string>): (cs: seq<Course>)
    ensures |cs| == |subjects|
    ensures forall j :: 0 <= j < |cs| ==> cs[j] == make(grade, subjects[j])
  {
    seq(|subjects|, j requires 0 <= j < |subjects| => make(grade, subjects[j]))
  }

  /** Every grade crossed with every subject, grade-major: each grade's row
      in turn. */
  function CrossProduct(make: (string, string) -> Course, grades: seq<string>, subjects: seq<string>): (cs: seq<Course>)
    ensures |cs| == |grades| * |subjects|
  {
    if grades == [] then []
    else CrossProduct(make, grades[..|grades| - 1], subjects) + GradeRow(make, grades[|grades| - 1], subjects)
  }

  /** The course generator over the given tables. */
  function Generator(tables: Tables): (string, string) -> Course {
    (grade, subject) => CreateCompleteCourse(tables, grade, subject)
  }

  /** The catalog: the generated courses, then the elective. */
  function Catalog(tables: Tables): (cs: seq<Course>)
    ensures |cs| == |tables.grades| * |tables.mainSubjects| + 1
  {
    CrossProduct(Generator(tables), tables.grades, tables.mainSubjects) + [ElectiveCourse(tables)]
  }

  /** The nested pass of the module initialiser: for each grade in turn, for
      each subject in turn, push the generated course. */
  method PushCrossProduct(make: (string, string) -> Course, grades: seq<string>, subjects: seq<string>)
    returns (pushed: seq<Course>)
    ensures pushed == CrossProduct(make, grades, subjects)
  {
    pushed := [];
    var g := 0;
    while g < |grades|
      invariant 0 <= g <= |grades|
      invariant pushed == CrossProduct(make, grades[..g], subjects)
    {
      ghost var before, row := pushed, GradeRow(make, grades[g], subjects);
      var s := 0;
      while s < |subjects|
        invariant 0 <= s <= |subjects|
        invariant pushed == before + row[..s]
      {
        assert row[..s + 1] == row[..s] + [make(grades[g], subjects[s])];
        pushed := pushed + [make(grades[g], subjects[s])];
        s := s + 1;
      }
      assert grades[..g + 1][..g] == grades[..g];
      g := g + 1;
    }
    assert grades[..g] == grades;
  }

  /** Builds the catalog as the module initialiser does: the generated
      courses, then the elective. */
  method BuildCatalog(tables: Tables) returns (all: seq<Course>)
    ensures all == Catalog(tables)
  {
    all := PushCrossProduct(Generator(tables), tables.grades, tables.mainSubjects);
    all := all + [ElectiveCourse(tables)];
  }
}
