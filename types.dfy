/** The records shared by the catalog, the widgets and the progress store
    (Course, Unit, Lesson, the four kinds of content block, quiz questions
    and the persisted user progress). */
module Types {

  datatype Option<+T> = None | Some(value: T)

  /** The colour scheme of a callout block. */
  datatype CalloutVariant = Info | Warning | Tip

  datatype QuizQuestion = QuizQuestion(
    id: string,
    text: string,
    options: seq<string>,
    correctIndex: int,
    explanation: string)

  /** The correct option of a question is one of its options. */
  predicate ValidQuestion(q: QuizQuestion) {
    0 <= q.correctIndex < |q.options|
  }

  /** One renderable piece of lesson content, dispatched on its tag. */
  datatype ContentBlock =
    | Text(content: string)
    | Example(title: string, problem: string, steps: seq<string>)
    | Quiz(id: string, title: string, questions: seq<QuizQuestion>)
    | Callout(title: string, content: string, variant: CalloutVariant)

  datatype Lesson = Lesson(id: string, title: string, description: string, content: seq<ContentBlock>)

  datatype Unit = Unit(id: string, title: string, lessons: seq<Lesson>)

  datatype Course = Course(
    id: string,
    title: string,
    grade: string,
    subject: string,
    description: string,
    units: seq<Unit>)

  /** The persisted document: completed lesson ids in completion order and
      the best score per quiz id. */
  datatype Progress = Progress(completedLessons: seq<string>, quizScores: map<string, int>)
}
