# Undergrad learning app: a verified model of its core logic

Undergrad is a single-page K-12 learning app. Underneath its React screens
sit five small pieces of logic, and this project models each of them in
Dafny and proves what it promises:

- **Progress store** (`Storage`, `storage.dfy`). One persisted document
  holds the ids of completed lessons and the best score for each quiz.
  Reading falls back to an empty document. Completing a lesson appends its
  id once. Recording a score keeps the maximum. A write happens only when
  something changed.
- **Catalog generation** (`Courses`, `courses.dfy`; facts in
  `CatalogFacts`, `catalog.dfy`). Each grade and main subject gets a course
  with six units and three lessons per unit. Lesson content comes from an
  authored-topic table looked up by lower-cased unit title, or from a
  placeholder record when the title is not in the table. An elective course
  is added at the end.
- **Navigation** (`Navigation`, `app.dfy`; facts over the catalog in
  `Listings`, `listings.dfy`). The shell keeps the current view and the
  grade category, grade, subject, course and lesson picked so far. It has
  one handler per button, a back arrow, an "Advance" button that scans for
  the next lesson, and two filters: the subjects offered for each category
  and the courses offered for each grade and subject.
- **Quiz runner** (`QuizRunner`, `quiz.dfy`). It tracks the current
  question, one answer per question (-1 means unanswered), an explanation
  flag and a finished flag. When the quiz finishes it reports an integer
  score.
- **Stepped example** (`SteppedExample`, `interactive_example.dfy`). A
  counter of revealed steps; one button advances it until every step is
  shown.

Shared records (course, unit, lesson, the four kinds of content block, quiz
question, progress) are in `Types` (`types.dfy`). String helpers are in
`Strings` (`strings.dfy`): ASCII lower-casing, decimal rendering, and the
fact that dash-separated ids read back unambiguously.

Form of the model:

- The store, the shell, the quiz runner and the stepper are classes. Their
  fields are the source's state, and each handler is a method. Each method's
  postcondition ties the new state to a pure function of the old state, such
  as `WithLesson`, `WithScore`, `Back`, `NextAfter`, `Press` or `Score`.
- The catalog is built by pure functions. Only the push loops are
  methods: `PushCrossProduct` runs the nested grade and subject loops, and
  `BuildCatalog` calls it and appends the elective. Both are proved equal to
  the pure `CrossProduct` and `Catalog`.
- The generator takes its lookup tables (grades, main subjects, curriculum
  map, topic table) as one `Tables` value, so the structural facts hold for
  any tables. `AUTHORED` is the app's own tables.
- Prose is kept abstract: authored explanation and option texts are
  labelled tokens. Table keys, quiz ids, option counts, correct indices,
  step counts, id templates and block shapes are kept as in the source.

Two counts the app relies on:

- `GRADES` (data/courses.ts:258) lists K and grades 1 to 12, thirteen in
  all, so the catalog has 13 × 4 generated courses plus the elective, 53 in
  all (`CatalogFacts.AuthoredCatalogSize`).
- The course description (data/courses.ts:243) and the home page
  (App.tsx:103) call the courses "6-unit". That holds for the authored
  tables (`CatalogFacts.AuthoredSixTitles`). For arbitrary tables it holds
  only when each curriculum list has six titles, so `Courses.UnitTitles`
  states the length under that condition.

## Model

| member | source | states |
|---|---|---|
| Storage.Decode | utils/storage.ts:10-18 | Reading a stored document yields it; an absent slot or a payload that does not parse yields the empty document. |
| Storage.ProgressStore.GetProgress | utils/storage.ts:10-18 | Returns exactly the decoded slot and changes nothing. |
| Storage.ProgressStore.SaveLessonComplete | utils/storage.ts:20-27 | Returns the read document with the id added. The slot is untouched when the id was already listed and is overwritten with the result otherwise; either way the next read yields the returned document. |
| Storage.ProgressStore.SaveQuizScore | utils/storage.ts:29-38 | Returns the read document with the score recorded under the keep-the-best rule. It writes only when the score beats the current best (an absent entry counts as 0); the next read yields the returned document. |
| Storage.WithLessonFacts | utils/storage.ts:22-23 | After completion the id is listed. An already listed id leaves the document unchanged. A new id is appended after the earlier ids in their order. Scores are untouched and no duplicate is introduced. |
| Storage.WithLessonIdempotent | utils/storage.ts:22-26 | Completing the same lesson twice gives the same document as completing it once. |
| Storage.WithScoreKeepsMax | utils/storage.ts:32-34 | The new best for the quiz is the maximum of the old best and the score. Every other quiz keeps its best, and the completed lessons are unchanged. |
| Storage.WithScoreNoGain | utils/storage.ts:32-35 | A score at or below the current best changes nothing, so a score of 0 or less on an unseen quiz leaves it unseen. |
| Storage.WithScoreCommutes | utils/storage.ts:32-34 | Recording two scores in either order yields the same document. |
| Strings.Lower | data/courses.ts:198-202 | Lower-casing keeps the length and maps each ASCII capital to its lower-case letter, leaving other characters alone. |
| Strings.NatToStringInjective | data/courses.ts:245-250 | Distinct unit indices render as distinct decimal strings. |
| Strings.DashSplit | data/courses.ts:239-250 | A dash-free head followed by a dash and a tail is read back uniquely. |
| Courses.Placeholder | data/courses.ts:205-212 | The stand-in record has two objectives and two steps. Its one question has id `gen_` plus the lower-cased title and three options, and the first option is correct. |
| Courses.IsTopicIncomplete | data/courses.ts:197-199 | A unit counts as incomplete exactly when its lower-cased title is not a key of the topic table. |
| Courses.DetailFor | data/courses.ts:197-212 | Uses the authored record for the lower-cased title exactly when the topic is not incomplete, and the stand-in otherwise. The record is always well formed. |
| Courses.IntroContent | data/courses.ts:214-219 | The intro lesson is text, callout, quiz. The callout is a warning exactly when the topic is incomplete and info otherwise. The quiz id is `q-intro-` plus the lower-cased title, and the quiz holds exactly the record's first question. |
| Courses.PracticeContent | data/courses.ts:222-226 | The practice lesson is text then an example titled with the unit title, whose steps are the record's steps. |
| Courses.FinalContent | data/courses.ts:229-232 | The validation lesson is text then a quiz with id `q-final-` plus the lower-cased title, holding every question of the record. |
| Courses.GenerateLessonContent | data/courses.ts:201-233 | Every quiz block generated has at least one question, and each question's correct index lies within its options. |
| Courses.UnitTitles | data/courses.ts:236 | Uses the curriculum list when the grade and subject are in the table. Otherwise the titles are "Grade g s Unit 1" and then "Unit 2" to "Unit 6". There are six titles whenever every curriculum list has six. |
| Courses.MakeUnit | data/courses.ts:244-251 | A unit has the template id, the given title and exactly three lessons with ids ending `-l1`, `-l2`, `-l3`, whose content is the intro, practice and validation templates of the title. |
| Courses.CreateCompleteCourse | data/courses.ts:235-254 | The course id is grade, dash, lower-cased subject, and the course carries its grade and subject. It has one unit per unit title, and unit `i` is the template unit of title `i`. |
| Courses.GradeRow | data/courses.ts:262-264 | One grade contributes one course per main subject, in subject order. |
| Courses.CrossProduct | data/courses.ts:261-265 | The generated part of the catalog has grades × subjects courses. |
| Courses.ElectiveCourse | data/courses.ts:267-282 | The hand-written elective: id "elec-cs", grade and subject "Electives", one unit "u-cs-1" holding the one lesson "l-cs-1", whose content is the intro template for "Complexity". |
| Courses.Catalog | data/courses.ts:256-284 | The catalog has grades × main subjects courses plus the elective. |
| Courses.PushCrossProduct | data/courses.ts:261-265 | The nested push loops produce exactly the grade-major cross product. |
| Courses.BuildCatalog | data/courses.ts:256-284 | The assembled course list is exactly `Catalog`: the generated courses, then the elective. |
| CatalogFacts.CrossProductIndex | data/courses.ts:261-265 | Every catalog position below the elective is at `g * n + s` for some grade `g` and subject `s`, and holds that pair's course. |
| CatalogFacts.CrossProductAt | data/courses.ts:261-265 | The generated part is grade-major: grade `g`, subject `s` sits at position `g * n + s`. |
| CatalogFacts.CrossProductMember | data/courses.ts:261-265 | A course is generated exactly when it is the course of one of the grades and one of the subjects. |
| CatalogFacts.CatalogAt | data/courses.ts:256-267 | Each grade and main subject has its generated course at position `g * n + s` of the catalog, before the elective. |
| CatalogFacts.AuthoredCatalogSize | data/courses.ts:258-267 | With the app's 13 grades and 4 main subjects, the catalog has 53 courses. |
| CatalogFacts.AuthoredSixTitles | data/courses.ts:12-43 | Every authored curriculum list has six titles, so every generated course of the app has six units. |
| CatalogFacts.LessonSuffixInjective | data/courses.ts:248-250 | The part of a lesson id after the subject, `u` + unit index + `-l1`/`-l2`/`-l3`, determines the unit index and the lesson. |
| CatalogFacts.LessonIdInjective | data/courses.ts:245-250 | For dash-free grades and subjects, a generated lesson id determines the grade, the lower-cased subject, the unit index and the lesson. |
| CatalogFacts.ElectiveIdIsNotGenerated | data/courses.ts:248-250 | No generated lesson id equals the elective's lesson id `l-cs-1`. |
| CatalogFacts.GeneratedLessonId | data/courses.ts:244-251 | Lesson `k` of unit `u` of a generated course is one of three, and its id is the unit id followed by `-l1`, `-l2` or `-l3` for `k` = 0, 1, 2. |
| CatalogFacts.GeneratorIds | data/courses.ts:244-251 | The course generator gives every lesson of every course it makes that template id. |
| CatalogFacts.ElectiveIsShaped | data/courses.ts:267-282 | The elective has one unit holding one lesson, with id `l-cs-1`. |
| CatalogFacts.GridLesson | data/courses.ts:261-284 | For any generator with template ids, every lesson of the grid followed by the elective has an origin: the elective's single lesson, at the last position, or a grade, subject, unit and lesson that fix its position `g * n + s`. Its id is the one that origin dictates. |
| CatalogFacts.OriginIdInjective | data/courses.ts:245-250 | If grades are distinct and dash-free, and subjects are dash-free and distinct once lower-cased, then different origins give different lesson ids. |
| CatalogFacts.GridIdsDistinct | data/courses.ts:261-284 | Under those conditions, no two lessons at different places of such a grid followed by the elective share an id. |
| CatalogFacts.CatalogLessonIdsDistinct | data/courses.ts:245-284 | Under the same conditions, no two lessons of the whole catalog share an id. |
| CatalogFacts.AuthoredIdSafe | data/courses.ts:258-259 | The app's own grade and subject lists meet those conditions. |
| CatalogFacts.GeneratedLessonContent | data/courses.ts:244-251 | Lesson `k` of a generated unit has the intro, practice or validation template of the unit's title, for `k` = 0, 1, 2. |
| CatalogFacts.GridQuizzesValid | data/courses.ts:261-284 | If every lesson a generator makes has well-formed quizzes and so does the extra course, so does every lesson of the grid followed by it. |
| CatalogFacts.GeneratorQuizzes | data/courses.ts:201-251 | Every lesson of every generated course has well-formed quizzes. |
| CatalogFacts.ElectiveQuizzes | data/courses.ts:267-282 | The elective's lesson has well-formed quizzes. |
| CatalogFacts.CatalogQuizzesValid | data/courses.ts:201-284 | Every quiz anywhere in the catalog has a question, and each question's correct option is one of its options. |
| CatalogFacts.SameTitleSameContent | data/courses.ts:244-251 | Two units with the same title get identical lesson content in all three lessons, quiz ids included, whatever course they sit in. |
| CatalogFacts.FallbackTitlesShared | data/courses.ts:236 | Every course without authored titles has units two to six titled "Unit 2" to "Unit 6", so those units share quiz ids and best scores. |
| CatalogFacts.SocialStudies8Unit5 | data/courses.ts:17 | Grade 8 Social Studies has six units, the fifth titled "Modern Geopolitics". |
| CatalogFacts.SocialStudies10Unit5 | data/courses.ts:29 | Grade 10 Social Studies has six units, the fifth titled "Modern Geopolitics". |
| CatalogFacts.CurriculumRow8 | data/courses.ts:12-18 | The curriculum map's entry for grade 8 is the grade 8 table. |
| CatalogFacts.CurriculumRow10 | data/courses.ts:25-30 | The curriculum map's entry for grade 10 is the grade 10 table. |
| CatalogFacts.ModernGeopoliticsShared | data/courses.ts:12-30 | Grade 8 and grade 10 Social Studies both have "Modern Geopolitics" as unit 5, so those units share quiz ids. |
| CatalogFacts.ComplexityIsIncomplete | data/courses.ts:197-199 | The topic table has no record for "Complexity". |
| CatalogFacts.ElectiveIsInDevelopment | data/courses.ts:267-282 | So the elective's only lesson shows the in-development warning callout. |
| Navigation.Back | App.tsx:67-82 | An open lesson is closed first and nothing else changes. Otherwise: UNIT_STATUS goes to HOME keeping every selection; LESSON_VIEW goes to COURSE_LIST clearing the course; COURSE_LIST goes to SUBJECT_SELECT clearing the subject; SUBJECT_SELECT goes to HOME clearing the grade but not the category; HOME stays as it is. |
| Navigation.BackUndoesSelection | App.tsx:32-82 | One step back from a lesson, course or subject selection restores the screen it was made from. From a grade selection it does too, except that the category stays set. |
| Navigation.BackRetracesPath | App.tsx:32-82 | Grade, subject, course and lesson picked from the start, then four steps back, return to the start screen with grade, subject, course and lesson cleared; only the category stays set. |
| Navigation.BackReachesHome | App.tsx:67-82 | From any screen, four steps back reach HOME with no lesson open, and HOME with no lesson open is a fixed point. |
| Navigation.KeepShown | App.tsx:220-222 | Keeps, in order, the subjects shown under the category, never more than it was given. |
| Navigation.SubjectsShown | App.tsx:219-222 | The subject buttons in display order; Electives is among them exactly when the electives category is picked. |
| Navigation.KeepShownMembers | App.tsx:220-222 | A subject is kept exactly when it is in the list and allowed under the category: Electives only under the electives category, and the others only outside it. |
| Navigation.SubjectsShownMembers | App.tsx:219-222 | The buttons shown are exactly the allowed subjects among the five. |
| Navigation.SubjectsShownForElectives | App.tsx:219-222 | The electives category offers only Electives. |
| Navigation.SubjectsShownForOthers | App.tsx:219-222 | Every other category, and no category, offers Math, Science, ELA and Social Studies in this order, and never Electives. |
| Navigation.AvailableCourses | App.tsx:247 | A course is listed exactly when it is in the catalog and both its grade and its subject equal the selection; nothing is listed before both are picked. |
| Navigation.AvailableCoursesAppend | App.tsx:247 | The filter preserves catalog order: filtering a concatenation gives the concatenation of the filtered parts. |
| Navigation.FirstMatch | App.tsx:442-446 | Returns the position of the first lesson with the id, or -1 when there is none. |
| Navigation.FindNextLesson | App.tsx:440-448 | The nested scan with its found flag returns the lesson right after the first lesson with the open lesson's id, in unit-then-lesson order. It returns none when that lesson is the last or the id is absent. |
| Navigation.NextAfterIsSuccessor | App.tsx:440-448 | With distinct ids, Advance from position `k` opens position `k + 1`, and from the last lesson opens none. |
| Navigation.NextAfterMissing | App.tsx:440-448 | An id that no lesson of the course carries has no successor, so Advance closes the lesson. |
| Navigation.Shell.constructor | App.tsx:13-21 | The shell starts on HOME with nothing picked and the stored progress read. |
| Navigation.Shell.SelectGrade | App.tsx:32-36 | Sets the category and the grade, moves to SUBJECT_SELECT, and leaves everything else alone. |
| Navigation.Shell.SelectSubject | App.tsx:38-41 | Sets the subject and moves to COURSE_LIST. |
| Navigation.Shell.SelectCourse | App.tsx:43-47 | Sets the course, moves to LESSON_VIEW, and closes any open lesson. |
| Navigation.Shell.SelectLesson | App.tsx:49-53 | Opens the lesson and changes nothing else of the navigation state. |
| Navigation.Shell.OpenUnitStatus | App.tsx:95 | Moves to UNIT_STATUS keeping every selection, including from a course's unit list. |
| Navigation.Shell.CloseLesson | App.tsx:356 | Closes the open lesson only. |
| Navigation.Shell.GoBack | App.tsx:67-82 | The new navigation state is `Back` of the old one, and progress is untouched. |
| Navigation.Shell.LessonComplete | App.tsx:55-60 | With a lesson open, it stores the lesson as complete and shows the stored result, after which the lesson shows as done in the model (a save while the slot is still empty or malformed is the exception noted under "## Left out"). With none open, it changes nothing. |
| Navigation.Shell.QuizComplete | App.tsx:62-65 | Records the reported score under the keep-the-best rule and shows the stored result. |
| Navigation.Shell.Advance | App.tsx:440-448 | The open lesson becomes the next lesson in the course's reading order, or none. Nothing else changes. |
| Navigation.LessonDone | App.tsx:313 | A lesson shows as done exactly when its id is among the completed lessons, the test the unit list, the lesson header and the sidebar all make. |
| Listings.GeneratorStamps | data/courses.ts:240-241 | Every generated course carries the grade and subject it was generated for. |
| Listings.ListingOfGrid | App.tsx:247 | For any generator that stamps grade and subject, picking one of its grades and subjects lists that pair's course and nothing else, even with an extra course of another grade. |
| Listings.ListingOfExtra | App.tsx:247 | Picking the extra course's grade and subject lists only that course. |
| Listings.ListingIsTheCourse | App.tsx:247 | In the catalog, picking one of the grades and one of the main subjects lists that grade and subject's generated course and nothing else. |
| Listings.ElectivesListing | App.tsx:247 | Picking Electives under the electives category lists only the elective course. |
| Listings.ElectivesIsNotAGrade | data/courses.ts:258 | "Electives" is not one of the app's grades. |
| Listings.ReadingOrderDistinct | App.tsx:442-443 | If no two lesson places of a course share an id, the course's reading order has no repeated id. |
| Listings.AdvanceWalksCatalogCourse | App.tsx:440-448 | In every catalog course, Advance from the lesson at reading position `p` opens the lesson at `p + 1`, and from the last lesson opens none. |
| QuizRunner.CorrectCount | components/Quiz.tsx:39-41 | The count of correct answers is at most the number of questions. |
| QuizRunner.CorrectCountFull | components/Quiz.tsx:39-41 | Every question counts exactly when every answer equals its question's correct index. |
| QuizRunner.CorrectCountZero | components/Quiz.tsx:39-41 | No question counts exactly when no answer equals its question's correct index. |
| QuizRunner.Score | components/Quiz.tsx:42 | The score is 100·C/N rounded half up, that is the integer r with 2N·r ≤ 200C + N < 2N·(r+1), and it lies in 0..100. |
| QuizRunner.ScoreExtremes | components/Quiz.tsx:42 | All correct scores 100 and none correct scores 0. |
| QuizRunner.ScoreMonotone | components/Quiz.tsx:42 | More correct answers never give a lower score. |
| QuizRunner.QuizScoreExtremes | components/Quiz.tsx:39-42 | A quiz answered entirely correctly scores 100 and one with no correct answer scores 0. |
| QuizRunner.Runner.constructor | components/Quiz.tsx:14-17 | Starts at question 0 with every answer -1, the explanation hidden and the quiz not finished. |
| QuizRunner.Runner.NextOffered | components/Quiz.tsx:75 | The Next button shows exactly when the current question holds an answer other than -1 and the quiz is not finished. |
| QuizRunner.Runner.ShownScore | components/Quiz.tsx:54-55 | The finished screen recomputes the score from the answers; it lies in 0..100, is 100 when every answer is correct and 0 when none is. |
| QuizRunner.Runner.Select | components/Quiz.tsx:19-26 | Does nothing while the explanation shows or once finished. Otherwise it writes the option at the current index only and shows the explanation, and choosing an actual option brings up the Next button, which shows while the current answer is not -1. The index and the finished flag never change. |
| QuizRunner.Runner.Next | components/Quiz.tsx:28-35 | On a non-last question it moves one question on and hides the explanation, reporting nothing. On the last it finishes without moving and reports once the score the finished screen shows; after that no Next button is offered. The index stays in range. |
| QuizRunner.Runner.Finish | components/Quiz.tsx:37-44 | Sets the finished flag and returns the score of the current answers, which lies in 0..100 and equals the finished screen's score. |
| QuizRunner.Runner.Reset | components/Quiz.tsx:46-51 | Restores question 0, all answers -1, the explanation hidden and not finished, with nothing reported. |
| SteppedExample.Press | components/InteractiveExample.tsx:14-16 | One press adds exactly one while steps remain hidden and is a no-op at the cap, so the counter never decreases. |
| SteppedExample.StepShown | components/InteractiveExample.tsx:37 | Step idx (0-based) is visible exactly when idx is below the counter. |
| SteppedExample.ConnectorShown | components/InteractiveExample.tsx:48 | The connector below step idx shows exactly when that step is visible and is not the last. |
| SteppedExample.NextButtonShown | components/InteractiveExample.tsx:55 | "Show Next Step" shows exactly while the counter is below the number of steps. |
| SteppedExample.CompleteShown | components/InteractiveExample.tsx:64 | "Example Complete" shows exactly when the counter equals the number of steps. |
| SteppedExample.AfterPressesIsMin | components/InteractiveExample.tsx:14-16 | From any counter up to n, k presses give min(counter + k, n); from the start that is min(k, n). |
| SteppedExample.PressesReveal | components/InteractiveExample.tsx:33-38 | After k presses from the start, a step is shown exactly when its index is below both k and the number of steps. |
| SteppedExample.ExactlyOneControl | components/InteractiveExample.tsx:55-68 | While the counter is within range, exactly one of "Show Next Step" and "Example Complete" is shown. |
| SteppedExample.CompleteAfterAllSteps | components/InteractiveExample.tsx:55-68 | After at least n presses, "Example Complete" is shown and "Show Next Step" is not. |
| SteppedExample.PressKeepsShown | components/InteractiveExample.tsx:37-47 | A step that is shown, and the connector below it, stay shown after a press. |
| SteppedExample.ConnectorsReveal | components/InteractiveExample.tsx:47-49 | After k presses from the start, the connector below a step is shown exactly when the step is among the first k and is not the last. |
| SteppedExample.Stepper.constructor | components/InteractiveExample.tsx:12 | The counter starts at 0. |
| SteppedExample.Stepper.ShowNext | components/InteractiveExample.tsx:14-16 | The counter becomes `Press` of the old counter and never exceeds the number of steps. |

## Left out

- `localStorage`, `JSON.parse` and `JSON.stringify` are I/O. The persisted slot is modelled as absent, malformed or a stored document. An empty stored string reads like an absent one, as in the source. Storage.Decode: a payload that parses but is not a progress document, such as `null` or `{}`, is returned as is by the source, and the save functions then throw a TypeError on it. The three-state slot has no such case, so the model does not capture that failure.
- Storage.ProgressStore.SaveLessonComplete, Storage.ProgressStore.SaveQuizScore: when the slot is empty or malformed, `getProgress` returns the shared `DEFAULT_PROGRESS` object (storage.ts:13, 16), and both save functions mutate that object (storage.ts:23, 34) and return it. Later reads in the same session can see that aliasing. The model uses value semantics and does not capture it.
- Navigation.Shell.LessonComplete, Navigation.Shell.QuizComplete: while the slot is empty or malformed, the app's `progress` state is that same `DEFAULT_PROGRESS` object (App.tsx:21). The save mutates it and returns it, so `setProgress` (App.tsx:58, 64) receives the object it already holds, which React treats as no change. By reading the code, a "Complete & Save" made while the slot is still empty or malformed (on a fresh device: before any quiz has scored above 0) does not refresh the screen, although the data is stored; likewise the first quiz score above 0 on a fresh device. The model's update always shows the new document.
- QuizRunner.Runner, SteppedExample.Stepper, SteppedExample.ExactlyOneControl: each models one mount of its component. The lesson screen keys its blocks by position only (App.tsx:398-420), so a sidebar jump (App.tsx:374) between two lessons of the same kind keeps the widget's state. A stepper that has revealed 5 steps then shows a 4-step example with a counter of 5, past `Valid()`, where neither control is shown. A finished quiz stays finished on the next lesson's quiz and reports no score for its id. The model does not capture this reuse.
- QuizRunner.Score: the source computes `Math.round((C / N) * 100)` in floating point. The model uses the exact integer rounding `(200C + N) / (2N)`; the two could differ only where float error crosses a .5 boundary.
- QuizRunner.Runner.constructor requires at least one question. With none, the source's question screen indexes past the end and crashes at render, and the score divides by zero. Every generated quiz has a question (`CatalogFacts.CatalogQuizzesValid`).
- The Quiz component's `id` and `title` props are presentation. The `onComplete` callback is modelled as the value `Next` returns.
- Markdown rendering (`components/MarkdownRenderer.tsx`) wraps foreign libraries and is not part of this model.
- Presentation is left out. This covers JSX, CSS classes, icons, the sidebar-open flag, `window.scrollTo`, `console.error`, the static "6 Lessons" badge, and the per-unit incomplete listing of the content-status page (App.tsx:178-190), which only applies `isTopicIncomplete`.
- React's batching and closure capture: each handler is one atomic update of the fields.
- Navigation.Shell.Advance requires an open course and an open lesson. The Advance button exists only on the lesson screen, where both are set.
- Unicode case folding: every catalog title is ASCII, so lower-casing is ASCII only.
- The prose of the topic table, the placeholders and the templates is kept as labelled tokens, with table keys, ids, counts and structure intact. Which unit titles the topic table covers is not enumerated as a lemma.
- JavaScript object lookup: `TOPIC_DETAILS[key]` also finds inherited properties such as `constructor`. The model's map lookup finds only authored keys. No catalog title lower-cases to such a name.
