/** The progress store: one persisted document under a fixed key holding the
    ids of completed lessons, in completion order, and the best score per
    quiz id. Every operation reads the document afresh, changes it, and
    writes it back only when something changed. */
module Storage {
  import opened Types

  const STORAGE_KEY: string := "nebula_learn_progress_v1"

  /** What the browser holds under the key: nothing (or an empty string),
      a payload that does not parse, or a parsed document. */
  datatype Slot = Absent | Malformed | Stored(doc: Progress)

  const DEFAULT_PROGRESS: Progress := Progress([], map[])

  /** The document a read yields. */
  function Decode(slot: Slot): (p: Progress)
    ensures slot.Stored? ==> p == slot.doc
    ensures !slot.Stored? ==> p.completedLessons == [] && p.quizScores == map[]
  {
    if slot.Stored? then slot.doc else DEFAULT_PROGRESS
  }

  /** The document after completing lesson `id`. */
  function WithLesson(p: Progress, id: string): Progress {
    if id in p.completedLessons then p
    else p.(completedLessons := p.completedLessons + [id])
  }

  /** The best score recorded for quiz `q`, an absent entry counting as 0. */
  function BestScore(p: Progress, q: string): int {
    if q in p.quizScores then p.quizScores[q] else 0
  }

  /** The document after scoring `s` on quiz `q`: the entry changes only when
      `s` beats the current best. */
  function WithScore(p: Progress, q: string, s: int): Progress {
    if s > BestScore(p, q) then p.(quizScores := p.quizScores[q := s]) else p
  }

  function Max(a: int, b: int): int { if a >= b then a else b }

  predicate NoDuplicates(ids: seq<string>) {
    forall i, j :: 0 <= i < j < |ids| ==> ids[i] != ids[j]
  }

  /** After completing `id` it is listed; an id already listed leaves the
      document as it was; a new id goes at the end after the earlier ids in
      their order; scores are untouched; no duplicate is introduced. */
  lemma WithLessonFacts(p: Progress, id: string)
    ensures id in WithLesson(p, id).completedLessons
    ensures id in p.completedLessons ==> WithLesson(p, id) == p
    ensures id !in p.completedLessons ==> WithLesson(p, id).completedLessons == p.completedLessons + [id]
    ensures WithLesson(p, id).quizScores == p.quizScores
    ensures NoDuplicates(p.completedLessons) ==> NoDuplicates(WithLesson(p, id).completedLessons)
  {
  }

  /** Completing the same lesson twice is completing it once. */
  lemma WithLessonIdempotent(p: Progress, id: string)
    ensures WithLesson(WithLesson(p, id), id) == WithLesson(p, id)
  {
  }

  /** The best score becomes the larger of the old best and the new score;
      every other quiz keeps its score. */
  lemma WithScoreKeepsMax(p: Progress, q: string, s: int)
    ensures BestScore(WithScore(p, q, s), q) == Max(BestScore(p, q), s)
    ensures forall r :: r != q ==> BestScore(WithScore(p, q, s), r) == BestScore(p, r)
    ensures WithScore(p, q, s).completedLessons == p.completedLessons
  {
  }

  /** A score that does not beat the best changes nothing; in particular a
      score of 0 or less on an unseen quiz leaves it unseen. */
  lemma WithScoreNoGain(p: Progress, q: string, s: int)
    requires s <= BestScore(p, q)
    ensures WithScore(p, q, s) == p
    ensures q !in p.quizScores ==> q !in WithScore(p, q, s).quizScores
  {
  }

  /** Recording two scores in either order leaves the same document. */
  lemma WithScoreCommutes(p: Progress, q: string, s1: int, s2: int)
    ensures WithScore(WithScore(p, q, s1), q, s2) == WithScore(WithScore(p, q, s2), q, s1)
  {
    var a, b := WithScore(WithScore(p, q, s1), q, s2), WithScore(WithScore(p, q, s2), q, s1);
    var best := Max(BestScore(p, q), Max(s1, s2));
    if best > BestScore(p, q) {
      assert a.quizScores == p.quizScores[q := best] == b.quizScores;
    } else {
      assert a == p == b;
    }
  }

  /** The persisted slot, read and written by the three store operations. */
  class ProgressStore {
    var slot: Slot

    constructor(initial: Slot)
      ensures slot == initial
    {
      slot := initial;
    }

    /** Reads the document: the stored one, or the empty default when
        nothing is stored or the payload does not parse. */
    method GetProgress() returns (p: Progress)
      ensures p == Decode(slot)
    {
      match slot
      case Stored(doc) => p := doc;
      case Absent => p := DEFAULT_PROGRESS;
      case Malformed => p := DEFAULT_PROGRESS;
    }

    /** Marks lesson `id` complete, writing only when it was not yet listed,
        and returns the resulting document, which is what the next read
        yields. */
    method SaveLessonComplete(id: string) returns (p: Progress)
      modifies this
      ensures p == WithLesson(Decode(old(slot)), id)
      ensures id in Decode(old(slot)).completedLessons ==> slot == old(slot)
      ensures id !in Decode(old(slot)).completedLessons ==> slot == Stored(p)
      ensures Decode(slot) == p
    {
      p := GetProgress();
      if id !in p.completedLessons {
        p := p.(completedLessons := p.completedLessons + [id]);
        slot := Stored(p);
      }
    }

    /** Records score `s` on quiz `q`, writing only when it beats the current
        best, and returns the resulting document, which is what the next read
        yields. */
    method SaveQuizScore(q: string, s: int) returns (p: Progress)
      modifies this
      ensures p == WithScore(Decode(old(slot)), q, s)
      ensures s <= BestScore(Decode(old(slot)), q) ==> slot == old(slot)
      ensures s > BestScore(Decode(old(slot)), q) ==> slot == Stored(p)
      ensures Decode(slot) == p
    {
      p := GetProgress();
      var currentBest := if q in p.quizScores then p.quizScores[q] else 0;
      if s > currentBest {
        p := p.(quizScores := p.quizScores[q := s]);
        slot := Stored(p);
      }
    }
  }
}
