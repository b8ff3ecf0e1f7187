/**
 * The DSA problem tracker of src/pages/DSA.tsx: per-question completed/starred flags kept in a
 * map, merged field by field and persisted whole under `dsa_progress`; the completion
 * statistics; the search/difficulty filter over steps, lectures and questions; and the
 * expansion toggles of steps and lectures.
 */
module DsaTracker {
  import opened Basics
  import opened Strings
  import opened BrowserStorage
  import Seqs

  datatype Question = Question(id: int, name: string, difficulty: string)
  datatype Lecture = Lecture(id: int, title: string, questions: seq<Question>)
  datatype Step = Step(id: int, title: string, lectures: seq<Lecture>)

  type Progress = map<int, ProgressRecord>

  const ProgressKey: string := "dsa_progress"
  const Unset: ProgressRecord := ProgressRecord(false, false)

  /** `Partial<{completed, starred}>`: the fields a call sets. */
  datatype Update = Update(completed: Option<bool>, starred: Option<bool>)

  /** `progress[id] || {completed: false, starred: false}`: what a question shows. */
  function RecordOf(progress: Progress, id: int): ProgressRecord {
    if id in progress then progress[id] else Unset
  }

  /** `{completed: false, starred: false, ...progress[id], ...updates}`. */
  function Merge(progress: Progress, id: int, u: Update): (r: ProgressRecord)
    ensures u.completed.Some? ==> r.completed == u.completed.value
    ensures u.starred.Some? ==> r.starred == u.starred.value
    ensures u.completed.None? ==> r.completed == (id in progress && progress[id].completed)
    ensures u.starred.None? ==> r.starred == (id in progress && progress[id].starred)
  {
    var base := RecordOf(progress, id);
    ProgressRecord(u.completed.GetOr(base.completed), u.starred.GetOr(base.starred))
  }

  /** The map `saveProgress(id, u)` sets and persists. */
  function SavedProgress(progress: Progress, id: int, u: Update): (p: Progress)
    ensures p.Keys == progress.Keys + {id}
    ensures p[id] == Merge(progress, id, u)
    ensures forall k | k in progress && k != id :: p[k] == progress[k]
  {
    progress[id := Merge(progress, id, u)]
  }

  /** Two saves that set different fields both take effect: neither erases the other. */
  lemma SavesCombine(progress: Progress, id: int, c: bool, s: bool)
    ensures SavedProgress(SavedProgress(progress, id, Update(Some(c), None)), id, Update(None, Some(s)))[id] == ProgressRecord(c, s)
    ensures SavedProgress(SavedProgress(progress, id, Update(None, Some(s))), id, Update(Some(c), None))[id] == ProgressRecord(c, s)
  {
  }

  /** The update the checkbox sends: `{completed: !questionProgress.completed}`. */
  function CompletedFlip(progress: Progress, id: int): Update {
    Update(Some(!RecordOf(progress, id).completed), None)
  }

  /** The update the star sends: `{starred: !questionProgress.starred}`. */
  function StarredFlip(progress: Progress, id: int): Update {
    Update(None, Some(!RecordOf(progress, id).starred))
  }

  /** A flip changes only its own field of its own question; flipping twice restores that field. */
  lemma FlipProperties(progress: Progress, id: int)
    ensures var once := SavedProgress(progress, id, CompletedFlip(progress, id));
            && RecordOf(once, id) == ProgressRecord(!RecordOf(progress, id).completed, RecordOf(progress, id).starred)
            && RecordOf(SavedProgress(once, id, CompletedFlip(once, id)), id) == RecordOf(progress, id)
    ensures var once := SavedProgress(progress, id, StarredFlip(progress, id));
            && RecordOf(once, id) == ProgressRecord(RecordOf(progress, id).completed, !RecordOf(progress, id).starred)
            && RecordOf(SavedProgress(once, id, StarredFlip(once, id)), id) == RecordOf(progress, id)
  {
  }

  /** The progress map after the loading effect: unchanged when `dsa_progress` is missing (or holds text `JSON.parse` rejects, which throws), else what it holds. */
  function LoadedProgress(current: Progress, items: map<string, Item>): (p: Progress)
    ensures p != current ==> Holds(items, ProgressKey) && !items[ProgressKey].Garbled?
    ensures Holds(items, ProgressKey) && items[ProgressKey].ProgressEntry? ==> p == items[ProgressKey].records
  {
    if !Holds(items, ProgressKey) then current
    else
      match items[ProgressKey]
      case ProgressEntry(records) => records
      case CacheEntry(_, _, _) => map[]
      case Garbled(_) => current
  }

  /** `set` with the membership of `id` flipped, as the expansion toggles build it. */
  function Toggled(s: set<int>, id: int): (r: set<int>)
    ensures id in r <==> id !in s
    ensures forall k | k != id :: k in r <==> k in s
  {
    if id in s then s - {id} else s + {id}
  }

  lemma ToggleTwice(s: set<int>, id: int)
    ensures Toggled(Toggled(s, id), id) == s
  {
  }

  // ----- statistics -----

  datatype Stats = Stats(total: nat, completed: nat, easy: nat, medium: nat, hard: nat)

  function LectureQuestions(lectures: seq<Lecture>): seq<Question>
    decreases |lectures|
  {
    if lectures == [] then [] else lectures[0].questions + LectureQuestions(lectures[1..])
  }

  /** `steps.flatMap(step => step.lectures.flatMap(lecture => lecture.questions))`. */
  function AllQuestions(steps: seq<Step>): seq<Question>
    decreases |steps|
  {
    if steps == [] then [] else LectureQuestions(steps[0].lectures) + AllQuestions(steps[1..])
  }

  /** `progress[question.id]?.completed`. */
  predicate IsDone(progress: Progress, q: Question) {
    q.id in progress && progress[q.id].completed
  }

  /** Completed question occurrences. */
  function CountDone(qs: seq<Question>, progress: Progress): nat
    decreases |qs|
  {
    if qs == [] then 0
    else CountDone(qs[..|qs| - 1], progress) + (if IsDone(progress, qs[|qs| - 1]) then 1 else 0)
  }

  /** Completed question occurrences whose lowercased difficulty is `level`. */
  function CountDoneAt(qs: seq<Question>, progress: Progress, level: string): nat
    decreases |qs|
  {
    if qs == [] then 0
    else
      var q := qs[|qs| - 1];
      CountDoneAt(qs[..|qs| - 1], progress, level) + (if IsDone(progress, q) && Lower(q.difficulty) == level then 1 else 0)
  }

  /** The three difficulty counts never exceed the completed count, which never exceeds the total. */
  lemma {:induction false} CountsBounded(qs: seq<Question>, progress: Progress)
    ensures CountDoneAt(qs, progress, "easy") + CountDoneAt(qs, progress, "medium") + CountDoneAt(qs, progress, "hard")
            <= CountDone(qs, progress) <= |qs|
    decreases |qs|
  {
    if qs != [] {
      CountsBounded(qs[..|qs| - 1], progress);
    }
  }

  /** `getProgressStats()`: one pass over the flattened questions. */
  method ProgressStats(steps: Option<seq<Step>>, progress: Progress) returns (stats: Stats)
    ensures steps.None? ==> stats == Stats(0, 0, 0, 0, 0)
    ensures steps.Some? ==> var all := AllQuestions(steps.value);
            && stats.total == |all|
            && stats.completed == CountDone(all, progress)
            && stats.easy == CountDoneAt(all, progress, "easy")
            && stats.medium == CountDoneAt(all, progress, "medium")
            && stats.hard == CountDoneAt(all, progress, "hard")
    ensures stats.easy + stats.medium + stats.hard <= stats.completed <= stats.total
  {
    if steps.None? {
      return Stats(0, 0, 0, 0, 0);
    }
    var all := AllQuestions(steps.value);
    var easy, medium, hard, done := 0, 0, 0, 0;
    var i := 0;
    while i < |all|
      invariant 0 <= i <= |all|
      invariant done == CountDone(all[..i], progress)
      invariant easy == CountDoneAt(all[..i], progress, "easy")
      invariant medium == CountDoneAt(all[..i], progress, "medium")
      invariant hard == CountDoneAt(all[..i], progress, "hard")
    {
      var q := all[i];
      assert all[..i + 1][..i] == all[..i];
      if IsDone(progress, q) {
        done := done + 1;
        var level := Lower(q.difficulty);
        if level == "easy" {
          easy := easy + 1;
        } else if level == "medium" {
          medium := medium + 1;
        } else if level == "hard" {
          hard := hard + 1;
        }
      }
      i := i + 1;
    }
    assert all[..i] == all;
    CountsBounded(all, progress);
    stats := Stats(|all|, done, easy, medium, hard);
  }

  // ----- filtering -----

  /** The question filter: the lowercased name contains the lowercased query, and the difficulty is the selected one unless that is "All". */
  predicate QuestionMatches(q: Question, query: string, difficulty: string) {
    Contains(Lower(q.name), Lower(query)) && (difficulty == "All" || q.difficulty == difficulty)
  }

  function QuestionMatcher(query: string, difficulty: string): Question -> bool {
    (q: Question) => QuestionMatches(q, query, difficulty)
  }

  /** A lecture the filter keeps: it has questions left, and every one of them is accepted. */
  predicate KeptLecture(l: Lecture, keep: Question -> bool) {
    |l.questions| > 0 && forall k | 0 <= k < |l.questions| :: keep(l.questions[k])
  }

  /** A step the filter keeps: it has lectures left, and every one of them is kept. */
  predicate KeptStep(s: Step, keep: Question -> bool) {
    |s.lectures| > 0 && forall j | 0 <= j < |s.lectures| :: KeptLecture(s.lectures[j], keep)
  }

  /** Each lecture's questions filtered, lectures left empty dropped. */
  function FilterLectures(lectures: seq<Lecture>, keep: Question -> bool): (r: seq<Lecture>)
    ensures forall i | 0 <= i < |r| :: KeptLecture(r[i], keep)
    decreases |lectures|
  {
    if lectures == [] then []
    else
      var qs := Seqs.Filter(lectures[0].questions, keep);
      var rest := FilterLectures(lectures[1..], keep);
      if |qs| > 0 then [lectures[0].(questions := qs)] + rest else rest
  }

  /** Each step's lectures filtered, steps left empty dropped. */
  function FilterSteps(steps: seq<Step>, keep: Question -> bool): (r: seq<Step>)
    ensures forall i | 0 <= i < |r| :: KeptStep(r[i], keep)
    decreases |steps|
  {
    if steps == [] then []
    else
      var ls := FilterLectures(steps[0].lectures, keep);
      var rest := FilterSteps(steps[1..], keep);
      if |ls| > 0 then [steps[0].(lectures := ls)] + rest else rest
  }

  /** `filteredSteps` for the search box and the difficulty selector. */
  function FilteredSteps(steps: seq<Step>, query: string, difficulty: string): (r: seq<Step>)
    ensures forall i | 0 <= i < |r| :: |r[i].lectures| > 0
    ensures forall i, j | 0 <= i < |r| && 0 <= j < |r[i].lectures| :: |r[i].lectures[j].questions| > 0
    ensures forall i, j, k | 0 <= i < |r| && 0 <= j < |r[i].lectures| && 0 <= k < |r[i].lectures[j].questions|
              :: QuestionMatches(r[i].lectures[j].questions[k], query, difficulty)
  {
    var r := FilterSteps(steps, QuestionMatcher(query, difficulty));
    assert forall i | 0 <= i < |r| :: KeptStep(r[i], QuestionMatcher(query, difficulty));
    r
  }

  /** `lectures.map(lecture => ({...lecture, questions: lecture.questions.filter(keep)}))`. */
  function WithQuestionsFiltered(lectures: seq<Lecture>, keep: Question -> bool): (r: seq<Lecture>)
    ensures |r| == |lectures|
    ensures forall i | 0 <= i < |r| :: r[i] == lectures[i].(questions := Seqs.Filter(lectures[i].questions, keep))
  {
    seq(|lectures|, i requires 0 <= i < |lectures| => lectures[i].(questions := Seqs.Filter(lectures[i].questions, keep)))
  }

  /** `steps.map(step => ({...step, lectures: <the lecture filter>}))`. */
  function WithLecturesFiltered(steps: seq<Step>, keep: Question -> bool): (r: seq<Step>)
    ensures |r| == |steps|
    ensures forall i | 0 <= i < |r| :: r[i] == steps[i].(lectures := FilterLectures(steps[i].lectures, keep))
  {
    seq(|steps|, i requires 0 <= i < |steps| => steps[i].(lectures := FilterLectures(steps[i].lectures, keep)))
  }

  function HasQuestions(): Lecture -> bool {
    (l: Lecture) => |l.questions| > 0
  }

  function HasLectures(): Step -> bool {
    (s: Step) => |s.lectures| > 0
  }

  /** The lecture filter is the component's map-then-filter: the lectures in order, each with its questions filtered, dropped only when none is left. */
  lemma {:induction false} FilterLecturesIsMapThenFilter(lectures: seq<Lecture>, keep: Question -> bool)
    ensures FilterLectures(lectures, keep) == Seqs.Filter(WithQuestionsFiltered(lectures, keep), HasQuestions())
    decreases |lectures|
  {
    if lectures != [] {
      var m := WithQuestionsFiltered(lectures, keep);
      assert m[1..] == WithQuestionsFiltered(lectures[1..], keep);
      FilterLecturesIsMapThenFilter(lectures[1..], keep);
    }
  }

  /** The step filter is the component's map-then-filter over steps, with the lecture filter inside. */
  lemma {:induction false} FilterStepsIsMapThenFilter(steps: seq<Step>, keep: Question -> bool)
    ensures FilterSteps(steps, keep) == Seqs.Filter(WithLecturesFiltered(steps, keep), HasLectures())
    decreases |steps|
  {
    if steps != [] {
      var m := WithLecturesFiltered(steps, keep);
      assert m[1..] == WithLecturesFiltered(steps[1..], keep);
      FilterStepsIsMapThenFilter(steps[1..], keep);
    }
  }

  /** The flattening over a first lecture, given the flattening over the rest. */
  lemma FlattensCons(lectures: seq<Lecture>, keep: Question -> bool)
    requires lectures != []
    requires LectureQuestions(FilterLectures(lectures[1..], keep)) == Seqs.Filter(LectureQuestions(lectures[1..]), keep)
    ensures LectureQuestions(FilterLectures(lectures, keep)) == Seqs.Filter(LectureQuestions(lectures), keep)
  {
    var head, tail := lectures[0], lectures[1..];
    var qs := Seqs.Filter(head.questions, keep);
    var rest := FilterLectures(tail, keep);
    assert LectureQuestions(lectures) == head.questions + LectureQuestions(tail);
    Seqs.FilterAppend(head.questions, LectureQuestions(tail), keep);
    if |qs| > 0 {
      var r := [head.(questions := qs)] + rest;
      assert FilterLectures(lectures, keep) == r;
      assert r[0].questions == qs && r[1..] == rest;
      assert LectureQuestions(r) == qs + LectureQuestions(rest);
    } else {
      assert FilterLectures(lectures, keep) == rest;
    }
  }

  lemma {:induction false} FilterLecturesFlattens(lectures: seq<Lecture>, keep: Question -> bool)
    ensures LectureQuestions(FilterLectures(lectures, keep)) == Seqs.Filter(LectureQuestions(lectures), keep)
    decreases |lectures|
  {
    if lectures != [] {
      FilterLecturesFlattens(lectures[1..], keep);
      FlattensCons(lectures, keep);
    }
  }

  /** The questions left in the filtered tree are exactly the matching questions of the whole tree, in the same order. */
  lemma {:induction false} FilteredStepsKeepExactlyTheMatches(steps: seq<Step>, query: string, difficulty: string)
    ensures AllQuestions(FilteredSteps(steps, query, difficulty))
            == Seqs.Filter(AllQuestions(steps), QuestionMatcher(query, difficulty))
    decreases |steps|
  {
    var keep := QuestionMatcher(query, difficulty);
    if steps != [] {
      FilteredStepsKeepExactlyTheMatches(steps[1..], query, difficulty);
      FilterLecturesFlattens(steps[0].lectures, keep);
      Seqs.FilterAppend(LectureQuestions(steps[0].lectures), AllQuestions(steps[1..]), keep);
      var ls := FilterLectures(steps[0].lectures, keep);
      var rest := FilterSteps(steps[1..], keep);
      if |ls| > 0 {
        var r := [steps[0].(lectures := ls)] + rest;
        assert r[0].lectures == ls && r[1..] == rest;
      }
    }
  }

  /** The page's state: progress flags, which steps and lectures are open, and the shared store. */
  class DsaPage {
    var progress: Progress
    var expandedSteps: set<int>
    var expandedLectures: set<int>
    const storage: Storage

    constructor(storage: Storage)
      ensures progress == map[] && expandedSteps == {1} && expandedLectures == {1}
      ensures this.storage == storage
    {
      progress := map[];
      expandedSteps := {1};
      expandedLectures := {1};
      this.storage := storage;
    }

    /** The loading effect; `ok` is false when `JSON.parse` throws on the stored text. */
    method LoadProgress() returns (ok: bool)
      modifies this
      ensures progress == LoadedProgress(old(progress), storage.items)
      ensures ok <==> !(Holds(storage.items, ProgressKey) && storage.items[ProgressKey].Garbled?)
      ensures expandedSteps == old(expandedSteps) && expandedLectures == old(expandedLectures)
    {
      ok := true;
      if Holds(storage.items, ProgressKey) {
        match storage.items[ProgressKey] {
          case ProgressEntry(records) => progress := records;
          case CacheEntry(_, _, _) => progress := map[];
          case Garbled(_) => ok := false;
        }
      }
    }

    /** `saveProgress(id, updates)`; `fits` is the quota verdict, and `ok` is false when `setItem` throws (after the state is set). */
    method SaveProgress(id: int, u: Update, fits: bool) returns (ok: bool)
      modifies this, storage
      ensures progress == SavedProgress(old(progress), id, u)
      ensures ok == fits
      ensures storage.items == if fits then old(storage.items)[ProgressKey := ProgressEntry(progress)] else old(storage.items)
      ensures expandedSteps == old(expandedSteps) && expandedLectures == old(expandedLectures)
    {
      progress := SavedProgress(progress, id, u);
      ok := storage.SetItem(ProgressKey, ProgressEntry(progress), fits);
    }

    /** The checkbox of question `id`. */
    method ToggleCompleted(id: int, fits: bool) returns (ok: bool)
      modifies this, storage
      ensures progress == old(progress)[id := ProgressRecord(!old(RecordOf(progress, id)).completed, old(RecordOf(progress, id)).starred)]
      ensures ok == fits
      ensures storage.items == if fits then old(storage.items)[ProgressKey := ProgressEntry(progress)] else old(storage.items)
      ensures expandedSteps == old(expandedSteps) && expandedLectures == old(expandedLectures)
    {
      ok := SaveProgress(id, CompletedFlip(progress, id), fits);
    }

    /** The star of question `id`. */
    method ToggleStarred(id: int, fits: bool) returns (ok: bool)
      modifies this, storage
      ensures progress == old(progress)[id := ProgressRecord(old(RecordOf(progress, id)).completed, !old(RecordOf(progress, id)).starred)]
      ensures ok == fits
      ensures storage.items == if fits then old(storage.items)[ProgressKey := ProgressEntry(progress)] else old(storage.items)
      ensures expandedSteps == old(expandedSteps) && expandedLectures == old(expandedLectures)
    {
      ok := SaveProgress(id, StarredFlip(progress, id), fits);
    }

    method ToggleStepExpansion(stepId: int)
      modifies this
      ensures expandedSteps == Toggled(old(expandedSteps), stepId)
      ensures progress == old(progress) && expandedLectures == old(expandedLectures)
    {
      expandedSteps := Toggled(expandedSteps, stepId);
    }

    method ToggleLectureExpansion(lectureId: int)
      modifies this
      ensures expandedLectures == Toggled(old(expandedLectures), lectureId)
      ensures progress == old(progress) && expandedSteps == old(expandedSteps)
    {
      expandedLectures := Toggled(expandedLectures, lectureId);
    }
  }
}
