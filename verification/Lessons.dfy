/** Lesson versioning (app/agent/memory.py) and learning from measurements (app/agent/learning.py): the
    history store stays complete and faithful through crashes, and what a contradiction leaves alone. */
module Lessons {
  import opened Options

  type Id = string

  datatype Lesson = Lesson(content: string, confidence: real, evidence: seq<string>, related: seq<string>, version: int)

  /** A row of the history store: a lesson as it stood before a revision. */
  datatype Snapshot = Snapshot(id: Id, lesson: Lesson)

  datatype Direction = Positive | Negative | Mixed | Unknown

  datatype Store = Store(lessons: map<Id, Lesson>, history: seq<Snapshot>, labels: map<Id, Direction>)

  // ------------------------------------------------------------------ revising

  /** `tuple(dict.fromkeys(xs))`: first occurrences, in order. */
  function Distinct(xs: seq<string>): (r: seq<string>) {
    if xs == [] then [] else
    var init := Distinct(xs[..|xs| - 1]);
    if xs[|xs| - 1] in init then init else init + [xs[|xs| - 1]]
  }

  predicate NoRepeat(xs: seq<string>) { forall i, j :: 0 <= i < j < |xs| ==> xs[i] != xs[j] }

  lemma {:induction false} DistinctKeepsAll(xs: seq<string>)
    ensures NoRepeat(Distinct(xs)) && forall x :: x in xs <==> x in Distinct(xs)
  {
    if xs != [] {
      var init := xs[..|xs| - 1];
      DistinctKeepsAll(init);
      assert xs == init + [xs[|xs| - 1]];
    }
  }

  datatype Change = Change(evidence: seq<string>, related: seq<string>, content: Option<string>, confidence: Option<real>)

  function Revised(les: Lesson, c: Change): (r: Lesson) {
    Lesson(if c.content.Some? then c.content.value else les.content,
           if c.confidence.Some? then c.confidence.value else les.confidence,
           Distinct(les.evidence + c.evidence), Distinct(les.related + c.related), les.version + 1)
  }

  function WithSnapshot(s: Store, id: Id): (r: Store)
    requires id in s.lessons
  {
    s.(history := s.history + [Snapshot(id, s.lessons[id])])
  }

  /** `revise_lesson`: the snapshot is written, then the lesson saved; `dies` cuts it off in between. */
  function ReviseStep(s: Store, id: Id, c: Change, dies: bool): (r: Store) {
    if id !in s.lessons then s
    else if dies then WithSnapshot(s, id)
    else WithSnapshot(s, id).(lessons := s.lessons[id := Revised(s.lessons[id], c)])
  }

  function CreateStep(s: Store, id: Id, les: Lesson, d: Direction): (r: Store) {
    if id in s.lessons || les.version != 1 then s
    else s.(lessons := s.lessons[id := les], labels := s.labels[id := d])
  }

  // ------------------------------------------------------------------ learning

  /** A measurement: whether it is sufficient, the ids of its window, the average its statistics report if they do, the
      value it measured, the failure rate, and its confidence blended with the lesson's. */
  datatype Measurement = Measurement(
    sufficient: bool, window: seq<string>, statsAverage: Option<real>, afterValue: real, failRate: real, lesson: Lesson, blend: Lesson -> real)

  function OutcomeDirection(average: real, failRate: real): (d: Direction) {
    if average < 0.0 || failRate >= 0.5 then Negative
    else if average > 0.0 && failRate < 0.3 then Positive
    else Mixed
  }

  /** The direction recorded for the measurement falls back to the measured value; the one compared
      with existing lessons falls back to zero. */
  function NewDirection(m: Measurement): (d: Direction) {
    OutcomeDirection(if m.statsAverage.Some? then m.statsAverage.value else m.afterValue, m.failRate)
  }

  function ComparedDirection(m: Measurement): (d: Direction) {
    OutcomeDirection(if m.statsAverage.Some? then m.statsAverage.value else 0.0, m.failRate)
  }

  predicate Opposes(a: Direction, b: Direction) { (a.Positive? && b.Negative?) || (a.Negative? && b.Positive?) }

  function LabelOf(s: Store, id: Id): (d: Direction) { if id in s.labels then s.labels[id] else Unknown }

  function Shared(xs: seq<string>, ys: seq<string>): (r: set<string>) { (set x | x in xs) * (set y | y in ys) }

  predicate Overlaps(s: Store, m: Measurement, id: Id) { id in s.lessons && Shared(s.lessons[id].evidence, m.window) != {} }

  /** Some lesson about the same evidence says the opposite. */
  ghost predicate Conflict(s: Store, m: Measurement) {
    exists id :: Overlaps(s, m, id) && Opposes(LabelOf(s, id), ComparedDirection(m))
  }

  ghost predicate BestTarget(s: Store, m: Measurement, id: Id) {
    && Overlaps(s, m, id)
    && forall other :: Overlaps(s, m, other) ==> |Shared(s.lessons[other].evidence, m.window)| <= |Shared(s.lessons[id].evidence, m.window)|
  }

  function ChangeFor(m: Measurement, les: Lesson): (c: Change) {
    Change(m.window, [], None, Some(m.blend(les)))
  }

  /** The lesson is revised with the measurement and takes its direction. */
  function Folded(s: Store, m: Measurement, id: Id): (r: Store)
    requires id in s.lessons
  {
    var t := ReviseStep(s, id, ChangeFor(m, s.lessons[id]), false);
    t.(labels := t.labels[id := NewDirection(m)])
  }

  /** The three ways a measurement ends: skipped, a lesson of its own, or folded into the best target. */
  ghost predicate LearnedTo(s: Store, m: Measurement, newId: Id, t: Store, learnt: Option<Id>, versioned: bool) {
    if !m.sufficient then learnt.None? && !versioned && t == s
    else if Conflict(s, m) || (forall id :: !Overlaps(s, m, id)) then
      !versioned && learnt == Some(newId) && t == CreateStep(s, newId, m.lesson, NewDirection(m))
    else versioned && learnt.Some? && BestTarget(s, m, learnt.value) && t == Folded(s, m, learnt.value)
  }

  ghost predicate ListsAll(order: seq<Id>, s: Store) { forall id :: id in s.lessons <==> id in order }

  class Memory {
    var lessons: map<Id, Lesson>
    var history: seq<Snapshot>
    var labels: map<Id, Direction>

    ghost function View(): (s: Store)
      reads this
    {
      Store(lessons, history, labels)
    }

    constructor ()
      ensures View() == Store(map[], [], map[])
    {
      lessons, history, labels := map[], [], map[];
    }

    method ReviseLesson(id: Id, c: Change) returns (found: bool)
      modifies this
      ensures found <==> id in old(lessons)
      ensures View() == ReviseStep(old(View()), id, c, false)
    {
      if id !in lessons { return false; }
      var les := lessons[id];
      var updated := Revised(les, c);
      history := history + [Snapshot(id, les)];
      lessons := lessons[id := updated];
      return true;
    }

    /** `learn_from_measurement`: an insufficient measurement is skipped; a contradiction adds a lesson of its own and leaves every other one,
        the history and the other labels alone; otherwise the lesson sharing most evidence is revised;
        with no overlap a new lesson is added. */
    method Learn(m: Measurement, order: seq<Id>, newId: Id) returns (learnt: Option<Id>, versioned: bool)
      requires ListsAll(order, View()) && newId !in lessons && m.lesson.version == 1
      modifies this
      ensures LearnedTo(old(View()), m, newId, View(), learnt, versioned)
    {
      if !m.sufficient { return None, false; }
      var best: Option<Id> := None;
      for k := 0 to |order|
        invariant View() == old(View())
        invariant forall j :: 0 <= j < k && Overlaps(View(), m, order[j]) ==> !Opposes(LabelOf(View(), order[j]), ComparedDirection(m))
        invariant best.None? ==> forall j :: 0 <= j < k ==> !Overlaps(View(), m, order[j])
        invariant best.Some? ==> Overlaps(View(), m, best.value) && forall j :: 0 <= j < k && Overlaps(View(), m, order[j]) ==>
                    |Shared(lessons[order[j]].evidence, m.window)| <= |Shared(lessons[best.value].evidence, m.window)|
      {
        var id := order[k];
        if id in lessons && Shared(lessons[id].evidence, m.window) != {} {
          var existing := if id in labels then labels[id] else Unknown;
          if Opposes(existing, ComparedDirection(m)) {
            assert Overlaps(View(), m, id);
            CreateOutcome(newId, m);
            return Some(newId), false;
          }
          if best.None? || |Shared(lessons[id].evidence, m.window)| > |Shared(lessons[best.value].evidence, m.window)| { best := Some(id); }
        }
      }
      assert forall id :: Overlaps(View(), m, id) ==> exists j :: 0 <= j < |order| && order[j] == id;
      if best.Some? {
        var found := ReviseLesson(best.value, ChangeFor(m, lessons[best.value]));
        labels := labels[best.value := NewDirection(m)];
        return best, true;
      }
      CreateOutcome(newId, m);
      return Some(newId), false;
    }

    method CreateOutcome(newId: Id, m: Measurement)
      requires newId !in lessons && m.lesson.version == 1
      modifies this`lessons, this`labels
      ensures View() == CreateStep(old(View()), newId, m.lesson, NewDirection(m))
    {
      lessons := lessons[newId := m.lesson];
      labels := labels[newId := NewDirection(m)];
    }
  }

  // ------------------------------------------------------------------ what a measurement says

  /** A revision carries the content and confidence it was given, keeps what it was not given, and has
      exactly the old and the new ids, each once. */
  lemma RevisionCarries(les: Lesson, c: Change)
    ensures var r := Revised(les, c);
            && r.version == les.version + 1
            && r.content == (if c.content.None? then les.content else c.content.value)
            && r.confidence == (if c.confidence.None? then les.confidence else c.confidence.value)
            && NoRepeat(r.evidence) && (forall x :: x in r.evidence <==> x in les.evidence || x in c.evidence)
            && NoRepeat(r.related) && (forall x :: x in r.related <==> x in les.related || x in c.related)
  {
    DistinctKeepsAll(les.evidence + c.evidence);
    DistinctKeepsAll(les.related + c.related);
  }

  /** A revision, finished or cut off, first puts exactly the lesson as it stood into the history; cut off,
      it changes nothing else. */
  lemma SnapshotComesFirst(s: Store, id: Id, c: Change, dies: bool)
    requires id in s.lessons
    ensures ReviseStep(s, id, c, dies).history == s.history + [Snapshot(id, s.lessons[id])]
    ensures ReviseStep(s, id, c, dies).labels == s.labels
    ensures ReviseStep(s, id, c, dies).lessons == if dies then s.lessons else s.lessons[id := Revised(s.lessons[id], c)]
  {}

  /** What is learnt is labelled as the measurement went; a folded lesson keeps its content, takes the
      blended confidence and gains the window's ids and no others. */
  lemma LearntAsMeasured(s: Store, m: Measurement, newId: Id, t: Store, learnt: Option<Id>, versioned: bool)
    requires m.sufficient && m.lesson.version == 1 && newId !in s.lessons && LearnedTo(s, m, newId, t, learnt, versioned)
    ensures learnt.Some? && learnt.value in t.lessons
    ensures var average := if m.statsAverage.Some? then m.statsAverage.value else m.afterValue;
            && (LabelOf(t, learnt.value).Negative? <==> average < 0.0 || m.failRate >= 0.5)
            && (LabelOf(t, learnt.value).Positive? <==> average > 0.0 && m.failRate < 0.3)
    ensures versioned ==> learnt.value in s.lessons
    ensures versioned ==>
              var was, now := s.lessons[learnt.value], t.lessons[learnt.value];
              && now.content == was.content && now.confidence == m.blend(was) && now.version == was.version + 1
              && (forall x :: x in now.evidence <==> x in was.evidence || x in m.window)
  {
    if versioned { RevisionCarries(s.lessons[learnt.value], ChangeFor(m, s.lessons[learnt.value])); }
  }

  // ------------------------------------------------------------------ contradictions

  /** Every lesson, label and snapshot of `s` is as it was in `t`, which has one new lesson. */
  ghost predicate OnlyAdds(s: Store, t: Store, newId: Id, les: Lesson) {
    && t.history == s.history && t.lessons.Keys == s.lessons.Keys + {newId} && t.lessons[newId] == les
    && (forall id :: id in s.lessons ==> t.lessons[id] == s.lessons[id] && LabelOf(t, id) == LabelOf(s, id))
  }

  /** A measurement that says the opposite of a lesson about the same evidence: it adds a lesson of its
      own and leaves every existing one unchanged if and only if its statistics carry an average or its
      failure rate decides alone. The statistics `measure` stores always carry one, so only a measurement
      written some other way can miss. Then it is folded into an existing lesson, which takes its direction. */
  lemma ContradictionKeepsOld(s: Store, m: Measurement, id: Id, newId: Id, t: Store, learnt: Option<Id>, versioned: bool)
    requires m.sufficient && m.lesson.version == 1 && newId !in s.lessons && LearnedTo(s, m, newId, t, learnt, versioned)
    requires Overlaps(s, m, id) && Opposes(LabelOf(s, id), NewDirection(m))
    ensures OnlyAdds(s, t, newId, m.lesson) <==> m.statsAverage.Some? || m.failRate >= 0.5
    ensures m.statsAverage.None? && m.failRate < 0.5 ==>
              && learnt.Some? && learnt.value in s.lessons && LabelOf(t, learnt.value) == NewDirection(m)
              && t.lessons[learnt.value].version == s.lessons[learnt.value].version + 1
  {
    if m.statsAverage.Some? || m.failRate >= 0.5 {
      assert ComparedDirection(m) == NewDirection(m);
      assert Conflict(s, m);
    } else {
      assert ComparedDirection(m).Mixed?;
      assert !Conflict(s, m);
      assert t.lessons[learnt.value] != s.lessons[learnt.value];
    }
  }

  // ------------------------------------------------------------------ runs

  datatype Act =
    | Create(id: Id, les: Lesson, d: Direction)
    | Revise(id: Id, c: Change)
    | Die(id: Id, c: Change)
    | Fold(id: Id, m: Measurement)

  function Step(s: Store, a: Act): (r: Store) {
    match a
    case Create(id, les, d) => CreateStep(s, id, les, d)
    case Revise(id, c) => ReviseStep(s, id, c, false)
    case Die(id, c) => ReviseStep(s, id, c, true)
    case Fold(id, m) => if id in s.lessons then Folded(s, m, id) else s
  }

  const EMPTY: Store := Store(map[], [], map[])

  function Run(acts: seq<Act>): (r: Store) {
    if acts == [] then EMPTY else Step(Run(acts[..|acts| - 1]), acts[|acts| - 1])
  }

  /** The lesson only ever moves on, one version at a time, and its evidence only grows. */
  ghost predicate Later(before: Lesson, after: Lesson) {
    && before.version <= after.version && (before.version == after.version ==> before == after)
    && (forall x :: x in before.evidence ==> x in after.evidence)
    && (forall x :: x in before.related ==> x in after.related)
  }

  lemma RevisedLater(les: Lesson, c: Change)
    ensures Later(les, Revised(les, c)) && Revised(les, c).version == les.version + 1
    ensures forall x :: x in c.evidence ==> x in Revised(les, c).evidence
  {
    DistinctKeepsAll(les.evidence + c.evidence);
    DistinctKeepsAll(les.related + c.related);
  }

  /** What one step does to a lesson: nothing, or one revision whose snapshot it has written. */
  lemma StepOf(s: Store, a: Act, id: Id)
    requires id in s.lessons
    ensures var t := Step(s, a);
            && id in t.lessons && Later(s.lessons[id], t.lessons[id])
            && (t.lessons[id] != s.lessons[id] ==> t.lessons[id].version == s.lessons[id].version + 1 && Snapshot(id, s.lessons[id]) in t.history)
  {
    match a {
      case Create(_, _, _) =>
      case Revise(i, c) => if i == id { RevisedLater(s.lessons[id], c); }
      case Die(i, c) =>
      case Fold(i, m) => if i == id { RevisedLater(s.lessons[id], ChangeFor(m, s.lessons[id])); }
    }
  }

  lemma HistoryGrows(s: Store, a: Act)
    ensures forall x :: x in s.history ==> x in Step(s, a).history
    ensures forall x :: x in Step(s, a).history ==> x in s.history || (x.id in s.lessons && x.lesson == s.lessons[x.id])
  {}

  lemma {:induction false} LaterRun(acts: seq<Act>, k: nat, id: Id)
    requires k <= |acts| && id in Run(acts[..k]).lessons
    ensures id in Run(acts).lessons && Later(Run(acts[..k]).lessons[id], Run(acts).lessons[id])
    decreases |acts|
  {
    if k == |acts| {
      assert acts[..k] == acts;
    } else {
      var init := acts[..|acts| - 1];
      assert init[..k] == acts[..k];
      LaterRun(init, k, id);
      StepOf(Run(init), acts[|acts| - 1], id);
    }
  }

  /** Evidence only grows: at any later point of any run, a lesson has a version at least as high, the
      same content if the version is the same, and all the evidence it ever had. */
  lemma EvidenceGrows(acts: seq<Act>, j: nat, k: nat, id: Id)
    requires j <= k <= |acts| && id in Run(acts[..j]).lessons
    ensures id in Run(acts[..k]).lessons && Later(Run(acts[..j]).lessons[id], Run(acts[..k]).lessons[id])
  {
    assert acts[..k][..j] == acts[..j];
    LaterRun(acts[..k], j, id);
  }

  /** The history is exact: every snapshot is the lesson as it stood at some earlier point of the run. */
  lemma {:induction false} SnapshotsAreReal(acts: seq<Act>, x: Snapshot)
    requires x in Run(acts).history
    ensures exists k :: 0 <= k < |acts| && x.id in Run(acts[..k]).lessons && Run(acts[..k]).lessons[x.id] == x.lesson
  {
    var init := acts[..|acts| - 1];
    HistoryGrows(Run(init), acts[|acts| - 1]);
    if x in Run(init).history {
      SnapshotsAreReal(init, x);
      var k :| 0 <= k < |init| && x.id in Run(init[..k]).lessons && Run(init[..k]).lessons[x.id] == x.lesson;
      assert init[..k] == acts[..k];
    } else {
      assert acts[..|init|] == init;
    }
  }

  /** And complete: every version below the current one has a snapshot. */
  lemma {:induction false} EveryVersionKept(acts: seq<Act>, id: Id, v: int)
    requires id in Run(acts).lessons && 1 <= v < Run(acts).lessons[id].version
    ensures exists x :: x in Run(acts).history && x.id == id && x.lesson.version == v
  {
    var init, a := acts[..|acts| - 1], acts[|acts| - 1];
    var s := Run(init);
    HistoryGrows(s, a);
    if id in s.lessons {
      StepOf(s, a, id);
      if v < s.lessons[id].version {
        EveryVersionKept(init, id, v);
        var x :| x in s.history && x.id == id && x.lesson.version == v;
        assert x in Run(acts).history;
      } else {
        assert Snapshot(id, s.lessons[id]) in Run(acts).history;
      }
    }
  }

  lemma {:induction false} VersionsPositive(acts: seq<Act>, id: Id)
    requires id in Run(acts).lessons
    ensures Run(acts).lessons[id].version >= 1
  {
    var init := acts[..|acts| - 1];
    if id in Run(init).lessons {
      VersionsPositive(init, id);
      StepOf(Run(init), acts[|acts| - 1], id);
    }
  }

  /** Over every run of revisions, with a crash allowed between snapshot and save: whatever a lesson once
      was, if it has moved on since, the history holds it, and every snapshot of that version is exactly it. */
  lemma FaithfulHistory(acts: seq<Act>, k: nat, id: Id)
    requires k <= |acts| && id in Run(acts[..k]).lessons
    requires id in Run(acts).lessons && Run(acts).lessons[id].version > Run(acts[..k]).lessons[id].version
    ensures Snapshot(id, Run(acts[..k]).lessons[id]) in Run(acts).history
    ensures forall x :: x in Run(acts).history && x.id == id && x.lesson.version == Run(acts[..k]).lessons[id].version ==>
              x.lesson == Run(acts[..k]).lessons[id]
  {
    var past := Run(acts[..k]).lessons[id];
    VersionsPositive(acts[..k], id);
    forall x | x in Run(acts).history && x.id == id && x.lesson.version == past.version ensures x.lesson == past {
      SnapshotsAreReal(acts, x);
      var j :| 0 <= j < |acts| && id in Run(acts[..j]).lessons && Run(acts[..j]).lessons[id] == x.lesson;
      if j <= k { EvidenceGrows(acts, j, k, id); } else { EvidenceGrows(acts, k, j, id); }
    }
    EveryVersionKept(acts, id, past.version);
  }
}
