/** One rubric item's outcome, and how an evaluator adds the outcomes up: the points are
    summed and the feedback strings are listed in item order. */
module Rubric {
  import opened Wrappers

  /** The points an item awarded, the most it can award, and the feedback it emitted. */
  datatype Mark = Mark(points: nat, full: nat, note: Option<string>)

  /** The rubric's rule for one item: it never awards more than its full value, and it emits
      feedback exactly when it withholds some of it. */
  predicate Fair(m: Mark) {
    m.points <= m.full && (m.points == m.full <==> m.note.None?)
  }

  /** The evaluator's score: the points of all items. */
  function Total(ms: seq<Mark>): nat {
    if ms == [] then 0 else Total(ms[..|ms| - 1]) + ms[|ms| - 1].points
  }

  /** The most the items can award together. */
  function Ceiling(ms: seq<Mark>): nat {
    if ms == [] then 0 else Ceiling(ms[..|ms| - 1]) + ms[|ms| - 1].full
  }

  /** The feedback one item contributes: its note, if it has one. */
  function NoteOf(m: Mark): seq<string> {
    match m.note
    case Some(n) => [n]
    case None => []
  }

  /** The evaluator's feedback: each item's note, in item order. */
  function Notes(ms: seq<Mark>): seq<string> {
    if ms == [] then [] else Notes(ms[..|ms| - 1]) + NoteOf(ms[|ms| - 1])
  }

  /** Scoring one more item adds its points to the score and its note to the feedback. */
  lemma Extend(ms: seq<Mark>, m: Mark)
    ensures Total(ms + [m]) == Total(ms) + m.points
    ensures Ceiling(ms + [m]) == Ceiling(ms) + m.full
    ensures Notes(ms + [m]) == Notes(ms) + NoteOf(m)
  {
  }

  /** The score never exceeds the ceiling, it reaches it exactly when there is no feedback,
      and there is at most one feedback string per item. */
  lemma {:induction false} FairItemsAddUp(ms: seq<Mark>)
    requires forall m :: m in ms ==> Fair(m)
    ensures Total(ms) <= Ceiling(ms)
    ensures Total(ms) == Ceiling(ms) <==> Notes(ms) == []
    ensures |Notes(ms)| <= |ms|
  {
    if ms != [] {
      var init := ms[..|ms| - 1];
      assert forall m :: m in init ==> m in ms;
      assert ms[|ms| - 1] in ms;
      FairItemsAddUp(init);
    }
  }

  /** Every note of the feedback comes from an item that withheld points. */
  lemma {:induction false} NotesFromShortfalls(ms: seq<Mark>)
    requires forall m :: m in ms ==> Fair(m)
    ensures forall n :: n in Notes(ms) ==> exists m :: m in ms && m.note == Some(n) && m.points < m.full
  {
    if ms != [] {
      var init := ms[..|ms| - 1];
      assert forall m :: m in init ==> m in ms;
      assert ms[|ms| - 1] in ms;
      NotesFromShortfalls(init);
    }
  }

  /** Scoring two runs of items one after the other adds their scores and joins their
      feedback. */
  lemma {:induction false} Concat(a: seq<Mark>, b: seq<Mark>)
    ensures Total(a + b) == Total(a) + Total(b)
    ensures Ceiling(a + b) == Ceiling(a) + Ceiling(b)
    ensures Notes(a + b) == Notes(a) + Notes(b)
    decreases |b|
  {
    if b == [] {
      assert a + b == a;
    } else {
      var init := b[..|b| - 1];
      var last := b[|b| - 1];
      assert a + b == (a + init) + [last];
      assert b == init + [last];
      Concat(a, init);
      Extend(a + init, last);
      Extend(init, last);
    }
  }

  /** The sums and the feedback of two items, written out. */
  lemma Unroll2(ms: seq<Mark>)
    requires |ms| == 2
    ensures Total(ms) == ms[0].points + ms[1].points
    ensures Ceiling(ms) == ms[0].full + ms[1].full
    ensures Notes(ms) == NoteOf(ms[0]) + NoteOf(ms[1])
  {
    assert ms[..1] == [] + [ms[0]];
    Extend([], ms[0]);
  }

  /** The same for four items. */
  lemma Unroll4(ms: seq<Mark>)
    requires |ms| == 4
    ensures Total(ms) == ms[0].points + ms[1].points + ms[2].points + ms[3].points
    ensures Ceiling(ms) == ms[0].full + ms[1].full + ms[2].full + ms[3].full
    ensures Notes(ms) == NoteOf(ms[0]) + NoteOf(ms[1]) + NoteOf(ms[2]) + NoteOf(ms[3])
  {
    assert ms == ms[..2] + ms[2..];
    Concat(ms[..2], ms[2..]);
    Unroll2(ms[..2]);
    Unroll2(ms[2..]);
  }

  /** The same for eight items. */
  lemma Unroll8(ms: seq<Mark>)
    requires |ms| == 8
    ensures Total(ms) == ms[0].points + ms[1].points + ms[2].points + ms[3].points
                       + ms[4].points + ms[5].points + ms[6].points + ms[7].points
    ensures Ceiling(ms) == ms[0].full + ms[1].full + ms[2].full + ms[3].full
                         + ms[4].full + ms[5].full + ms[6].full + ms[7].full
    ensures Notes(ms) == NoteOf(ms[0]) + NoteOf(ms[1]) + NoteOf(ms[2]) + NoteOf(ms[3])
                       + NoteOf(ms[4]) + NoteOf(ms[5]) + NoteOf(ms[6]) + NoteOf(ms[7])
  {
    assert ms == ms[..4] + ms[4..];
    Concat(ms[..4], ms[4..]);
    Unroll4(ms[..4]);
    Unroll4(ms[4..]);
  }
}
