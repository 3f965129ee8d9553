/**
 * The shape shared by the SEO and accessibility audits: a fixed list of
 * checks, each of which either passes (and earns its points), raises an
 * issue, or does neither, and may leave a note saying what passed.
 */
module Checklist {
  import opened Wrappers

  datatype Check<M> = Check(passed: bool, issue: Option<M>, note: Option<M>)

  /** One point if the check passed. */
  function Points<M>(c: Check<M>): (p: nat)
  {
    if c.passed then 1 else 0
  }

  /** The issue a check raised, as a list of zero or one message. */
  function IssueOf<M>(c: Check<M>): (r: seq<M>)
  {
    if c.issue.Some? then [c.issue.value] else []
  }

  /** The note a check left, as a list of zero or one message. */
  function NoteOf<M>(c: Check<M>): (r: seq<M>)
  {
    if c.note.Some? then [c.note.value] else []
  }

  /** How many checks passed. */
  function Passed<M>(cs: seq<Check<M>>): (n: nat)
    ensures n <= |cs|
  {
    if cs == [] then 0 else Passed(cs[..|cs| - 1]) + Points(cs[|cs| - 1])
  }

  /** The issues, in the order of the checks that raised them. */
  function Issues<M>(cs: seq<Check<M>>): (r: seq<M>)
    ensures |r| <= |cs|
  {
    if cs == [] then [] else Issues(cs[..|cs| - 1]) + IssueOf(cs[|cs| - 1])
  }

  /** The pass notes, in the order of the checks that left them. */
  function Notes<M>(cs: seq<Check<M>>): (r: seq<M>)
    ensures |r| <= |cs|
  {
    if cs == [] then [] else Notes(cs[..|cs| - 1]) + NoteOf(cs[|cs| - 1])
  }

  /** Tallying two runs of checks one after the other adds the points and concatenates the messages. */
  lemma Tally<M>(a: seq<Check<M>>, b: seq<Check<M>>)
    ensures Passed(a + b) == Passed(a) + Passed(b)
    ensures Issues(a + b) == Issues(a) + Issues(b)
    ensures Notes(a + b) == Notes(a) + Notes(b)
  {
    PassedAppend(a, b);
    IssuesAppend(a, b);
    NotesAppend(a, b);
  }

  lemma {:induction false} PassedAppend<M>(a: seq<Check<M>>, b: seq<Check<M>>)
    ensures Passed(a + b) == Passed(a) + Passed(b)
  {
    if b != [] {
      var b' := b[..|b| - 1];
      assert (a + b)[..|a + b| - 1] == a + b';
      PassedAppend(a, b');
    } else {
      assert a + b == a;
    }
  }

  lemma {:induction false} IssuesAppend<M>(a: seq<Check<M>>, b: seq<Check<M>>)
    ensures Issues(a + b) == Issues(a) + Issues(b)
  {
    if b != [] {
      var b' := b[..|b| - 1];
      assert (a + b)[..|a + b| - 1] == a + b';
      IssuesAppend(a, b');
    } else {
      assert a + b == a;
    }
  }

  lemma {:induction false} NotesAppend<M>(a: seq<Check<M>>, b: seq<Check<M>>)
    ensures Notes(a + b) == Notes(a) + Notes(b)
  {
    if b != [] {
      var b' := b[..|b| - 1];
      assert (a + b)[..|a + b| - 1] == a + b';
      NotesAppend(a, b');
    } else {
      assert a + b == a;
    }
  }

  /** A single check contributes its own point, issue and note. */
  lemma Single<M>(c: Check<M>)
    ensures Passed([c]) == Points(c) && Issues([c]) == IssueOf(c) && Notes([c]) == NoteOf(c)
  {
    assert [c][..0] == [];
  }

  /** The totals of a pair of checks. */
  lemma Tally2<M>(c1: Check<M>, c2: Check<M>)
    ensures Passed([c1, c2]) == Points(c1) + Points(c2)
    ensures Issues([c1, c2]) == IssueOf(c1) + IssueOf(c2)
    ensures Notes([c1, c2]) == NoteOf(c1) + NoteOf(c2)
  {
    assert [c1, c2] == [c1] + [c2];
    Tally([c1], [c2]);
    Single(c1);
    Single(c2);
  }

  /** The totals of four checks. */
  lemma Tally4<M>(c1: Check<M>, c2: Check<M>, c3: Check<M>, c4: Check<M>)
    ensures Passed([c1, c2, c3, c4]) == Points(c1) + Points(c2) + Points(c3) + Points(c4)
    ensures Issues([c1, c2, c3, c4]) == IssueOf(c1) + IssueOf(c2) + IssueOf(c3) + IssueOf(c4)
    ensures Notes([c1, c2, c3, c4]) == NoteOf(c1) + NoteOf(c2) + NoteOf(c3) + NoteOf(c4)
  {
    assert [c1, c2, c3, c4] == [c1, c2] + [c3, c4];
    Tally([c1, c2], [c3, c4]);
    Tally2(c1, c2);
    Tally2(c3, c4);
  }

  /** The totals of five checks. */
  lemma Tally5<M>(c1: Check<M>, c2: Check<M>, c3: Check<M>, c4: Check<M>, c5: Check<M>)
    ensures Passed([c1, c2, c3, c4, c5]) == Points(c1) + Points(c2) + Points(c3) + Points(c4) + Points(c5)
    ensures Issues([c1, c2, c3, c4, c5]) == IssueOf(c1) + IssueOf(c2) + IssueOf(c3) + IssueOf(c4) + IssueOf(c5)
    ensures Notes([c1, c2, c3, c4, c5]) == NoteOf(c1) + NoteOf(c2) + NoteOf(c3) + NoteOf(c4) + NoteOf(c5)
  {
    assert [c1, c2, c3, c4, c5] == [c1, c2, c3, c4] + [c5];
    Tally([c1, c2, c3, c4], [c5]);
    Tally4(c1, c2, c3, c4);
    Single(c5);
  }

  /**
   * One more check run after the checks `done`, on top of a starting score
   * `score0` and issue list `issues0`: adding `weight` points when it passes
   * and appending its issue keeps the score and the issues equal to the start
   * plus the weighted tally of the longer run.
   */
  lemma Step<M>(done: seq<Check<M>>, c: Check<M>, weight: nat, score0: int, issues0: seq<M>, score: int, issues: seq<M>)
    requires score == score0 + weight * Passed(done) && issues == issues0 + Issues(done)
    ensures score + weight * Points(c) == score0 + weight * Passed(done + [c])
    ensures issues + IssueOf(c) == issues0 + Issues(done + [c])
  {
    assert (done + [c])[..|done|] == done;
    assert issues0 + Issues(done) + IssueOf(c) == issues0 + (Issues(done) + IssueOf(c));
  }

  /**
   * Five checks run one after the other, each adding `weight` points when it
   * passes and appending its issue and note: the totals are those of the list.
   */
  lemma Run5<M>(c1: Check<M>, c2: Check<M>, c3: Check<M>, c4: Check<M>, c5: Check<M>,
                weight: nat, score: int, issues: seq<M>, notes: seq<M>)
    requires score == 0 + weight * Points(c1) + weight * Points(c2) + weight * Points(c3)
                        + weight * Points(c4) + weight * Points(c5)
    requires issues == [] + IssueOf(c1) + IssueOf(c2) + IssueOf(c3) + IssueOf(c4) + IssueOf(c5)
    requires notes == [] + NoteOf(c1) + NoteOf(c2) + NoteOf(c3) + NoteOf(c4) + NoteOf(c5)
    ensures score == weight * Passed([c1, c2, c3, c4, c5]) && score <= 5 * weight
    ensures issues == Issues([c1, c2, c3, c4, c5]) && notes == Notes([c1, c2, c3, c4, c5])
  {
    Tally5(c1, c2, c3, c4, c5);
    var p1, p2, p3, p4, p5 := Points(c1), Points(c2), Points(c3), Points(c4), Points(c5);
    assert weight * (p1 + p2 + p3 + p4 + p5) == weight * p1 + weight * p2 + weight * p3 + weight * p4 + weight * p5;
    assert weight * (p1 + p2 + p3 + p4 + p5) <= 5 * weight by {
      assert p1 + p2 + p3 + p4 + p5 <= 5;
    }
    assert [] + IssueOf(c1) == IssueOf(c1) && [] + NoteOf(c1) == NoteOf(c1);
  }

  /** All points are awarded exactly when every check passes. */
  lemma {:induction false} AllPassed<M>(cs: seq<Check<M>>)
    ensures Passed(cs) == |cs| <==> forall c :: c in cs ==> c.passed
  {
    if cs != [] {
      var init := cs[..|cs| - 1];
      assert cs == init + [cs[|cs| - 1]];
      AllPassed(init);
    }
  }

  /** No issue at all exactly when no check raised one. */
  lemma {:induction false} NoIssues<M>(cs: seq<Check<M>>)
    ensures Issues(cs) == [] <==> forall c :: c in cs ==> c.issue.None?
  {
    if cs != [] {
      var init := cs[..|cs| - 1];
      assert cs == init + [cs[|cs| - 1]];
      NoIssues(init);
    }
  }

  /** A message is among the issues exactly when one of the checks raised it. */
  lemma {:induction false} IssueIn<M>(cs: seq<Check<M>>, m: M)
    ensures m in Issues(cs) <==> exists c :: c in cs && c.issue == Some(m)
  {
    if cs != [] {
      var init := cs[..|cs| - 1];
      assert cs == init + [cs[|cs| - 1]];
      IssueIn(init, m);
    }
  }

  /** A message is among the notes exactly when one of the checks left it. */
  lemma {:induction false} NoteIn<M>(cs: seq<Check<M>>, m: M)
    ensures m in Notes(cs) <==> exists c :: c in cs && c.note == Some(m)
  {
    if cs != [] {
      var init := cs[..|cs| - 1];
      assert cs == init + [cs[|cs| - 1]];
      NoteIn(init, m);
    }
  }
}
