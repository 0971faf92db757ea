/** The steps that main takes in one turn while nobody disturbs it. */
module PaneTurns {
  import opened Wrappers
  import opened PaneProtocol

  /** The answers that a turn gets from outside, in the order in which it asks, to what it asks. */
  type Answers = (nat, real) -> Env

  /** The distance that the surface is asked to scroll to, where a step asks for one. */
  function Question(s: State): real
    requires s.todo.Do?
  {
    if s.todo.op == S(SnapSection) && s.scroll.target.Some? then Rounded(s.scroll.target.value) else 0.0
  }

  /** The steps that ask: the surface, the user's wish, or whether copy mode may begin. */
  predicate Asks(s: State)
    requires s.todo.Do?
  {
    match s.todo.op
    case O(_) => false
    case S(o) => o.RequestScroll? || (o.SnapSection? && s.scroll.target.Some?) || o.ResetSection?
    case C(o) => o.StartCopy? || o.EnterCursor? || o.SelectCursor?
    case V(o) => o.ReadScroller?
  }

  /** At most `n` steps of main, `asked` answers having been given before. */
  function Turn(s: State, answers: Answers, asked: nat, n: nat): (State, nat)
    decreases n
  {
    if n == 0 || s.todo.Idle? then (s, asked)
    else Turn(MainStep(s, answers(asked, Question(s))), answers, asked + (if Asks(s) then 1 else 0), n - 1)
  }

  /** Main, left alone in state `s`, comes to state `t`, and the answers asked for go from `a` to `b`. */
  ghost predicate Leads(answers: Answers, s: State, a: nat, t: State, b: nat) {
    exists n: nat :: Turn(s, answers, a, n) == (t, b)
  }

  lemma {:induction false} TurnAdds(s: State, answers: Answers, a: nat, m: nat, n: nat)
    ensures Turn(s, answers, a, m + n) == Turn(Turn(s, answers, a, m).0, answers, Turn(s, answers, a, m).1, n)
    decreases m
  {
    if m > 0 && s.todo.Do? {
      TurnAdds(MainStep(s, answers(a, Question(s))), answers, a + (if Asks(s) then 1 else 0), m - 1, n);
    }
  }

  lemma {:induction false} Then(answers: Answers, s: State, a: nat, t: State, b: nat, u: State, c: nat)
    requires Leads(answers, s, a, t, b) && Leads(answers, t, b, u, c)
    ensures Leads(answers, s, a, u, c)
  {
    var m: nat :| Turn(s, answers, a, m) == (t, b);
    var n: nat :| Turn(t, answers, b, n) == (u, c);
    TurnAdds(s, answers, a, m, n);
  }

  lemma {:induction false} Steps(answers: Answers, s: State, a: nat, t: State, b: nat)
    requires s.todo.Do? && t == MainStep(s, answers(a, Question(s))) && b == a + (if Asks(s) then 1 else 0)
    ensures Leads(answers, s, a, t, b)
  {
    assert Turn(t, answers, b, 0) == (t, b);
    assert Turn(s, answers, a, 1) == (t, b);
  }

  /** One step, and what it leads to. */
  lemma {:induction false} StepsOn(answers: Answers, s: State, a: nat, t: State, b: nat, u: State, c: nat)
    requires s.todo.Do? && t == MainStep(s, answers(a, Question(s))) && b == a + (if Asks(s) then 1 else 0)
    requires Leads(answers, t, b, u, c)
    ensures Leads(answers, s, a, u, c)
  {
    Steps(answers, s, a, t, b);
    Then(answers, s, a, t, b, u, c);
  }

  lemma {:induction false} Stays(answers: Answers, s: State, a: nat)
    ensures Leads(answers, s, a, s, a)
  {
    assert Turn(s, answers, a, 0) == (s, a);
  }

  // ----- the serial queue -----

  /** The labels are enabled one after the other and lead from `s` to `t`. */
  predicate Plays(s: State, labels: seq<Label>, t: State)
    decreases |labels|
  {
    if labels == [] then s == t else Enabled(s, labels[0]) && Plays(Step(s, labels[0]), labels[1..], t)
  }

  lemma {:induction false} PlaysMore(s: State, a: seq<Label>, t: State, b: seq<Label>, u: State)
    requires Plays(s, a, t) && Plays(t, b, u)
    ensures Plays(s, a + b, u)
    decreases |a|
  {
    if a == [] {
      assert a + b == b;
    } else {
      assert (a + b)[1..] == a[1..] + b;
      PlaysMore(Step(s, a[0]), a[1..], t, b, u);
    }
  }

  lemma {:induction false} PlaysOne(s: State, l: Label)
    requires Enabled(s, l)
    ensures Plays(s, [l], Step(s, l))
  {
    assert [l][1..] == [];
  }

  /** One more label at the end. */
  lemma {:induction false} PlaysOn(s: State, a: seq<Label>, t: State, l: Label, u: State)
    requires Plays(s, a, t) && Enabled(t, l) && u == Step(t, l)
    ensures Plays(s, a + [l], u)
  {
    PlaysOne(t, l);
    PlaysMore(s, a, t, [l], u);
  }
}
