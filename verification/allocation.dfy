/**
 The point-allocation engine of the "Share Points" screen.

 A child spreads a budget of 100 points over four fields: the story and the
 illustration of each of two teammates. Every edit of one field goes through
 a single update rule, which clamps the proposed value so that each of the
 three other fields keeps a reserve of at least 10 points, and recomputes the
 "points remaining" counter shown in the header.
 */
module Allocation {

  /** The total number of points a child may share. */
  const Budget: int := 100

  /** Every field other than the edited one is counted as holding at least this much. */
  const Reserve: int := 10

  /** The bounds every input widget of the screen declares (`min={0}`, `max={70}`). */
  const WidgetMin: int := 0
  const WidgetMax: int := 70

  datatype Field = StoryOne | StoryTwo | IllustrationOne | IllustrationTwo

  /** The screen's point state: four point fields and the displayed counter. */
  datatype State = State(
    storyOne: int,
    storyTwo: int,
    illustrationOne: int,
    illustrationTwo: int,
    totalPoints: int)

  /** One user edit: the widget of `field` reports the new value `value`. */
  datatype Edit = Edit(field: Field, value: int)

  /** The state when the screen opens. */
  const Initial: State := State(0, 0, 0, 0, Budget)

  /** `Math.min` */
  function Min(x: int, y: int): int {
    if x < y then x else y
  }

  /** `Math.max` */
  function Max(x: int, y: int): int {
    if x < y then y else x
  }

  function Get(s: State, f: Field): int {
    match f
    case StoryOne => s.storyOne
    case StoryTwo => s.storyTwo
    case IllustrationOne => s.illustrationOne
    case IllustrationTwo => s.illustrationTwo
  }

  /** The state setter of one field; the others and the counter keep their values. */
  function Set(s: State, f: Field, x: int): (r: State)
    ensures Get(r, f) == x
    ensures forall g :: g != f ==> Get(r, g) == Get(s, g)
    ensures r.totalPoints == s.totalPoints
  {
    match f
    case StoryOne => s.(storyOne := x)
    case StoryTwo => s.(storyTwo := x)
    case IllustrationOne => s.(illustrationOne := x)
    case IllustrationTwo => s.(illustrationTwo := x)
  }

  /** Points actually allocated over the four fields. */
  function Sum(s: State): int {
    s.storyOne + s.storyTwo + s.illustrationOne + s.illustrationTwo
  }

  /** Points still unspent; what an honest counter would show. */
  function Remaining(s: State): int {
    Budget - Sum(s)
  }

  /** The points a field is assumed to hold when another field's ceiling is computed. */
  function Reserved(x: int): int {
    Max(x, Reserve)
  }

  function ReservedSum(s: State): int {
    Reserved(s.storyOne) + Reserved(s.storyTwo)
      + Reserved(s.illustrationOne) + Reserved(s.illustrationTwo)
  }

  /**
   The fields each input passes to the handler as `a`, `b` and `c`, in the
   order the screen passes them: exactly the three other fields, none twice.
   */
  function Wiring(f: Field): (r: seq<Field>)
    ensures multiset(r) + multiset{f} == multiset{StoryOne, StoryTwo, IllustrationOne, IllustrationTwo}
  {
    match f
    case IllustrationOne => [StoryTwo, StoryOne, IllustrationTwo]
    case StoryOne => [StoryTwo, IllustrationOne, IllustrationTwo]
    case IllustrationTwo => [StoryTwo, IllustrationOne, StoryOne]
    case StoryTwo => [StoryOne, IllustrationOne, IllustrationTwo]
  }

  /** The handler's `maxValue`: the budget minus the reserves of the three other fields. */
  function MaxValue(a: int, b: int, c: int): int {
    Budget - (Reserved(a) + Reserved(b) + Reserved(c))
  }

  /** The ceiling the edited field `f` gets in state `s`. */
  function Ceiling(s: State, f: Field): int {
    Budget - (ReservedSum(s) - Reserved(Get(s, f)))
  }

  /**
   The share-point handler, fed by the input of field `f` reporting `v`: the
   field takes `v` clamped to its ceiling, and the counter is recomputed from
   the raw `v` (not the accepted value) and floored at 0.
   */
  function Update(s: State, f: Field, v: int): (r: State)
    ensures Get(r, f) == Min(v, Ceiling(s, f))
    ensures forall g :: g != f ==> Get(r, g) == Get(s, g)
    ensures r.totalPoints == Max(Budget - (v + (Sum(s) - Get(s, f))), 0)
  {
    var w := Wiring(f);
    var a, b, c := Get(s, w[0]), Get(s, w[1]), Get(s, w[2]);
    Set(s, f, Min(v, MaxValue(a, b, c))).(totalPoints := Max(Budget - (v + a + b + c), 0))
  }

  /** The state after the edits `es`, in order. */
  function Run(s: State, es: seq<Edit>): State
    decreases |es|
  {
    if |es| == 0 then s else Run(Update(s, es[0].field, es[0].value), es[1..])
  }

  /** Every value the widgets report lies within their declared bounds. */
  predicate WidgetBounded(es: seq<Edit>) {
    forall i :: 0 <= i < |es| ==> WidgetMin <= es[i].value <= WidgetMax
  }

  /**
   The inductive invariant of the screen: the reserved sum stays within the
   budget, and the counter is non-negative and never above the points
   really left.
   */
  predicate Inv(s: State) {
    && ReservedSum(s) <= Budget
    && 0 <= s.totalPoints <= Remaining(s)
  }

  predicate InRange(s: State) {
    forall f :: WidgetMin <= Get(s, f) <= WidgetMax
  }

  /** Every field holds a non-negative number of points. */
  predicate NonNegative(s: State) {
    forall f :: 0 <= Get(s, f)
  }

  lemma InitialInv()
    ensures Inv(Initial) && InRange(Initial)
  {
  }

  /** The reserve rule leaves the edited field between 10 and 70 points of room. */
  lemma CeilingBounds(s: State, f: Field)
    requires ReservedSum(s) <= Budget
    ensures Reserve <= Ceiling(s, f) <= WidgetMax
  {
  }

  /** What the invariant gives: the budget is respected and no field exceeds 70. */
  lemma InvConsequences(s: State)
    requires Inv(s)
    ensures Sum(s) <= Budget
    ensures forall f :: Get(s, f) <= WidgetMax
    ensures s.totalPoints >= 0
  {
  }

  /** Every update, whatever value it is fed, preserves the invariant. */
  lemma UpdatePreservesInv(s: State, f: Field, v: int)
    requires Inv(s)
    ensures Inv(Update(s, f, v))
  {
  }

  /** A non-negative value keeps every field within the widget bounds. */
  lemma UpdateKeepsInRange(s: State, f: Field, v: int)
    requires Inv(s) && NonNegative(s) && 0 <= v
    ensures InRange(Update(s, f, v))
  {
  }

  lemma {:induction false} RunPreservesInv(s: State, es: seq<Edit>)
    requires Inv(s)
    ensures Inv(Run(s, es))
    decreases |es|
  {
    if |es| > 0 {
      UpdatePreservesInv(s, es[0].field, es[0].value);
      RunPreservesInv(Update(s, es[0].field, es[0].value), es[1..]);
    }
  }

  lemma {:induction false} RunKeepsInRange(s: State, es: seq<Edit>)
    requires Inv(s) && InRange(s) && WidgetBounded(es)
    ensures InRange(Run(s, es))
    decreases |es|
  {
    if |es| > 0 {
      var s' := Update(s, es[0].field, es[0].value);
      UpdateKeepsInRange(s, es[0].field, es[0].value);
      UpdatePreservesInv(s, es[0].field, es[0].value);
      assert WidgetBounded(es[1..]) by {
        forall i | 0 <= i < |es[1..]|
          ensures WidgetMin <= es[1..][i].value <= WidgetMax
        {
          assert es[1..][i] == es[i + 1];
        }
      }
      RunKeepsInRange(s', es[1..]);
    }
  }

  /**
   The budget invariant of the screen: from the opening state, any sequence
   of widget edits leaves at most 100 points allocated, every field in
   [0, 70], and a non-negative counter that never overstates what is left.
   */
  lemma {:induction false} BudgetInvariant(es: seq<Edit>)
    requires WidgetBounded(es)
    ensures var r := Run(Initial, es);
      && Sum(r) <= Budget
      && InRange(r)
      && 0 <= r.totalPoints <= Remaining(r)
  {
    InitialInv();
    RunPreservesInv(Initial, es);
    RunKeepsInRange(Initial, es);
    InvConsequences(Run(Initial, es));
  }

  /**
   In any state, the counter after an update is exact unless the edit was
   clamped while some other field sat below its reserve; then it understates
   the points left. It never overstates them.
   */
  lemma CounterExactness(s: State, f: Field, v: int)
    ensures var r := Update(s, f, v);
      && r.totalPoints <= Remaining(r)
      && (r.totalPoints == Remaining(r)
          <==> v <= Ceiling(s, f) || forall g :: g != f ==> Reserve <= Get(s, g))
  {
  }

  /** The update rule on concrete edits from the opening state. */
  lemma Scenarios()
    // storyOne = 40: accepted, 60 remaining.
    ensures Update(Initial, StoryOne, 40) == State(40, 0, 0, 0, 60)
    // then illustrationOne = 80: ceiling 40, counter from the raw 80.
    ensures Update(Update(Initial, StoryOne, 40), IllustrationOne, 80) == State(40, 0, 40, 0, 0)
    // then illustrationOne = 70: 20 points are unspent but the counter shows 0.
    ensures var r := Update(Update(Initial, StoryOne, 40), IllustrationOne, 70);
      r.illustrationOne == 40 && r.totalPoints == 0 && Remaining(r) == 20
    // storyOne = 90 alone: clamped to 70, counter 10.
    ensures Update(Initial, StoryOne, 90) == State(70, 0, 0, 0, 10)
  {
  }
}
