/**
 The confirm step of the "Share Points" screen ("Match Up!"), and the screen
 as a whole: a sequence of field edits and confirm presses, each confirm that
 passes the budget check handing a two-record payload to the external
 `submitPoints` sink exactly once.
 */
module Submission {
  import opened Allocation

  /** Identifiers come from the global child and team records; they are passed through untouched. */
  type MemberId = string
  type SubmissionId = int

  /** What the screen reads from the global state: the signed-in child and both teammates' submissions. */
  datatype Context = Context(memberId: MemberId, child1Submission: SubmissionId, child2Submission: SubmissionId)

  /** One teammate's share, in the shape the scoring service receives. */
  datatype SubmissionRecord = SubmissionRecord(
    writingPoints: int,
    drawingPoints: int,
    memberId: MemberId,
    submissionId: SubmissionId)

  datatype ConfirmOutcome =
    | Rejected(notice: string)
    | Submit(payload: seq<SubmissionRecord>)

  const OverBudgetNotice: string := "You may only allocate 100 points!"

  /** The story field of teammate `i` (0 or 1). */
  function StoryOf(i: nat): Field
    requires i < 2
  {
    if i == 0 then StoryOne else StoryTwo
  }

  /** The illustration field of teammate `i` (0 or 1). */
  function IllustrationOf(i: nat): Field
    requires i < 2
  {
    if i == 0 then IllustrationOne else IllustrationTwo
  }

  function SubmissionOf(ctx: Context, i: nat): SubmissionId
    requires i < 2
  {
    if i == 0 then ctx.child1Submission else ctx.child2Submission
  }

  /** Points carried by a payload. */
  function PayloadPoints(p: seq<SubmissionRecord>): int
    decreases |p|
  {
    if |p| == 0 then 0 else p[0].writingPoints + p[0].drawingPoints + PayloadPoints(p[1..])
  }

  /**
   A well-formed payload for `ctx`: one record per teammate, in teammate
   order, both carrying the signed-in child's member id, with at most 100
   points in all and every share within the widget bounds.
   */
  predicate ValidPayload(p: seq<SubmissionRecord>, ctx: Context) {
    && |p| == 2
    && (forall i :: 0 <= i < 2 ==>
          && p[i].memberId == ctx.memberId
          && p[i].submissionId == SubmissionOf(ctx, i)
          && WidgetMin <= p[i].writingPoints <= WidgetMax
          && WidgetMin <= p[i].drawingPoints <= WidgetMax)
    && PayloadPoints(p) <= Budget
  }

  /**
   The confirm handler: a negative counter is refused with a notice;
   otherwise one record per teammate is built from the current fields.
   */
  function Confirm(s: State, ctx: Context): (r: ConfirmOutcome)
    ensures r.Rejected? <==> s.totalPoints < 0
    ensures r.Rejected? ==> r.notice == OverBudgetNotice
    ensures r.Submit? ==>
      && |r.payload| == 2
      && (forall i :: 0 <= i < 2 ==>
            && r.payload[i].writingPoints == Get(s, StoryOf(i))
            && r.payload[i].drawingPoints == Get(s, IllustrationOf(i))
            && r.payload[i].memberId == ctx.memberId
            && r.payload[i].submissionId == SubmissionOf(ctx, i))
  {
    if s.totalPoints < 0 then
      Rejected(OverBudgetNotice)
    else
      Submit([
        SubmissionRecord(s.storyOne, s.illustrationOne, ctx.memberId, ctx.child1Submission),
        SubmissionRecord(s.storyTwo, s.illustrationTwo, ctx.memberId, ctx.child2Submission)
      ])
  }

  /** Every allocated point lands in exactly one record: the payload carries the whole allocation. */
  lemma PayloadConservesPoints(s: State, ctx: Context)
    requires Confirm(s, ctx).Submit?
    ensures PayloadPoints(Confirm(s, ctx).payload) == Sum(s)
  {
    var p := Confirm(s, ctx).payload;
    assert PayloadPoints(p[1..][1..]) == 0;
    assert PayloadPoints(p[1..]) == s.storyTwo + s.illustrationTwo;
    assert PayloadPoints(p) == s.storyOne + s.illustrationOne + PayloadPoints(p[1..]);
  }

  /** On any state the update rule can reach, confirm submits, and what it submits is well formed. */
  lemma ConfirmOnInvariant(s: State, ctx: Context)
    requires Inv(s) && InRange(s)
    ensures Confirm(s, ctx).Submit?
    ensures ValidPayload(Confirm(s, ctx).payload, ctx)
  {
    InvConsequences(s);
    PayloadConservesPoints(s, ctx);
  }

  /** A user action on the screen. */
  datatype Event = Change(edit: Edit) | Press

  /**
   The screen: its point state, the payloads handed to `submitPoints` so far
   (the last one is the `teamPoints` state), and the notices raised.
   */
  datatype Screen = Screen(alloc: State, calls: seq<seq<SubmissionRecord>>, notices: nat)

  const Opened: Screen := Screen(Initial, [], 0)

  /**
   One user action. An edit goes through the update rule and submits
   nothing. A press that passes the check stores a fresh record list, and the
   effect watching that list submits it once; a refused press raises one
   notice.
   */
  function Step(t: Screen, ctx: Context, e: Event): (r: Screen)
    ensures e.Press? ==> r.alloc == t.alloc
    ensures e.Change? ==> r.calls == t.calls && r.notices == t.notices
    ensures e.Press? && t.alloc.totalPoints >= 0 ==>
      r.calls == t.calls + [Confirm(t.alloc, ctx).payload] && r.notices == t.notices
    ensures e.Press? && t.alloc.totalPoints < 0 ==>
      r.calls == t.calls && r.notices == t.notices + 1
  {
    match e
    case Change(ed) => t.(alloc := Update(t.alloc, ed.field, ed.value))
    case Press =>
      match Confirm(t.alloc, ctx)
      case Rejected(_) => t.(notices := t.notices + 1)
      case Submit(p) => t.(calls := t.calls + [p])
  }

  function Replay(t: Screen, ctx: Context, es: seq<Event>): Screen
    decreases |es|
  {
    if |es| == 0 then t else Replay(Step(t, ctx, es[0]), ctx, es[1..])
  }

  /** The edits among the events, in order. */
  function Edits(es: seq<Event>): (r: seq<Edit>)
    ensures |r| + Presses(es) == |es|
    decreases |es|
  {
    if |es| == 0 then []
    else (if es[0].Change? then [es[0].edit] else []) + Edits(es[1..])
  }

  function Presses(es: seq<Event>): nat
    decreases |es|
  {
    if |es| == 0 then 0 else (if es[0].Press? then 1 else 0) + Presses(es[1..])
  }

  predicate EventsBounded(es: seq<Event>) {
    forall i :: 0 <= i < |es| && es[i].Change? ==> WidgetMin <= es[i].edit.value <= WidgetMax
  }

  predicate ScreenInv(t: Screen, ctx: Context) {
    && Inv(t.alloc)
    && InRange(t.alloc)
    && t.notices == 0
    && forall j :: 0 <= j < |t.calls| ==> ValidPayload(t.calls[j], ctx)
  }

  lemma EventsBoundedTail(es: seq<Event>)
    requires |es| > 0 && EventsBounded(es)
    ensures EventsBounded(es[1..])
  {
  }

  lemma {:induction false} ReplayKeepsScreenInv(t: Screen, ctx: Context, es: seq<Event>)
    requires ScreenInv(t, ctx) && EventsBounded(es)
    ensures var r := Replay(t, ctx, es);
      && ScreenInv(r, ctx)
      && r.alloc == Run(t.alloc, Edits(es))
      && |r.calls| == |t.calls| + Presses(es)
      && r.calls[..|t.calls|] == t.calls
    decreases |es|
  {
    if |es| > 0 {
      var t' := Step(t, ctx, es[0]);
      EventsBoundedTail(es);
      match es[0]
      case Change(ed) =>
        UpdatePreservesInv(t.alloc, ed.field, ed.value);
        UpdateKeepsInRange(t.alloc, ed.field, ed.value);
        assert ScreenInv(t', ctx);
        ReplayKeepsScreenInv(t', ctx, es[1..]);
        assert Edits(es) == [ed] + Edits(es[1..]);
        assert ([ed] + Edits(es[1..]))[1..] == Edits(es[1..]);
      case Press =>
        ConfirmOnInvariant(t.alloc, ctx);
        assert ScreenInv(t', ctx);
        ReplayKeepsScreenInv(t', ctx, es[1..]);
        assert Edits(es) == Edits(es[1..]);
        var r := Replay(t', ctx, es[1..]);
        assert r.calls[..|t.calls|] == r.calls[..|t'.calls|][..|t.calls|];
    }
  }

  /**
   The over-budget branch of confirm is dead: from any state the update rule
   keeps invariant, no sequence of edits and presses, whatever values the
   edits carry, ever raises a notice.
   */
  lemma {:induction false} NoticeNeverRaised(t: Screen, ctx: Context, es: seq<Event>)
    requires Inv(t.alloc) && t.notices == 0
    ensures Replay(t, ctx, es).notices == 0
    decreases |es|
  {
    if |es| > 0 {
      if es[0].Change? {
        UpdatePreservesInv(t.alloc, es[0].edit.field, es[0].edit.value);
      }
      NoticeNeverRaised(Step(t, ctx, es[0]), ctx, es[1..]);
    }
  }

  /**
   The whole screen from the moment it opens: whatever bounded values the
   child enters, no notice is raised, the points are those of the edits
   alone, every press submits exactly once, and every submitted payload is
   well formed.
   */
  lemma {:induction false} ScreenSession(ctx: Context, es: seq<Event>)
    requires EventsBounded(es)
    ensures var r := Replay(Opened, ctx, es);
      && r.notices == 0
      && r.alloc == Run(Initial, Edits(es))
      && |r.calls| == Presses(es)
      && forall j :: 0 <= j < |r.calls| ==> ValidPayload(r.calls[j], ctx)
  {
    InitialInv();
    ReplayKeepsScreenInv(Opened, ctx, es);
  }
}
