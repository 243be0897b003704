# Share Points allocation engine, in Dafny

This project models the point-allocation engine behind the "Share Points"
screen of a children's collaborative story-and-drawing web application. On
that screen a child spreads a budget of 100 points over four fields: the
story and the illustration of each of two teammates. Then the child presses
"Match Up!" to send the split to the scoring service.

The model has two modules:

- `Allocation` (`allocation.dfy`) holds the four point fields and the
  "points remaining" counter. It also holds the share-point handler
  (`Update`), which clamps an edited field so that each other field keeps a
  10-point reserve and recomputes the counter from the raw proposed value.
  The four inputs' wiring says which fields each input passes to the
  handler (`Wiring`). `Run` folds the handler over a sequence of edits.
- `Submission` (`submission.dfy`) holds the confirm handler (`Confirm`). It
  refuses a negative counter with a notice, and otherwise builds one record
  per teammate. It also holds the screen as a whole (`Step`, `Replay`):
  edits and confirm presses, where each accepted press hands its record
  list to the external `submitPoints` sink exactly once.

The main results:

- The budget invariant needs a stronger inductive fact. When each field is
  counted as at least 10, the four fields sum to at most 100. Every update
  preserves this, whatever value it is fed.
- From that fact, the edited field's ceiling always lies in [10, 70]. So the
  points allocated never exceed 100, and with non-negative widget values
  every field stays in [0, 70].
- The counter is computed from the raw proposed value, so it can differ from
  the points really left. It never overstates them. It is exact unless the
  edit was clamped while another field held fewer than 10 points, and this
  is proved as an if-and-only-if. Example: storyOne = 40, then
  illustrationOne = 70. The field accepts 40, so 20 points are unspent, but
  the counter shows 0.
- The counter is floored at 0, so the confirm handler's over-budget branch
  can never fire. The model keeps that branch as written.
  `NoticeNeverRaised` proves that no notice is ever raised in any session,
  whatever values the edits carry. `ScreenSession` proves that with the
  widgets' bounds every press submits exactly one well-formed two-record
  payload.

## Model

| member | source | states |
|---|---|---|
| `Allocation.InitialInv` | src/components/pages/PointShare/RenderPointShare.js:16-20 | The opening state (all fields 0, counter 100) satisfies the reserve invariant and the widget range |
| `Allocation.Wiring` | src/components/pages/PointShare/RenderPointShare.js:142-229 | Each input passes the handler exactly the three other fields: with the edited field added, they make up the four fields, none repeated or missing |
| `Allocation.Update` | src/components/pages/PointShare/RenderPointShare.js:69-74 | The edited field becomes min(v, 100 - the reserved values of the other three fields); no other field changes; the counter becomes max(100 - (v + the other three fields), 0), using the raw v |
| `Allocation.CeilingBounds` | src/components/pages/PointShare/RenderPointShare.js:70-72 | While the reserved sum is at most 100, the handler's maxValue is at least 10 and at most 70 |
| `Allocation.InvConsequences` | src/components/pages/PointShare/RenderPointShare.js:70-73 | The reserve invariant implies at most 100 points allocated, no field above 70, and a non-negative counter |
| `Allocation.UpdatePreservesInv` | src/components/pages/PointShare/RenderPointShare.js:69-74 | One update, whatever its value, keeps the reserved sum within 100 and the counter between 0 and the points really left |
| `Allocation.UpdateKeepsInRange` | src/components/pages/PointShare/RenderPointShare.js:142-146 | From an invariant state with non-negative fields, a non-negative value leaves every field in [0, 70] |
| `Allocation.RunPreservesInv` | src/components/pages/PointShare/RenderPointShare.js:69-74 | Any sequence of updates preserves the reserve invariant (induction over the sequence) |
| `Allocation.RunKeepsInRange` | src/components/pages/PointShare/RenderPointShare.js:142-229 | Any sequence of edits whose values lie within the widgets' [0, 70] keeps every field in [0, 70] |
| `Allocation.BudgetInvariant` | src/components/pages/PointShare/RenderPointShare.js:16-74 | From the opening state, any bounded edit sequence leaves at most 100 points allocated, every field in [0, 70], and a counter between 0 and the points left |
| `Allocation.CounterExactness` | src/components/pages/PointShare/RenderPointShare.js:73 | From any state, after an update the counter never exceeds the points left; it equals them if and only if the value was not clamped or every other field held at least 10 |
| `Allocation.Scenarios` | src/components/pages/PointShare/RenderPointShare.js:69-74 | Four edits from the opening state: 40 is accepted with 60 left; 80 against 40 is clamped to 40 with counter 0; 70 against 40 is clamped to 40 with counter 0 while 20 are left; 90 alone is clamped to 70 with counter 10 |
| `Submission.Confirm` | src/components/pages/PointShare/RenderPointShare.js:28-51 | Refuses with the over-budget notice exactly when the counter is negative; otherwise two records, teammate i getting its story points as writing points, its illustration points as drawing points, the child's member id and teammate i's submission id |
| `Submission.PayloadConservesPoints` | src/components/pages/PointShare/RenderPointShare.js:37-50 | The submitted records together carry exactly the points allocated over the four fields |
| `Submission.ConfirmOnInvariant` | src/components/pages/PointShare/RenderPointShare.js:31-36 | On every state the update rule keeps invariant, the refusal branch is not taken and the payload is well formed (two records, same member id, at most 100 points, shares in [0, 70]) |
| `Submission.Step` | src/components/pages/PointShare/RenderPointShare.js:28-57 | An edit submits nothing. A press leaves the points and the counter unchanged and either appends its payload to the submitted calls or raises one notice |
| `Submission.NoticeNeverRaised` | src/components/pages/PointShare/RenderPointShare.js:31-36 | From any state the update rule keeps invariant, any sequence of edits and presses, with any edit values, raises no over-budget notice |
| `Submission.ReplayKeepsScreenInv` | src/components/pages/PointShare/RenderPointShare.js:53-57 | Over any bounded event sequence, the points are the fold of the edits alone, the calls grow by exactly one per press and keep earlier calls, no notice is raised, and every call is well formed |
| `Submission.ScreenSession` | src/components/pages/PointShare/RenderPointShare.js:28-57 | From the opened screen, any bounded session raises no notice, submits exactly once per press, and submits only well-formed payloads |

## Left out

- `ChildDashboardContainer.js` (the profile fetch with its unmount flag, and the choice between loading and dashboard views) is not part of this model: it is I/O and lifecycle glue.
- Rendering, the submission viewer and instructions modals, the "Back" navigation, and the mapping of the global child and team records into the screen are left out. The records are the `Context` parameter.
- The `submitPoints` network call is modelled only as the payload appended to `Screen.calls`. Its authentication argument and its success or failure are not observed by the screen.
- Internals of the number input widget are left out: the step of 5, typing, and the null value of a cleared field. `Update` accepts any integer. The invariant lemmas take the widget's declared bounds [0, 70] as a premise on the edit values.
- Re-running of the submit effect when the authentication state changes is left out. It is framework scheduling, not allocation logic.
- Point values are JavaScript numbers; the model uses `int`, so non-integer entries (for example 12.5, which the input accepts because it sets no precision) and floating-point rounding are not modelled.
- Member and submission identifiers are opaque (`string` and `int`). They are passed through unchanged.
- Each edit is assumed to see the state left by the previous one: one handler call per re-render, with no batched updates.
