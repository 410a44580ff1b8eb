/**
 * The `prepared` flag every example keeps: `example_initialize` sets it and
 * returns 0 when it is given a context, and returns 1 otherwise;
 * `example_render` returns 1 while the flag is false and otherwise the draw
 * result, which is always 0.
 */
module Lifecycle {

  /** A call the run loop makes into an example. */
  datatype Event = Initialize(hasContext: bool) | Render

  /** The status a call returns and the value of `prepared` afterwards. */
  datatype Step = Step(status: int, prepared: bool)

  /** `example_initialize`: all prepare steps run only when a context is given. */
  function InitializeStep(prepared: bool, hasContext: bool): (r: Step)
    ensures r.status == 0 <==> hasContext
    ensures r.status == 1 <==> !hasContext
    ensures r.prepared <==> prepared || hasContext
  {
    if hasContext then Step(0, true) else Step(1, prepared)
  }

  /** `example_render`: refuses with 1 before preparation, else draws and returns 0. */
  function RenderStep(prepared: bool): (r: Step)
    ensures r.status == 1 <==> !prepared
    ensures r.status == 0 <==> prepared
    ensures r.prepared == prepared
  {
    if !prepared then Step(1, prepared) else Step(0, prepared)
  }

  /** One call. */
  function Apply(prepared: bool, e: Event): Step
  {
    match e
    case Initialize(c) => InitializeStep(prepared, c)
    case Render => RenderStep(prepared)
  }

  /** The flag after a sequence of calls. */
  function PreparedAfter(prepared: bool, events: seq<Event>): bool
    decreases |events|
  {
    if events == [] then prepared
    else PreparedAfter(Apply(prepared, events[0]).prepared, events[1..])
  }

  /** Some call in the sequence is an initialisation with a context. */
  predicate HasSuccessfulInit(events: seq<Event>)
  {
    exists k :: 0 <= k < |events| && events[k] == Initialize(true)
  }

  /**
   * Starting unprepared (the flag's static initial value), an example is
   * prepared after a sequence of calls exactly when one of them was an
   * initialisation with a context; so a render returns 1 exactly when no
   * earlier call initialised the example successfully.
   */
  lemma {:induction false} PreparedIffInitialised(prepared: bool, events: seq<Event>)
    ensures PreparedAfter(prepared, events) <==> prepared || HasSuccessfulInit(events)
    decreases |events|
  {
    if events != [] {
      var next := Apply(prepared, events[0]).prepared;
      PreparedIffInitialised(next, events[1..]);
      if HasSuccessfulInit(events[1..]) {
        var k :| 0 <= k < |events[1..]| && events[1..][k] == Initialize(true);
        assert events[k + 1] == Initialize(true);
      }
      assert forall k | 1 <= k < |events| :: events[k] == events[1..][k - 1];
    }
  }

  /** A render after a call sequence from the initial state fails exactly when no initialisation succeeded. */
  lemma RenderFailsUntilInitialised(events: seq<Event>)
    ensures RenderStep(PreparedAfter(false, events)).status == 1 <==> !HasSuccessfulInit(events)
  {
    PreparedIffInitialised(false, events);
  }
}
