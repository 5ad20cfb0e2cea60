/** The guard that keeps the three injected controls from being created
    twice (`createToggleButton`, `checkIfPageReadyForButton` and the
    mutation observer callback), as a state machine over the part of the
    page it looks at.

    The toggle goes in at the start of the top anchor, so a lookup among the
    top anchor's descendants finds it. The two size buttons go in after the
    bottom anchor, as its siblings, while the lookups for them search the
    bottom anchor's descendants; so the model counts the elements with those
    labels inside the bottom anchor (the host page's, never written by the
    script) apart from the size buttons after it (the script's). */
module Injection {

  /** What the guard sees of the page. */
  datatype Controls = Controls(
    topAnchor: bool,          // `.input-buttons-wrapper-top` is present
    bottomAnchor: bool,       // `.input-buttons-wrapper-bottom` is present
    togglesInTop: nat,        // "Toggle Wide Mode" controls inside the top anchor
    upInsideBottom: nat,      // "Window Size Up" elements inside the bottom anchor
    downInsideBottom: nat,    // "Window Size Down" elements inside the bottom anchor
    upAfterBottom: nat,       // Up buttons inserted after the bottom anchor
    downAfterBottom: nat,     // Down buttons inserted after the bottom anchor
    readyState: string)       // `document.readyState`

  /** The page, the script's `buttonCreated` flag, and the number of
      `createToggleButton` retries scheduled and not yet run. */
  datatype Guard = Guard(dom: Controls, buttonCreated: bool, pendingRetries: nat)

  predicate AnchorsFound(d: Controls)
  {
    d.topAnchor && d.bottomAnchor
  }

  /** The existing-controls check: a toggle in the top anchor, or an Up or
      Down labelled element inside the bottom anchor. */
  predicate ExistingFound(d: Controls)
  {
    d.togglesInTop > 0 || d.upInsideBottom > 0 || d.downInsideBottom > 0
  }

  /** Whether a `createToggleButton` call inserts the controls. */
  predicate Creates(g: Guard)
  {
    AnchorsFound(g.dom) && !ExistingFound(g.dom)
  }

  /** `createToggleButton`: with an anchor missing, schedule a retry and
      change nothing else; with a control found, change nothing; otherwise
      insert one toggle and one Up and one Down button and set
      `buttonCreated`. */
  function CreateStep(g: Guard): Guard
  {
    if !AnchorsFound(g.dom) then
      g.(pendingRetries := g.pendingRetries + 1)
    else if ExistingFound(g.dom) then
      g
    else
      Guard(g.dom.(togglesInTop := g.dom.togglesInTop + 1,
                   upAfterBottom := g.dom.upAfterBottom + 1,
                   downAfterBottom := g.dom.downAfterBottom + 1),
            true, g.pendingRetries)
  }

  /** `checkIfPageReadyForButton`, which is also all the observer callback
      does to this state. */
  function CheckStep(g: Guard): Guard
  {
    if g.dom.readyState == "complete" && !g.buttonCreated then CreateStep(g) else g
  }

  /** What happens to the state: an observer callback, a scheduled retry
      running (it calls `createToggleButton` directly, without the
      `buttonCreated` test), the host page rendering anchors, or the page's
      ready state changing. */
  datatype Event = Observe | RetryFires | AnchorsRendered(top: bool, bottom: bool) | ReadyStateBecomes(state: string)

  function Apply(g: Guard, e: Event): Guard
  {
    match e
    case Observe => CheckStep(g)
    case RetryFires =>
      if g.pendingRetries > 0 then CreateStep(g.(pendingRetries := g.pendingRetries - 1)) else g
    case AnchorsRendered(top, bottom) =>
      g.(dom := g.dom.(topAnchor := g.dom.topAnchor || top, bottomAnchor := g.dom.bottomAnchor || bottom))
    case ReadyStateBecomes(s) =>
      g.(dom := g.dom.(readyState := s))
  }

  function Run(g: Guard, es: seq<Event>): Guard
    decreases |es|
  {
    if es == [] then g else Run(Apply(g, es[0]), es[1..])
  }

  /** The script's controls on a page it has not touched yet. */
  predicate Initial(g: Guard)
  {
    !g.buttonCreated && g.dom.togglesInTop == 0 && g.dom.upAfterBottom == 0 && g.dom.downAfterBottom == 0
  }

  /** There is one of each control when `buttonCreated` is set and none
      before, and the anchors they went into are there. */
  predicate Consistent(g: Guard)
  {
    var n := if g.buttonCreated then 1 else 0;
    && g.dom.togglesInTop == n
    && g.dom.upAfterBottom == n
    && g.dom.downAfterBottom == n
    && (g.buttonCreated ==> AnchorsFound(g.dom))
  }

  /** When the anchors are there, `createToggleButton` either inserts
      exactly one of each control and sets `buttonCreated`, or changes
      nothing; with an anchor missing it only schedules a retry. */
  lemma CreateStepOutcome(g: Guard)
    ensures !AnchorsFound(g.dom) ==> CreateStep(g) == g.(pendingRetries := g.pendingRetries + 1)
    ensures AnchorsFound(g.dom) && ExistingFound(g.dom) ==> CreateStep(g) == g
    ensures Creates(g) ==>
      && CreateStep(g).buttonCreated
      && CreateStep(g).dom.togglesInTop == g.dom.togglesInTop + 1
      && CreateStep(g).dom.upAfterBottom == g.dom.upAfterBottom + 1
      && CreateStep(g).dom.downAfterBottom == g.dom.downAfterBottom + 1
      && CreateStep(g).pendingRetries == g.pendingRetries
  {
  }

  /** Once the anchors are there, a second `createToggleButton` call right
      after the first changes nothing more. */
  lemma CreateStepIdempotent(g: Guard)
    requires AnchorsFound(g.dom)
    ensures CreateStep(CreateStep(g)) == CreateStep(g)
  {
  }

  /** The size buttons the script inserted are invisible to the guard:
      however many stand after the bottom anchor, a call with no toggle in
      the top anchor inserts one more of each. */
  lemma SizeButtonsInvisibleToGuard(g: Guard, up: nat, down: nat)
    requires Creates(g)
    ensures var h := g.(dom := g.dom.(upAfterBottom := up, downAfterBottom := down));
            Creates(h) && CreateStep(h).dom.upAfterBottom == up + 1 && CreateStep(h).dom.downAfterBottom == down + 1
  {
  }

  /** `checkIfPageReadyForButton` only tries to create the controls when
      the page is complete and `buttonCreated` is not yet set. */
  lemma CheckStepGuard(g: Guard)
    ensures g.dom.readyState != "complete" || g.buttonCreated ==> CheckStep(g) == g
    ensures g.dom.readyState == "complete" && !g.buttonCreated ==> CheckStep(g) == CreateStep(g)
  {
  }

  lemma ApplyKeepsConsistent(g: Guard, e: Event)
    requires Consistent(g)
    ensures Consistent(Apply(g, e))
  {
  }

  lemma {:induction false} RunKeepsConsistent(g: Guard, es: seq<Event>)
    requires Consistent(g)
    ensures Consistent(Run(g, es))
    decreases |es|
  {
    if es != [] {
      ApplyKeepsConsistent(g, es[0]);
      RunKeepsConsistent(Apply(g, es[0]), es[1..]);
    }
  }

  /** Whatever sequence of observer callbacks, retries, renders and ready
      state changes follows, each control is created at most once, and
      exactly once if `buttonCreated` ends up set. */
  lemma AtMostOnce(g: Guard, es: seq<Event>)
    requires Initial(g)
    ensures var h := Run(g, es);
            && h.dom.togglesInTop <= 1 && h.dom.upAfterBottom <= 1 && h.dom.downAfterBottom <= 1
            && (h.buttonCreated <==> h.dom.togglesInTop == 1)
  {
    RunKeepsConsistent(g, es);
  }

  /** On a complete page with both anchors and no controls yet, an observer
      callback creates one of each, and the callbacks after it create no
      more. */
  lemma ObserverCreatesOnce(g: Guard, n: nat)
    requires Initial(g) && Creates(g) && g.dom.readyState == "complete"
    ensures var h := Run(g, seq(n + 1, _ => Observe));
            h.buttonCreated && h.dom.togglesInTop == 1 && h.dom.upAfterBottom == 1 && h.dom.downAfterBottom == 1
  {
    var es := seq(n + 1, _ => Observe);
    assert es[0] == Observe && es[1..] == seq(n, _ => Observe);
    var once := CheckStep(g);
    ObserversAfterCreation(once, n);
  }

  lemma {:induction false} ObserversAfterCreation(g: Guard, n: nat)
    requires g.buttonCreated
    ensures Run(g, seq(n, _ => Observe)) == g
    decreases n
  {
    if n > 0 {
      assert seq(n, _ => Observe)[1..] == seq(n - 1, _ => Observe);
      ObserversAfterCreation(g, n - 1);
    }
  }

  /** Anchors missing at the first check: the callback schedules a retry;
      when the anchors appear and the retry runs, one set of controls is
      created, and later callbacks do not add to it. */
  lemma RetryScenario(d: Controls)
    requires d.readyState == "complete" && !d.topAnchor && !d.bottomAnchor
    requires d.togglesInTop == 0 && d.upInsideBottom == 0 && d.downInsideBottom == 0
    requires d.upAfterBottom == 0 && d.downAfterBottom == 0
    ensures var h := Run(Guard(d, false, 0), [Observe, AnchorsRendered(true, true), RetryFires, Observe, Observe]);
            h.buttonCreated && h.pendingRetries == 0
            && h.dom.togglesInTop == 1 && h.dom.upAfterBottom == 1 && h.dom.downAfterBottom == 1
  {
  }
}
