/**
  The flip-card digit pair (`FlipUnit`). It keeps the value on display
  (`current`), the value it is flipping to (`next`) and whether a flip is
  running. A React effect on `[value, current]` starts a flip whenever the
  incoming `value` differs from `current` and arms one 600 ms timeout that
  completes it; the effect's cleanup cancels that timeout before the effect
  runs again and when the card is torn down.

  Time is not modelled: the timeout is a `pending` target, and its expiry is
  the event `Fire`. The incoming prop is kept as `value`, because the effect
  re-runs only when `value` or `current` actually changes.
*/
module FlipUnit {
  import opened Types
  import opened Digits

  datatype Card = Card(value: nat, current: nat, next: nat, isFlipping: bool,
                       pending: Option<nat>, mounted: bool)

  /**
    What every reachable card satisfies: it is flipping exactly when `next` differs
    from `current`; while mounted, a timeout is pending exactly when the prop differs
    from `current`, and it targets the prop; after teardown nothing is pending.
  */
  predicate Consistent(f: Card) {
    (f.isFlipping <==> f.next != f.current) &&
    (f.mounted ==> f.pending == (if f.value == f.current then None else Some(f.value))) &&
    (!f.mounted ==> f.pending == None) &&
    (f.pending.Some? ==> f.next == f.pending.value)
  }

  /** The effect body: on a differing value, start the flip and arm the timeout for it. */
  function Effect(f: Card): (r: Card)
    ensures r.value == f.value && r.current == f.current && r.mounted == f.mounted
    ensures f.mounted && f.pending == None && (f.isFlipping <==> f.next != f.current) ==> Consistent(r)
    ensures f.value == f.current ==> r == f
  {
    if f.value != f.current then f.(next := f.value, isFlipping := true, pending := Some(f.value)) else f
  }

  /** First render: all three state hooks start from the prop; the effect then finds nothing to do. */
  function Mount(v: nat): (f: Card)
    ensures Consistent(f) && f.mounted && f.value == v
    ensures !f.isFlipping && f.current == f.next == v && f.pending == None
  {
    Effect(Card(v, v, v, false, None, true))
  }

  /**
    A render with prop `v`. If the prop changed, the cleanup cancels any pending
    timeout and the effect runs again with the new prop.
  */
  function Receive(f: Card, v: nat): (r: Card)
    requires Consistent(f)
    ensures Consistent(r) && r.current == f.current && r.mounted == f.mounted
    ensures f.mounted ==> r.value == v
    ensures f.mounted && v != f.value && v != f.current ==>
              r.next == v && r.isFlipping && r.pending == Some(v)
    ensures f.mounted && v == f.current ==>
              r.pending == None && r.next == f.next && r.isFlipping == f.isFlipping
    ensures !f.mounted || v == f.value ==> r == f
  {
    if !f.mounted || v == f.value then f else Effect(f.(value := v, pending := None))
  }

  /**
    Expiry of the pending timeout: the flip ends on the timeout's target. The effect
    re-runs because `current` changed, and finds the prop already shown.
  */
  function Fire(f: Card): (r: Card)
    requires Consistent(f)
    ensures Consistent(r) && r.value == f.value && r.mounted == f.mounted
    ensures f.pending.Some? ==>
              !r.isFlipping && r.current == r.next == f.pending.value && r.pending == None
    ensures f.pending.None? ==> r == f
  {
    match f.pending
    case None => f
    case Some(target) => Effect(f.(isFlipping := false, current := target, pending := None))
  }

  /** Unmounting runs the cleanup: the pending timeout is cancelled. */
  function Teardown(f: Card): (r: Card)
    requires Consistent(f)
    ensures Consistent(r) && !r.mounted && r.pending == None
    ensures r.current == f.current && r.next == f.next && r.isFlipping == f.isFlipping
  {
    f.(pending := None, mounted := false)
  }

  /** A card that is not flipping does not react to the value it already shows. */
  lemma SameValueIsNoop(f: Card)
    requires Consistent(f) && !f.isFlipping
    ensures Receive(f, f.current) == f
  {
  }

  /**
    For distinct `a` and `b`: a card showing `a` that receives `b` is flipping from `a`
    to `b` with one timeout for `b`, and after the timeout it rests on `b`.
  */
  lemma FlipThenSettle(a: nat, b: nat)
    requires a != b
    ensures Receive(Mount(a), b) == Card(b, a, b, true, Some(b), true)
    ensures Fire(Receive(Mount(a), b)) == Mount(b)
  {
  }

  /** Renders with the props `vs`, one after another, with no timeout expiring in between. */
  function Feed(f: Card, vs: seq<nat>): (r: Card)
    requires Consistent(f)
    ensures Consistent(r)
    decreases |vs|
  {
    if vs == [] then f else Feed(Receive(f, vs[0]), vs[1..])
  }

  /**
    However many values arrive mid-flip, the card keeps showing `current`, tracks only
    the newest prop, and has a timeout pending exactly when that prop differs from `current`.
  */
  lemma {:induction false} FeedTracksNewest(f: Card, vs: seq<nat>)
    requires Consistent(f) && f.mounted && vs != []
    ensures var r := Feed(f, vs);
            r.mounted && r.current == f.current && r.value == vs[|vs| - 1] &&
            r.pending == (if vs[|vs| - 1] == f.current then None else Some(vs[|vs| - 1]))
    decreases |vs|
  {
    var g := Receive(f, vs[0]);
    if |vs| > 1 {
      FeedTracksNewest(g, vs[1..]);
      assert vs[1..][|vs[1..]| - 1] == vs[|vs| - 1];
    } else {
      assert Feed(g, vs[1..]) == g;
    }
  }

  /** A flip interrupted by new values ends on the newest one, never on an intermediate target. */
  lemma NewestValueWins(f: Card, vs: seq<nat>)
    requires Consistent(f) && f.mounted && vs != [] && vs[|vs| - 1] != f.current
    ensures var r := Fire(Feed(f, vs));
            !r.isFlipping && r.current == r.next == vs[|vs| - 1] && r.pending == None
  {
    FeedTracksNewest(f, vs);
  }

  /**
    If the prop returns to the shown value mid-flip, the timeout is cancelled and none
    is armed: the card stays flipping towards the stale `next` until the prop changes again.
  */
  lemma RevertMidFlipStalls(f: Card)
    requires Consistent(f) && f.mounted && f.isFlipping && f.pending.Some?
    ensures var r := Receive(f, f.current);
            r.isFlipping && r.next == f.next != r.current && r.pending == None && Fire(r) == r
  {
  }

  /** Nothing changes the state after teardown. */
  lemma NoUpdateAfterTeardown(f: Card, v: nat)
    requires Consistent(f)
    ensures Receive(Teardown(f), v) == Teardown(f)
    ensures Fire(Teardown(f)) == Teardown(f)
  {
  }

  /** The four half-panels and whether the card carries the `flipping` class. */
  datatype Panels = Panels(top: string, bottom: string, leafFront: string, leafBack: string, flipping: bool)

  /**
    The static top and the back of the leaf show `next`; the static bottom and the front
    of the leaf show `current`. At rest all four show the same label; mid-flip the two
    halves show different labels.
  */
  function Render(f: Card): (p: Panels)
    requires Consistent(f)
    ensures p.flipping == f.isFlipping
    ensures p.top == p.leafBack && p.bottom == p.leafFront
    ensures AllDigits(p.top) && DigitsValue(p.top) == f.next
    ensures AllDigits(p.bottom) && DigitsValue(p.bottom) == f.current
    ensures !f.isFlipping ==> p.top == p.bottom
    ensures f.isFlipping ==> p.top != p.bottom
    ensures p.top == Pad(f.next) && p.bottom == Pad(f.current)
  {
    PadRoundTrip(f.next);
    PadRoundTrip(f.current);
    Panels(Pad(f.next), Pad(f.current), Pad(f.current), Pad(f.next), f.isFlipping)
  }

  class FlipDigit {
    var value: nat
    var current: nat
    var next: nat
    var isFlipping: bool
    var pending: Option<nat>
    var mounted: bool

    function State(): Card
      reads this
    {
      Card(value, current, next, isFlipping, pending, mounted)
    }

    ghost predicate Valid()
      reads this
    {
      Consistent(State())
    }

    constructor (v: nat)
      ensures Valid() && State() == Mount(v)
    {
      value, current, next, isFlipping, pending, mounted := v, v, v, false, None, true;
      new;
      RunEffect();
    }

    /** The `[value, current]` effect: start a flip towards a differing prop and arm its timeout. */
    method RunEffect()
      modifies this
      ensures State() == Effect(old(State()))
    {
      if value != current {
        next := value;
        isFlipping := true;
        pending := Some(value);
      }
    }

    /** The parent renders the card with prop `v`. */
    method OnValue(v: nat)
      requires Valid()
      modifies this
      ensures Valid() && State() == Receive(old(State()), v)
    {
      if mounted && v != value {
        pending := None;
        value := v;
        RunEffect();
      }
    }

    /** The 600 ms timeout expires. */
    method TimerFired()
      requires Valid()
      modifies this
      ensures Valid() && State() == Fire(old(State()))
    {
      match pending
      case None =>
      case Some(target) =>
        pending := None;
        isFlipping := false;
        current := target;
        RunEffect();
    }

    /** What the card shows (the static halves and the leaf). */
    function View(): (p: Panels)
      requires Valid()
      reads this
      ensures p == Render(State())
      ensures !isFlipping ==> p.top == p.bottom == Pad(current)
    {
      Render(State())
    }

    /** The card is removed from the page. */
    method Unmount()
      requires Valid()
      modifies this
      ensures Valid() && State() == Teardown(old(State()))
    {
      pending := None;
      mounted := false;
    }
  }
}
