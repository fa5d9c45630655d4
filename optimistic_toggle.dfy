/**
 * The optimistic toggle protocol that both device items (lights and doors)
 * follow: capture the displayed value, show its negation at once, send the
 * negation to the backend, keep it on success and put the captured value
 * back on failure.
 *
 * The network is an abstract Outcome. Besides the two steps of one toggle
 * (Begin, Settle) the module models a device item as a sequence of events,
 * so that presses which overlap an unanswered request can be studied.
 */
module OptimisticToggle {
  import opened Wrappers

  /** How an update request ended: an ok response, a non-ok response (with
      the body's optional `message`), or an exception (network failure or
      an unreadable body). */
  datatype Outcome = Ok | HttpError(message: Option<string>) | Thrown

  /** The values a press captures: the displayed value before the press and
      the one it displays and sends. */
  datatype Pending = Pending(previo: bool, nuevo: bool)

  /** The PUT request of a toggle: resource path segment, device id, body `estado`. */
  datatype UpdateRequest = UpdateRequest(resource: string, id: int, estado: bool)

  /** The call `onToggle(id, estado)` made to the parent screen. */
  datatype Notification = Notification(id: int, estado: bool)

  /** What a press captures from the displayed value. */
  function Begin(shown: bool): (p: Pending)
    ensures p.nuevo != p.previo
  {
    Pending(shown, !shown)
  }

  /** The displayed value once the request of p ends with o, given the
      value displayed just before: left alone on success, reverted to the
      captured value on failure. */
  function Settle(shown: bool, p: Pending, o: Outcome): (r: bool)
    ensures r == shown || r == p.previo
    ensures o.Ok? ==> r == shown
    ensures !o.Ok? ==> r == p.previo
  {
    if o.Ok? then shown else p.previo
  }

  /** The parent is told of the new value only on success and only when a
      callback was given. */
  function Notify(hasOnToggle: bool, id: int, p: Pending, o: Outcome): (n: Option<Notification>)
    ensures n.Some? <==> o.Ok? && hasOnToggle
    ensures n.Some? ==> n.value == Notification(id, p.nuevo)
  {
    if o.Ok? && hasOnToggle then Some(Notification(id, p.nuevo)) else None
  }

  /** One toggle on its own: the value shown after its request resolves is
      the new value on success and the captured one on failure. */
  lemma SingleToggleSettles(shown: bool, o: Outcome)
    ensures Begin(shown).nuevo == !shown
    ensures Settle(Begin(shown).nuevo, Begin(shown), o) == if o.Ok? then !shown else shown
  {
  }

  // ---------------------------------------------------------------------
  // Event-trace model of one device item and the backend row behind it.

  /** The displayed value, the requests still unanswered (oldest first) and
      the value stored by the backend. */
  datatype Item = Item(shown: bool, inFlight: seq<Pending>, server: bool)

  /** A press of the switch, or the answer to the k-th unanswered request. */
  datatype Event = Press | Resolve(k: nat, outcome: Outcome)

  /** One event. A successful request stores its value in the backend; a
      failed one changes nothing there. Answers may arrive in any order. */
  function Step(s: Item, e: Event): Item {
    match e
    case Press =>
      var p := Begin(s.shown);
      Item(p.nuevo, s.inFlight + [p], s.server)
    case Resolve(k, o) =>
      if k < |s.inFlight| then
        var p := s.inFlight[k];
        var rest := s.inFlight[..k] + s.inFlight[k + 1..];
        Item(Settle(s.shown, p, o), rest, if o.Ok? then p.nuevo else s.server)
      else s
  }

  function Run(s: Item, evs: seq<Event>): Item
    decreases |evs|
  {
    if evs == [] then s else Run(Step(s, evs[0]), evs[1..])
  }

  predicate AtRest(s: Item) {
    s.inFlight == []
  }

  /** The switch is only pressed while no request is unanswered (what a
      control disabled during its request would enforce). */
  predicate Serialized(s: Item, evs: seq<Event>)
    decreases |evs|
  {
    evs == [] || ((evs[0].Press? ==> AtRest(s)) && Serialized(Step(s, evs[0]), evs[1..]))
  }

  /** At rest the display agrees with the backend; with one request out the
      display shows the value sent and the backend still holds the captured one. */
  predicate Agrees(s: Item) {
    |s.inFlight| <= 1
    && (AtRest(s) ==> s.shown == s.server)
    && (|s.inFlight| == 1 ==> s.shown == s.inFlight[0].nuevo && s.server == s.inFlight[0].previo)
  }

  /** A press followed by its answer, starting at rest: the item ends at
      rest showing the new value on success and the old one on failure,
      and the backend holds what is shown. */
  lemma {:induction false} PressThenAnswer(s: Item, o: Outcome)
    requires AtRest(s) && s.shown == s.server
    ensures var r := Run(s, [Press, Resolve(0, o)]);
      AtRest(r) && r.shown == r.server && r.shown == (if o.Ok? then !s.shown else s.shown)
  {
    var evs := [Press, Resolve(0, o)];
    var s1 := Step(s, Press);
    assert Run(s, evs) == Run(s1, [Resolve(0, o)]);
    assert Run(s1, [Resolve(0, o)]) == Run(Step(s1, Resolve(0, o)), []);
  }

  /** As long as presses never overlap an unanswered request, every
      reachable item agrees with the backend. */
  lemma {:induction false} SerializedKeepsAgreement(s: Item, evs: seq<Event>)
    requires Agrees(s) && Serialized(s, evs)
    ensures Agrees(Run(s, evs))
    decreases |evs|
  {
    if evs != [] {
      var t := Step(s, evs[0]);
      match evs[0] {
        case Press =>
          assert t.inFlight == [Begin(s.shown)];
        case Resolve(k, o) =>
          if k < |s.inFlight| {
            assert k == 0 && t.inFlight == [];
          }
      }
      SerializedKeepsAgreement(t, evs[1..]);
    }
  }

  /** The race: two overlapping presses whose requests both fail, answered
      in order, leave the item at rest showing a value the backend never
      stored. */
  lemma OverlappingPressesDiverge()
    ensures var r := Run(Item(false, [], false), [Press, Press, Resolve(0, Thrown), Resolve(0, Thrown)]);
      AtRest(r) && r.shown && !r.server
  {
    var s0 := Item(false, [], false);
    var s1 := Step(s0, Press);
    var s2 := Step(s1, Press);
    assert s2 == Item(false, [Pending(false, true), Pending(true, false)], false);
    var s3 := Step(s2, Resolve(0, Thrown));
    assert s3 == Item(false, [Pending(true, false)], false);
    var s4 := Step(s3, Resolve(0, Thrown));
    assert s4 == Item(true, [], false);
    var evs := [Press, Press, Resolve(0, Thrown), Resolve(0, Thrown)];
    assert Run(s0, evs) == Run(s1, evs[1..]);
    assert Run(s1, evs[1..]) == Run(s2, evs[2..]);
    assert Run(s2, evs[2..]) == Run(s3, evs[3..]);
    assert Run(s3, evs[3..]) == Run(s4, []);
  }
}
