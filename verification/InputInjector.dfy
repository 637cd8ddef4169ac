/** Turning remote input into local input: the keys held down, and the fractions of a wheel step that
    are kept between packets. Floating-point values are real numbers here. */
module InputInjector {
  import opened Options
  import opened InputDevices

  type Key = nat                                                       // a virtual key; 0 stands for none

  datatype Input =
    | Keyboard(key: Key, up: bool)
    | MoveTo(x: real, y: real)
    | Mouse(button: MouseButton, up: bool)
    | Wheel(units: int)
    | HorizontalWheel(units: int)

  datatype PointerKind = Move | Down | Up | Scroll | Unknown

  /** A decoded packet, with the fields it may lack. A key's code comes as its virtual key and the
      modifier it is itself; a modifier entry that names no modifier is None. */
  datatype Event =
    | ReleaseAll
    | KeyEvent(action: Option<bool>, key: Option<Key>, own: Option<Modifier>, modifiers: Option<seq<Option<Modifier>>>)
    | Pointer(kind: PointerKind, x: Option<real>, y: Option<real>, button: Option<Option<MouseButton>>, dx: Option<real>, dy: Option<real>)

  const WHEEL_DELTA := 120.0
  const MAX_SCROLL := 2000.0

  function ModifierKey(modifier: Modifier): (r: Key)
    ensures r != 0
  {
    match modifier
    case Shift => 0xA0
    case Ctrl => 0xA2
    case Alt => 0xA4
    case Meta => 0x5B
  }

  /** The key a modifier entry stands for: the event's own key when that key is this modifier. */
  function EntryKey(entry: Option<Modifier>, key: Key, own: Option<Modifier>): Key {
    if entry.None? then 0 else if own == entry then key else ModifierKey(entry.value)
  }

  function Without(keys: seq<Key>, key: Key): seq<Key> {
    if keys == [] then []
    else if keys[|keys| - 1] == key then Without(keys[..|keys| - 1], key)
    else Without(keys[..|keys| - 1], key) + [keys[|keys| - 1]]
  }

  function With(keys: seq<Key>, key: Key): seq<Key> {
    if key in keys then keys else keys + [key]
  }

  /** The modifiers to press before the key: those not yet held, each once. */
  function Missing(pressed: seq<Key>, entries: seq<Option<Modifier>>, key: Key, own: Option<Modifier>): seq<Key> {
    if entries == [] then []
    else
      var before := Missing(pressed, entries[..|entries| - 1], key, own);
      var next := EntryKey(entries[|entries| - 1], key, own);
      if next == 0 || next in pressed + before then before else before + [next]
  }

  function Keys(keys: seq<Key>, up: bool): seq<Input> {
    seq(|keys|, i requires 0 <= i < |keys| => Keyboard(keys[i], up))
  }

  function Trunc(r: real): int {
    if r >= 0.0 then r.Floor else -(-r).Floor
  }

  function Wheels(vertical: int, horizontal: int): seq<Input> {
    (if vertical != 0 then [Wheel(vertical)] else []) + (if horizontal != 0 then [HorizontalWheel(horizontal)] else [])
  }

  function Between(r: Option<real>, low: real, high: real): bool {
    r.Some? && low <= r.value <= high
  }

  const BUTTONS := [Mouse(Left, true), Mouse(Middle, true), Mouse(Right, true)]

  /** The Windows bridge: the keys it has pressed, in order, and both wheel remainders. */
  datatype Bridge = Bridge(pressed: seq<Key>, vertical: real, horizontal: real)
  {
    /** The bridge after an event and the input it sends, or no input when the event is refused. */
    function Apply(event: Event): (Bridge, Option<seq<Input>>) {
      match event
      case ReleaseAll => (Bridge([], 0.0, 0.0), Some(Keys(pressed, true) + BUTTONS))
      case KeyEvent(action, key, own, modifiers) =>
        if action.None? || key.None? || key.value == 0 then (this, None)
        else if action.value then (this.(pressed := Without(pressed, key.value)), Some([Keyboard(key.value, true)]))
        else
          var missing := if modifiers.Some? then Missing(pressed, modifiers.value, key.value, own) else [];
          (this.(pressed := With(pressed + missing, key.value)), Some(Keys(missing, false) + [Keyboard(key.value, false)]))
      case Pointer(kind, x, y, button, dx, dy) =>
        if !Between(x, 0.0, 1.0) || !Between(y, 0.0, 1.0) then (this, None)
        else
          var move := [MoveTo(x.value, y.value)];
          match kind
          case Unknown => (this, None)
          case Move => (this, Some(move))
          case Scroll =>
            if !Between(dx, -MAX_SCROLL, MAX_SCROLL) || !Between(dy, -MAX_SCROLL, MAX_SCROLL) then (this, None)
            else
              var v, h := vertical - dy.value * WHEEL_DELTA / 100.0, horizontal - dx.value * WHEEL_DELTA / 100.0;
              (this.(vertical := v - Trunc(v) as real, horizontal := h - Trunc(h) as real), Some(move + Wheels(Trunc(v), Trunc(h))))
          case _ =>
            if button.None? || button.value.None? then (this, None)
            else (this, Some(move + [Mouse(button.value.value, kind.Up?)]))
    }
  }

  /** The keys and buttons that a stream of input leaves down. */
  datatype Held = HeldKey(key: Key) | HeldButton(button: MouseButton)

  function After(held: set<Held>, inputs: seq<Input>): set<Held> {
    if inputs == [] then held
    else
      var before := After(held, inputs[..|inputs| - 1]);
      match inputs[|inputs| - 1]
      case Keyboard(key, up) => if up then before - {HeldKey(key)} else before + {HeldKey(key)}
      case Mouse(button, up) => if up then before - {HeldButton(button)} else before + {HeldButton(button)}
      case _ => before
  }

  ghost predicate Distinct(keys: seq<Key>) {
    forall i, j :: 0 <= i < j < |keys| ==> keys[i] != keys[j]
  }

  /** The list is duplicate-free and names exactly the keys that are down. */
  ghost predicate Tracks(pressed: seq<Key>, held: set<Held>) {
    Distinct(pressed) && forall key :: key in pressed <==> HeldKey(key) in held
  }

  lemma DistinctAppend(keys: seq<Key>, key: Key)
    requires Distinct(keys) && key !in keys
    ensures Distinct(keys + [key])
  {
  }

  lemma {:induction false} WithoutIsRemoval(keys: seq<Key>, key: Key)
    ensures forall k :: k in Without(keys, key) <==> k in keys && k != key
    ensures key !in keys ==> Without(keys, key) == keys
    ensures Distinct(keys) ==> Distinct(Without(keys, key))
  {
    if keys != [] {
      var front, last := keys[..|keys| - 1], keys[|keys| - 1];
      WithoutIsRemoval(front, key);
      assert keys == front + [last];
      if Distinct(keys) && last != key {
        assert forall i :: 0 <= i < |front| ==> keys[i] != last;
        DistinctAppend(Without(front, key), last);
      }
    }
  }

  lemma {:induction false} AfterAppend(held: set<Held>, a: seq<Input>, b: seq<Input>)
    ensures After(held, a + b) == After(After(held, a), b)
  {
    if b == [] {
      assert a + b == a;
    } else {
      assert (a + b)[..|a + b| - 1] == a + b[..|b| - 1];
      AfterAppend(held, a, b[..|b| - 1]);
    }
  }

  lemma {:induction false} AfterKeys(held: set<Held>, keys: seq<Key>, up: bool)
    ensures forall h :: h in After(held, Keys(keys, up)) <==>
              if h.HeldKey? && h.key in keys then !up else h in held
  {
    if keys != [] {
      var front, last := keys[..|keys| - 1], keys[|keys| - 1];
      AfterKeys(held, front, up);
      assert Keys(keys, up)[..|keys| - 1] == Keys(front, up);
      assert keys == front + [last];
    }
  }

  lemma {:induction false} MissingIsFresh(pressed: seq<Key>, entries: seq<Option<Modifier>>, key: Key, own: Option<Modifier>)
    requires Distinct(pressed)
    ensures Distinct(pressed + Missing(pressed, entries, key, own))
    ensures forall k :: k in Missing(pressed, entries, key, own) ==> k !in pressed
  {
    if entries != [] {
      MissingIsFresh(pressed, entries[..|entries| - 1], key, own);
      var before := Missing(pressed, entries[..|entries| - 1], key, own);
      var next := EntryKey(entries[|entries| - 1], key, own);
      if next != 0 && next !in pressed + before {
        DistinctAppend(pressed + before, next);
        assert pressed + before + [next] == pressed + (before + [next]);
      }
    }
  }

  lemma KeyKeeps(b: Bridge, event: Event, held: set<Held>)
    requires event.KeyEvent? && Tracks(b.pressed, held) && b.Apply(event).1.Some?
    ensures Tracks(b.Apply(event).0.pressed, After(held, b.Apply(event).1.value))
  {
    var key := event.key.value;
    if event.action.value {
      WithoutIsRemoval(b.pressed, key);
    } else {
      var missing := if event.modifiers.Some? then Missing(b.pressed, event.modifiers.value, key, event.own) else [];
      if event.modifiers.Some? {
        MissingIsFresh(b.pressed, event.modifiers.value, key, event.own);
      }
      AfterKeys(held, missing, false);
      AfterAppend(held, Keys(missing, false), [Keyboard(key, false)]);
      assert [Keyboard(key, false)][..0] == [];
    }
  }

  /** Input that presses or releases no key leaves the keys as they are. */
  lemma {:induction false} PointerKeepsKeys(held: set<Held>, inputs: seq<Input>)
    requires forall i :: 0 <= i < |inputs| ==> !inputs[i].Keyboard?
    ensures forall key :: HeldKey(key) in After(held, inputs) <==> HeldKey(key) in held
  {
    if inputs != [] {
      PointerKeepsKeys(held, inputs[..|inputs| - 1]);
    }
  }

  /** Releasing everything leaves no key and no button down, whatever buttons were. */
  lemma ReleaseLeavesNothing(pressed: seq<Key>, held: set<Held>)
    requires Tracks(pressed, held)
    ensures After(held, Keys(pressed, true) + BUTTONS) == {}
  {
    var keysUp := After(held, Keys(pressed, true));
    AfterKeys(held, pressed, true);
    AfterAppend(held, Keys(pressed, true), BUTTONS);
    assert BUTTONS[..2][..1] == BUTTONS[..1] && BUTTONS[..1][..0] == [];
    assert After(keysUp, BUTTONS[..1]) == keysUp - {HeldButton(Left)};
    assert After(keysUp, BUTTONS[..2]) == keysUp - {HeldButton(Left), HeldButton(Middle)};
    assert After(keysUp, BUTTONS) == keysUp - {HeldButton(Left), HeldButton(Middle), HeldButton(Right)};
    forall h | h in keysUp
      ensures h in {HeldButton(Left), HeldButton(Middle), HeldButton(Right)}
    {
      match h
      case HeldKey(_) =>
      case HeldButton(button) => assert button.Left? || button.Middle? || button.Right?;
    }
  }

  /** One accepted event whose input is sent. */
  lemma ApplyTracks(b: Bridge, event: Event, held: set<Held>)
    requires Tracks(b.pressed, held) && b.Apply(event).1.Some?
    ensures Tracks(b.Apply(event).0.pressed, After(held, b.Apply(event).1.value))
  {
    match event
    case ReleaseAll => ReleaseLeavesNothing(b.pressed, held);
    case KeyEvent(_, _, _, _) => KeyKeeps(b, event, held);
    case Pointer(_, _, _, _, _, _) => PointerKeepsKeys(held, b.Apply(event).1.value);
  }

  lemma {:induction false} NothingMissingIff(pressed: seq<Key>, entries: seq<Option<Modifier>>, key: Key, own: Option<Modifier>)
    ensures Missing(pressed, entries, key, own) == [] <==> AllHeld(pressed, entries, key, own)
  {
    if entries != [] {
      var front, last := entries[..|entries| - 1], entries[|entries| - 1];
      NothingMissingIff(pressed, front, key, own);
      assert entries == front + [last];
    }
  }

  /** Every modifier entry names no key or one that is down already. */
  predicate AllHeld(pressed: seq<Key>, entries: seq<Option<Modifier>>, key: Key, own: Option<Modifier>) {
    forall i :: 0 <= i < |entries| ==> EntryKey(entries[i], key, own) == 0 || EntryKey(entries[i], key, own) in pressed
  }

  /** Events that press and release nothing new: pointer events, malformed key events, the release of a key
      that is not down, the repetition of one that is, with its modifiers, and a release of nothing. */
  predicate Repeats(pressed: seq<Key>, event: Event) {
    match event
    case ReleaseAll => pressed == []
    case Pointer(_, _, _, _, _, _) => true
    case KeyEvent(action, key, own, modifiers) =>
      action.None? || key.None? || key.value == 0
      || (if action.value then key.value !in pressed
          else key.value in pressed && (modifiers.Some? ==> AllHeld(pressed, modifiers.value, key.value, own)))
  }

  /** And one whose input the system blocks: the list stays right exactly for events that press and
      release nothing new. */
  lemma BlockedTracksIff(b: Bridge, event: Event, held: set<Held>)
    requires Tracks(b.pressed, held)
    ensures Tracks(b.Apply(event).0.pressed, held) <==> Repeats(b.pressed, event)
  {
    if event.KeyEvent? && b.Apply(event).1.Some? {
      BlockedKeyTracksIff(b, event, held);
    } else if event.ReleaseAll? && b.pressed != [] {
      assert b.pressed[0] in b.pressed;
    }
  }

  lemma BlockedKeyTracksIff(b: Bridge, event: Event, held: set<Held>)
    requires Tracks(b.pressed, held) && event.KeyEvent? && b.Apply(event).1.Some?
    ensures Tracks(b.Apply(event).0.pressed, held) <==> Repeats(b.pressed, event)
  {
    var key, after := event.key.value, b.Apply(event).0.pressed;
    if event.action.value {
      WithoutIsRemoval(b.pressed, key);
      assert key !in after;
    } else {
      var missing := if event.modifiers.Some? then Missing(b.pressed, event.modifiers.value, key, event.own) else [];
      if event.modifiers.Some? {
        MissingIsFresh(b.pressed, event.modifiers.value, key, event.own);
        NothingMissingIff(b.pressed, event.modifiers.value, key, event.own);
      }
      SomeKey(missing);
      assert missing == [] ==> b.pressed + missing == b.pressed;
      assert forall k :: k in missing ==> k in after && k !in b.pressed;
      assert key in after;
    }
  }

  lemma SomeKey(keys: seq<Key>)
    ensures keys == [] || exists key :: key in keys
  {
    assert keys != [] ==> keys[0] in keys;
  }

  /** A blocked key-up is the bad case: the key is down, the list has forgotten it, and so not even a
      later release of everything lets it go. */
  lemma BlockedUpSticks(b: Bridge, held: set<Held>, key: Key, own: Option<Modifier>)
    requires Tracks(b.pressed, held) && key in b.pressed && key != 0
    ensures var forgetful := b.Apply(KeyEvent(Some(true), Some(key), own, None)).0;
            HeldKey(key) in After(held, forgetful.Apply(ReleaseAll).1.value)
  {
    var rest := Without(b.pressed, key);
    WithoutIsRemoval(b.pressed, key);
    AfterKeys(held, rest, true);
    AfterAppend(held, Keys(rest, true), BUTTONS);
    PointerKeepsKeys(After(held, Keys(rest, true)), BUTTONS);
    assert HeldKey(key) in held;
  }

  function Units(inputs: seq<Input>, horizontal: bool): int {
    if inputs == [] then 0
    else
      Units(inputs[..|inputs| - 1], horizontal)
      + match inputs[|inputs| - 1]
        case Wheel(units) => if horizontal then 0 else units
        case HorizontalWheel(units) => if horizontal then units else 0
        case _ => 0
  }

  lemma {:induction false} NoUnits(inputs: seq<Input>, horizontal: bool)
    requires forall i :: 0 <= i < |inputs| ==> !inputs[i].Wheel? && !inputs[i].HorizontalWheel?
    ensures Units(inputs, horizontal) == 0
  {
    if inputs != [] {
      NoUnits(inputs[..|inputs| - 1], horizontal);
    }
  }

  lemma WheelUnits(move: Input, vertical: int, horizontal: int)
    requires move.MoveTo?
    ensures Units([move] + Wheels(vertical, horizontal), false) == vertical
    ensures Units([move] + Wheels(vertical, horizontal), true) == horizontal
  {
    var first := [move] + (if vertical != 0 then [Wheel(vertical)] else []);
    assert [move][..0] == [];
    assert Units([move], false) == 0 && Units([move], true) == 0;
    if vertical != 0 {
      assert first[..|first| - 1] == [move];
    } else {
      assert first == [move];
    }
    assert Units(first, false) == vertical && Units(first, true) == 0;
    if horizontal == 0 {
      assert [move] + Wheels(vertical, horizontal) == first;
    } else {
      assert [move] + Wheels(vertical, horizontal) == first + [HorizontalWheel(horizontal)];
      assert (first + [HorizontalWheel(horizontal)])[..|first|] == first;
    }
  }

  lemma TruncIsClose(r: real)
    ensures -1.0 < r - Trunc(r) as real < 1.0
    ensures r >= 0.0 ==> 0.0 <= Trunc(r) as real <= r
    ensures r <= 0.0 ==> r <= Trunc(r) as real <= 0.0
  {
  }

  /** A session so far: what was sent, and the deltas accepted and wheel units sent since the last reset. */
  datatype Session = Session(bridge: Bridge, held: set<Held>, dx: real, dy: real, vertical: int, horizontal: int)
  {
    function Next(event: Event): Session {
      var (next, inputs) := bridge.Apply(event);
      if inputs.None? then this.(bridge := next)
      else if event.ReleaseAll? then Session(next, After(held, inputs.value), 0.0, 0.0, 0, 0)
      else
        var scrolls := event.Pointer? && event.kind.Scroll?;
        Session(next, After(held, inputs.value),
                if scrolls then dx + event.dx.value else dx, if scrolls then dy + event.dy.value else dy,
                vertical + Units(inputs.value, false), horizontal + Units(inputs.value, true))
    }

    ghost predicate Balanced() {
      && vertical as real + bridge.vertical == -dy * WHEEL_DELTA / 100.0
      && horizontal as real + bridge.horizontal == -dx * WHEEL_DELTA / 100.0
      && -1.0 < bridge.vertical < 1.0 && -1.0 < bridge.horizontal < 1.0
    }
  }

  function Fresh(): Session {
    Session(Bridge([], 0.0, 0.0), {}, 0.0, 0.0, 0, 0)
  }

  function Play(events: seq<Event>): Session {
    if events == [] then Fresh() else Play(events[..|events| - 1]).Next(events[|events| - 1])
  }

  lemma NextBalances(s: Session, event: Event)
    requires s.Balanced()
    ensures s.Next(event).Balanced()
  {
    var inputs := s.bridge.Apply(event).1;
    if inputs.Some? && !event.ReleaseAll? {
      if event.Pointer? && event.kind.Scroll? {
        var v, h := s.bridge.vertical - event.dy.value * WHEEL_DELTA / 100.0, s.bridge.horizontal - event.dx.value * WHEEL_DELTA / 100.0;
        WheelUnits(MoveTo(event.x.value, event.y.value), Trunc(v), Trunc(h));
        TruncIsClose(v);
        TruncIsClose(h);
      } else {
        NoUnits(inputs.value, false);
        NoUnits(inputs.value, true);
      }
    }
  }

  /** Over any events, with sends that succeed: the list is duplicate-free and names exactly the keys left
      down; and on each axis the units sent and the remainder are the negated, scaled sum of the accepted
      deltas since the last reset, with less than one unit outstanding. */
  lemma {:induction false} SessionIsExact(events: seq<Event>)
    ensures Tracks(Play(events).bridge.pressed, Play(events).held) && Play(events).Balanced()
  {
    if events != [] {
      var s, event := Play(events[..|events| - 1]), events[|events| - 1];
      SessionIsExact(events[..|events| - 1]);
      NextBalances(s, event);
      if s.bridge.Apply(event).1.Some? {
        ApplyTracks(s.bridge, event, s.held);
      }
    }
  }

  /** So whatever came before, a release leaves nothing down and nothing outstanding. */
  lemma ReleaseEndsClean(events: seq<Event>)
    ensures Play(events + [ReleaseAll]) == Fresh()
  {
    assert (events + [ReleaseAll])[..|events|] == events;
    SessionIsExact(events);
    ReleaseLeavesNothing(Play(events).bridge.pressed, Play(events).held);
  }

  // ---- Which events are taken, and what they send ----

  /** An event is taken exactly when it is well formed: coordinates within the display, wheel deltas of at
      most 2000, a known button, a known key with an action. */
  predicate WellFormed(event: Event) {
    match event
    case ReleaseAll => true
    case KeyEvent(action, key, _, _) => action.Some? && key.Some? && key.value != 0
    case Pointer(kind, x, y, button, dx, dy) =>
      && x.Some? && 0.0 <= x.value <= 1.0 && y.Some? && 0.0 <= y.value <= 1.0 && !kind.Unknown?
      && (kind.Down? || kind.Up? ==> button.Some? && button.value.Some?)
      && (kind.Scroll? ==> dx.Some? && -2000.0 <= dx.value <= 2000.0 && dy.Some? && -2000.0 <= dy.value <= 2000.0)
  }

  lemma TakenIff(b: Bridge, event: Event)
    ensures b.Apply(event).1.Some? <==> WellFormed(event)
    ensures !WellFormed(event) ==> b.Apply(event).0 == b
  {
  }

  /** A pointer event first moves to its own position; a move sends nothing else, a press or a release then
      exactly that of its own button, a scroll nothing but wheel steps. */
  lemma PointerSends(b: Bridge, event: Event)
    requires event.Pointer? && WellFormed(event)
    ensures var sent := b.Apply(event).1.value;
      && |sent| >= 1 && sent[0] == MoveTo(event.x.value, event.y.value)
      && (event.kind.Move? ==> |sent| == 1)
      && (event.kind.Down? ==> sent[1..] == [Mouse(event.button.value.value, false)])
      && (event.kind.Up? ==> sent[1..] == [Mouse(event.button.value.value, true)])
      && (event.kind.Scroll? ==> forall i :: 1 <= i < |sent| ==> sent[i].Wheel? || sent[i].HorizontalWheel?)
      && b.Apply(event).0.pressed == b.pressed
  {
  }

  /** A key-down leaves down what was down, the key itself and the key of every modifier listed with it, and
      no other; a key-up lets go of that one key. */
  lemma KeySends(b: Bridge, event: Event, held: set<Held>)
    requires event.KeyEvent? && WellFormed(event)
    ensures var after := After(held, b.Apply(event).1.value);
      && (forall button :: HeldButton(button) in after <==> HeldButton(button) in held)
      && (event.action.value ==> after == held - {HeldKey(event.key.value)})
      && (!event.action.value ==>
            forall k :: HeldKey(k) in after <==> HeldKey(k) in held || k == event.key.value || k in Pressed(b, event))
  {
    var key := event.key.value;
    var missing := Pressed(b, event);
    if event.action.value {
      assert [Keyboard(key, true)][..0] == [];
    } else {
      AfterKeys(held, missing, false);
      AfterAppend(held, Keys(missing, false), [Keyboard(key, false)]);
      assert [Keyboard(key, false)][..0] == [];
    }
  }

  /** The modifier keys a key-down presses before its own key. */
  function Pressed(b: Bridge, event: Event): seq<Key>
    requires event.KeyEvent? && WellFormed(event)
  {
    if event.action.value || event.modifiers.None? then [] else Missing(b.pressed, event.modifiers.value, event.key.value, event.own)
  }

  /** They are exactly those listed that were not down: the left-hand key of each modifier, or the event's own
      key where that is the modifier. */
  lemma {:induction false} MissingIs(pressed: seq<Key>, entries: seq<Option<Modifier>>, key: Key, own: Option<Modifier>, k: Key)
    requires key != 0
    ensures k in Missing(pressed, entries, key, own) <==>
      && k !in pressed
      && exists i :: 0 <= i < |entries| && entries[i].Some?
           && k == if own == entries[i] then key
                   else match entries[i].value case Shift => 0xA0 case Ctrl => 0xA2 case Alt => 0xA4 case Meta => 0x5B
  {
    if entries != [] {
      var front, last := entries[..|entries| - 1], entries[|entries| - 1];
      MissingIs(pressed, front, key, own, k);
      assert entries == front + [last];
      assert forall i :: 0 <= i < |front| ==> entries[i] == front[i];
    }
  }

  /** Whether the last press or release of the button since the last release of everything was a press. */
  function ButtonDown(events: seq<Event>, button: MouseButton): bool {
    if events == [] then false
    else
      var event := events[|events| - 1];
      if event.ReleaseAll? then false
      else if WellFormed(event) && event.Pointer? && event.kind.Down? && event.button == Some(Some(button)) then true
      else if WellFormed(event) && event.Pointer? && event.kind.Up? && event.button == Some(Some(button)) then false
      else ButtonDown(events[..|events| - 1], button)
  }

  lemma ButtonStep(held: set<Held>, inputs: seq<Input>, button: MouseButton)
    requires |inputs| >= 1 && inputs[0].MoveTo?
    requires forall i :: 1 <= i < |inputs| ==> inputs[i].Wheel? || inputs[i].HorizontalWheel?
    ensures HeldButton(button) in After(held, inputs) <==> HeldButton(button) in held
  {
    NoButtons(held, inputs, button);
  }

  lemma {:induction false} NoButtons(held: set<Held>, inputs: seq<Input>, button: MouseButton)
    requires forall i :: 0 <= i < |inputs| ==> !inputs[i].Mouse?
    ensures HeldButton(button) in After(held, inputs) <==> HeldButton(button) in held
  {
    if inputs != [] {
      NoButtons(held, inputs[..|inputs| - 1], button);
    }
  }

  lemma PointerButton(b: Bridge, event: Event, held: set<Held>, button: MouseButton)
    requires event.Pointer? && WellFormed(event)
    ensures HeldButton(button) in After(held, b.Apply(event).1.value) <==>
      if event.kind.Down? && event.button == Some(Some(button)) then true
      else if event.kind.Up? && event.button == Some(Some(button)) then false
      else HeldButton(button) in held
  {
    PointerSends(b, event);
    var sent := b.Apply(event).1.value;
    if event.kind.Down? || event.kind.Up? {
      assert sent == [sent[0]] + sent[1..];
      assert sent[..|sent| - 1] == [sent[0]] && [sent[0]][..0] == [];
      assert After(held, []) == held && After(held, [sent[0]]) == held;
    } else {
      ButtonStep(held, sent, button);
    }
  }

  /** Over any events, with sends that succeed, a button is down exactly when the last press or release of it
      since the last release of everything was a press. */
  lemma {:induction false} ButtonsAreExact(events: seq<Event>, button: MouseButton)
    ensures HeldButton(button) in Play(events).held <==> ButtonDown(events, button)
  {
    if events != [] {
      var s, event := Play(events[..|events| - 1]), events[|events| - 1];
      ButtonsAreExact(events[..|events| - 1], button);
      TakenIff(s.bridge, event);
      match event
      case ReleaseAll =>
        assert (events[..|events| - 1] + [ReleaseAll]) == events;
        ReleaseEndsClean(events[..|events| - 1]);
      case KeyEvent(_, _, _, _) =>
        if WellFormed(event) {
          KeySends(s.bridge, event, s.held);
        }
      case Pointer(_, _, _, _, _, _) =>
        if WellFormed(event) {
          PointerButton(s.bridge, event, s.held, button);
        }
    }
  }

  datatype Failure = SessionChanged | NoDisplay | MalformedKey | UnsupportedKey | MalformedPointer | MalformedButton
                   | UnsupportedButton | MalformedWheel | UnsupportedEvent | Blocked

  /** The bridge object on Windows. */
  class RemoteControlBridge {
    var active: bool
    var display: bool
    var pressedKeys: seq<Key>
    var verticalRemainder: real
    var horizontalRemainder: real

    ghost function View(): Bridge
      reads this
    {
      Bridge(pressedKeys, verticalRemainder, horizontalRemainder)
    }

    constructor ()
      ensures View() == Fresh().bridge
    {
      active, display, pressedKeys, verticalRemainder, horizontalRemainder := true, false, [], 0.0, 0.0;
    }

    /** `sent` is what the system is asked to inject; `blocked` says it will refuse. */
    method ReleaseAllKeys(blocked: bool) returns (failure: Option<Failure>, sent: seq<Input>)
      modifies this`pressedKeys, this`verticalRemainder, this`horizontalRemainder
      ensures (View(), Some(sent)) == old(View()).Apply(ReleaseAll)
      ensures failure == if blocked then Some(Blocked) else None
    {
      sent := [];
      for i := 0 to |pressedKeys|
        invariant sent == Keys(pressedKeys[..i], true)
      {
        sent := sent + [Keyboard(pressedKeys[i], true)];
      }
      assert pressedKeys[..|pressedKeys|] == pressedKeys;
      pressedKeys, verticalRemainder, horizontalRemainder := [], 0.0, 0.0;
      sent := sent + BUTTONS;
      return if blocked then Some(Blocked) else None, sent;
    }

    /** The loop over a key-down's modifiers. */
    method PressModifiers(entries: seq<Option<Modifier>>, key: Key, own: Option<Modifier>) returns (sent: seq<Input>)
      modifies this`pressedKeys
      ensures var missing := Missing(old(pressedKeys), entries, key, own);
              pressedKeys == old(pressedKeys) + missing && sent == Keys(missing, false)
    {
      sent := [];
      ghost var missing := [];
      for i := 0 to |entries|
        invariant missing == Missing(old(pressedKeys), entries[..i], key, own)
        invariant pressedKeys == old(pressedKeys) + missing && sent == Keys(missing, false)
      {
        assert entries[..i + 1][..i] == entries[..i];
        var modifierKey := EntryKey(entries[i], key, own);
        if modifierKey != 0 && modifierKey !in pressedKeys {
          sent := sent + [Keyboard(modifierKey, false)];
          pressedKeys := pressedKeys + [modifierKey];
          missing := missing + [modifierKey];
        }
      }
      assert entries[..|entries|] == entries;
    }

    method ApplyKey(event: Event) returns (failure: Option<Failure>, sent: seq<Input>)
      requires event.KeyEvent?
      modifies this`pressedKeys
      ensures (View(), if failure.None? then Some(sent) else None) == old(View()).Apply(event) && failure != Some(Blocked)
    {
      sent := [];
      if event.action.None? || event.key.None? {
        return Some(MalformedKey), [];
      }
      var key, up := event.key.value, event.action.value;
      if key == 0 {
        return Some(UnsupportedKey), [];
      }
      if up {
        pressedKeys := Without(pressedKeys, key);
      } else {
        if event.modifiers.Some? {
          sent := PressModifiers(event.modifiers.value, key, event.own);
        } else {
          assert Keys([], false) == [] && pressedKeys + [] == pressedKeys;
        }
        pressedKeys := With(pressedKeys, key);
      }
      assert up ==> sent + [Keyboard(key, up)] == [Keyboard(key, up)];
      return None, sent + [Keyboard(key, up)];
    }

    method ApplyPointer(event: Event) returns (failure: Option<Failure>, sent: seq<Input>)
      requires event.Pointer?
      modifies this`verticalRemainder, this`horizontalRemainder
      ensures (View(), if failure.None? then Some(sent) else None) == old(View()).Apply(event) && failure != Some(Blocked)
    {
      if !Between(event.x, 0.0, 1.0) || !Between(event.y, 0.0, 1.0) {
        return Some(MalformedPointer), [];
      }
      sent := [MoveTo(event.x.value, event.y.value)];
      match event.kind {
        case Unknown => return Some(UnsupportedEvent), [];
        case Move =>
        case Scroll =>
          if !Between(event.dx, -MAX_SCROLL, MAX_SCROLL) || !Between(event.dy, -MAX_SCROLL, MAX_SCROLL) {
            return Some(MalformedWheel), [];
          }
          var v := verticalRemainder - event.dy.value * WHEEL_DELTA / 100.0;
          var h := horizontalRemainder - event.dx.value * WHEEL_DELTA / 100.0;
          verticalRemainder, horizontalRemainder := v - Trunc(v) as real, h - Trunc(h) as real;
          sent := sent + Wheels(Trunc(v), Trunc(h));
        case _ =>
          if event.button.None? {
            return Some(MalformedButton), [];
          }
          if event.button.value.None? {
            return Some(UnsupportedButton), [];
          }
          sent := sent + [Mouse(event.button.value.value, event.kind.Up?)];
      }
      return None, sent;
    }

    /** Nothing changes on a refused event; an accepted one acts as the specification says, whether or
        not the system then blocks its input. */
    method ApplyInput(event: Event, blocked: bool) returns (failure: Option<Failure>, sent: seq<Input>)
      modifies this`pressedKeys, this`verticalRemainder, this`horizontalRemainder
      ensures !active || !display ==> View() == old(View()) && failure.Some?
      ensures active && display ==>
        (View(), if failure.None? || failure == Some(Blocked) then Some(sent) else None) == old(View()).Apply(event)
      ensures failure == Some(Blocked) ==> blocked
      ensures active && display ==> (failure.None? <==> WellFormed(event) && !blocked) && (failure == Some(Blocked) <==> WellFormed(event) && blocked)
    {
      TakenIff(View(), event);
      if !active {
        return Some(SessionChanged), [];
      }
      if !display {
        return Some(NoDisplay), [];
      }
      match event {
        case ReleaseAll =>
          failure, sent := ReleaseAllKeys(blocked);
          return;
        case KeyEvent(_, _, _, _) => failure, sent := ApplyKey(event);
        case Pointer(_, _, _, _, _, _) => failure, sent := ApplyPointer(event);
      }
      if failure.None? && blocked {
        failure := Some(Blocked);
      }
    }
  }

  const MAX_WHEEL := 4096.0
  const INT32_MAX := 0x7FFF_FFFF

  /** One axis of the macOS accumulator after a list of deltas: units sent and remainder kept. */
  function Consumed(deltas: seq<real>): (int, real) {
    if deltas == [] then (0, 0.0) else Take(Consumed(deltas[..|deltas| - 1]), deltas[|deltas| - 1])
  }

  function Take(kept: (int, real), delta: real): (int, real) {
    var value := kept.1 - delta;
    (kept.0 + Trunc(value), value - Trunc(value) as real)
  }

  function Sum(deltas: seq<real>): real {
    if deltas == [] then 0.0 else Sum(deltas[..|deltas| - 1]) + deltas[|deltas| - 1]
  }

  /** Nothing of the deltas is lost: what was sent and what is kept are their negated sum. */
  lemma {:induction false} ScrollIsConserved(deltas: seq<real>)
    ensures var (units, remainder) := Consumed(deltas);
            units as real + remainder == -Sum(deltas) && -1.0 < remainder < 1.0
  {
    if deltas != [] {
      ScrollIsConserved(deltas[..|deltas| - 1]);
      TruncIsClose(Consumed(deltas[..|deltas| - 1]).1 - deltas[|deltas| - 1]);
    }
  }

  lemma UnitsFit(remainder: real, delta: real)
    requires -1.0 < remainder < 1.0 && -MAX_WHEEL <= delta <= MAX_WHEEL
    ensures -INT32_MAX <= Trunc(remainder - delta) <= INT32_MAX
  {
    TruncIsClose(remainder - delta);
  }

  lemma ConsumedAppend(deltas: seq<real>, delta: real)
    ensures Consumed(deltas + [delta]) == Take(Consumed(deltas), delta)
  {
    var more := deltas + [delta];
    assert more[..|more| - 1] == deltas && more[|more| - 1] == delta;
  }

  method ConsumeAxis(ghost deltas: seq<real>, remainder: real, delta: real) returns (units: int, left: real)
    requires remainder == Consumed(deltas).1 && -MAX_WHEEL <= delta <= MAX_WHEEL
    ensures Consumed(deltas + [delta]) == (Consumed(deltas).0 + units, left)
    ensures -INT32_MAX <= units <= INT32_MAX
  {
    ConsumedAppend(deltas, delta);
    ScrollIsConserved(deltas);
    UnitsFit(remainder, delta);
    var value := remainder - delta;
    units := Trunc(value);
    left := value - units as real;
  }

  /** The accumulator the macOS agent keeps, with the deltas it has consumed since its reset. */
  class ScrollDeltaAccumulator {
    var verticalRemainder: real
    var horizontalRemainder: real
    ghost var dxs: seq<real>
    ghost var dys: seq<real>

    ghost predicate Valid()
      reads this
    {
      verticalRemainder == Consumed(dys).1 && horizontalRemainder == Consumed(dxs).1
    }

    constructor ()
      ensures Valid() && dxs == dys == []
    {
      verticalRemainder, horizontalRemainder, dxs, dys := 0.0, 0.0, [], [];
    }

    /** No event exactly when neither axis has a whole unit to send; the units fit a 32-bit integer for
        every delta the decoder lets through. */
    method Consume(dx: real, dy: real) returns (delta: Option<(int, int)>)
      requires Valid() && -MAX_WHEEL <= dx <= MAX_WHEEL && -MAX_WHEEL <= dy <= MAX_WHEEL
      modifies this
      ensures Valid() && dxs == old(dxs) + [dx] && dys == old(dys) + [dy]
      ensures var (vertical, horizontal) := if delta.Some? then delta.value else (0, 0);
              && Consumed(dys).0 == old(Consumed(dys).0) + vertical && Consumed(dxs).0 == old(Consumed(dxs).0) + horizontal
              && -INT32_MAX <= vertical <= INT32_MAX && -INT32_MAX <= horizontal <= INT32_MAX
      ensures delta.Some? ==> delta.value != (0, 0)
    {
      var vertical, horizontal;
      vertical, verticalRemainder := ConsumeAxis(dys, verticalRemainder, dy);
      horizontal, horizontalRemainder := ConsumeAxis(dxs, horizontalRemainder, dx);
      dxs, dys := dxs + [dx], dys + [dy];
      return if vertical != 0 || horizontal != 0 then Some((vertical, horizontal)) else None;
    }

    method Reset()
      modifies this
      ensures Valid() && dxs == dys == []
    {
      verticalRemainder, horizontalRemainder, dxs, dys := 0.0, 0.0, [], [];
    }
  }
}
