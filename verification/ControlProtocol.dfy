/** The Remote Control wire format: the browser's codec and the native agent's decoder, written apart
    from each other, over parsed JSON values. Strings are sequences of Unicode scalar values. */
module ControlProtocol {
  import opened Options
  import opened InputDevices

  /** A member name of a JSON object: the protocol's own names, numbered, and any others. */
  type Name = nat
  const V: Name := 0
  const TYPE: Name := 1
  const REQUEST_ID: Name := 2
  const SESSION_ID: Name := 3
  const SEQUENCE: Name := 4
  const EVENT: Name := 5
  const TEXT: Name := 6
  const REVISION: Name := 7
  const KIND: Name := 8
  const X: Name := 9
  const Y: Name := 10
  const BUTTON: Name := 11
  const DX: Name := 12
  const DY: Name := 13
  const ACTION: Name := 14
  const CODE: Name := 15
  const KEY: Name := 16
  const MODIFIERS: Name := 17

  datatype Json =
    | Null
    | Bool(bool)
    | Num(value: real)
    | Infinite                                                         // a literal beyond the range of a double
    | Str(text: string)
    | Arr(items: seq<Json>)
    | Obj(members: map<Name, Json>)

  /** The strings the protocol switches on. */
  datatype Words = Words(
    request: string, denied: string, withdrawn: string, stopIntent: string, input: string, copy: string, paste: string,
    update: string, move: string, down: string, up: string, scroll: string, key: string, releaseAll: string,
    left: string, middle: string, right: string, shift: string, ctrl: string, alt: string, meta: string)
  {
    /** No two words of one switch are the same. */
    predicate Distinct() {
      && request !in {denied, withdrawn, stopIntent, input, copy, paste, update}
      && denied !in {withdrawn, stopIntent, input, copy, paste, update}
      && withdrawn !in {stopIntent, input, copy, paste, update}
      && stopIntent !in {input, copy, paste, update}
      && input !in {copy, paste, update} && copy !in {paste, update} && paste != update
      && move !in {down, up, scroll, key, releaseAll} && down !in {up, scroll, key, releaseAll}
      && up !in {scroll, key, releaseAll} && scroll !in {key, releaseAll} && key != releaseAll
      && left !in {middle, right} && middle != right
      && shift !in {ctrl, alt, meta} && ctrl !in {alt, meta} && alt != meta
    }
  }

  datatype InputEvent =
    | Move(x: real, y: real)
    | Button(up: bool, x: real, y: real, button: MouseButton)
    | Scroll(x: real, y: real, dx: real, dy: real)
    | Key(up: bool, code: string, key: Option<string>, modifiers: seq<Modifier>)
    | ReleaseAll

  datatype Message =
    | Request(requestId: string)
    | Denied(requestId: string)
    | Withdrawn(requestId: string)
    | StopIntent(sessionId: string)
    | Input(sessionId: string, sequence: nat, event: InputEvent)
    | ClipboardCopy(sessionId: string, sequence: nat)
    | ClipboardPaste(sessionId: string, sequence: nat, text: string)
    | ClipboardUpdate(sessionId: string, revision: nat, text: string)

  const VERSION := 2.0
  const MAX_PACKET_BYTES := 8192
  const MAX_CLIPBOARD_BYTES := 6 * 1024
  const MAX_ID_LENGTH := 160
  const MAX_KEY_LENGTH := 64
  const MAX_CODE_LENGTH := 64
  const MAX_SCROLL_DELTA := 2000.0
  const MAX_SAFE_INTEGER := 9_007_199_254_740_991

  /** A string's length in UTF-16 code units, as the browser counts. */
  function Utf16Length(s: string): nat {
    if s == [] then 0 else Utf16Length(s[..|s| - 1]) + (if s[|s| - 1] as int >= 0x10000 then 2 else 1)
  }

  function Utf8Length(s: string): nat {
    if s == [] then 0
    else
      var c := s[|s| - 1] as int;
      Utf8Length(s[..|s| - 1]) + (if c < 0x80 then 1 else if c < 0x800 then 2 else if c < 0x10000 then 3 else 4)
  }

  /** How many characters are at or above a code point. */
  function CountFrom(s: string, code: nat): nat {
    if s == [] then 0 else CountFrom(s[..|s| - 1], code) + (if s[|s| - 1] as int >= code then 1 else 0)
  }

  /** Every character is one unit and one byte, and one more unit beyond the first plane; one more byte each
      from U+0080, U+0800 and U+10000 on. */
  lemma {:induction false} LengthsCount(s: string)
    ensures Utf16Length(s) == |s| + CountFrom(s, 0x10000)
    ensures Utf8Length(s) == |s| + CountFrom(s, 0x80) + CountFrom(s, 0x800) + CountFrom(s, 0x10000)
  {
    if s != [] {
      LengthsCount(s[..|s| - 1]);
    }
  }

  predicate Bounded(s: string, max: nat) {
    0 < Utf16Length(s) <= max
  }

  predicate Transferable(s: string) {
    0 < Utf8Length(s) <= MAX_CLIPBOARD_BYTES
  }

  predicate Coordinate(r: real) {
    0.0 <= r <= 1.0
  }

  predicate Delta(r: real, max: real) {
    -max <= r <= max
  }

  /** Reading a member as one kind of value. */
  function Text(o: map<Name, Json>, name: Name): Option<string> {
    if name in o && o[name].Str? then Some(o[name].text) else None
  }

  function Number(o: map<Name, Json>, name: Name): Option<real> {
    if name in o && o[name].Num? then Some(o[name].value) else None
  }

  /** A number that is a natural one a double holds exactly. */
  function SafeNatural(r: real): Option<nat> {
    if r >= 0.0 && r == r.Floor as real && r <= MAX_SAFE_INTEGER as real then Some(r.Floor) else None
  }

  function Sequence(o: map<Name, Json>, name: Name): Option<nat> {
    var r := Number(o, name);
    if r.None? then None else SafeNatural(r.value)
  }

  function ButtonNamed(w: Words, s: string): Option<MouseButton> {
    if s == w.left then Some(Left) else if s == w.middle then Some(Middle) else if s == w.right then Some(Right) else None
  }

  function ButtonName(w: Words, b: MouseButton): string {
    match b case Left => w.left case Middle => w.middle case Right => w.right
  }

  function ModifierNamed(w: Words, s: string): Option<Modifier> {
    if s == w.shift then Some(Shift) else if s == w.ctrl then Some(Ctrl) else if s == w.alt then Some(Alt)
    else if s == w.meta then Some(Meta) else None
  }

  function ModifierName(w: Words, m: Modifier): string {
    match m case Shift => w.shift case Ctrl => w.ctrl case Alt => w.alt case Meta => w.meta
  }

  function DirectionName(w: Words, up: bool): string {
    if up then w.up else w.down
  }

  /** Encoding, as the browser builds its messages. */

  function EncodeModifiers(w: Words, modifiers: seq<Modifier>): seq<Json> {
    seq(|modifiers|, i requires 0 <= i < |modifiers| => Str(ModifierName(w, modifiers[i])))
  }

  function EncodeEvent(w: Words, event: InputEvent): Json {
    match event
    case Move(x, y) => Obj(map[KIND := Str(w.move), X := Num(x), Y := Num(y)])
    case Button(up, x, y, button) =>
      Obj(map[KIND := Str(DirectionName(w, up)), X := Num(x), Y := Num(y), BUTTON := Str(ButtonName(w, button))])
    case Scroll(x, y, dx, dy) => Obj(map[KIND := Str(w.scroll), X := Num(x), Y := Num(y), DX := Num(dx), DY := Num(dy)])
    case Key(up, code, key, modifiers) =>
      var base := map[KIND := Str(w.key), ACTION := Str(DirectionName(w, up)), CODE := Str(code),
                      MODIFIERS := Arr(EncodeModifiers(w, modifiers))];
      Obj(if key.Some? then base[KEY := Str(key.value)] else base)
    case ReleaseAll => Obj(map[KIND := Str(w.releaseAll)])
  }

  function Encode(w: Words, message: Message): Json {
    match message
    case Request(id) => Obj(map[V := Num(2.0), TYPE := Str(w.request), REQUEST_ID := Str(id)])
    case Denied(id) => Obj(map[V := Num(2.0), TYPE := Str(w.denied), REQUEST_ID := Str(id)])
    case Withdrawn(id) => Obj(map[V := Num(2.0), TYPE := Str(w.withdrawn), REQUEST_ID := Str(id)])
    case StopIntent(id) => Obj(map[V := Num(2.0), TYPE := Str(w.stopIntent), SESSION_ID := Str(id)])
    case Input(id, sequence, event) =>
      Obj(map[V := Num(2.0), TYPE := Str(w.input), SESSION_ID := Str(id), SEQUENCE := Num(sequence as real),
              EVENT := EncodeEvent(w, event)])
    case ClipboardCopy(id, sequence) =>
      Obj(map[V := Num(2.0), TYPE := Str(w.copy), SESSION_ID := Str(id), SEQUENCE := Num(sequence as real)])
    case ClipboardPaste(id, sequence, text) =>
      Obj(map[V := Num(2.0), TYPE := Str(w.paste), SESSION_ID := Str(id), SEQUENCE := Num(sequence as real), TEXT := Str(text)])
    case ClipboardUpdate(id, revision, text) =>
      Obj(map[V := Num(2.0), TYPE := Str(w.update), SESSION_ID := Str(id), REVISION := Num(revision as real), TEXT := Str(text)])
  }

  /** The browser's decoder. */

  /** The listed modifiers, if every item is one and none is listed twice. */
  function DecodeModifiers(w: Words, items: seq<Json>): Option<seq<Modifier>> {
    if items == [] then Some([])
    else
      var front, last := DecodeModifiers(w, items[..|items| - 1]), items[|items| - 1];
      if front.None? || !last.Str? then None
      else
        var m := ModifierNamed(w, last.text);
        if m.None? || m.value in front.value then None else Some(front.value + [m.value])
  }

  /** The same check as the source runs it, one pass with a set of what was seen. */
  method IsModifiers(w: Words, items: seq<Json>) returns (ok: bool)
    requires w.Distinct()
    ensures ok <==> |items| <= 4 && DecodeModifiers(w, items).Some?
  {
    if |items| > 4 {
      return false;
    }
    var allowed := {w.shift, w.ctrl, w.alt, w.meta};
    var unique: set<string> := {};
    for i := 0 to |items|
      invariant DecodeModifiers(w, items[..i]).Some?
      invariant forall s :: s in unique <==> ModifierNamed(w, s).Some? && ModifierNamed(w, s).value in DecodeModifiers(w, items[..i]).value
    {
      assert items[..i + 1][..i] == items[..i];
      if !items[i].Str? || items[i].text !in allowed || items[i].text in unique {
        NoPrefixNoWhole(w, items, i + 1);
        return false;
      }
      unique := unique + {items[i].text};
    }
    assert items[..|items|] == items;
    return true;
  }

  lemma {:induction false} NoPrefixNoWhole(w: Words, items: seq<Json>, n: nat)
    requires n <= |items| && DecodeModifiers(w, items[..n]).None?
    ensures DecodeModifiers(w, items).None?
  {
    if n < |items| {
      assert items[..|items| - 1][..n] == items[..n];
      NoPrefixNoWhole(w, items[..|items| - 1], n);
    } else {
      assert items[..n] == items;
    }
  }

  function DecodePoint(o: map<Name, Json>): Option<(real, real)> {
    var x, y := Number(o, X), Number(o, Y);
    if x.Some? && y.Some? && Coordinate(x.value) && Coordinate(y.value) then Some((x.value, y.value)) else None
  }

  function Direction(w: Words, s: Option<string>): Option<bool> {
    if s == Some(w.down) then Some(false) else if s == Some(w.up) then Some(true) else None
  }

  function DecodeMove(o: map<Name, Json>): Option<InputEvent> {
    var p := DecodePoint(o);
    if o.Keys <= {KIND, X, Y} && p.Some? then Some(Move(p.value.0, p.value.1)) else None
  }

  function DecodeButton(w: Words, o: map<Name, Json>, up: bool): Option<InputEvent> {
    var p, b := DecodePoint(o), Text(o, BUTTON);
    if !(o.Keys <= {KIND, X, Y, BUTTON}) || p.None? || b.None? || ButtonNamed(w, b.value).None? then None
    else Some(Button(up, p.value.0, p.value.1, ButtonNamed(w, b.value).value))
  }

  function DecodeScroll(o: map<Name, Json>): Option<InputEvent> {
    var p, dx, dy := DecodePoint(o), Number(o, DX), Number(o, DY);
    if !(o.Keys <= {KIND, X, Y, DX, DY}) || p.None? || dx.None? || dy.None? then None
    else if !Delta(dx.value, MAX_SCROLL_DELTA) || !Delta(dy.value, MAX_SCROLL_DELTA) then None
    else Some(Scroll(p.value.0, p.value.1, dx.value, dy.value))
  }

  function DecodeKey(w: Words, o: map<Name, Json>): Option<InputEvent> {
    var up, code, key := Direction(w, Text(o, ACTION)), Text(o, CODE), Text(o, KEY);
    if !(o.Keys <= {KIND, ACTION, KEY, CODE, MODIFIERS}) || up.None? || code.None? || !Bounded(code.value, MAX_CODE_LENGTH) then None
    else if KEY in o && (key.None? || Utf16Length(key.value) > MAX_KEY_LENGTH) then None
    else if MODIFIERS !in o || !o[MODIFIERS].Arr? || |o[MODIFIERS].items| > 4 then None
    else
      var modifiers := DecodeModifiers(w, o[MODIFIERS].items);
      if modifiers.None? then None else Some(Key(up.value, code.value, key, modifiers.value))
  }

  function DecodeEvent(w: Words, value: Json): Option<InputEvent> {
    if !value.Obj? then None
    else
      var o := value.members;
      var kind := Text(o, KIND);
      if kind == Some(w.move) then DecodeMove(o)
      else if kind == Some(w.down) then DecodeButton(w, o, false)
      else if kind == Some(w.up) then DecodeButton(w, o, true)
      else if kind == Some(w.scroll) then DecodeScroll(o)
      else if kind == Some(w.key) then DecodeKey(w, o)
      else if kind == Some(w.releaseAll) && o.Keys <= {KIND} then Some(ReleaseAll)
      else None
  }

  function DecodeId(o: map<Name, Json>, name: Name, allowed: set<Name>): Option<string> {
    var id := Text(o, name);
    if o.Keys <= allowed && id.Some? && Bounded(id.value, MAX_ID_LENGTH) then id else None
  }

  function Decode(w: Words, value: Json): Option<Message> {
    if !value.Obj? then None
    else
      var o := value.members;
      var kind := Text(o, TYPE);
      if Number(o, V) != Some(VERSION) then None
      else if kind == Some(w.request) then
        var id := DecodeId(o, REQUEST_ID, {V, TYPE, REQUEST_ID});
        if id.None? then None else Some(Request(id.value))
      else if kind == Some(w.denied) then
        var id := DecodeId(o, REQUEST_ID, {V, TYPE, REQUEST_ID});
        if id.None? then None else Some(Denied(id.value))
      else if kind == Some(w.withdrawn) then
        var id := DecodeId(o, REQUEST_ID, {V, TYPE, REQUEST_ID});
        if id.None? then None else Some(Withdrawn(id.value))
      else if kind == Some(w.stopIntent) then
        var id := DecodeId(o, SESSION_ID, {V, TYPE, SESSION_ID});
        if id.None? then None else Some(StopIntent(id.value))
      else if kind == Some(w.input) then DecodeInput(w, o)
      else if kind == Some(w.copy) then DecodeCopy(o)
      else if kind == Some(w.paste) then DecodePaste(o)
      else if kind == Some(w.update) then DecodeUpdate(o)
      else None
  }

  function DecodeCopy(o: map<Name, Json>): Option<Message> {
    var id, n := DecodeId(o, SESSION_ID, {V, TYPE, SESSION_ID, SEQUENCE}), Sequence(o, SEQUENCE);
    if id.None? || n.None? then None else Some(ClipboardCopy(id.value, n.value))
  }

  function DecodePaste(o: map<Name, Json>): Option<Message> {
    var id, n, t := DecodeId(o, SESSION_ID, {V, TYPE, SESSION_ID, SEQUENCE, TEXT}), Sequence(o, SEQUENCE), Text(o, TEXT);
    if id.None? || n.None? || t.None? || !Transferable(t.value) then None else Some(ClipboardPaste(id.value, n.value, t.value))
  }

  function DecodeUpdate(o: map<Name, Json>): Option<Message> {
    var id, n, t := DecodeId(o, SESSION_ID, {V, TYPE, SESSION_ID, REVISION, TEXT}), Sequence(o, REVISION), Text(o, TEXT);
    if id.None? || n.None? || t.None? || !Transferable(t.value) then None else Some(ClipboardUpdate(id.value, n.value, t.value))
  }

  function DecodeInput(w: Words, o: map<Name, Json>): Option<Message> {
    var id, n := DecodeId(o, SESSION_ID, {V, TYPE, SESSION_ID, SEQUENCE, EVENT}), Sequence(o, SEQUENCE);
    if id.None? || n.None? || EVENT !in o then None
    else
      var event := DecodeEvent(w, o[EVENT]);
      if event.None? then None else Some(Input(id.value, n.value, event.value))
  }

  /** The messages the protocol allows. */

  ghost predicate ValidEvent(event: InputEvent) {
    match event
    case Move(x, y) => 0.0 <= x <= 1.0 && 0.0 <= y <= 1.0
    case Button(_, x, y, _) => 0.0 <= x <= 1.0 && 0.0 <= y <= 1.0
    case Scroll(x, y, dx, dy) => 0.0 <= x <= 1.0 && 0.0 <= y <= 1.0 && -2000.0 <= dx <= 2000.0 && -2000.0 <= dy <= 2000.0
    case Key(_, code, key, modifiers) =>
      && 0 < Utf16Length(code) <= 64 && (key.Some? ==> Utf16Length(key.value) <= 64)
      && Unrepeated(modifiers)
    case ReleaseAll => true
  }

  ghost predicate Unrepeated(modifiers: seq<Modifier>) {
    |modifiers| <= 4 && forall i, j :: 0 <= i < j < |modifiers| ==> modifiers[i] != modifiers[j]
  }

  ghost predicate ValidMessage(message: Message) {
    match message
    case Request(id) => 0 < Utf16Length(id) <= 160
    case Denied(id) => 0 < Utf16Length(id) <= 160
    case Withdrawn(id) => 0 < Utf16Length(id) <= 160
    case StopIntent(id) => 0 < Utf16Length(id) <= 160
    case Input(id, sequence, event) => 0 < Utf16Length(id) <= 160 && sequence <= 9_007_199_254_740_991 && ValidEvent(event)
    case ClipboardCopy(id, sequence) => 0 < Utf16Length(id) <= 160 && sequence <= 9_007_199_254_740_991
    case ClipboardPaste(id, sequence, text) =>
      0 < Utf16Length(id) <= 160 && sequence <= 9_007_199_254_740_991 && 0 < Utf8Length(text) <= 6144
    case ClipboardUpdate(id, revision, text) =>
      0 < Utf16Length(id) <= 160 && revision <= 9_007_199_254_740_991 && 0 < Utf8Length(text) <= 6144
  }

  /** The browser's codec is exact: what it accepts are the encodings of allowed messages, no others. */

  lemma DecodeAppend(w: Words, front: seq<Modifier>, last: Modifier)
    requires w.Distinct() && DecodeModifiers(w, EncodeModifiers(w, front)) == Some(front) && last !in front
    ensures DecodeModifiers(w, EncodeModifiers(w, front + [last])) == Some(front + [last])
  {
    var items := EncodeModifiers(w, front + [last]);
    assert items[..|items| - 1] == EncodeModifiers(w, front);
    assert ModifierNamed(w, ModifierName(w, last)) == Some(last);
  }

  lemma {:induction false} ModifiersRoundTrip(w: Words, modifiers: seq<Modifier>)
    requires w.Distinct() && forall i, j :: 0 <= i < j < |modifiers| ==> modifiers[i] != modifiers[j]
    ensures DecodeModifiers(w, EncodeModifiers(w, modifiers)) == Some(modifiers)
  {
    if modifiers != [] {
      var front, last := modifiers[..|modifiers| - 1], modifiers[|modifiers| - 1];
      ModifiersRoundTrip(w, front);
      DecodeAppend(w, front, last);
      assert modifiers == front + [last];
    }
  }

  lemma {:induction false} ModifiersAreEncoded(w: Words, items: seq<Json>)
    requires DecodeModifiers(w, items).Some?
    ensures var modifiers := DecodeModifiers(w, items).value;
            && items == EncodeModifiers(w, modifiers)
            && forall i, j :: 0 <= i < j < |modifiers| ==> modifiers[i] != modifiers[j]
  {
    if items != [] {
      ModifiersAreEncoded(w, items[..|items| - 1]);
      assert items == items[..|items| - 1] + [items[|items| - 1]];
    }
  }

  lemma KeyRoundTrip(w: Words, event: InputEvent)
    requires w.Distinct() && ValidEvent(event) && event.Key?
    ensures DecodeKey(w, EncodeEvent(w, event).members) == Some(event)
  {
    ModifiersRoundTrip(w, event.modifiers);
  }

  lemma ButtonRoundTrip(w: Words, event: InputEvent)
    requires w.Distinct() && ValidEvent(event) && event.Button?
    ensures DecodeButton(w, EncodeEvent(w, event).members, event.up) == Some(event)
  {
    assert ButtonNamed(w, ButtonName(w, event.button)) == Some(event.button);
  }

  lemma ScrollRoundTrip(w: Words, event: InputEvent)
    requires ValidEvent(event) && event.Scroll?
    ensures DecodeScroll(EncodeEvent(w, event).members) == Some(event)
  {
  }

  lemma EventRoundTrip(w: Words, event: InputEvent)
    requires w.Distinct() && ValidEvent(event)
    ensures DecodeEvent(w, EncodeEvent(w, event)) == Some(event)
  {
    var o := EncodeEvent(w, event).members;
    match event
    case Move(_, _) => assert Text(o, KIND) == Some(w.move);
    case Button(up, _, _, _) =>
      assert Text(o, KIND) == Some(DirectionName(w, up));
      ButtonRoundTrip(w, event);
    case Scroll(_, _, _, _) =>
      assert Text(o, KIND) == Some(w.scroll);
      ScrollRoundTrip(w, event);
    case Key(_, _, _, _) =>
      assert Text(o, KIND) == Some(w.key);
      KeyRoundTrip(w, event);
    case ReleaseAll => assert Text(o, KIND) == Some(w.releaseAll);
  }

  lemma MoveIsEncoded(w: Words, o: map<Name, Json>)
    requires Text(o, KIND) == Some(w.move) && DecodeMove(o).Some?
    ensures ValidEvent(DecodeMove(o).value) && Obj(o) == EncodeEvent(w, DecodeMove(o).value)
  {
    assert o.Keys == {KIND, X, Y};
  }

  lemma ButtonIsEncoded(w: Words, o: map<Name, Json>, up: bool)
    requires Text(o, KIND) == Some(DirectionName(w, up)) && DecodeButton(w, o, up).Some?
    ensures ValidEvent(DecodeButton(w, o, up).value) && Obj(o) == EncodeEvent(w, DecodeButton(w, o, up).value)
  {
    assert o.Keys == {KIND, X, Y, BUTTON};
  }

  lemma ScrollIsEncoded(w: Words, o: map<Name, Json>)
    requires Text(o, KIND) == Some(w.scroll) && DecodeScroll(o).Some?
    ensures ValidEvent(DecodeScroll(o).value) && Obj(o) == EncodeEvent(w, DecodeScroll(o).value)
  {
    assert o.Keys == {KIND, X, Y, DX, DY};
  }

  lemma KeyIsEncoded(w: Words, o: map<Name, Json>)
    requires Text(o, KIND) == Some(w.key) && DecodeKey(w, o).Some?
    ensures ValidEvent(DecodeKey(w, o).value) && Obj(o) == EncodeEvent(w, DecodeKey(w, o).value)
  {
    ModifiersAreEncoded(w, o[MODIFIERS].items);
    if KEY in o {
      assert o.Keys == {KIND, ACTION, CODE, MODIFIERS, KEY};
    } else {
      assert o.Keys == {KIND, ACTION, CODE, MODIFIERS};
    }
  }

  lemma EventIsEncoded(w: Words, value: Json)
    requires DecodeEvent(w, value).Some?
    ensures ValidEvent(DecodeEvent(w, value).value) && value == EncodeEvent(w, DecodeEvent(w, value).value)
  {
    var o := value.members;
    var kind := Text(o, KIND).value;
    if kind == w.move {
      MoveIsEncoded(w, o);
    } else if kind == w.down {
      ButtonIsEncoded(w, o, false);
    } else if kind == w.up {
      ButtonIsEncoded(w, o, true);
    } else if kind == w.scroll {
      ScrollIsEncoded(w, o);
    } else if kind == w.key {
      KeyIsEncoded(w, o);
    } else {
      assert o.Keys == {KIND};
    }
  }

  lemma NaturalRoundTrip(n: nat)
    requires n <= MAX_SAFE_INTEGER
    ensures SafeNatural(n as real) == Some(n)
  {
  }

  lemma InputRoundTrip(w: Words, message: Message)
    requires w.Distinct() && ValidMessage(message) && message.Input?
    ensures DecodeInput(w, Encode(w, message).members) == Some(message)
  {
    EventRoundTrip(w, message.event);
    NaturalRoundTrip(message.sequence);
  }

  lemma ClipboardRoundTrip(w: Words, message: Message)
    requires ValidMessage(message)
    ensures message.ClipboardCopy? ==> DecodeCopy(Encode(w, message).members) == Some(message)
    ensures message.ClipboardPaste? ==> DecodePaste(Encode(w, message).members) == Some(message)
    ensures message.ClipboardUpdate? ==> DecodeUpdate(Encode(w, message).members) == Some(message)
  {
    match message
    case ClipboardCopy(_, sequence) => NaturalRoundTrip(sequence);
    case ClipboardPaste(_, sequence, _) => NaturalRoundTrip(sequence);
    case ClipboardUpdate(_, revision, _) => NaturalRoundTrip(revision);
    case _ =>
  }

  /** Decoding what was encoded gives the message back. */
  lemma MessageRoundTrip(w: Words, message: Message)
    requires w.Distinct() && ValidMessage(message)
    ensures Decode(w, Encode(w, message)) == Some(message)
  {
    if message.Input? {
      InputRoundTrip(w, message);
    } else if message.ClipboardCopy? || message.ClipboardPaste? || message.ClipboardUpdate? {
      ClipboardRoundTrip(w, message);
    } else {
      IdRoundTrip(w, message);
    }
  }

  lemma IdRoundTrip(w: Words, message: Message)
    requires w.Distinct() && ValidMessage(message)
    requires message.Request? || message.Denied? || message.Withdrawn? || message.StopIntent?
    ensures Decode(w, Encode(w, message)) == Some(message)
  {
  }

  lemma IdIsEncoded(o: map<Name, Json>, name: Name)
    requires DecodeId(o, name, {V, TYPE, name}).Some? && V in o && TYPE in o
    ensures o == map[V := o[V], TYPE := o[TYPE], name := Str(DecodeId(o, name, {V, TYPE, name}).value)]
  {
    assert o.Keys == {V, TYPE, name};
  }

  lemma SequenceIsEncoded(o: map<Name, Json>, name: Name)
    requires Sequence(o, name).Some?
    ensures o[name] == Num(Sequence(o, name).value as real) && Sequence(o, name).value <= MAX_SAFE_INTEGER
  {
  }

  lemma InputIsEncoded(w: Words, o: map<Name, Json>)
    requires Number(o, V) == Some(VERSION) && Text(o, TYPE) == Some(w.input) && DecodeInput(w, o).Some?
    ensures ValidMessage(DecodeInput(w, o).value) && Obj(o) == Encode(w, DecodeInput(w, o).value)
  {
    EventIsEncoded(w, o[EVENT]);
    SequenceIsEncoded(o, SEQUENCE);
    assert o.Keys == {V, TYPE, SESSION_ID, SEQUENCE, EVENT};
  }

  lemma CopyIsEncoded(w: Words, o: map<Name, Json>)
    requires Number(o, V) == Some(VERSION) && Text(o, TYPE) == Some(w.copy) && DecodeCopy(o).Some?
    ensures ValidMessage(DecodeCopy(o).value) && Obj(o) == Encode(w, DecodeCopy(o).value)
  {
    SequenceIsEncoded(o, SEQUENCE);
    assert o.Keys == {V, TYPE, SESSION_ID, SEQUENCE};
  }

  lemma PasteIsEncoded(w: Words, o: map<Name, Json>)
    requires Number(o, V) == Some(VERSION) && Text(o, TYPE) == Some(w.paste) && DecodePaste(o).Some?
    ensures ValidMessage(DecodePaste(o).value) && Obj(o) == Encode(w, DecodePaste(o).value)
  {
    SequenceIsEncoded(o, SEQUENCE);
    assert o.Keys == {V, TYPE, SESSION_ID, SEQUENCE, TEXT};
  }

  lemma UpdateIsEncoded(w: Words, o: map<Name, Json>)
    requires Number(o, V) == Some(VERSION) && Text(o, TYPE) == Some(w.update) && DecodeUpdate(o).Some?
    ensures ValidMessage(DecodeUpdate(o).value) && Obj(o) == Encode(w, DecodeUpdate(o).value)
  {
    SequenceIsEncoded(o, REVISION);
    assert o.Keys == {V, TYPE, SESSION_ID, REVISION, TEXT};
  }

  lemma MessageIsEncoded(w: Words, value: Json)
    requires Decode(w, value).Some?
    ensures ValidMessage(Decode(w, value).value) && value == Encode(w, Decode(w, value).value)
  {
    var o := value.members;
    var kind := Text(o, TYPE).value;
    if kind in {w.request, w.denied, w.withdrawn} {
      IdIsEncoded(o, REQUEST_ID);
    } else if kind == w.stopIntent {
      IdIsEncoded(o, SESSION_ID);
    } else if kind == w.input {
      InputIsEncoded(w, o);
    } else if kind == w.copy {
      CopyIsEncoded(w, o);
    } else if kind == w.paste {
      PasteIsEncoded(w, o);
    } else {
      UpdateIsEncoded(w, o);
    }
  }

  /** So a value is accepted as a message exactly when the message is allowed and the value encodes it. */
  lemma CodecIsExact(w: Words, value: Json, message: Message)
    requires w.Distinct()
    ensures Decode(w, value) == Some(message) <==> ValidMessage(message) && value == Encode(w, message)
  {
    if Decode(w, value) == Some(message) {
      MessageIsEncoded(w, value);
    } else if ValidMessage(message) {
      MessageRoundTrip(w, message);
    }
  }

  /** The native agent's decoder. */

  datatype Refusal = Empty | TooLarge | Malformed | UnsupportedVersion | UnsupportedType | InvalidSession | InvalidSequence | InvalidEvent

  datatype AgentEvent =
    | Moved(x: real, y: real)
    | Clicked(up: bool, x: real, y: real, button: MouseButton)
    | Scrolled(x: real, y: real, dx: real, dy: real)
    | Typed(up: bool, code: string, key: Option<string>, modifiers: set<Modifier>)
    | Released

  datatype Command = Act(event: AgentEvent) | Copy | Paste(text: string) | Stop

  datatype Packet = Packet(sessionId: string, sequence: nat, command: Command)

  datatype Verdict = Accepted(packet: Packet) | Refused(reason: Refusal)

  const MAX_WHEEL_DELTA := 4096.0

  predicate IdentifierChar(c: char) {
    c == '-' || c == '_' || '0' <= c <= '9' || 'A' <= c <= 'Z' || 'a' <= c <= 'z'
  }

  predicate ValidIdentifier(s: string) {
    0 < |s| <= 128 && forall i :: 0 <= i < |s| ==> IdentifierChar(s[i])
  }

  /** The same in code points: at most 128 of them, hyphens, underscores, digits and letters. */
  predicate PlainId(s: string) {
    && 0 < |s| <= 128
    && forall i :: 0 <= i < |s| ==>
         var c := s[i] as int; c == 45 || c == 95 || 48 <= c <= 57 || 65 <= c <= 90 || 97 <= c <= 122
  }

  /** An array of strings, or nothing when some item is not a string. */
  predicate Strings(items: seq<Json>) {
    forall i :: 0 <= i < |items| ==> items[i].Str?
  }

  function NamedModifiers(w: Words, items: seq<Json>): set<Modifier> {
    if items == [] then {}
    else
      var front, last := NamedModifiers(w, items[..|items| - 1]), items[|items| - 1];
      if last.Str? && ModifierNamed(w, last.text).Some? then front + {ModifierNamed(w, last.text).value} else front
  }

  function AgentKey(w: Words, codes: set<string>, o: map<Name, Json>): Option<AgentEvent> {
    var up, code, key := Direction(w, Text(o, ACTION)), Text(o, CODE), Text(o, KEY);
    if up.None? || code.None? || code.value !in codes || (key.Some? && |key.value| > 16) then None
    else
      var items := if MODIFIERS in o && o[MODIFIERS].Arr? && Strings(o[MODIFIERS].items) then o[MODIFIERS].items else [];
      if |items| > 4 || |NamedModifiers(w, items)| != |items| then None
      else Some(Typed(up.value, code.value, key, NamedModifiers(w, items)))
  }

  function AgentScroll(o: map<Name, Json>): Option<AgentEvent> {
    var p, dx, dy := DecodePoint(o), Number(o, DX), Number(o, DY);
    if p.None? || dx.None? || dy.None? || !Delta(dx.value, MAX_WHEEL_DELTA) || !Delta(dy.value, MAX_WHEEL_DELTA) then None
    else Some(Scrolled(p.value.0, p.value.1, dx.value, dy.value))
  }

  function AgentButton(w: Words, o: map<Name, Json>, up: bool): Option<AgentEvent> {
    var p, b := DecodePoint(o), Text(o, BUTTON);
    if p.None? || b.None? || ButtonNamed(w, b.value).None? then None
    else Some(Clicked(up, p.value.0, p.value.1, ButtonNamed(w, b.value).value))
  }

  function AgentDecodeEvent(w: Words, codes: set<string>, o: map<Name, Json>): Option<AgentEvent> {
    var kind := Text(o, KIND);
    if kind == Some(w.move) then
      var p := DecodePoint(o);
      if p.None? then None else Some(Moved(p.value.0, p.value.1))
    else if kind == Some(w.down) then AgentButton(w, o, false)
    else if kind == Some(w.up) then AgentButton(w, o, true)
    else if kind == Some(w.scroll) then AgentScroll(o)
    else if kind == Some(w.key) then AgentKey(w, codes, o)
    else if kind == Some(w.releaseAll) then Some(Released)
    else None
  }

  function AgentCommand(w: Words, codes: set<string>, o: map<Name, Json>, kind: string): Option<Command> {
    if kind == w.input then
      if o.Keys != {V, TYPE, SESSION_ID, SEQUENCE, EVENT} || !o[EVENT].Obj? then None
      else
        var event := AgentDecodeEvent(w, codes, o[EVENT].members);
        if event.None? then None else Some(Act(event.value))
    else if kind == w.copy then
      if o.Keys != {V, TYPE, SESSION_ID, SEQUENCE} then None else Some(Copy)
    else
      var t := Text(o, TEXT);
      if o.Keys != {V, TYPE, SESSION_ID, SEQUENCE, TEXT} || t.None? || !Transferable(t.value) then None else Some(Paste(t.value))
  }

  function AgentDecode(w: Words, codes: set<string>, value: Json): Verdict {
    if !value.Obj? then Refused(Malformed)
    else
      var o := value.members;
      var kind, session := Text(o, TYPE), Text(o, SESSION_ID);
      if Number(o, V) != Some(VERSION) then Refused(UnsupportedVersion)
      else if kind.None? then Refused(UnsupportedType)
      else if session.None? || !ValidIdentifier(session.value) then Refused(InvalidSession)
      else if kind.value == w.stopIntent then
        if o.Keys != {V, TYPE, SESSION_ID} then Refused(InvalidEvent) else Accepted(Packet(session.value, 0, Stop))
      else if Sequence(o, SEQUENCE).None? then Refused(InvalidSequence)
      else if kind.value !in {w.input, w.copy, w.paste} then Refused(UnsupportedType)
      else
        var command := AgentCommand(w, codes, o, kind.value);
        if command.None? then Refused(InvalidEvent)
        else Accepted(Packet(session.value, Sequence(o, SEQUENCE).value, command.value))
  }

  /** Field by field: what an object must hold to be read as this event. Members it does not need may be
      there too. */
  ghost predicate ReadsAs(w: Words, codes: set<string>, o: map<Name, Json>, event: AgentEvent) {
    match event
    case Moved(x, y) => Has(o, KIND, Str(w.move)) && At(o, x, y)
    case Clicked(up, x, y, button) =>
      && Has(o, KIND, Str(if up then w.up else w.down)) && At(o, x, y)
      && Has(o, BUTTON, Str(match button case Left => w.left case Middle => w.middle case Right => w.right))
    case Scrolled(x, y, dx, dy) =>
      && Has(o, KIND, Str(w.scroll)) && At(o, x, y) && Has(o, DX, Num(dx)) && Has(o, DY, Num(dy))
      && -4096.0 <= dx <= 4096.0 && -4096.0 <= dy <= 4096.0
    case Typed(up, code, key, modifiers) =>
      && Has(o, KIND, Str(w.key)) && Has(o, ACTION, Str(if up then w.up else w.down)) && Has(o, CODE, Str(code)) && code in codes
      && (if key.Some? then Has(o, KEY, Str(key.value)) && |key.value| <= 16 else !(KEY in o && o[KEY].Str?))
      && (if MODIFIERS in o && o[MODIFIERS].Arr? && Strings(o[MODIFIERS].items)
          then |o[MODIFIERS].items| <= 4 && modifiers == NamedModifiers(w, o[MODIFIERS].items) && |modifiers| == |o[MODIFIERS].items|
          else modifiers == {})
    case Released => Has(o, KIND, Str(w.releaseAll))
  }

  ghost predicate Has(o: map<Name, Json>, name: Name, value: Json) {
    name in o && o[name] == value
  }

  ghost predicate At(o: map<Name, Json>, x: real, y: real) {
    Has(o, X, Num(x)) && Has(o, Y, Num(y)) && 0.0 <= x <= 1.0 && 0.0 <= y <= 1.0
  }

  /** The agent reads an object as an event exactly when it holds what that event needs. */
  lemma AgentEventIff(w: Words, codes: set<string>, o: map<Name, Json>, event: AgentEvent)
    requires w.Distinct()
    ensures AgentDecodeEvent(w, codes, o) == Some(event) <==> ReadsAs(w, codes, o, event)
  {
    match event
    case Moved(_, _) => MovedIff(w, codes, o, event);
    case Clicked(_, _, _, _) => ClickedIff(w, codes, o, event);
    case Scrolled(_, _, _, _) => ScrolledIff(w, codes, o, event);
    case Typed(_, _, _, _) => TypedIff(w, codes, o, event);
    case Released =>
  }

  lemma MovedIff(w: Words, codes: set<string>, o: map<Name, Json>, event: AgentEvent)
    requires w.Distinct() && event.Moved?
    ensures AgentDecodeEvent(w, codes, o) == Some(event) <==> ReadsAs(w, codes, o, event)
  {
    PointIff(o, event.x, event.y);
  }

  lemma ClickedIff(w: Words, codes: set<string>, o: map<Name, Json>, event: AgentEvent)
    requires w.Distinct() && event.Clicked?
    ensures AgentDecodeEvent(w, codes, o) == Some(event) <==> ReadsAs(w, codes, o, event)
  {
    AgentButtonIff(w, o, event);
  }

  lemma ScrolledIff(w: Words, codes: set<string>, o: map<Name, Json>, event: AgentEvent)
    requires w.Distinct() && event.Scrolled?
    ensures AgentDecodeEvent(w, codes, o) == Some(event) <==> ReadsAs(w, codes, o, event)
  {
    AgentScrollIff(o, event);
  }

  lemma TypedIff(w: Words, codes: set<string>, o: map<Name, Json>, event: AgentEvent)
    requires w.Distinct() && event.Typed?
    ensures AgentDecodeEvent(w, codes, o) == Some(event) <==> ReadsAs(w, codes, o, event)
  {
    AgentKeyIff(w, codes, o, event);
  }

  lemma PointIff(o: map<Name, Json>, x: real, y: real)
    ensures DecodePoint(o) == Some((x, y)) <==> At(o, x, y)
  {
  }

  lemma AgentScrollIff(o: map<Name, Json>, event: AgentEvent)
    requires event.Scrolled?
    ensures AgentScroll(o) == Some(event) <==>
      && At(o, event.x, event.y) && Has(o, DX, Num(event.dx)) && Has(o, DY, Num(event.dy))
      && -4096.0 <= event.dx <= 4096.0 && -4096.0 <= event.dy <= 4096.0
  {
    PointIff(o, event.x, event.y);
  }

  lemma AgentButtonIff(w: Words, o: map<Name, Json>, event: AgentEvent)
    requires w.Distinct() && event.Clicked?
    ensures AgentButton(w, o, event.up) == Some(event) <==>
      At(o, event.x, event.y) && Has(o, BUTTON, Str(match event.button case Left => w.left case Middle => w.middle case Right => w.right))
  {
  }

  lemma AgentKeyIff(w: Words, codes: set<string>, o: map<Name, Json>, event: AgentEvent)
    requires w.Distinct() && event.Typed?
    ensures AgentKey(w, codes, o) == Some(event) <==>
      && Has(o, ACTION, Str(if event.up then w.up else w.down)) && Has(o, CODE, Str(event.code)) && event.code in codes
      && (if event.key.Some? then Has(o, KEY, Str(event.key.value)) && |event.key.value| <= 16 else !(KEY in o && o[KEY].Str?))
      && (if MODIFIERS in o && o[MODIFIERS].Arr? && Strings(o[MODIFIERS].items)
          then |o[MODIFIERS].items| <= 4 && event.modifiers == NamedModifiers(w, o[MODIFIERS].items) && |event.modifiers| == |o[MODIFIERS].items|
          else event.modifiers == {})
  {
  }

  /** The agent accepts a value as a packet exactly when it is of version 2, with a session id within the
      limits, with exactly the members of its type, a natural number that a double holds exactly, and an
      event, or a text of at most 6144 bytes, that it can read. */
  lemma AgentAcceptsIff(w: Words, codes: set<string>, value: Json, packet: Packet)
    requires w.Distinct()
    ensures AgentDecode(w, codes, value) == Accepted(packet) <==>
      && value.Obj? && Has(value.members, V, Num(2.0)) && Has(value.members, SESSION_ID, Str(packet.sessionId))
      && PlainId(packet.sessionId)
      && (packet.command.Stop? ==>
            packet.sequence == 0 && Has(value.members, TYPE, Str(w.stopIntent)) && value.members.Keys == {V, TYPE, SESSION_ID})
      && (!packet.command.Stop? ==>
            packet.sequence <= 9_007_199_254_740_991 && Has(value.members, SEQUENCE, Num(packet.sequence as real)))
      && match packet.command
         case Stop => true
         case Act(event) =>
           && Has(value.members, TYPE, Str(w.input)) && value.members.Keys == {V, TYPE, SESSION_ID, SEQUENCE, EVENT}
           && value.members[EVENT].Obj? && ReadsAs(w, codes, value.members[EVENT].members, event)
         case Copy => Has(value.members, TYPE, Str(w.copy)) && value.members.Keys == {V, TYPE, SESSION_ID, SEQUENCE}
         case Paste(text) =>
           && Has(value.members, TYPE, Str(w.paste)) && value.members.Keys == {V, TYPE, SESSION_ID, SEQUENCE, TEXT}
           && Has(value.members, TEXT, Str(text)) && 0 < Utf8Length(text) <= 6144
  {
    if value.Obj? {
      if packet.command.Act? && EVENT in value.members && value.members[EVENT].Obj? {
        AgentEventIff(w, codes, value.members[EVENT].members, packet.command.event);
      }
      if SEQUENCE in value.members && value.members[SEQUENCE].Num? {
        NaturalIff(value.members[SEQUENCE].value, packet.sequence);
      }
    }
  }

  lemma NaturalIff(r: real, n: nat)
    ensures SafeNatural(r) == Some(n) <==> r == n as real && n <= 9_007_199_254_740_991
  {
  }

  /** What a message means to the agent, and which messages its tighter limits let through. */

  predicate AgentBound(message: Message) {
    message.StopIntent? || message.Input? || message.ClipboardCopy? || message.ClipboardPaste?
  }

  predicate FitsEvent(codes: set<string>, event: InputEvent) {
    event.Key? ==> event.code in codes && (event.key.Some? ==> |event.key.value| <= 16)
  }

  predicate Fits(codes: set<string>, message: Message)
    requires AgentBound(message)
  {
    PlainId(message.sessionId) && (message.Input? ==> FitsEvent(codes, message.event))
  }

  function ModifierSet(modifiers: seq<Modifier>): set<Modifier> {
    set m | m in modifiers
  }

  function EventMeaning(event: InputEvent): AgentEvent {
    match event
    case Move(x, y) => Moved(x, y)
    case Button(up, x, y, button) => Clicked(up, x, y, button)
    case Scroll(x, y, dx, dy) => Scrolled(x, y, dx, dy)
    case Key(up, code, key, modifiers) => Typed(up, code, key, ModifierSet(modifiers))
    case ReleaseAll => Released
  }

  function Meaning(message: Message): Packet
    requires AgentBound(message)
  {
    match message
    case StopIntent(id) => Packet(id, 0, Stop)
    case Input(id, sequence, event) => Packet(id, sequence, Act(EventMeaning(event)))
    case ClipboardCopy(id, sequence) => Packet(id, sequence, Copy)
    case ClipboardPaste(id, sequence, text) => Packet(id, sequence, Paste(text))
  }

  lemma NamedAppend(w: Words, front: seq<Modifier>, last: Modifier)
    requires w.Distinct()
    ensures NamedModifiers(w, EncodeModifiers(w, front + [last])) == NamedModifiers(w, EncodeModifiers(w, front)) + {last}
  {
    var items := EncodeModifiers(w, front + [last]);
    assert items[..|items| - 1] == EncodeModifiers(w, front);
    assert ModifierNamed(w, ModifierName(w, last)) == Some(last);
  }

  lemma SetAppend(front: seq<Modifier>, last: Modifier)
    requires forall i :: 0 <= i < |front| ==> front[i] != last
    ensures ModifierSet(front + [last]) == ModifierSet(front) + {last} && |ModifierSet(front + [last])| == |ModifierSet(front)| + 1
  {
    assert forall m :: m in front + [last] <==> m in front || m == last;
    assert ModifierSet(front + [last]) == ModifierSet(front) + {last};
    assert last !in ModifierSet(front);
  }

  lemma DifferentFront(modifiers: seq<Modifier>, front: seq<Modifier>, last: Modifier)
    requires modifiers == front + [last] && forall i, j :: 0 <= i < j < |modifiers| ==> modifiers[i] != modifiers[j]
    ensures forall i, j :: 0 <= i < j < |front| ==> front[i] != front[j]
    ensures forall i :: 0 <= i < |front| ==> front[i] != last
  {
    forall i | 0 <= i < |front| ensures front[i] != last {
      assert modifiers[i] == front[i] && modifiers[|front|] == last;
    }
    forall i, j | 0 <= i < j < |front| ensures front[i] != front[j] {
      assert modifiers[i] == front[i] && modifiers[j] == front[j];
    }
  }

  lemma AgreeAppend(w: Words, front: seq<Modifier>, last: Modifier)
    requires w.Distinct() && NamedModifiers(w, EncodeModifiers(w, front)) == ModifierSet(front) && |ModifierSet(front)| == |front|
    requires forall i :: 0 <= i < |front| ==> front[i] != last
    ensures NamedModifiers(w, EncodeModifiers(w, front + [last])) == ModifierSet(front + [last])
    ensures |ModifierSet(front + [last])| == |front| + 1
  {
    NamedAppend(w, front, last);
    SetAppend(front, last);
  }

  lemma {:induction false} ModifiersAgree(w: Words, modifiers: seq<Modifier>)
    requires w.Distinct() && forall i, j :: 0 <= i < j < |modifiers| ==> modifiers[i] != modifiers[j]
    ensures NamedModifiers(w, EncodeModifiers(w, modifiers)) == ModifierSet(modifiers) && |ModifierSet(modifiers)| == |modifiers|
  {
    if modifiers == [] {
      assert EncodeModifiers(w, modifiers) == [] && ModifierSet(modifiers) == {};
    } else {
      var front, last := modifiers[..|modifiers| - 1], modifiers[|modifiers| - 1];
      assert modifiers == front + [last];
      DifferentFront(modifiers, front, last);
      ModifiersAgree(w, front);
      AgreeAppend(w, front, last);
    }
  }

  lemma KeyAgrees(w: Words, codes: set<string>, event: InputEvent)
    requires w.Distinct() && ValidEvent(event) && event.Key?
    ensures AgentKey(w, codes, EncodeEvent(w, event).members) == if FitsEvent(codes, event) then Some(EventMeaning(event)) else None
  {
    var o := EncodeEvent(w, event).members;
    ModifiersAgree(w, event.modifiers);
    assert o[MODIFIERS] == Arr(EncodeModifiers(w, event.modifiers)) && Strings(o[MODIFIERS].items);
    assert Direction(w, Text(o, ACTION)) == Some(event.up) && Text(o, CODE) == Some(event.code);
    assert Text(o, KEY) == event.key;
  }

  lemma EventAgrees(w: Words, codes: set<string>, event: InputEvent)
    requires w.Distinct() && ValidEvent(event)
    ensures AgentDecodeEvent(w, codes, EncodeEvent(w, event).members) == if FitsEvent(codes, event) then Some(EventMeaning(event)) else None
  {
    var o := EncodeEvent(w, event).members;
    match event
    case Move(_, _) => assert Text(o, KIND) == Some(w.move);
    case Button(up, _, _, button) =>
      assert Text(o, KIND) == Some(DirectionName(w, up)) && ButtonNamed(w, ButtonName(w, button)) == Some(button);
      assert AgentButton(w, o, up) == Some(EventMeaning(event));
    case Scroll(_, _, _, _) =>
      assert Text(o, KIND) == Some(w.scroll) && AgentScroll(o) == Some(EventMeaning(event));
    case Key(_, _, _, _) =>
      assert Text(o, KIND) == Some(w.key);
      KeyAgrees(w, codes, event);
    case ReleaseAll => assert Text(o, KIND) == Some(w.releaseAll);
  }

  lemma CommandAgrees(w: Words, codes: set<string>, message: Message)
    requires w.Distinct() && ValidMessage(message) && AgentBound(message) && !message.StopIntent?
    ensures var o := Encode(w, message).members;
            var expected := if message.Input? && !FitsEvent(codes, message.event) then None else Some(Meaning(message).command);
            && Text(o, TYPE).Some? && Text(o, TYPE).value in {w.input, w.copy, w.paste}
            && Sequence(o, SEQUENCE) == Some(message.sequence)
            && AgentCommand(w, codes, o, Text(o, TYPE).value) == expected
  {
    NaturalRoundTrip(message.sequence);
    if message.Input? {
      EventAgrees(w, codes, message.event);
      assert Encode(w, message).members.Keys == {V, TYPE, SESSION_ID, SEQUENCE, EVENT};
    } else if message.ClipboardCopy? {
      assert Encode(w, message).members.Keys == {V, TYPE, SESSION_ID, SEQUENCE};
    } else {
      assert Encode(w, message).members.Keys == {V, TYPE, SESSION_ID, SEQUENCE, TEXT};
    }
  }

  /** Of what the browser's decoder accepts, the agent takes exactly the messages meant for it that fit
      its limits on session ids, key codes and key text, and takes them to mean the same. */
  lemma DecodersAgree(w: Words, codes: set<string>, value: Json, message: Message)
    requires w.Distinct() && Decode(w, value) == Some(message)
    ensures AgentDecode(w, codes, value).Accepted? <==> AgentBound(message) && Fits(codes, message)
    ensures AgentBound(message) && Fits(codes, message) ==> AgentDecode(w, codes, value).packet == Meaning(message)
  {
    CodecIsExact(w, value, message);
    if AgentBound(message) && !message.StopIntent? {
      CommandAgrees(w, codes, message);
    }
  }

  /** A packet on the wire: its length, and the value its text parses to, if it is JSON at all. */
  datatype Wire = Wire(bytes: nat, value: Option<Json>)

  predicate FitsPacket(bytes: nat) {
    0 < bytes <= MAX_PACKET_BYTES
  }

  /** Encoding refuses what would be too long; `size` is the length of a value's text. */
  function EncodePacket(w: Words, message: Message, size: Json -> nat): Option<Wire> {
    var value := Encode(w, message);
    if FitsPacket(size(value)) then Some(Wire(size(value), Some(value))) else None
  }

  function DecodePacket(w: Words, packet: Wire): Option<Message> {
    if !FitsPacket(packet.bytes) || packet.value.None? then None else Decode(w, packet.value.value)
  }

  function AgentDecodePacket(w: Words, codes: set<string>, packet: Wire): Verdict {
    if packet.bytes == 0 then Refused(Empty)
    else if packet.bytes > MAX_PACKET_BYTES then Refused(TooLarge)
    else if packet.value.None? then Refused(Malformed)
    else AgentDecode(w, codes, packet.value.value)
  }

  /** On the wire: a packet is accepted as a message exactly when it is no longer than a packet may be, the
      message is allowed, and the packet's value encodes it; so every packet the encoder lets out comes
      back as its message. */
  lemma PacketsAreExact(w: Words, packet: Wire, message: Message, size: Json -> nat)
    requires w.Distinct()
    ensures DecodePacket(w, packet) == Some(message) <==>
              FitsPacket(packet.bytes) && ValidMessage(message) && packet.value == Some(Encode(w, message))
    ensures ValidMessage(message) && EncodePacket(w, message, size).Some? ==>
              DecodePacket(w, EncodePacket(w, message, size).value) == Some(message)
  {
    CodecIsExact(w, Encode(w, message), message);
    if packet.value.Some? {
      CodecIsExact(w, packet.value.value, message);
    }
  }

  /** And both ends agree on packets. */
  lemma PacketsAgree(w: Words, codes: set<string>, packet: Wire, message: Message)
    requires w.Distinct() && DecodePacket(w, packet) == Some(message)
    ensures AgentDecodePacket(w, codes, packet).Accepted? <==> AgentBound(message) && Fits(codes, message)
    ensures AgentBound(message) && Fits(codes, message) ==> AgentDecodePacket(w, codes, packet).packet == Meaning(message)
  {
    DecodersAgree(w, codes, packet.value.value, message);
  }

  /** The words as the protocol spells them. */
  const PROTOCOL := Words(
    "remote-control:request", "remote-control:denied", "remote-control:withdrawn", "remote-control:stop-intent",
    "remote-control:input", "remote-control:clipboard-copy", "remote-control:clipboard-paste", "remote-control:clipboard-update",
    "move", "down", "up", "scroll", "key", "release-all", "left", "middle", "right", "shift", "ctrl", "alt", "meta")

  lemma ProtocolWordsAreDistinct()
    ensures PROTOCOL.Distinct()
  {
    var w := PROTOCOL;
    assert |w.request| == 22 && |w.denied| == 21 && |w.withdrawn| == 24 && |w.stopIntent| == 26;
    assert |w.input| == 20 && |w.copy| == 29 && |w.paste| == 30 && |w.update| == 31;
    assert w.move[0] == 'm' && w.down[0] == 'd';
    assert w.ctrl[0] == 'c' && w.meta[0] == 'm';
  }
}
