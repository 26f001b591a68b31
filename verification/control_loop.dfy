/**
 * One polling tick of the touch interface's main loop in main.py: edge
 * triggered debouncing of the ten touch zones, the gripper latch
 * `opened`/`closed`, the long-press shutdown counter `k`, the easter-egg
 * counters and the SPI bus speed. The tick's input is whether the panel is
 * touched and, when it is, the touched pixel; its output is a log of the
 * observable effects: command characters sent to the arm, bus speed changes,
 * touch reads, shutdown and the redraw animations (as abstract events).
 */
module ControlLoop {
  import opened Optional
  import opened Sequences
  import opened Buttons

  /** Bus speed for the touch controller, for drawing a press, and for the release animations. */
  const SPEED_TOUCH := 1_000_000
  const SPEED_DRAW := 30_000_000
  const SPEED_FAST := 50_000_000

  /** Touched ticks while `closeit` holds after which the next touched tick shuts down. */
  const LONG_PRESS := 200

  /** What a tick sees: no BLE connection, or the panel touched at a pixel, or not touched. */
  datatype Input = Offline | Touch(px: int, py: int) | NoTouch

  /** The observable effects of a tick, in order. */
  datatype Event =
    | Send(ch: char)          // `enviar_caractere`
    | SetSpeed(hz: int)       // `set_spi_speed`
    | ReadTouch               // `touch.read()`
    | Shutdown                // the shutdown routine: black screen, BLE disconnected
    | Press(z: Zone)          // the press animation of a zone
    | Release(z: Zone)        // the release animation of a zone
    | Recolor(color: int)     // the rainbow redraw of the buttons
    | InitialScreen           // `init`'s first drawing: `montar_botoes` and `abrir`

  /** The locals of `main()` that survive from one tick to the next. */
  datatype LoopState = LoopState(
    flags: set<Zone>,   // the zones among D1..U4, closeit, openit whose flag is set
    touched: bool,
    isOpen: bool,       // opened
    isClosed: bool,     // closed
    k: int,
    n: int,
    ee: int,
    branco: int,        // BRANCO
    rainbow: int,       // rainbow.color
    speed: int,
    end: bool)

  /** A new state and the events that led to it. */
  datatype Outcome = Outcome(st: LoopState, ev: seq<Event>)

  /** The character a momentary zone sends: D1..D4 send '0'..'3', U1..U4 send '4'..'7'. */
  function Command(z: Zone): (c: char)
    requires Momentary(z)
    ensures '0' <= c <= '7' && c as int - '0' as int == ZoneIndex(z)
  {
    ('0' as int + ZoneIndex(z)) as char
  }

  /**
   * The `if`/`elif` chain of a release tick: the first set flag, in zone
   * order. The contract does not name which flag comes first: under `Inv` at
   * most one flag is set, so the order never decides anything.
   */
  function FirstSet(flags: set<Zone>): (r: Option<Zone>)
    ensures r.None? <==> flags == {}
    ensures r.Some? ==> r.value in flags
  {
    if D1 in flags then Some(D1)
    else if D2 in flags then Some(D2)
    else if D3 in flags then Some(D3)
    else if D4 in flags then Some(D4)
    else if U1 in flags then Some(U1)
    else if U2 in flags then Some(U2)
    else if U3 in flags then Some(U3)
    else if U4 in flags then Some(U4)
    else if Close in flags then Some(Close)
    else if Open in flags then Some(Open)
    else
      NoZoneNoFlags(flags);
      None
  }

  lemma NoZoneNoFlags(flags: set<Zone>)
    requires D1 !in flags && D2 !in flags && D3 !in flags && D4 !in flags && U1 !in flags
    requires U2 !in flags && U3 !in flags && U4 !in flags && Close !in flags && Open !in flags
    ensures flags == {}
  {
    forall z: Zone ensures z !in flags {
      match z
      case D1 => case D2 => case D3 => case D4 =>
      case U1 => case U2 => case U3 => case U4 =>
      case Close => case Open =>
    }
  }

  /** The state after the initialisation block: all flags clear, the gripper open, counters at zero. */
  const INITIAL := LoopState({}, false, true, false, 0, 0, 0, 0, 0, SPEED_TOUCH, false)

  /**
   * The initialisation block's effects: the bus set up at 30 MHz, the buttons
   * and the open-gripper pair drawn, the bus slowed for the touch controller,
   * then '4' and '9' sent.
   */
  const INIT_EVENTS := [SetSpeed(SPEED_DRAW), InitialScreen, SetSpeed(SPEED_TOUCH), Send('4'), Send('9')]

  /** A touched tick that starts with `k == 200` runs the shutdown routine and ends the loop. */
  function CheckShutdown(s: LoopState): Outcome
  {
    if s.k == LONG_PRESS then Outcome(s.(end := true, speed := SPEED_FAST), [SetSpeed(SPEED_FAST), Shutdown])
    else Outcome(s, [])
  }

  /** While `closeit` holds, every touched tick counts towards the long press. */
  function CountLongPress(s: LoopState): LoopState
  {
    if Close in s.flags then s.(k := s.k + 1) else s
  }

  /**
   * On the tick the touch starts: read the panel, speed the bus up for the
   * animation and set the flag of the zone under the pixel, if any.
   */
  function TouchStart(s: LoopState, px: int, py: int): Outcome
  {
    if s.touched then Outcome(s, [])
    else
      var c := Classify(s.flags, px, py);
      Outcome(s.(touched := true, speed := SPEED_DRAW, flags := if c.Some? then s.flags + {c.value} else s.flags),
              [ReadTouch, SetSpeed(SPEED_DRAW)] + (if c.Some? then [Press(c.value)] else []))
  }

  /** The branch of a touched tick. */
  function TouchedPhase(s: LoopState, px: int, py: int): Outcome
  {
    var a := CheckShutdown(s);
    var b := TouchStart(CountLongPress(a.st), px, py);
    Outcome(b.st, a.ev + b.ev)
  }

  /** Releasing "close": closes an open gripper and sends '8'; a closed one only gets the animation. */
  function ReleaseClose(s: LoopState): Outcome
  {
    if s.isOpen then Outcome(s.(isClosed := true, isOpen := false), [Release(Close), Send('8')])
    else Outcome(s, [Release(Close)])
  }

  /** Releasing "open": opens a closed gripper and sends '9'; an open one only gets the animation. */
  function ReleaseOpen(s: LoopState): Outcome
  {
    if s.isClosed then Outcome(s.(isOpen := true, isClosed := false), [Release(Open), Send('9')])
    else Outcome(s, [Release(Open)])
  }

  /** Releasing D1 counts the easter egg down, releasing U1 counts it up. */
  function EeDelta(z: Zone): int
  {
    if z == D1 then -1 else if z == U1 then 1 else 0
  }

  /** Releasing a pose button: its command goes out. */
  function ReleaseButton(s: LoopState, z: Zone): Outcome
    requires Momentary(z)
  {
    Outcome(s.(ee := s.ee + EeDelta(z)), [Release(z), Send(Command(z))])
  }

  /** Releasing zone `z`: fast bus, flag cleared, then the zone's own action. */
  function ReleaseZone(s: LoopState, z: Zone): Outcome
  {
    var s1 := s.(flags := s.flags - {z}, speed := SPEED_FAST);
    var r := if z == Close then ReleaseClose(s1) else if z == Open then ReleaseOpen(s1) else ReleaseButton(s1, z);
    Outcome(r.st, [SetSpeed(SPEED_FAST)] + r.ev)
  }

  /** The branch of a tick without touch: the first set flag is released. */
  function ReleasedPhase(s: LoopState): Outcome
  {
    var s0 := s.(touched := false);
    match FirstSet(s0.flags)
    case None => Outcome(s0, [])
    case Some(z) => ReleaseZone(s0, z)
  }

  /** Every hundredth tick at full count: the next rainbow colour becomes `BRANCO` and the buttons are redrawn. */
  function RainbowStep(s: LoopState): Outcome
  {
    if s.n % 100 == 0 then
      var c := NextColor(s.rainbow);
      Outcome(s.(rainbow := c, branco := c, speed := SPEED_TOUCH), [SetSpeed(SPEED_FAST), Recolor(c), SetSpeed(SPEED_TOUCH)])
    else Outcome(s, [])
  }

  /** The easter-egg block at the end of every connected tick. */
  function EasterEggPhase(s: LoopState): Outcome
  {
    if s.ee >= 3 then
      var r := RainbowStep(s.(ee := 3));
      Outcome(r.st.(n := r.st.n + 1), r.ev)
    else if s.ee < 0 then Outcome(s.(ee := 0), [])
    else if s.branco != 0 then Outcome(s.(branco := 0, ee := 0), [])
    else Outcome(s, [])
  }

  /** One iteration of `while not end`. */
  function TickSpec(s: LoopState, inp: Input): Outcome
  {
    if inp.Offline? then Outcome(s, [])
    else
      var a := if inp.Touch? then TouchedPhase(s, inp.px, inp.py) else ReleasedPhase(s);
      var b := EasterEggPhase(a.st);
      Outcome(b.st.(speed := SPEED_TOUCH), a.ev + b.ev + [SetSpeed(SPEED_TOUCH)])
  }

  /** The characters sent, in order. */
  function Sends(ev: seq<Event>): seq<char>
  {
    if ev == [] then []
    else Sends(ev[..|ev| - 1]) + (if ev[|ev| - 1].Send? then [ev[|ev| - 1].ch] else [])
  }

  /** No character is sent. */
  predicate Silent(ev: seq<Event>)
  {
    forall i :: 0 <= i < |ev| ==> !ev[i].Send?
  }

  lemma {:induction false} SilentSendsNothing(ev: seq<Event>)
    requires Silent(ev)
    ensures Sends(ev) == []
  {
    if ev != [] {
      SilentSendsNothing(ev[..|ev| - 1]);
    }
  }

  lemma {:induction false} SendsAppend(a: seq<Event>, b: seq<Event>)
    ensures Sends(a + b) == Sends(a) + Sends(b)
    decreases |b|
  {
    if b != [] {
      var b' := b[..|b| - 1];
      assert (a + b)[..|a + b| - 1] == a + b';
      SendsAppend(a, b');
    } else {
      assert a + b == a;
    }
  }

  /** A stretch with one `Send` in it sends exactly that character. */
  lemma SendsOne(a: seq<Event>, c: char, b: seq<Event>)
    requires Silent(a) && Silent(b)
    ensures Sends(a + [Send(c)] + b) == [c]
  {
    SilentSendsNothing(a);
    SilentSendsNothing(b);
    SendsAppend(a + [Send(c)], b);
    SendsAppend(a, [Send(c)]);
    assert [Send(c)][..0] == [];
  }

  // ---------------------------------------------------------------------------
  // Properties of a tick

  /**
   * What holds between ticks: at most one flag is set, and none once the
   * panel has been released; the latch is either open or closed; the
   * easter-egg counter is in 0..3; the long-press counter has not passed 200
   * unless the loop is ending; the colours are multiples of 0xA; the bus runs
   * at the touch controller's speed.
   */
  ghost predicate Inv(s: LoopState)
  {
    (s.touched ==> |s.flags| <= 1) && (!s.touched ==> s.flags == {}) &&
    s.isOpen == !s.isClosed &&
    0 <= s.ee <= 3 && s.n >= 0 &&
    0 <= s.k <= LONG_PRESS + 1 && (s.end || s.k <= LONG_PRESS) &&
    s.rainbow >= 0 && s.rainbow % 10 == 0 && (s.branco == 0 || s.branco == s.rainbow) &&
    s.speed == SPEED_TOUCH
  }

  lemma AtMostOneFlag(flags: set<Zone>, z: Zone)
    requires |flags| <= 1 && z in flags
    ensures flags == {z}
  {
    assert flags == (flags - {z}) + {z};
  }

  lemma SilentAppend(a: seq<Event>, b: seq<Event>)
    requires Silent(a) && Silent(b)
    ensures Silent(a + b)
  {
    forall i | 0 <= i < |a + b| ensures !(a + b)[i].Send? {
      if i < |a| {
        assert (a + b)[i] == a[i];
      } else {
        assert (a + b)[i] == b[i - |a|];
      }
    }
  }

  /** A touched tick sets at most one flag, only on the tick the touch starts, and sends nothing. */
  lemma TouchedPhaseFlags(s: LoopState, px: int, py: int)
    requires Inv(s) && !s.end
    ensures var o := TouchedPhase(s, px, py);
      o.st.touched && |o.st.flags| <= 1 && o.st.isOpen == s.isOpen && o.st.isClosed == s.isClosed &&
      (s.touched ==> o.st.flags == s.flags) &&
      (!s.touched ==> o.st.flags == (match Classify({}, px, py) case None => {} case Some(z) => {z})) &&
      o.st.k == s.k + (if Close in s.flags then 1 else 0) &&
      (o.st.end <==> s.k == LONG_PRESS) &&
      o.st.ee == s.ee && o.st.n == s.n && o.st.branco == s.branco && o.st.rainbow == s.rainbow &&
      Silent(o.ev)
  {
    var a := CheckShutdown(s);
    var b := TouchStart(CountLongPress(a.st), px, py);
    assert Silent(a.ev);
    assert Silent(b.ev) by {
      if !s.touched {
        var c := Classify({}, px, py);
        assert b.ev == [ReadTouch, SetSpeed(SPEED_DRAW)] + (if c.Some? then [Press(c.value)] else []);
      }
    }
    SilentAppend(a.ev, b.ev);
  }

  /** What releasing zone `z` sends: the pose buttons always, the gripper zones only when the latch flips. */
  function ReleaseChars(s: LoopState, z: Zone): (cs: seq<char>)
    ensures |cs| <= 1
  {
    if z == Close then (if s.isOpen then ['8'] else [])
    else if z == Open then (if s.isClosed then ['9'] else [])
    else [Command(z)]
  }

  /** What a tick without touch sends: the character of the first set flag, if any. */
  function ReleaseSends(s: LoopState): (cs: seq<char>)
    ensures |cs| <= 1
  {
    match FirstSet(s.flags)
    case None => []
    case Some(z) => ReleaseChars(s, z)
  }

  /** Releasing a zone clears its flag, flips the latch at most, and sends `ReleaseChars`. */
  lemma ReleaseZoneFacts(s: LoopState, z: Zone)
    ensures var o := ReleaseZone(s, z);
      !o.st.touched == !s.touched && o.st.flags == s.flags - {z} &&
      (s.isOpen == !s.isClosed ==> o.st.isOpen == !o.st.isClosed) &&
      (Momentary(z) ==> o.st.isOpen == s.isOpen && o.st.isClosed == s.isClosed) &&
      o.st.k == s.k && o.st.end == s.end && o.st.n == s.n && o.st.branco == s.branco && o.st.rainbow == s.rainbow &&
      s.ee - 1 <= o.st.ee <= s.ee + 1 &&
      (z == D1 ==> o.st.ee == s.ee - 1) && (z == U1 ==> o.st.ee == s.ee + 1) &&
      (z != D1 && z != U1 ==> o.st.ee == s.ee) &&
      Sends(o.ev) == ReleaseChars(s, z)
  {
    var o := ReleaseZone(s, z);
    var pre := [SetSpeed(SPEED_FAST), Release(z)];
    if ReleaseChars(s, z) == [] {
      assert o.ev == pre;
      SilentSendsNothing(o.ev);
    } else {
      var c := ReleaseChars(s, z)[0];
      assert o.ev == pre + [Send(c)] + [];
      SendsOne(pre, c, []);
    }
  }

  /** A release tick clears the flag it handles, flips the latch at most, and sends `ReleaseSends`. */
  lemma ReleasedPhaseFlags(s: LoopState)
    ensures var o := ReleasedPhase(s);
      !o.st.touched && o.st.flags == (match FirstSet(s.flags) case None => {} case Some(z) => s.flags - {z}) &&
      (s.isOpen == !s.isClosed ==> o.st.isOpen == !o.st.isClosed) &&
      (FirstSet(s.flags).None? || Momentary(FirstSet(s.flags).value) ==> o.st.isOpen == s.isOpen && o.st.isClosed == s.isClosed) &&
      o.st.k == s.k && o.st.end == s.end && o.st.n == s.n && o.st.branco == s.branco && o.st.rainbow == s.rainbow &&
      s.ee - 1 <= o.st.ee <= s.ee + 1 &&
      (FirstSet(s.flags) == Some(D1) ==> o.st.ee == s.ee - 1) &&
      (FirstSet(s.flags) == Some(U1) ==> o.st.ee == s.ee + 1) &&
      (FirstSet(s.flags) != Some(D1) && FirstSet(s.flags) != Some(U1) ==> o.st.ee == s.ee) &&
      Sends(o.ev) == ReleaseSends(s)
  {
    var s0 := s.(touched := false);
    match FirstSet(s.flags)
    case None =>
      assert ReleasedPhase(s).ev == [];
    case Some(z) =>
      ReleaseZoneFacts(s0, z);
      assert ReleaseChars(s0, z) == ReleaseChars(s, z);
  }

  /** The easter-egg block leaves the counter in 0..3, keeps the colour invariant and sends nothing. */
  lemma EasterEggPhaseBounds(s: LoopState)
    requires -1 <= s.ee <= 4 && s.n >= 0 && s.rainbow >= 0 && s.rainbow % 10 == 0
    requires s.branco == 0 || s.branco == s.rainbow
    ensures var o := EasterEggPhase(s);
      0 <= o.st.ee <= 3 && o.st.n >= s.n &&
      o.st.rainbow >= 0 && o.st.rainbow % 10 == 0 && (o.st.branco == 0 || o.st.branco == o.st.rainbow) &&
      o.st.flags == s.flags && o.st.touched == s.touched && o.st.isOpen == s.isOpen && o.st.isClosed == s.isClosed &&
      o.st.k == s.k && o.st.end == s.end && Silent(o.ev)
  {
    if s.ee >= 3 && s.n % 100 == 0 {
      assert s.rainbow != 0xFFFF;
      var c := NextColor(s.rainbow);
      assert EasterEggPhase(s).ev == [SetSpeed(SPEED_FAST), Recolor(c), SetSpeed(SPEED_TOUCH)];
    }
  }

  /** The easter egg never sends, whatever the state. */
  lemma EasterEggSilent(s: LoopState)
    ensures Silent(EasterEggPhase(s).ev)
  {
    if s.ee >= 3 && s.n % 100 == 0 {
      var c := NextColor(s.rainbow);
      assert EasterEggPhase(s).ev == [SetSpeed(SPEED_FAST), Recolor(c), SetSpeed(SPEED_TOUCH)];
    }
  }

  /** What follows either branch of a connected tick, the easter egg and the speed reset, sends nothing. */
  lemma TickTailSilent(st: LoopState)
    ensures Sends(EasterEggPhase(st).ev + [SetSpeed(SPEED_TOUCH)]) == []
  {
    EasterEggSilent(st);
    SilentAppend(EasterEggPhase(st).ev, [SetSpeed(SPEED_TOUCH)]);
    SilentSendsNothing(EasterEggPhase(st).ev + [SetSpeed(SPEED_TOUCH)]);
  }

  /** A connected tick sends what its release branch sends: the touched branch and the easter egg send nothing. */
  lemma TickSends(s: LoopState, inp: Input)
    ensures Sends(TickSpec(s, inp).ev) == if inp.NoTouch? then ReleaseSends(s) else []
  {
    if !inp.Offline? {
      var a := if inp.Touch? then TouchedPhase(s, inp.px, inp.py) else ReleasedPhase(s);
      var b := EasterEggPhase(a.st).ev;
      TickTailSilent(a.st);
      SeqAssoc(a.ev, b, [SetSpeed(SPEED_TOUCH)]);
      SendsAppend(a.ev, b + [SetSpeed(SPEED_TOUCH)]);
      if inp.Touch? {
        TouchedPhaseSilent(s, inp.px, inp.py);
        SilentSendsNothing(a.ev);
      } else {
        ReleasedPhaseFlags(s);
      }
    }
  }

  /** The touched branch never sends, whatever the state. */
  lemma TouchedPhaseSilent(s: LoopState, px: int, py: int)
    ensures Silent(TouchedPhase(s, px, py).ev)
  {
    var a := CheckShutdown(s);
    var b := TouchStart(CountLongPress(a.st), px, py);
    assert Silent(a.ev);
    assert Silent(b.ev) by {
      if !CountLongPress(a.st).touched {
        var c := Classify(CountLongPress(a.st).flags, px, py);
        assert b.ev == [ReadTouch, SetSpeed(SPEED_DRAW)] + (if c.Some? then [Press(c.value)] else []);
      }
    }
    SilentAppend(a.ev, b.ev);
  }

  /** Every tick of the loop keeps the invariant. */
  lemma TickPreservesInv(s: LoopState, inp: Input)
    requires Inv(s) && !s.end
    ensures Inv(TickSpec(s, inp).st)
  {
    if inp.Touch? {
      TouchTickPreservesInv(s, inp.px, inp.py);
    } else if inp.NoTouch? {
      ReleaseTickPreservesInv(s);
    }
  }

  lemma TouchTickPreservesInv(s: LoopState, px: int, py: int)
    requires Inv(s) && !s.end
    ensures Inv(TickSpec(s, Touch(px, py)).st)
  {
    var a := TouchedPhase(s, px, py).st;
    TouchedPhaseFlags(s, px, py);
    EasterEggPhaseBounds(a);
    assert TickSpec(s, Touch(px, py)).st == EasterEggPhase(a).st.(speed := SPEED_TOUCH);
  }

  lemma ReleaseTickPreservesInv(s: LoopState)
    requires Inv(s) && !s.end
    ensures Inv(TickSpec(s, NoTouch).st)
  {
    var a := ReleasedPhase(s).st;
    ReleasedPhaseFlags(s);
    match FirstSet(s.flags)
    case None =>
    case Some(z) => AtMostOneFlag(s.flags, z);
    EasterEggPhaseBounds(a);
    assert TickSpec(s, NoTouch).st == EasterEggPhase(a).st.(speed := SPEED_TOUCH);
  }


  /**
   * Flags change only at the edges: a touch-start tick sets the flag of the
   * zone under the pixel (if any), a held touch sets nothing new, a release
   * tick clears every flag. At most one command goes out per tick, and none
   * while the panel is touched.
   */
  lemma TickFlagsAndCommands(s: LoopState, inp: Input)
    requires Inv(s) && !s.end && !inp.Offline?
    ensures var o := TickSpec(s, inp);
      (inp.Touch? && s.touched ==> o.st.flags == s.flags && Sends(o.ev) == []) &&
      (inp.Touch? && !s.touched ==>
        o.st.touched && o.st.flags == (match Classify({}, inp.px, inp.py) case None => {} case Some(z) => {z}) &&
        Sends(o.ev) == []) &&
      (inp.NoTouch? ==> !o.st.touched && o.st.flags == {}) &&
      |Sends(o.ev)| <= 1
  {
    TickSends(s, inp);
    if inp.Touch? {
      TouchedPhaseFlags(s, inp.px, inp.py);
      EasterEggPhaseBounds(TouchedPhase(s, inp.px, inp.py).st);
    } else {
      ReleasedPhaseFlags(s);
      match FirstSet(s.flags)
      case None =>
      case Some(z) => AtMostOneFlag(s.flags, z);
      EasterEggPhaseBounds(ReleasedPhase(s).st);
    }
  }

  /** Releasing a pose button sends its command, whatever else the tick does. */
  lemma ReleaseSendsCommand(s: LoopState, z: Zone)
    requires Inv(s) && !s.end && s.flags == {z} && Momentary(z)
    ensures var o := TickSpec(s, NoTouch);
      Sends(o.ev) == [Command(z)] && o.st.flags == {} && !o.st.touched &&
      o.st.isOpen == s.isOpen && o.st.isClosed == s.isClosed
  {
    assert FirstSet(s.flags) == Some(z);
    TickSends(s, NoTouch);
    ReleasedPhaseFlags(s);
    EasterEggPhaseBounds(ReleasedPhase(s).st);
    assert ReleasedPhase(s).st.isOpen == s.isOpen;
  }

  /**
   * The gripper latch: releasing "close" while open closes it and sends '8';
   * while already closed it sends nothing and the latch stays. "Open" is the
   * mirror image with '9'.
   */
  lemma ReleaseLatch(s: LoopState, z: Zone)
    requires Inv(s) && !s.end && s.flags == {z} && (z == Close || z == Open)
    ensures var o := TickSpec(s, NoTouch);
      var acts := if z == Close then s.isOpen else s.isClosed;
      o.st.flags == {} && o.st.isOpen == !o.st.isClosed &&
      (acts ==> o.st.isClosed == (z == Close) && Sends(o.ev) == [if z == Close then '8' else '9']) &&
      (!acts ==> o.st.isOpen == s.isOpen && Sends(o.ev) == [])
  {
    assert FirstSet(s.flags) == Some(z);
    TickSends(s, NoTouch);
    var a := ReleasedPhase(s);
    ReleasedPhaseFlags(s);
    EasterEggPhaseBounds(a.st);
    var s1 := s.(touched := false, flags := {}, speed := SPEED_FAST);
    assert a.st == (if z == Close then ReleaseClose(s1) else ReleaseOpen(s1)).st;
  }

  /**
   * `k` counts the touched ticks on which `closeit` holds and is never reset;
   * the loop ends exactly after a touched tick that starts with `k == 200`.
   */
  lemma LongPress(s: LoopState, inp: Input)
    requires Inv(s) && !s.end && !inp.Offline?
    ensures var o := TickSpec(s, inp);
      o.st.k == s.k + (if inp.Touch? && Close in s.flags then 1 else 0) &&
      (o.st.end <==> inp.Touch? && s.k == LONG_PRESS)
  {
    if inp.Touch? {
      TouchedPhaseFlags(s, inp.px, inp.py);
      EasterEggPhaseBounds(TouchedPhase(s, inp.px, inp.py).st);
    } else {
      ReleasedPhaseFlags(s);
      EasterEggPhaseBounds(ReleasedPhase(s).st);
    }
  }

  /**
   * The easter egg: the counter after the branch is clamped to 0..3; at 3 the
   * colour advances every hundredth tick; below 3 a coloured `BRANCO` is
   * reset to 0 together with the counter.
   */
  lemma EasterEggCounter(s: LoopState)
    requires -1 <= s.ee <= 4 && s.n >= 0 && s.rainbow >= 0 && s.rainbow % 10 == 0
    ensures var o := EasterEggPhase(s);
      (s.ee >= 3 ==> (o.st.ee == 3 && o.st.n == s.n + 1 &&
        (s.n % 100 == 0 ==> o.st.branco == o.st.rainbow == s.rainbow + 10) &&
        (s.n % 100 != 0 ==> o.st.branco == s.branco && o.st.rainbow == s.rainbow))) &&
      (s.ee < 0 ==> o.st.ee == 0 && o.st.branco == s.branco) &&
      (0 <= s.ee < 3 && s.branco != 0 ==> o.st.ee == 0 && o.st.branco == 0) &&
      (0 <= s.ee < 3 && s.branco == 0 ==> o.st.ee == s.ee && o.st.branco == 0) &&
      (s.ee < 3 ==> o.st.n == s.n && o.st.rainbow == s.rainbow)
  {
    if s.ee >= 3 && s.n % 100 == 0 {
      assert s.rainbow != 0xFFFF;
      assert NextColor(s.rainbow) == s.rainbow + 10;
    }
  }

  /** Every connected tick ends with the bus back at the touch controller's speed. */
  lemma TickEndsSlow(s: LoopState, inp: Input)
    requires !inp.Offline?
    ensures var o := TickSpec(s, inp);
      o.st.speed == SPEED_TOUCH && |o.ev| > 0 && o.ev[|o.ev| - 1] == SetSpeed(SPEED_TOUCH)
  {
  }

  // ---------------------------------------------------------------------------
  // Several ticks

  /** A run of any step function over a sequence of inputs; it stops once `end` is set. */
  function RunWith(step: (LoopState, Input) -> Outcome, s: LoopState, ins: seq<Input>): Outcome
    decreases |ins|
  {
    if ins == [] || s.end then Outcome(s, [])
    else
      var o := step(s, ins[0]);
      var r := RunWith(step, o.st, ins[1..]);
      Outcome(r.st, o.ev + r.ev)
  }

  /** The loop run over a sequence of inputs. */
  function Run(s: LoopState, ins: seq<Input>): Outcome
  {
    RunWith(TickSpec, s, ins)
  }

  /** `m` ticks of a held touch. */
  function Holds(px: int, py: int, m: nat): (ins: seq<Input>)
    ensures |ins| == m
  {
    seq(m, i => Touch(px, py))
  }

  /** Running `a` then `b` is running `a + b`. */
  lemma {:induction false} RunAppend(step: (LoopState, Input) -> Outcome, s: LoopState, a: seq<Input>, b: seq<Input>)
    ensures RunWith(step, s, a + b).st == RunWith(step, RunWith(step, s, a).st, b).st
    ensures RunWith(step, s, a + b).ev == RunWith(step, s, a).ev + RunWith(step, RunWith(step, s, a).st, b).ev
    decreases |a|
  {
    if a == [] {
      assert a + b == b;
    } else if !s.end {
      var o := step(s, a[0]);
      assert (a + b)[0] == a[0] && (a + b)[1..] == a[1..] + b;
      RunAppend(step, o.st, a[1..], b);
    }
  }

  /** One tick run as a run of length one. */
  lemma RunOne(s: LoopState, inp: Input)
    requires !s.end
    ensures Run(s, [inp]) == Outcome(TickSpec(s, inp).st, TickSpec(s, inp).ev)
  {
    var o := TickSpec(s, inp);
    assert [inp][1..] == [];
    assert RunWith(TickSpec, o.st, []) == Outcome(o.st, []);
    assert o.ev + [] == o.ev;
  }

  /** The state after initialisation satisfies the invariant. */
  lemma InitialInv()
    ensures Inv(INITIAL)
  {
  }

  /** Every state a run reaches from a state satisfying the invariant satisfies it too. */
  lemma {:induction false} RunPreservesInv(s: LoopState, ins: seq<Input>)
    requires Inv(s)
    ensures Inv(Run(s, ins).st)
    decreases |ins|
  {
    if ins != [] && !s.end {
      TickPreservesInv(s, ins[0]);
      RunPreservesInv(TickSpec(s, ins[0]).st, ins[1..]);
    }
  }

  /** Every state reached from the initial state satisfies the invariant. */
  lemma ReachableInv(ins: seq<Input>)
    ensures Inv(Run(INITIAL, ins).st)
  {
    InitialInv();
    RunPreservesInv(INITIAL, ins);
  }

  /** Holding a pose button down sends nothing and changes no flag or counter that matters. */
  lemma {:induction false} HoldIsQuiet(s: LoopState, z: Zone, px: int, py: int, m: nat)
    requires Inv(s) && !s.end && s.touched && s.flags == {z} && Momentary(z) && s.k < LONG_PRESS
    ensures var r := Run(s, Holds(px, py, m));
      Inv(r.st) && !r.st.end && r.st.touched && r.st.flags == {z} && r.st.k == s.k && Sends(r.ev) == []
    decreases m
  {
    if m > 0 {
      var ins := Holds(px, py, m);
      assert ins[0] == Touch(px, py) && ins[1..] == Holds(px, py, m - 1);
      var o := TickSpec(s, Touch(px, py));
      TickFlagsAndCommands(s, Touch(px, py));
      LongPress(s, Touch(px, py));
      TickPreservesInv(s, Touch(px, py));
      HoldIsQuiet(o.st, z, px, py, m - 1);
      SendsAppend(o.ev, Run(o.st, ins[1..]).ev);
    }
  }

  /**
   * Debouncing over a whole press: touching a pose button, holding it for any
   * number of ticks and letting go sends that button's command exactly once.
   */
  lemma PressHoldRelease(s: LoopState, z: Zone, px: int, py: int, hx: int, hy: int, m: nat)
    requires Inv(s) && !s.end && !s.touched && s.k < LONG_PRESS
    requires Momentary(z) && InZone(z, px, py)
    ensures Sends(Run(s, [Touch(px, py)] + Holds(hx, hy, m) + [NoTouch]).ev) == [Command(z)]
  {
    ClassifyIsZoneLookup({}, px, py, z);
    var press := TickSpec(s, Touch(px, py));
    TickFlagsAndCommands(s, Touch(px, py));
    LongPress(s, Touch(px, py));
    TickPreservesInv(s, Touch(px, py));
    assert press.st.flags == {z};
    RunOne(s, Touch(px, py));
    HoldIsQuiet(press.st, z, hx, hy, m);
    var held := Run(press.st, Holds(hx, hy, m));
    ReleaseSendsCommand(held.st, z);
    var rel := TickSpec(held.st, NoTouch);
    RunOne(held.st, NoTouch);
    RunAppend(TickSpec, s, [Touch(px, py)], Holds(hx, hy, m));
    RunAppend(TickSpec, s, [Touch(px, py)] + Holds(hx, hy, m), [NoTouch]);
    SendsAppend(press.ev, held.ev);
    SendsAppend(press.ev + held.ev, rel.ev);
  }

  // ---------------------------------------------------------------------------
  // The loop as the program runs it

  /** The state of `main()` after initialisation, updated tick by tick. */
  class Loop {
    var flags: set<Zone>
    var touched: bool
    var isOpen: bool
    var isClosed: bool
    var k: int
    var n: int
    var ee: int
    var branco: int
    var speed: int
    var end: bool
    const rainbow: RainbowColors
    /** Everything the loop has done, in order. */
    var log: seq<Event>

    function State(): LoopState
      reads this, rainbow
    {
      LoopState(flags, touched, isOpen, isClosed, k, n, ee, branco, rainbow.color, speed, end)
    }

    /** The initialisation block of the first connected tick. */
    constructor ()
      ensures State() == INITIAL && log == INIT_EVENTS && Inv(State())
      ensures fresh(rainbow)
    {
      rainbow := new RainbowColors();
      flags := {};
      touched := false;
      isOpen, isClosed := true, false;
      k, n, ee := 0, 0, 0;
      branco := 0x0000;
      speed := SPEED_TOUCH;
      end := false;
      log := INIT_EVENTS;
    }

    /** `set_spi_speed` */
    method SetSpiSpeed(hz: int)
      modifies this`speed, this`log
      ensures speed == hz && log == old(log) + [SetSpeed(hz)]
    {
      speed := hz;
      log := log + [SetSpeed(hz)];
    }

    method Emit(e: Event)
      modifies this`log
      ensures log == old(log) + [e]
    {
      log := log + [e];
    }

    /** The shutdown routine, when `k` has reached 200. */
    method ShutdownCheck()
      modifies this`end, this`speed, this`log
      ensures State() == CheckShutdown(old(State())).st
      ensures log == old(log) + CheckShutdown(old(State())).ev
    {
      if k == LONG_PRESS {
        end := true;
        SetSpiSpeed(SPEED_FAST);
        Emit(Shutdown);
      }
    }

    /** The tick the touch starts on. */
    method TouchStartStep(px: int, py: int)
      modifies this`speed, this`log, this`touched, this`flags
      ensures State() == TouchStart(old(State()), px, py).st
      ensures log == old(log) + TouchStart(old(State()), px, py).ev
    {
      if !touched {
        touched := true;
        Emit(ReadTouch);
        SetSpiSpeed(SPEED_DRAW);
        var c := Classify(flags, px, py);
        if c.Some? {
          Emit(Press(c.value));
          flags := flags + {c.value};
        }
      }
    }

    /** The branch taken when `touch.is_touched()` holds. */
    method TouchedStep(px: int, py: int)
      modifies this`end, this`speed, this`log, this`k, this`touched, this`flags
      ensures State() == TouchedPhase(old(State()), px, py).st
      ensures log == old(log) + TouchedPhase(old(State()), px, py).ev
    {
      ShutdownCheck();
      if Close in flags {
        k := k + 1;
      }
      TouchStartStep(px, py);
    }

    /** Releasing "close". */
    method ReleaseCloseStep()
      modifies this`log, this`isOpen, this`isClosed
      ensures State() == ReleaseClose(old(State())).st
      ensures log == old(log) + ReleaseClose(old(State())).ev
    {
      Emit(Release(Close));
      if isOpen {
        isClosed := true;
        isOpen := false;
        Emit(Send('8'));
      }
    }

    /** Releasing "open". */
    method ReleaseOpenStep()
      modifies this`log, this`isOpen, this`isClosed
      ensures State() == ReleaseOpen(old(State())).st
      ensures log == old(log) + ReleaseOpen(old(State())).ev
    {
      Emit(Release(Open));
      if isClosed {
        isOpen := true;
        isClosed := false;
        Emit(Send('9'));
      }
    }

    /** Releasing one of the eight pose buttons. */
    method ReleaseButtonStep(z: Zone)
      requires Momentary(z)
      modifies this`log, this`ee
      ensures State() == ReleaseButton(old(State()), z).st
      ensures log == old(log) + ReleaseButton(old(State()), z).ev
    {
      if z == D1 {
        ee := ee - 1;
      } else if z == U1 {
        ee := ee + 1;
      }
      Emit(Release(z));
      Emit(Send(Command(z)));
    }

    /** Releasing the zone whose flag is the first one set. */
    method ReleaseZoneStep(z: Zone)
      modifies this`speed, this`log, this`flags, this`ee, this`isOpen, this`isClosed
      ensures State() == ReleaseZone(old(State()), z).st
      ensures log == old(log) + ReleaseZone(old(State()), z).ev
    {
      SetSpiSpeed(SPEED_FAST);
      flags := flags - {z};
      if z == Close {
        ReleaseCloseStep();
      } else if z == Open {
        ReleaseOpenStep();
      } else {
        ReleaseButtonStep(z);
      }
    }

    /** The branch taken when the panel is not touched. */
    method ReleasedStep()
      modifies this`speed, this`log, this`touched, this`flags, this`ee, this`isOpen, this`isClosed
      ensures State() == ReleasedPhase(old(State())).st
      ensures log == old(log) + ReleasedPhase(old(State())).ev
    {
      touched := false;
      var first := FirstSet(flags);
      if first.Some? {
        ReleaseZoneStep(first.value);
      }
    }

    /** Every hundredth tick of a full easter egg: the rainbow redraw. */
    method RainbowRedraw()
      modifies this`branco, this`speed, this`log, rainbow
      ensures State() == RainbowStep(old(State())).st
      ensures log == old(log) + RainbowStep(old(State())).ev
    {
      if n % 100 == 0 {
        branco := rainbow.Next();
        SetSpiSpeed(SPEED_FAST);
        Emit(Recolor(branco));
        SetSpiSpeed(SPEED_TOUCH);
      }
    }

    /** The easter-egg block. */
    method EasterEgg()
      modifies this`ee, this`n, this`branco, this`speed, this`log, rainbow
      ensures State() == EasterEggPhase(old(State())).st
      ensures log == old(log) + EasterEggPhase(old(State())).ev
    {
      if ee >= 3 {
        ee := 3;
        RainbowRedraw();
        n := n + 1;
      } else if ee < 0 {
        ee := 0;
      } else if branco != 0x0000 {
        branco := 0x0000;
        ee := 0;
      }
    }

    /** One iteration of `while not end`. */
    method Tick(inp: Input)
      requires !end
      modifies this, rainbow
      ensures State() == TickSpec(old(State()), inp).st
      ensures log == old(log) + TickSpec(old(State()), inp).ev
    {
      if inp.Offline? {
        return;
      }
      ghost var a := if inp.Touch? then TouchedPhase(State(), inp.px, inp.py) else ReleasedPhase(State());
      if inp.Touch? {
        TouchedStep(inp.px, inp.py);
      } else {
        ReleasedStep();
      }
      ghost var b := EasterEggPhase(a.st);
      EasterEgg();
      SetSpiSpeed(SPEED_TOUCH);
      SeqAssoc(old(log), a.ev, b.ev);
      SeqAssoc(old(log), a.ev + b.ev, [SetSpeed(SPEED_TOUCH)]);
    }
  }
}
