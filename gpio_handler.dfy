/** The interaction state and the status LED driven from it
    (tiny_him/gpio_handler.py; the same loop is repeated in pim_io.py and
    pim_zero_button.py, where a finished flash sequence falls back to
    "idle" instead of "ready"). */
module GpioHandler {

  /** One call the LED loop makes: `led.on()`, `led.off()`, `led.toggle()`
      or `time.sleep(...)`, the sleep in whole milliseconds. */
  datatype Action = On | Off | Toggle | Sleep(ms: nat)

  /** Whether the LED is lit after `act`, having been `led` before. */
  function Apply(led: bool, act: Action): bool {
    match act
    case On => true
    case Off => false
    case Toggle => !led
    case Sleep(_) => led
  }

  /** Whether the LED is lit after `acts`, starting from `led`. */
  function Level(led: bool, acts: seq<Action>): bool
    decreases |acts|
  {
    if acts == [] then led else Level(Apply(led, acts[0]), acts[1..])
  }

  /** Running two pieces one after the other is running their concatenation. */
  lemma {:induction false} LevelAppend(led: bool, a: seq<Action>, b: seq<Action>)
    ensures Level(led, a + b) == Level(Level(led, a), b)
    decreases |a|
  {
    if a == [] {
      assert a + b == b;
    } else {
      assert (a + b)[1..] == a[1..] + b;
      LevelAppend(Apply(led, a[0]), a[1..], b);
    }
  }

  /** A single call. */
  lemma LevelOne(led: bool, a: Action)
    ensures Level(led, [a]) == Apply(led, a)
  {
    assert [a][1..] == [];
  }

  /** Two calls. */
  lemma LevelTwo(led: bool, a: Action, b: Action)
    ensures Level(led, [a, b]) == Apply(Apply(led, a), b)
  {
    assert [a, b] == [a] + [b];
    LevelAppend(led, [a], [b]);
    LevelOne(led, a);
    LevelOne(Apply(led, a), b);
  }

  /** How many times `acts` toggles the LED. */
  function Toggles(acts: seq<Action>): nat
    decreases |acts|
  {
    if acts == [] then 0 else (if acts[0] == Toggle then 1 else 0) + Toggles(acts[1..])
  }

  /** Milliseconds `acts` spends sleeping. */
  function Waited(acts: seq<Action>): nat
    decreases |acts|
  {
    if acts == [] then 0 else (if acts[0].Sleep? then acts[0].ms else 0) + Waited(acts[1..])
  }

  /** One flash of the "speaking" pattern: on 100 ms, off 100 ms. */
  function Flash(): seq<Action> {
    [On, Sleep(100), Off, Sleep(100)]
  }

  /** `n` flashes one after the other. */
  function Flashes(n: nat): seq<Action> {
    if n == 0 then [] else Flashes(n - 1) + Flash()
  }

  /** After at least one flash the LED is off, whatever it was before. */
  lemma {:induction false} FlashesEndOff(led: bool, n: nat)
    requires n > 0
    ensures !Level(led, Flashes(n))
  {
    LevelAppend(led, Flashes(n - 1), Flash());
  }

  /** The names the loop recognises. */
  predicate Known(state: string) {
    state == "idle" || state == "ready" || state == "listening" || state == "processing" || state == "speaking"
  }

  /** What one iteration of `led_loop` does in `state`. */
  function Pattern(state: string): seq<Action> {
    if state == "idle" then [Off, Sleep(5000), On, Sleep(100), Off]
    else if state == "ready" then [On, Sleep(200)]
    else if state == "listening" then [Toggle, Sleep(100)]
    else if state == "processing" then [Toggle, Sleep(500)]
    else if state == "speaking" then Flashes(3)
    else [Off, Sleep(100)]
  }

  /** The state after one iteration: only "speaking" moves, to `settle`. */
  function After(state: string, settle: string): string {
    if state == "speaking" then settle else state
  }

  /** "speaking" is exactly three (on 100 ms, off 100 ms) flashes, 600 ms
      in all, and leaves the LED off. */
  lemma SpeakingFlashesThrice(led: bool)
    ensures Pattern("speaking") == Flash() + Flash() + Flash()
    ensures Waited(Pattern("speaking")) == 600 && Toggles(Pattern("speaking")) == 0
    ensures !Level(led, Pattern("speaking"))
  {
    FlashesEndOff(led, 3);
  }

  /** "speaking" is the only state an iteration changes, and it changes it to `settle`. */
  lemma OnlySpeakingMoves(state: string, settle: string)
    ensures After(state, settle) != state ==> state == "speaking" && After(state, settle) == settle
    ensures state != "speaking" ==> After(state, settle) == state
  {
  }

  /** "listening" and "processing" each flip the LED exactly once and
      differ only in how long they then sleep: 100 ms against 500 ms. */
  lemma ToggleStates(led: bool)
    ensures Toggles(Pattern("listening")) == 1 && Level(led, Pattern("listening")) == !led
    ensures Toggles(Pattern("processing")) == 1 && Level(led, Pattern("processing")) == !led
    ensures Waited(Pattern("listening")) == 100 && Waited(Pattern("processing")) == 500
    ensures Pattern("listening")[0] == Pattern("processing")[0]
  {
    LevelTwo(led, Toggle, Sleep(100));
    LevelTwo(led, Toggle, Sleep(500));
  }

  /** Where one iteration leaves the LED: off for "idle" and "speaking",
      on for "ready", flipped for "listening" and "processing", and off
      for any name the loop does not know, which waits 100 ms. */
  lemma {:induction false} LevelAfterIteration(led: bool, state: string)
    ensures Level(led, Pattern(state)) ==
      if state == "ready" then true
      else if state == "listening" || state == "processing" then !led
      else false
    ensures !Known(state) ==> Pattern(state) == [Off, Sleep(100)]
  {
    if state == "idle" {
      assert Pattern(state) == [Off, Sleep(5000), On] + [Sleep(100), Off];
      LevelAppend(led, [Off, Sleep(5000), On], [Sleep(100), Off]);
      LevelTwo(Level(led, [Off, Sleep(5000), On]), Sleep(100), Off);
    } else if state == "speaking" {
      FlashesEndOff(led, 3);
    } else {
      var p := Pattern(state);
      LevelTwo(led, p[0], p[1]);
    }
  }

  /** The module-global `state` and the LED it drives. */
  class Indicator {
    var state: string
    var led: bool
    /** The state a finished flash sequence falls back to. */
    const settle: string

    constructor (settle: string)
      ensures state == "idle" && !led && this.settle == settle
    {
      state := "idle";
      led := false;
      this.settle := settle;
    }

    /** `set_state(new_state)`: overwrites the state, nothing else. */
    method SetState(newState: string)
      modifies this`state
      ensures state == newState && led == old(led)
    {
      state := newState;
    }

    /** One pass of the `while running` body of `led_loop`. */
    method Step() returns (acts: seq<Action>)
      modifies this`state, this`led
      ensures acts == Pattern(old(state))
      ensures led == Level(old(led), acts)
      ensures state == After(old(state), settle)
    {
      LevelAfterIteration(led, state);
      if state == "idle" {
        led := false;
        acts := [Off, Sleep(5000)];
        led := true;
        acts := acts + [On, Sleep(100)];
        led := false;
        acts := acts + [Off];
      } else if state == "ready" {
        led := true;
        acts := [On, Sleep(200)];
      } else if state == "listening" {
        led := !led;
        acts := [Toggle, Sleep(100)];
      } else if state == "processing" {
        led := !led;
        acts := [Toggle, Sleep(500)];
      } else if state == "speaking" {
        acts := [];
        for i := 0 to 3
          invariant acts == Flashes(i)
          invariant led == Level(old(led), acts)
        {
          LevelAppend(old(led), acts, Flash());
          led := true;
          led := false;
          acts := acts + Flash();
        }
        state := settle;
      } else {
        led := false;
        acts := [Off, Sleep(100)];
      }
    }
  }
}
