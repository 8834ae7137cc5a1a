/**
 * Keyboard input: the tracked key states, the journal-toggle latch and the
 * movement vector they give.
 */
module Inputs {
  import opened Geometry

  /** `toLowerCase` on the ASCII letters; every other character is kept. */
  function LowerChar(c: char): char
  {
    if 'A' <= c <= 'Z' then (c as int + 32) as char else c
  }

  /** `String.prototype.toLowerCase`: the result has no upper-case ASCII letter. */
  function ToLower(s: string): (t: string)
    ensures |t| == |s|
    ensures forall i :: 0 <= i < |s| ==> t[i] == LowerChar(s[i])
    ensures forall i :: 0 <= i < |t| ==> !('A' <= t[i] <= 'Z')
    decreases |s|
  {
    if s == [] then [] else [LowerChar(s[0])] + ToLower(s[1..])
  }

  const ARROW_KEYS: set<string> := {"ArrowUp", "ArrowLeft", "ArrowDown", "ArrowRight"}

  /** The keys of the `keys` object. */
  const TRACKED: set<string> := {"w", "a", "s", "d", "ArrowUp", "ArrowLeft", "ArrowDown", "ArrowRight", "j"}

  /**
   * The arrow keys are tracked under their mixed-case names, but events are
   * looked up lower-cased, so no key event ever reaches an arrow entry.
   */
  lemma ArrowKeysUnreachable(key: string)
    ensures ToLower(key) !in ARROW_KEYS
  {
    var k := ToLower(key);
    assert forall a :: a in ARROW_KEYS ==> 'A' <= a[0] <= 'Z';
  }

  datatype KeyEvent = KeyDown(key: string) | KeyUp(key: string)

  predicate IsJ(e: KeyEvent)
  {
    ToLower(e.key) == "j"
  }

  /** The effect of one event on `journalToggled`. */
  function ToggleStep(toggled: bool, e: KeyEvent): bool
  {
    match e
    case KeyDown(k) => if ToLower(k) == "j" && !toggled then true else toggled
    case KeyUp(k) => if ToLower(k) == "j" then false else toggled
  }

  /** `journalToggled` after a sequence of events, starting from `toggled`. */
  function ToggledAfter(toggled: bool, es: seq<KeyEvent>): bool
    decreases |es|
  {
    if es == [] then toggled else ToggleStep(ToggledAfter(toggled, es[..|es| - 1]), es[|es| - 1])
  }

  /** After a run of events the latch is set exactly when the last `j` event was a key press. */
  lemma {:induction false} JournalLatch(toggled: bool, es: seq<KeyEvent>, i: int)
    requires 0 <= i < |es| && IsJ(es[i])
    requires forall j :: i < j < |es| ==> !IsJ(es[j])
    ensures ToggledAfter(toggled, es) <==> es[i].KeyDown?
    decreases |es|
  {
    var last := es[|es| - 1];
    if i < |es| - 1 {
      JournalLatch(toggled, es[..|es| - 1], i);
    }
  }

  /** Events other than `j` leave the latch as it was. */
  lemma {:induction false} JournalLatchUntouched(toggled: bool, es: seq<KeyEvent>)
    requires forall j :: 0 <= j < |es| ==> !IsJ(es[j])
    ensures ToggledAfter(toggled, es) == toggled
    decreases |es|
  {
    if es != [] {
      JournalLatchUntouched(toggled, es[..|es| - 1]);
    }
  }

  /** Dividing a unit step on both axes by the square root of 2 gives a unit vector. */
  lemma UnitDiagonal(root2: real, dx: real, dy: real)
    requires root2 > 0.0 && root2 * root2 == 2.0
    requires (dx == 1.0 || dx == -1.0) && (dy == 1.0 || dy == -1.0)
    ensures (dx / root2) * (dx / root2) + (dy / root2) * (dy / root2) == 1.0
  {
    var u := 1.0 / root2;
    assert u * root2 == 1.0;
    assert (u * u) * (root2 * root2) == (u * root2) * (u * root2);
    assert u * u == 0.5;
    assert dx / root2 == dx * u && dy / root2 == dy * u;
    assert (dx * u) * (dx * u) == (dx * dx) * (u * u);
    assert (dy * u) * (dy * u) == (dy * dy) * (u * u);
  }

  class InputHandler {
    var keys: map<string, bool>
    var journalToggled: bool
    /** The square root of 2, the length of a diagonal unit step. */
    const root2: real

    /** Exactly the tracked keys are present, and no arrow entry is ever set. */
    ghost predicate Valid()
      reads this
    {
      && keys.Keys == TRACKED
      && (forall k :: k in ARROW_KEYS ==> !keys[k])
      && root2 > 0.0 && root2 * root2 == 2.0
    }

    constructor (root2: real)
      requires root2 > 0.0 && root2 * root2 == 2.0
      ensures Valid()
      ensures keys == map k | k in TRACKED :: false
      ensures !journalToggled && this.root2 == root2
    {
      keys := map k | k in TRACKED :: false;
      journalToggled := false;
      this.root2 := root2;
    }

    /** `onKeyDown`: sets the tracked entry for the lower-cased key, and latches `j`. */
    method OnKeyDown(key: string)
      requires Valid()
      modifies this`keys, this`journalToggled
      ensures Valid()
      ensures ToLower(key) in TRACKED ==> keys == old(keys)[ToLower(key) := true]
      ensures ToLower(key) !in TRACKED ==> keys == old(keys)
      ensures journalToggled == ToggleStep(old(journalToggled), KeyDown(key))
    {
      var k := ToLower(key);
      ArrowKeysUnreachable(key);

      if k in keys {
        keys := keys[k := true];
      }

      if k == "j" && !journalToggled {
        journalToggled := true;
      }
    }

    /** `onKeyUp`: clears the tracked entry for the lower-cased key, and releases `j`. */
    method OnKeyUp(key: string)
      requires Valid()
      modifies this`keys, this`journalToggled
      ensures Valid()
      ensures ToLower(key) in TRACKED ==> keys == old(keys)[ToLower(key) := false]
      ensures ToLower(key) !in TRACKED ==> keys == old(keys)
      ensures journalToggled == ToggleStep(old(journalToggled), KeyUp(key))
    {
      var k := ToLower(key);

      if k in keys {
        keys := keys[k := false];
      }

      if k == "j" {
        journalToggled := false;
      }
    }

    /**
     * `getMovement`: opposing keys cancel, a single key gives a unit step on
     * its axis, and two axes together give a unit diagonal.
     */
    function GetMovement(): (m: Vec)
      reads this
      requires Valid()
      ensures (keys["w"] == keys["s"]) ==> m.y == 0.0
      ensures (keys["a"] == keys["d"]) ==> m.x == 0.0
      ensures m.y < 0.0 <==> keys["w"] && !keys["s"]
      ensures m.y > 0.0 <==> keys["s"] && !keys["w"]
      ensures m.x < 0.0 <==> keys["a"] && !keys["d"]
      ensures m.x > 0.0 <==> keys["d"] && !keys["a"]
      ensures m.x == 0.0 || m.y == 0.0 ==>
        (m.x == -1.0 || m.x == 0.0 || m.x == 1.0) && (m.y == -1.0 || m.y == 0.0 || m.y == 1.0)
      ensures m.x != 0.0 && m.y != 0.0 ==> m.x * m.x + m.y * m.y == 1.0
    {
      var dy := (if keys["w"] || keys["ArrowUp"] then -1.0 else 0.0)
        + (if keys["s"] || keys["ArrowDown"] then 1.0 else 0.0);
      var dx := (if keys["a"] || keys["ArrowLeft"] then -1.0 else 0.0)
        + (if keys["d"] || keys["ArrowRight"] then 1.0 else 0.0);
      if dx != 0.0 && dy != 0.0 then
        UnitDiagonal(root2, dx, dy);
        DiagonalSigns(root2, dx, dy);
        Vec(dx / root2, dy / root2)
      else
        Vec(dx, dy)
    }

    /** `wasJournalToggled`: reads the latch without releasing it. */
    function WasJournalToggled(): (b: bool)
      reads this
      ensures b == journalToggled
    {
      journalToggled
    }
  }

  lemma DiagonalSigns(root2: real, dx: real, dy: real)
    requires root2 > 0.0
    ensures dx > 0.0 ==> dx / root2 > 0.0
    ensures dx < 0.0 ==> dx / root2 < 0.0
    ensures dy > 0.0 ==> dy / root2 > 0.0
    ensures dy < 0.0 ==> dy / root2 < 0.0
  {
  }
}
