/**
  The WASD driving pad of the dashboard (dashboard/src/components/ControlCluster.jsx):
  the set of held keys, and the `onDrive`/`onStop` calls each keyboard or
  mouse event makes. Each state update is applied at once; React's batching
  of `setActiveKeys` is not modelled.
*/
module ControlCluster {
  import opened JsText

  const DRIVE_KEYS: set<string> := {"w", "a", "s", "d"}

  /** The four pad buttons (the two empty grid cells have no handlers). */
  datatype Button = W | A | S | D

  function ButtonKey(b: Button): string {
    match b
    case W => "w"
    case A => "a"
    case S => "s"
    case D => "d"
  }

  function ButtonLabel(b: Button): string {
    match b
    case W => "W"
    case A => "A"
    case S => "S"
    case D => "D"
  }

  /** A call of one of the two callbacks the parent passed in. */
  datatype Callback = Drive(direction: string) | Stop

  /** `["w", "a", "s", "d"].includes(e.key.toLowerCase())`. */
  predicate IsDriveKey(key: string) {
    ToLower(key) in DRIVE_KEYS
  }

  /**
    Exactly the eight one-letter keys w, a, s, d and W, A, S, D drive, and the
    label sent for each is the upper-case letter of its pad button.
  */
  lemma DriveKeys(key: string)
    ensures IsDriveKey(key) <==> key in {"w", "a", "s", "d", "W", "A", "S", "D"}
    ensures IsDriveKey(key) ==>
      exists b :: ButtonKey(b) == ToLower(key) && ButtonLabel(b) == ToUpper(ToLower(key))
  {
    if |key| == 1 {
      var c := key[0];
      assert key == [c];
      assert ToLower(key) == [LowerChar(c)];
      if IsDriveKey(key) {
        var k := ToLower(key);
        assert ToUpper(k) == [UpperChar(k[0])];
        if k == "w" { assert ButtonKey(W) == k && ButtonLabel(W) == ToUpper(k); }
        else if k == "a" { assert ButtonKey(A) == k && ButtonLabel(A) == ToUpper(k); }
        else if k == "s" { assert ButtonKey(S) == k && ButtonLabel(S) == ToUpper(k); }
        else { assert ButtonKey(D) == k && ButtonLabel(D) == ToUpper(k); }
      }
    } else {
      assert forall x :: x in DRIVE_KEYS ==> |x| == 1;
      assert |ToLower(key)| != 1;
    }
  }

  /** Every button's key is a drive key and its label is that key in upper case. */
  lemma ButtonsMatchKeys(b: Button)
    ensures ButtonKey(b) in DRIVE_KEYS
    ensures IsDriveKey(ButtonLabel(b)) && ToLower(ButtonLabel(b)) == ButtonKey(b)
    ensures ToUpper(ButtonKey(b)) == ButtonLabel(b)
  {
    var k := ButtonKey(b);
    var l := ButtonLabel(b);
    assert ToLower(l) == [LowerChar(l[0])];
    assert ToUpper(k) == [UpperChar(k[0])];
  }

  class Cluster {
    /** `activeKeys`: the keys drawn as held. */
    var activeKeys: set<string>
    /** Calls of `onDrive`/`onStop`, oldest first. */
    var callbacks: seq<Callback>

    predicate Valid()
      reads this
    {
      activeKeys <= DRIVE_KEYS
    }

    constructor ()
      ensures Valid() && activeKeys == {} && callbacks == []
    {
      activeKeys, callbacks := {}, [];
    }

    /** `handleKeyDown`: a held key is added again (no change) but still drives again. */
    method KeyDown(key: string)
      requires Valid()
      modifies this
      ensures Valid()
      ensures IsDriveKey(key) ==>
        activeKeys == old(activeKeys) + {ToLower(key)}
        && callbacks == old(callbacks) + [Drive(ToUpper(ToLower(key)))]
      ensures !IsDriveKey(key) ==> activeKeys == old(activeKeys) && callbacks == old(callbacks)
    {
      var k := ToLower(key);
      if k in DRIVE_KEYS {
        activeKeys := activeKeys + {k};
        callbacks := callbacks + [Drive(ToUpper(k))];
      }
    }

    /** `handleKeyUp`: removes only that key and always stops, whatever else is held. */
    method KeyUp(key: string)
      requires Valid()
      modifies this
      ensures Valid()
      ensures IsDriveKey(key) ==>
        activeKeys == old(activeKeys) - {ToLower(key)} && callbacks == old(callbacks) + [Stop]
      ensures !IsDriveKey(key) ==> activeKeys == old(activeKeys) && callbacks == old(callbacks)
    {
      var k := ToLower(key);
      if k in DRIVE_KEYS {
        activeKeys := activeKeys - {k};
        callbacks := callbacks + [Stop];
      }
    }

    /** Pressing a pad button. */
    method MouseDown(b: Button)
      requires Valid()
      modifies this
      ensures Valid()
      ensures activeKeys == old(activeKeys) + {ButtonKey(b)}
      ensures callbacks == old(callbacks) + [Drive(ButtonLabel(b))]
    {
      activeKeys := activeKeys + {ButtonKey(b)};
      callbacks := callbacks + [Drive(ButtonLabel(b))];
    }

    /** Releasing a pad button stops even when its key was not held. */
    method MouseUp(b: Button)
      requires Valid()
      modifies this
      ensures Valid()
      ensures activeKeys == old(activeKeys) - {ButtonKey(b)}
      ensures callbacks == old(callbacks) + [Stop]
    {
      activeKeys := activeKeys - {ButtonKey(b)};
      callbacks := callbacks + [Stop];
    }

    /** Leaving a pad button stops only if its key is held. */
    method MouseLeave(b: Button)
      requires Valid()
      modifies this
      ensures Valid()
      ensures ButtonKey(b) in old(activeKeys) ==>
        activeKeys == old(activeKeys) - {ButtonKey(b)} && callbacks == old(callbacks) + [Stop]
      ensures ButtonKey(b) !in old(activeKeys) ==> unchanged(this)
    {
      if ButtonKey(b) in activeKeys {
        activeKeys := activeKeys - {ButtonKey(b)};
        callbacks := callbacks + [Stop];
      }
    }
  }
}
