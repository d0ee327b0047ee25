/// Keyboard state: the set of held keys, kept in the order the keys went
/// down (the iteration order of a JavaScript `Set`), and the movement
/// flags read from it.
module Input {
  import opened Players

  /// The keys mapped to each direction.
  const UpKeys: seq<string> := ["w", "W", "ArrowUp"]
  const DownKeys: seq<string> := ["s", "S", "ArrowDown"]
  const LeftKeys: seq<string> := ["a", "A", "ArrowLeft"]
  const RightKeys: seq<string> := ["d", "D", "ArrowRight"]

  /// All twelve game keys, in the order `isGameKey` spreads them.
  const GameKeys: seq<string> := UpKeys + DownKeys + LeftKeys + RightKeys

  /// No key appears twice.
  predicate NoDup<K(==,!new)>(s: seq<K>)
  {
    forall i, j :: 0 <= i < j < |s| ==> s[i] != s[j]
  }

  /// `keys.add(key)`: appended when absent, otherwise no change.
  function Added<K(==,!new)>(s: seq<K>, key: K): (r: seq<K>)
    ensures forall k :: k in r <==> k in s || k == key
    ensures NoDup(s) ==> NoDup(r)
    // a key already held leaves the set as it was
    ensures key in s ==> r == s
    // the keys already held keep their order, in front
    ensures |s| <= |r| && r[..|s|] == s
  {
    if key in s then s else s + [key]
  }

  /// Position of the first occurrence of a held key.
  function IndexOf<K(==,!new)>(s: seq<K>, key: K): (i: nat)
    requires key in s
    ensures i < |s| && s[i] == key && key !in s[..i]
  {
    if s[0] == key then 0
    else
      var j := IndexOf(s[1..], key);
      assert s[..j + 1] == [s[0]] + s[1..][..j];
      j + 1
  }

  /// `keys.delete(key)`: that key gone, every other key kept in order.
  function Removed<K(==,!new)>(s: seq<K>, key: K): (r: seq<K>)
    ensures forall k :: k in r <==> k in s && k != key
    ensures NoDup(s) ==> NoDup(r)
    ensures key !in s ==> r == s
    ensures |r| <= |s|
  {
    if s == [] then []
    else
      var rest := Removed(s[1..], key);
      assert NoDup(s) ==> NoDup(s[1..]) && s[0] !in s[1..];
      if s[0] == key then rest else [s[0]] + rest
  }

  /// Deleting from a concatenation deletes from each part.
  lemma {:induction false} RemovedConcat<K(!new)>(a: seq<K>, b: seq<K>, key: K)
    ensures Removed(a + b, key) == Removed(a, key) + Removed(b, key)
  {
    if a == [] {
      assert a + b == b;
    } else {
      assert (a + b)[1..] == a[1..] + b;
      RemovedConcat(a[1..], b, key);
      if a[0] != key {
        assert [a[0]] + (Removed(a[1..], key) + Removed(b, key)) ==
          ([a[0]] + Removed(a[1..], key)) + Removed(b, key);
      }
    }
  }

  /// A key that sits at position i and nowhere else is cut out there, and the
  /// keys after it close up, in order.
  lemma RemovedAt<K(!new)>(s: seq<K>, key: K, i: nat)
    requires i < |s| && s[i] == key
    requires forall j :: 0 <= j < |s| && j != i ==> s[j] != key
    ensures Removed(s, key) == s[..i] + s[i + 1..]
  {
    var before, after := s[..i], s[i + 1..];
    assert key !in before by {
      forall j | 0 <= j < |before| ensures before[j] != key {
        assert before[j] == s[j];
      }
    }
    assert key !in after by {
      forall j | 0 <= j < |after| ensures after[j] != key {
        assert after[j] == s[i + 1 + j];
      }
    }
    assert s == before + ([key] + after);
    RemovedConcat(before, [key] + after, key);
    RemovedConcat([key], after, key);
    assert Removed([key], key) == [];
  }

  /// A held key of a duplicate-free set is cut out at its position.
  lemma {:induction false} RemovedSplices<K(!new)>(s: seq<K>, key: K)
    requires NoDup(s) && key in s
    ensures Removed(s, key) == s[..IndexOf(s, key)] + s[IndexOf(s, key) + 1..]
  {
    var i := IndexOf(s, key);
    assert forall j :: 0 <= j < |s| && j != i ==> s[j] != key by {
      forall j | 0 <= j < |s| && j != i ensures s[j] != key {
        if j < i { assert s[j] != s[i]; } else if j > i { assert s[i] != s[j]; }
      }
    }
    RemovedAt(s, key, i);
  }

  /// Deleting a key that went down while absent restores the earlier set.
  lemma {:induction false} RemovedUndoesAdded<K(!new)>(s: seq<K>, key: K)
    requires key !in s
    ensures Removed(Added(s, key), key) == s
  {
    if s != [] {
      assert (s + [key])[1..] == s[1..] + [key];
      RemovedUndoesAdded(s[1..], key);
    }
    else {
      assert Removed([key], key) == Removed([], key);
    }
  }

  /// Deleting a held key shortens a duplicate-free set by exactly one.
  lemma {:induction false} RemovedShrinks<K(!new)>(s: seq<K>, key: K)
    requires NoDup(s) && key in s
    ensures |Removed(s, key)| == |s| - 1
  {
    if s[0] != key {
      assert NoDup(s[1..]);
      RemovedShrinks(s[1..], key);
    } else {
      assert key !in s[1..];
    }
  }

  /// `keyArray.some(key => keys.has(key))`, scanning from the front.
  function AnyIn(keyArray: seq<string>, held: seq<string>): (r: bool)
    ensures r <==> exists k :: k in keyArray && k in held
  {
    if keyArray == [] then false
    else keyArray[0] in held || AnyIn(keyArray[1..], held)
  }

  /// The flags `getInputState` reports for a set of held keys.
  function StateOf(held: seq<string>): InputState
  {
    InputState(AnyIn(UpKeys, held), AnyIn(DownKeys, held), AnyIn(LeftKeys, held), AnyIn(RightKeys, held))
  }

  /// Each flag is set exactly when one of its three keys is held.
  lemma StateOfKeys(held: seq<string>)
    ensures StateOf(held).up <==> "w" in held || "W" in held || "ArrowUp" in held
    ensures StateOf(held).down <==> "s" in held || "S" in held || "ArrowDown" in held
    ensures StateOf(held).left <==> "a" in held || "A" in held || "ArrowLeft" in held
    ensures StateOf(held).right <==> "d" in held || "D" in held || "ArrowRight" in held
  {
    assert "w" in UpKeys && "W" in UpKeys && "ArrowUp" in UpKeys;
    assert "s" in DownKeys && "S" in DownKeys && "ArrowDown" in DownKeys;
    assert "a" in LeftKeys && "A" in LeftKeys && "ArrowLeft" in LeftKeys;
    assert "d" in RightKeys && "D" in RightKeys && "ArrowRight" in RightKeys;
  }

  /// `isGameKey(key)`
  predicate IsGameKey(key: string)
  {
    key in GameKeys
  }

  /// There are twelve game keys, all different, and a key is one exactly
  /// when holding it alone sets a movement flag.
  lemma GameKeysMeaning(key: string)
    ensures |GameKeys| == 12 && NoDup(GameKeys)
    ensures IsGameKey(key) <==> StateOf([key]) != NoInput
  {
    StateOfKeys([key]);
  }

  class InputManager {
    var keys: seq<string>

    ghost predicate Valid()
      reads this
    {
      NoDup(keys)
    }

    /// `new InputManager()`: no key held.
    constructor ()
      ensures Valid() && keys == []
    {
      keys := [];
    }

    /// The keydown handler: the key joins the set; the result is whether
    /// the event's default action is suppressed.
    method KeyDown(key: string) returns (preventDefault: bool)
      requires Valid()
      modifies this
      ensures Valid() && keys == Added(old(keys), key)
      ensures preventDefault <==> IsGameKey(key)
    {
      if key !in keys {
        keys := keys + [key];
      }
      preventDefault := IsGameKey(key);
    }

    /// The keyup handler.
    method KeyUp(key: string)
      requires Valid()
      modifies this
      ensures Valid() && keys == Removed(old(keys), key)
    {
      keys := Removed(keys, key);
    }

    /// The blur handler: all keys released.
    method Blur()
      modifies this
      ensures Valid() && keys == []
    {
      keys := [];
    }

    /// `isAnyKeyPressed(keyArray)`
    function IsAnyKeyPressed(keyArray: seq<string>): (r: bool)
      reads this
      ensures r <==> exists k :: k in keyArray && IsKeyPressed(k)
    {
      AnyIn(keyArray, keys)
    }

    /// `getInputState()`
    function GetInputState(): (r: InputState)
      reads this
      ensures r.up <==> IsKeyPressed("w") || IsKeyPressed("W") || IsKeyPressed("ArrowUp")
      ensures r.down <==> IsKeyPressed("s") || IsKeyPressed("S") || IsKeyPressed("ArrowDown")
      ensures r.left <==> IsKeyPressed("a") || IsKeyPressed("A") || IsKeyPressed("ArrowLeft")
      ensures r.right <==> IsKeyPressed("d") || IsKeyPressed("D") || IsKeyPressed("ArrowRight")
    {
      StateOfKeys(keys);
      InputState(IsAnyKeyPressed(UpKeys), IsAnyKeyPressed(DownKeys), IsAnyKeyPressed(LeftKeys), IsAnyKeyPressed(RightKeys))
    }

    /// `isKeyPressed(key)`
    predicate IsKeyPressed(key: string)
      reads this
    {
      key in keys
    }

    /// `getPressedKeys()`: every held key once, in the order they went down.
    method GetPressedKeys() returns (r: seq<string>)
      requires Valid()
      ensures NoDup(r)
      ensures forall k :: k in r <==> IsKeyPressed(k)
      ensures r == keys
    {
      r := keys;
    }
  }

  /// The scenarios of the input unit test.
  method StartsIdle() returns (state: InputState)
    ensures state == NoInput
  {
    var input := new InputManager();
    state := input.GetInputState();
  }

  method WIsUp() returns (state: InputState, suppressed: bool)
    ensures state.up && suppressed
  {
    var input := new InputManager();
    suppressed := input.KeyDown("w");
    state := input.GetInputState();
  }

  method ArrowUpIsUp() returns (state: InputState)
    ensures state.up
  {
    var input := new InputManager();
    var _ := input.KeyDown("ArrowUp");
    state := input.GetInputState();
  }

  method SimultaneousKeys() returns (state: InputState)
    ensures state.up && state.right
  {
    var input := new InputManager();
    var _ := input.KeyDown("w");
    var _ := input.KeyDown("d");
    state := input.GetInputState();
  }

  method SpecificKey() returns (w: bool, x: bool)
    ensures w && !x
  {
    var input := new InputManager();
    var _ := input.KeyDown("w");
    w := input.IsKeyPressed("w");
    x := input.IsKeyPressed("x");
  }
}
