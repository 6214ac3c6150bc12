/**
 * The CHIP-8 keyboard: a 16-entry table from logical keys to scancodes, key
 * queries against a keyboard-state snapshot, and the wait for a key that goes
 * from up to down.
 *
 * The host's keyboard state (one flag per scancode, as SDL_GetKeyboardState
 * returns it) is a `Snapshot` passed in by the caller: `AwaitKeyPress` takes
 * the successive snapshots its polling loop would read.
 */
module Keys {

  datatype Option<T> = None | Some(value: T)

  /** The number of logical CHIP-8 keys. */
  const KeyCount: nat := 16

  /** SDL_NUM_SCANCODES: the host reports one flag per scancode below it. */
  const NumScancodes: nat := 512

  /** A scancode; its meaning is the host's. */
  type Scancode = s: int | 0 <= s < NumScancodes

  /** The host keyboard state at one instant, indexed by scancode. */
  type Snapshot = s: seq<bool> | |s| == NumScancodes witness seq(NumScancodes, _ => false)

  /** Key `k` went from up (in `prev`) to down (in `cur`). */
  predicate RisingEdge(prev: seq<bool>, cur: seq<bool>, k: nat)
    requires k < |prev| && k < |cur|
  {
    cur[k] && !prev[k]
  }

  predicate NoRisingEdge(prev: seq<bool>, cur: seq<bool>)
    requires |prev| == KeyCount && |cur| == KeyCount
  {
    forall k :: 0 <= k < KeyCount ==> !RisingEdge(prev, cur, k)
  }

  /** `k` is the lowest key with a rising edge between `prev` and `cur`. */
  predicate IsLowestRisingEdge(prev: seq<bool>, cur: seq<bool>, k: nat)
    requires |prev| == KeyCount && |cur| == KeyCount
  {
    k < KeyCount && RisingEdge(prev, cur, k) &&
    forall k' :: 0 <= k' < k ==> !RisingEdge(prev, cur, k')
  }

  /** The scan `for k in from..15` of one pair of key states: the first key with a rising edge. */
  function LowestRisingEdgeFrom(prev: seq<bool>, cur: seq<bool>, from: nat): (r: Option<nat>)
    requires |prev| == KeyCount && |cur| == KeyCount && from <= KeyCount
    decreases KeyCount - from
    ensures r.Some? ==> from <= r.value < KeyCount && RisingEdge(prev, cur, r.value)
    ensures r.Some? ==> forall k :: from <= k < r.value ==> !RisingEdge(prev, cur, k)
    ensures r.None? <==> forall k :: from <= k < KeyCount ==> !RisingEdge(prev, cur, k)
  {
    if from == KeyCount then None
    else if RisingEdge(prev, cur, from) then Some(from)
    else LowestRisingEdgeFrom(prev, cur, from + 1)
  }

  function LowestRisingEdge(prev: seq<bool>, cur: seq<bool>): Option<nat>
    requires |prev| == KeyCount && |cur| == KeyCount
  {
    LowestRisingEdgeFrom(prev, cur, 0)
  }

  predicate AllKeyStates(states: seq<seq<bool>>)
  {
    forall j :: 0 <= j < |states| ==> |states[j]| == KeyCount
  }

  /**
   * The outer polling loop over successive 16-key states, `states[0]` being
   * the state read before the loop: the lowest rising edge of the first pair
   * that has one; a pair without one makes its second state the new previous
   * state. `None` when no pair has a rising edge (the loop would go on polling).
   */
  function FirstPress(states: seq<seq<bool>>): (r: Option<nat>)
    requires AllKeyStates(states)
    decreases |states|
    ensures r.Some? ==> r.value < KeyCount
  {
    if |states| < 2 then None
    else
      match LowestRisingEdge(states[0], states[1])
      case Some(k) => Some(k)
      case None => FirstPress(states[1..])
  }

  /** Key `k` is what the wait reports, from the pair `states[j - 1]`, `states[j]`. */
  ghost predicate ReportedAt(states: seq<seq<bool>>, j: nat, k: nat)
    requires AllKeyStates(states)
  {
    1 <= j < |states| &&
    (forall i :: 1 <= i < j ==> NoRisingEdge(states[i - 1], states[i])) &&
    IsLowestRisingEdge(states[j - 1], states[j], k)
  }

  lemma LowestRisingEdgeIsLowest(prev: seq<bool>, cur: seq<bool>, k: nat)
    requires |prev| == KeyCount && |cur| == KeyCount
    ensures LowestRisingEdge(prev, cur) == Some(k) <==> IsLowestRisingEdge(prev, cur, k)
    ensures LowestRisingEdge(prev, cur) == None <==> NoRisingEdge(prev, cur)
  {
  }

  /**
   * What the wait reports, both ways: it reports `k` exactly when `k` is the
   * lowest rising edge of the first pair that has any, and reports nothing
   * exactly when no pair has a rising edge.
   */
  lemma {:induction false} FirstPressIsFirstLowestEdge(states: seq<seq<bool>>, k: nat)
    requires AllKeyStates(states)
    ensures FirstPress(states) == Some(k) <==> exists j :: ReportedAt(states, j, k)
    ensures FirstPress(states) == None <==> forall j :: 1 <= j < |states| ==> NoRisingEdge(states[j - 1], states[j])
  {
    if |states| >= 2 {
      var tail := states[1..];
      FirstPressIsFirstLowestEdge(tail, k);
      LowestRisingEdgeIsLowest(states[0], states[1], k);
      assert forall j :: 1 <= j < |tail| ==> tail[j - 1] == states[j] && tail[j] == states[j + 1];
      if LowestRisingEdge(states[0], states[1]).Some? {
        assert !NoRisingEdge(states[0], states[1]);
        if FirstPress(states) == Some(k) {
          assert ReportedAt(states, 1, k);
        }
      } else {
        if FirstPress(states) == Some(k) {
          var j: nat :| ReportedAt(tail, j, k);
          assert ReportedAt(states, j + 1, k);
        } else {
          forall j: nat | ReportedAt(states, j, k) ensures false {
            assert j != 1;
            assert ReportedAt(tail, j - 1, k);
          }
        }
        if FirstPress(states) != None {
          var j :| 1 <= j < |tail| && !NoRisingEdge(tail[j - 1], tail[j]);
          assert !NoRisingEdge(states[j], states[j + 1]);
        }
      }
    }
  }

  /** A key that is down in every state, the first one included, is never reported. */
  lemma {:induction false} HeldKeyNeverReported(states: seq<seq<bool>>, k: nat)
    requires AllKeyStates(states) && k < KeyCount
    requires forall j :: 0 <= j < |states| ==> states[j][k]
    ensures FirstPress(states) != Some(k)
  {
    if |states| >= 2 && LowestRisingEdge(states[0], states[1]).None? {
      HeldKeyNeverReported(states[1..], k);
    }
  }

  /**
   * When every state is the same, as when the host's key state is never
   * refreshed between reads, the wait reports nothing.
   */
  lemma UnchangingStatesReportNothing(states: seq<seq<bool>>)
    requires AllKeyStates(states)
    requires forall j :: 0 <= j < |states| ==> states[j] == states[0]
    ensures FirstPress(states) == None
  {
    FirstPressIsFirstLowestEdge(states, 0);
  }

  /** The 16-key state SDL would give through `keyMap`: entry `i` is the host flag of scancode `keyMap[i]`. */
  function KeyStateOf(keyMap: seq<Scancode>, snap: Snapshot): seq<bool>
  {
    seq(|keyMap|, i requires 0 <= i < |keyMap| => snap[keyMap[i]])
  }

  function KeyStatesOf(keyMap: seq<Scancode>, snaps: seq<Snapshot>): seq<seq<bool>>
  {
    seq(|snaps|, j requires 0 <= j < |snaps| => KeyStateOf(keyMap, snaps[j]))
  }

  /** Remapping logical key `c` to scancode `s` changes what key `c` reads, to the flag of `s`, and no other key. */
  lemma RemapRedirectsOneKey(keyMap: seq<Scancode>, c: nat, s: Scancode, snap: Snapshot)
    requires c < |keyMap|
    ensures KeyStateOf(keyMap[c := s], snap) == KeyStateOf(keyMap, snap)[c := snap[s]]
  {
  }

  class Keyboard {
    /** `key_map[c]` is the scancode of logical key `c`. */
    var keyMap: array<Scancode>

    ghost predicate Valid()
      reads this
    {
      keyMap.Length == KeyCount
    }

    /** The default table of scancodes is given by the caller. */
    constructor (defaults: seq<Scancode>)
      requires |defaults| == KeyCount
      ensures Valid() && fresh(keyMap) && keyMap[..] == defaults
    {
      keyMap := new Scancode[KeyCount](i requires 0 <= i < KeyCount => defaults[i]);
    }

    /** The reference query: the host flag of the scancode that `key` maps to. */
    function IsKeyDown(key: nat, snap: Snapshot): (down: bool)
      reads this, keyMap
      requires Valid() && key < KeyCount
      ensures down == KeyStateOf(keyMap[..], snap)[key]
    {
      snap[keyMap[key]]
    }

    function IsKeyUp(key: nat, snap: Snapshot): (up: bool)
      reads this, keyMap
      requires Valid() && key < KeyCount
      ensures up == !IsKeyDown(key, snap)
    {
      !snap[keyMap[key]]
    }

    /** The 16 key states of one snapshot. */
    method GetKeyState(snap: Snapshot) returns (state: seq<bool>)
      requires Valid()
      ensures |state| == KeyCount
      ensures forall i :: 0 <= i < KeyCount ==> state[i] == IsKeyDown(i, snap)
      ensures state == KeyStateOf(keyMap[..], snap)
    {
      var keyState := new bool[KeyCount];
      for i := 0 to KeyCount
        invariant forall j :: 0 <= j < i ==> keyState[j] == IsKeyDown(j, snap)
      {
        keyState[i] := IsKeyDown(i, snap);
      }
      state := keyState[..];
    }

    /**
     * Reads the key state of `snaps[0]`, then of each later snapshot in turn,
     * returning the lowest key that is down now and was up in the previous
     * state; when none is, the current state becomes the previous one.
     * `None` means the snapshots ran out while still waiting.
     */
    method AwaitKeyPress(snaps: seq<Snapshot>) returns (key: Option<nat>)
      requires Valid()
      ensures key.Some? ==> key.value < KeyCount
      ensures key == FirstPress(KeyStatesOf(keyMap[..], snaps))
    {
      ghost var states := KeyStatesOf(keyMap[..], snaps);
      if |snaps| == 0 {
        return None;
      }
      var prevKeyState := GetKeyState(snaps[0]);
      var n := 1;
      while n < |snaps|
        invariant 1 <= n <= |snaps|
        invariant prevKeyState == states[n - 1]
        invariant FirstPress(states) == FirstPress(states[n - 1..])
      {
        var keyState := GetKeyState(snaps[n]);
        assert states[n - 1..][1..] == states[n..];
        for k := 0 to KeyCount
          invariant LowestRisingEdge(prevKeyState, keyState) == LowestRisingEdgeFrom(prevKeyState, keyState, k)
        {
          if keyState[k] && !prevKeyState[k] {
            return Some(k);
          }
        }
        prevKeyState := keyState;
        n := n + 1;
      }
      return None;
    }

    /** Points logical key `chipKey` at scancode `key`; the other 15 entries keep theirs. */
    method RemapKey(chipKey: nat, key: Scancode)
      requires Valid() && chipKey < KeyCount
      modifies keyMap
      ensures Valid()
      ensures keyMap[..] == old(keyMap[..])[chipKey := key]
    {
      keyMap[chipKey] := key;
    }
  }
}
