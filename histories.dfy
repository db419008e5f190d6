/**
 * Episode recorders.
 *
 * History is the four parallel append-only lists of the config and
 * experiment generations (Vec in Rust, slices in Go, lists in Python, arrays
 * in Ruby). Buffer is C_GCC's growable array of entries with its explicit
 * length and capacity. FixedHistory is the first generation's three arrays
 * of exactly steps_num slots.
 */
module Histories {

  /** One recorded step: action, reward, state index and the environment's info string. */
  datatype Entry = Entry(action: nat, reward: real, state: nat, info: string)

  class History {
    var actions: seq<nat>
    var rewards: seq<real>
    var states: seq<nat>
    var info: seq<string>

    /** The four lists have one element per push. */
    ghost predicate Valid()
      reads this
    {
      |rewards| == |actions| && |states| == |actions| && |info| == |actions|
    }

    function Length(): nat
      reads this
    {
      |actions|
    }

    /** The entries in push order. */
    ghost function Entries(): (es: seq<Entry>)
      reads this
      requires Valid()
      ensures |es| == Length()
    {
      var a, r, s, f := actions, rewards, states, info;
      seq(|a|, i requires 0 <= i < |a| && i < |r| && i < |s| && i < |f| => Entry(a[i], r[i], s[i], f[i]))
    }

    constructor ()
      ensures Valid() && Length() == 0
      ensures actions == [] && rewards == [] && states == [] && info == []
    {
      actions := [];
      rewards := [];
      states := [];
      info := [];
    }

    /**
     * `push(a, r, s, info)`: one element at the end of each list. rust/src's
     * `push` and python3's `append` take the arguments in the order
     * (a, s, r, info); the stored lists are the same.
     */
    method Push(a: nat, r: real, s: nat, inf: string)
      requires Valid()
      modifies this
      ensures Valid() && Length() == old(Length()) + 1
      ensures actions == old(actions) + [a] && rewards == old(rewards) + [r]
      ensures states == old(states) + [s] && info == old(info) + [inf]
      ensures Entries() == old(Entries()) + [Entry(a, r, s, inf)]
    {
      actions := actions + [a];
      rewards := rewards + [r];
      states := states + [s];
      info := info + [inf];
    }
  }

  /** n is 1, 2, 4, 8, ... */
  ghost predicate IsPowerOfTwo(n: nat)
    decreases n
  {
    n == 1 || (n >= 2 && n % 2 == 0 && IsPowerOfTwo(n / 2))
  }

  /** The capacity of a C_GCC history after n pushes into a new one. */
  ghost function CapacityAfter(n: nat): nat
  {
    if n == 0 then 1
    else
      var c := CapacityAfter(n - 1);
      if n - 1 == c then 2 * c else c
  }

  /** After n >= 1 pushes the capacity is the least power of two that holds n entries. */
  lemma {:induction false} CapacityAfterBounds(n: nat)
    ensures IsPowerOfTwo(CapacityAfter(n))
    ensures n <= CapacityAfter(n)
    ensures n >= 1 ==> CapacityAfter(n) < 2 * n
  {
    if n > 0 {
      CapacityAfterBounds(n - 1);
      var c := CapacityAfter(n - 1);
      if n - 1 == c {
        assert (2 * c) / 2 == c;
      }
    }
  }

  const Unused: Entry := Entry(0, 0.0, 0, "")

  /**
   * C_GCC's `history_t`: `entries` holds `capacity` slots of which the first
   * `length` are in use. The malloc and realloc failure paths are not
   * modelled: every push succeeds.
   */
  class Buffer {
    var entries: array<Entry>
    var length: nat
    var capacity: nat
    ghost var Contents: seq<Entry>

    ghost predicate Valid()
      reads this, entries
    {
      entries.Length == capacity && length <= capacity && IsPowerOfTwo(capacity)
      && capacity == CapacityAfter(length)
      && Contents == entries[..length]
    }

    /** `new_history`: length 0, capacity 1. */
    constructor ()
      ensures Valid() && fresh(entries)
      ensures length == 0 && capacity == 1 && Contents == []
    {
      entries := new Entry[1](_ => Unused);
      length := 0;
      capacity := 1;
      Contents := [];
    }

    /**
     * `history_push`: on a full buffer the capacity doubles and the entries
     * are copied into the larger array, as realloc does; the new entry goes
     * at index length.
     */
    method Push(a: nat, r: real, s: nat, info: string)
      requires Valid()
      modifies this, entries
      ensures Valid()
      ensures Contents == old(Contents) + [Entry(a, r, s, info)]
      ensures length == old(length) + 1
      ensures capacity == if old(length) == old(capacity) then 2 * old(capacity) else old(capacity)
      ensures old(length) == old(capacity) ==> fresh(entries)
      ensures old(length) != old(capacity) ==> entries == old(entries)
    {
      if length == capacity {
        var bigger := new Entry[2 * capacity](_ => Unused);
        var i := 0;
        while i < length
          invariant 0 <= i <= length
          invariant bigger[..i] == entries[..i]
          modifies bigger
        {
          bigger[i] := entries[i];
          i := i + 1;
        }
        assert (2 * capacity) / 2 == capacity;
        entries := bigger;
        capacity := 2 * capacity;
      }
      entries[length] := Entry(a, r, s, info);
      length := length + 1;
      Contents := Contents + [Entry(a, r, s, info)];
    }
  }

  /**
   * The first generation's history: `steps_num` slots each for states,
   * actions and rewards, filled by index. Unwritten slots hold defaults (NULL,
   * None or nil in the source).
   */
  class FixedHistory {
    const states: array<seq<real>>
    const actions: array<real>
    const rewards: array<real>
    const stepsNum: nat

    ghost predicate Valid()
      reads this
    {
      states.Length == stepsNum && actions.Length == stepsNum && rewards.Length == stepsNum
      && states != actions as object && actions != rewards && states != rewards as object
    }

    /** `new_history(steps_num)` / `NewHistory` / `History.new`: three arrays of exactly stepsNum slots. */
    constructor (stepsNum: nat)
      ensures Valid() && this.stepsNum == stepsNum
      ensures fresh(states) && fresh(actions) && fresh(rewards)
    {
      this.stepsNum := stepsNum;
      states := new seq<real>[stepsNum](_ => []);
      actions := new real[stepsNum](_ => 0.0);
      rewards := new real[stepsNum](_ => 0.0);
    }
  }
}
