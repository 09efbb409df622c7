/** Machine integers, failure-carrying results and checked arithmetic shared by every component.
    The bounds are written out because several properties are about arithmetic that must not
    overflow. */
module Basics {
  const U16_MAX := 0xFFFF
  const I32_MAX := 0x7FFF_FFFF
  const U32_MAX := 0xFFFF_FFFF
  const I64_MAX := 0x7FFF_FFFF_FFFF_FFFF
  const U64_MAX := 0xFFFF_FFFF_FFFF_FFFF

  type byte = x: int | 0 <= x < 0x100
  type u8 = x: int | 0 <= x < 0x100
  type u16 = x: int | 0 <= x < 0x1_0000
  type u32 = x: int | 0 <= x < 0x1_0000_0000
  type i32 = x: int | -0x8000_0000 <= x < 0x8000_0000
  type u64 = x: int | 0 <= x < 0x1_0000_0000_0000_0000
  type i64 = x: int | -0x8000_0000_0000_0000 <= x < 0x8000_0000_0000_0000

  datatype Option<+T> = None | Some(value: T)

  datatype Result<+T, +E> = Ok(value: T) | Err(error: E)

  /** `u64::checked_add`. */
  function CheckedAdd(a: nat, b: nat): Option<nat> {
    if a + b <= U64_MAX then Some(a + b) else None
  }

  /** `u64::checked_mul`. */
  function CheckedMul(a: nat, b: nat): Option<nat> {
    if a * b <= U64_MAX then Some(a * b) else None
  }

  function Min(a: int, b: int): int {
    if a < b then a else b
  }

  function Max(a: int, b: int): int {
    if a < b then b else a
  }

  /** `i64::clamp`. */
  function Clamp(value: int, low: int, high: int): int
    requires low <= high
  {
    if value < low then low else if value > high then high else value
  }

  ghost predicate NoDuplicates<T>(s: seq<T>) {
    forall i, j :: 0 <= i < j < |s| ==> s[i] != s[j]
  }

  lemma MulMonotone(a: nat, b: nat, c: nat)
    requires a <= b
    ensures a * c <= b * c
  {
  }

  /** A lock for predicates that long proofs pass along without looking inside. Such a predicate is
      guarded by `Opened`, which is always true; a proof that needs what is inside says `Unlock`. */
  datatype Key = Key

  predicate Opened(key: Key) {
    true
  }

  lemma Unlock()
    ensures Opened(Key)
  {
  }

  /** A run: states that are all good, each reached from the one before by a step. */
  ghost predicate Chain<W, S>(states: seq<W>, steps: seq<S>, good: W -> bool, goes: (W, S, W) -> bool) {
    && |states| == |steps| + 1
    && (forall i | 0 <= i < |states| :: good(states[i]))
    && (forall i | 0 <= i < |steps| :: goes(states[i], steps[i], states[i + 1]))
  }

  lemma ChainOne<W, S>(states: seq<W>, steps: seq<S>, good: W -> bool, goes: (W, S, W) -> bool, next: W, step: S)
    requires Chain(states, steps, good, goes) && good(next) && goes(states[|steps|], step, next)
    ensures Chain(states + [next], steps + [step], good, goes)
  {
    var more, further := states + [next], steps + [step];
    forall i | 0 <= i < |further| ensures goes(more[i], further[i], more[i + 1]) {
      if i < |steps| {
        assert more[i] == states[i] && more[i + 1] == states[i + 1] && further[i] == steps[i];
      }
    }
  }

  /** What holds at first, and after every step where it held before it, holds throughout a run. */
  lemma {:induction false} ChainKeeps<W, S>(states: seq<W>, steps: seq<S>, good: W -> bool, goes: (W, S, W) -> bool,
                                            kept: W -> bool, i: nat)
    requires Chain(states, steps, good, goes) && i <= |steps| && kept(states[0])
    requires forall w, s, v | good(w) && kept(w) && goes(w, s, v) :: kept(v)
    ensures kept(states[i])
  {
    if i > 0 {
      ChainKeeps(states, steps, good, goes, kept, i - 1);
      assert good(states[i - 1]) && goes(states[i - 1], steps[i - 1], states[i - 1 + 1]);
    }
  }

  /** A subset has no more elements. */
  lemma {:induction false} FewerElements<T>(a: set<T>, b: set<T>)
    requires b <= a
    ensures |b| <= |a|
  {
    if b != {} {
      var x :| x in b;
      FewerElements(a - {x}, b - {x});
    }
  }
}
