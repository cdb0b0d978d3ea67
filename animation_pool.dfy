/** The bounded pool of running highlight animations of the meridian map:
    the interval tick that spawns one, the completion handler that retires
    one, and the per-layer colour and opacity of the highlights. */
module AnimationPool {
  import opened MeridianPaths
  import FlowLine

  const MaxAnimatedLines: nat := 6

  /** One running highlight: the line it travels along, that line's layer
      and the instance key (`Date.now() + Math.random()` in the source). */
  datatype AnimatedLine = AnimatedLine(line: Line, layer: string, animationKey: real)

  predicate HasKey(pool: seq<AnimatedLine>, key: real)
  {
    exists i :: 0 <= i < |pool| && pool[i].animationKey == key
  }

  /** No two running animations share a key. */
  predicate UniqueKeys(pool: seq<AnimatedLine>)
  {
    forall i, j :: 0 <= i < j < |pool| ==> pool[i].animationKey != pool[j].animationKey
  }

  // ---------------------------------------------------------------------------
  // Tick

  /** `Math.floor(r * n)`: the index the tick picks with draw `r`. */
  function RandomIndex(r: real, n: nat): (i: nat)
    requires IsDraw(r) && n > 0
    ensures i < n
  {
    assert 0.0 <= r * n as real < 1.0 * n as real;
    (r * n as real).Floor
  }

  /** The state updater passed to `setAnimatedLines` by the tick: a full pool
      is returned as it is, otherwise the new entry goes at the end. */
  function TickUpdate(prev: seq<AnimatedLine>, newAnimatedLine: AnimatedLine): (next: seq<AnimatedLine>)
    ensures |prev| <= |next| <= |prev| + 1
    ensures next[..|prev|] == prev
    ensures |next| == |prev| + 1 <==> |prev| < MaxAnimatedLines
    ensures |next| > |prev| ==> next[|prev|] == newAnimatedLine
    ensures |prev| <= MaxAnimatedLines ==> |next| <= MaxAnimatedLines
  {
    if |prev| >= MaxAnimatedLines then prev else prev + [newAnimatedLine]
  }

  /** One interval tick: pick line `floor(r * |allLinesFlat|)` and offer it to
      the pool under the fresh `key`. */
  function Tick(prev: seq<AnimatedLine>, allLinesFlat: seq<FlatLine>, r: real, key: real): seq<AnimatedLine>
    requires IsDraw(r) && |allLinesFlat| > 0
  {
    var lineToAnimate := allLinesFlat[RandomIndex(r, |allLinesFlat|)];
    TickUpdate(prev, AnimatedLine(lineToAnimate.line, lineToAnimate.layer, key))
  }

  /** A tick never removes, keeps the pool within capacity, and keeps keys
      unique when the new key is fresh; the entry it adds is a line of the field. */
  lemma TickKeepsInvariant(prev: seq<AnimatedLine>, allLinesFlat: seq<FlatLine>, r: real, key: real)
    requires IsDraw(r) && |allLinesFlat| > 0
    requires |prev| <= MaxAnimatedLines && UniqueKeys(prev) && !HasKey(prev, key)
    ensures var next := Tick(prev, allLinesFlat, r, key);
      |prev| <= |next| <= MaxAnimatedLines && next[..|prev|] == prev && UniqueKeys(next) &&
      (|next| > |prev| ==>
         next[|prev|].animationKey == key &&
         FlatLine(next[|prev|].line, next[|prev|].layer) in allLinesFlat)
  {
    var next := Tick(prev, allLinesFlat, r, key);
    if |next| > |prev| {
      assert next == prev + [next[|prev|]];
      forall i, j | 0 <= i < j < |next|
        ensures next[i].animationKey != next[j].animationKey
      {
        if j == |prev| {
          assert next[i] == prev[i];
        }
      }
    }
  }

  // ---------------------------------------------------------------------------
  // Completion

  /** The updater of `handleAnimationComplete`: `prev.filter(item =>
      item.animationKey !== keyToRemove)`. */
  function RemoveKey(prev: seq<AnimatedLine>, keyToRemove: real): (next: seq<AnimatedLine>)
    ensures |next| <= |prev|
    ensures !HasKey(next, keyToRemove)
  {
    if prev == [] then []
    else
      var rest := RemoveKey(prev[1..], keyToRemove);
      if prev[0].animationKey != keyToRemove then [prev[0]] + rest else rest
  }

  /** The filter keeps exactly the entries whose key differs. */
  lemma {:induction false} RemoveKeyMembers(prev: seq<AnimatedLine>, keyToRemove: real)
    ensures forall e :: e in RemoveKey(prev, keyToRemove) <==> e in prev && e.animationKey != keyToRemove
  {
    if prev != [] {
      RemoveKeyMembers(prev[1..], keyToRemove);
      assert forall e :: e in prev <==> e == prev[0] || e in prev[1..];
    }
  }

  /** The filter keeps the keys of the remaining entries distinct. */
  lemma {:induction false} RemoveKeyKeepsUniqueKeys(prev: seq<AnimatedLine>, keyToRemove: real)
    requires UniqueKeys(prev)
    ensures UniqueKeys(RemoveKey(prev, keyToRemove))
  {
    if prev != [] {
      var tail := prev[1..];
      assert UniqueKeys(tail) by {
        forall i, j | 0 <= i < j < |tail|
          ensures tail[i].animationKey != tail[j].animationKey
        {
          assert tail[i] == prev[i + 1] && tail[j] == prev[j + 1];
        }
      }
      RemoveKeyKeepsUniqueKeys(tail, keyToRemove);
      var rest := RemoveKey(tail, keyToRemove);
      if prev[0].animationKey != keyToRemove {
        RemoveKeyMembers(tail, keyToRemove);
        var next := [prev[0]] + rest;
        forall i, j | 0 <= i < j < |next|
          ensures next[i].animationKey != next[j].animationKey
        {
          if i == 0 {
            assert next[j] == rest[j - 1];
            assert rest[j - 1] in tail;
          } else {
            assert next[i] == rest[i - 1] && next[j] == rest[j - 1];
          }
        }
      }
    }
  }

  /** Removing a key that is not in the pool changes nothing. */
  lemma {:induction false} RemoveAbsentKey(prev: seq<AnimatedLine>, key: real)
    requires !HasKey(prev, key)
    ensures RemoveKey(prev, key) == prev
  {
    if prev != [] {
      assert !HasKey(prev[1..], key) by {
        forall i | 0 <= i < |prev[1..]| ensures prev[1..][i].animationKey != key {
          assert prev[1..][i] == prev[i + 1];
        }
      }
      RemoveAbsentKey(prev[1..], key);
    }
  }

  /** A second completion for the same key is a no-op. */
  lemma RemoveKeyIdempotent(prev: seq<AnimatedLine>, key: real)
    ensures RemoveKey(RemoveKey(prev, key), key) == RemoveKey(prev, key)
  {
    RemoveAbsentKey(RemoveKey(prev, key), key);
  }

  lemma RemoveKeyCons(head: AnimatedLine, tail: seq<AnimatedLine>, key: real)
    ensures RemoveKey([head] + tail, key) ==
      if head.animationKey != key then [head] + RemoveKey(tail, key) else RemoveKey(tail, key)
  {
    assert ([head] + tail)[1..] == tail;
  }

  lemma {:induction false} RemoveKeyAppend(a: seq<AnimatedLine>, b: seq<AnimatedLine>, key: real)
    ensures RemoveKey(a + b, key) == RemoveKey(a, key) + RemoveKey(b, key)
  {
    if a != [] {
      var head, tail := a[0], a[1..];
      assert a == [head] + tail;
      assert a + b == [head] + (tail + b);
      RemoveKeyAppend(tail, b, key);
      RemoveKeyCons(head, tail + b, key);
      RemoveKeyCons(head, tail, key);
    } else {
      assert a + b == b;
    }
  }

  /** With unique keys, the key of entry `i` occurs nowhere before or after it. */
  lemma KeyOnlyAt(prev: seq<AnimatedLine>, i: nat)
    requires UniqueKeys(prev) && i < |prev|
    ensures !HasKey(prev[..i], prev[i].animationKey)
    ensures !HasKey(prev[i + 1..], prev[i].animationKey)
  {
    var key := prev[i].animationKey;
    var before, after := prev[..i], prev[i + 1..];
    forall t | 0 <= t < |before| ensures before[t].animationKey != key {
      assert before[t] == prev[t];
    }
    forall t | 0 <= t < |after| ensures after[t].animationKey != key {
      assert after[t] == prev[i + 1 + t];
    }
  }

  /** Removing the key of entry `i`, when that key occurs nowhere else,
      removes just that entry. */
  lemma RemoveKeySplit(prev: seq<AnimatedLine>, i: nat)
    requires i < |prev|
    requires !HasKey(prev[..i], prev[i].animationKey) && !HasKey(prev[i + 1..], prev[i].animationKey)
    ensures RemoveKey(prev, prev[i].animationKey) == prev[..i] + prev[i + 1..]
  {
    var key := prev[i].animationKey;
    var before, rest, after := prev[..i], prev[i..], prev[i + 1..];
    assert prev == before + rest;
    assert rest == [prev[i]] + after;
    RemoveKeyCons(prev[i], after, key);
    RemoveAbsentKey(after, key);
    RemoveAbsentKey(before, key);
    RemoveKeyAppend(before, rest, key);
  }

  /** With unique keys, completing the key of entry `i` removes exactly that
      entry and keeps every other one, in order. */
  lemma RemoveKeyRemovesOne(prev: seq<AnimatedLine>, i: nat)
    requires UniqueKeys(prev) && i < |prev|
    ensures RemoveKey(prev, prev[i].animationKey) == prev[..i] + prev[i + 1..]
  {
    KeyOnlyAt(prev, i);
    RemoveKeySplit(prev, i);
  }

  /** Completions commute: the pool does not depend on the order in which two
      animations finish. */
  lemma {:induction false} RemoveKeyCommutes(prev: seq<AnimatedLine>, a: real, b: real)
    ensures RemoveKey(RemoveKey(prev, a), b) == RemoveKey(RemoveKey(prev, b), a)
  {
    if prev != [] {
      var head, tail := prev[0], prev[1..];
      assert prev == [head] + tail;
      RemoveKeyCommutes(tail, a, b);
      RemoveKeyCons(head, tail, a);
      RemoveKeyCons(head, tail, b);
      RemoveKeyCons(head, RemoveKey(tail, a), b);
      RemoveKeyCons(head, RemoveKey(tail, b), a);
    }
  }

  // ---------------------------------------------------------------------------
  // The component state

  /** The `animatedLines` state of the meridian map component, updated by the
      1200 ms interval and by the completion callback. */
  class MeridianMap {
    const allLinesFlat: seq<FlatLine>
    var animatedLines: seq<AnimatedLine>

    ghost predicate Valid()
      reads this
    {
      |allLinesFlat| > 0 && |animatedLines| <= MaxAnimatedLines && UniqueKeys(animatedLines)
    }

    constructor (allLinesFlat: seq<FlatLine>)
      requires |allLinesFlat| > 0
      ensures Valid() && this.allLinesFlat == allLinesFlat && animatedLines == []
    {
      this.allLinesFlat := allLinesFlat;
      animatedLines := [];
    }

    /** The interval callback, with its draw `r` and a key not in use. */
    method OnInterval(r: real, key: real)
      requires Valid() && IsDraw(r) && !HasKey(animatedLines, key)
      modifies this
      ensures Valid()
      ensures animatedLines == Tick(old(animatedLines), allLinesFlat, r, key)
      ensures |old(animatedLines)| <= |animatedLines| && animatedLines[..|old(animatedLines)|] == old(animatedLines)
    {
      TickKeepsInvariant(animatedLines, allLinesFlat, r, key);
      animatedLines := Tick(animatedLines, allLinesFlat, r, key);
    }

    /** `handleAnimationComplete`: safe to call for a key already removed. */
    method HandleAnimationComplete(keyToRemove: real)
      requires Valid()
      modifies this
      ensures Valid()
      ensures animatedLines == RemoveKey(old(animatedLines), keyToRemove)
      ensures !HasKey(old(animatedLines), keyToRemove) ==> animatedLines == old(animatedLines)
    {
      if !HasKey(animatedLines, keyToRemove) {
        RemoveAbsentKey(animatedLines, keyToRemove);
      }
      RemoveKeyKeepsUniqueKeys(animatedLines, keyToRemove);
      animatedLines := RemoveKey(animatedLines, keyToRemove);
    }
  }

  // ---------------------------------------------------------------------------
  // Per-layer look of the highlights

  /** `getAnimationColor`: one grey per layer, darker towards the front;
      any other name gets the middle grey. */
  function AnimationColor(layer: string): (c: string)
    ensures layer != "back" && layer != "front" ==> c == "#B8B8B8"
    ensures c in {"#D8D8D8", "#B8B8B8", "#888888"}
  {
    match layer
    case "back" => "#D8D8D8"
    case "middle" => "#B8B8B8"
    case "front" => "#888888"
    case _ => "#B8B8B8"
  }

  /** `getAnimationOpacity`: a multiplier in (0, 1) that grows from back to
      front; any other name gets the middle value. */
  function AnimationOpacity(layer: string): (o: real)
    ensures 0.0 < o < 1.0
    ensures layer != "back" && layer != "front" ==> o == 0.5
  {
    match layer
    case "back" => 0.3
    case "middle" => 0.5
    case "front" => 0.8
    case _ => 0.5
  }

  /** The highlight layers keep the depth order of the static layers: back
      is fainter than middle, middle fainter than front. */
  lemma AnimationOpacityDepthOrder()
    ensures AnimationOpacity("back") < AnimationOpacity("middle") < AnimationOpacity("front")
  {
  }

  /** A highlight drawn with its layer's multiplier never exceeds 0.48
      (0.6 x 0.8, the front layer) in rendered opacity. */
  lemma HighlightOpacityBounded(layer: string, opacity: real)
    requires 0.0 <= opacity <= 1.0
    ensures 0.0 <= FlowLine.RenderedOpacity(opacity, AnimationOpacity(layer)) <= 0.48
  {
    var m := AnimationOpacity(layer);
    var dimmed := opacity * 0.6;
    assert 0.0 <= dimmed <= 0.6;
    assert dimmed * m <= 0.6 * m <= 0.6 * 0.8;
  }
}
