/** The cheat-code detector: a document-wide keydown listener that matches
    key codes strictly left to right against a fixed sequence and fires a
    visual effect when the whole sequence has been typed. */
module Konami {

  /** Up, up, down, down, left, right, left, right, B, A. */
  const Code: seq<int> := [38, 38, 40, 40, 37, 39, 37, 39, 66, 65]

  /** One key press at match position `index`: the new position and whether
      the effect fires. */
  function Step(index: nat, key: int): (r: (nat, bool))
    requires index < |Code|
    ensures r.0 < |Code|
    ensures r.1 <==> index == |Code| - 1 && key == Code[index]
    ensures key != Code[index] ==> r == (0, false)
    ensures key == Code[index] && index < |Code| - 1 ==> r == (index + 1, false)
    ensures r.1 ==> r.0 == 0
  {
    if key == Code[index] then
      if index + 1 == |Code| then (0, true) else (index + 1, false)
    else (0, false)
  }

  /** A stream of key presses from position `index`: the final position and
      how many times the effect fired. */
  function Run(index: nat, keys: seq<int>): (r: (nat, nat))
    requires index < |Code|
    ensures r.0 < |Code|
    decreases |keys|
  {
    if keys == [] then (index, 0)
    else
      var (next, fired) := Step(index, keys[0]);
      var (last, count) := Run(next, keys[1..]);
      (last, count + if fired then 1 else 0)
  }

  /** A run over `a + b` is the run over `a` followed by the run over `b`. */
  lemma {:induction false} RunAppend(index: nat, a: seq<int>, b: seq<int>)
    requires index < |Code|
    ensures Run(index, a + b) == (Run(Run(index, a).0, b).0, Run(index, a).1 + Run(Run(index, a).0, b).1)
    decreases |a|
  {
    if a == [] {
      assert a + b == b;
    } else {
      assert (a + b)[0] == a[0] && (a + b)[1..] == a[1..] + b;
      RunAppend(Step(index, a[0]).0, a[1..], b);
    }
  }

  /** From position i, the rest of the sequence fires the effect exactly once
      and leaves the detector ready for the next attempt. */
  lemma {:induction false} RestOfCodeFiresOnce(i: nat)
    requires i < |Code|
    ensures Run(i, Code[i..]) == (0, 1)
    decreases |Code| - i
  {
    assert Code[i..][0] == Code[i] && Code[i..][1..] == Code[i + 1..];
    if i < |Code| - 1 {
      RestOfCodeFiresOnce(i + 1);
    }
  }

  lemma CodeFiresOnce()
    ensures Run(0, Code) == (0, 1)
  {
    RestOfCodeFiresOnce(0);
    assert Code[0..] == Code;
  }

  /** Typing the sequence twice in a row fires twice. */
  lemma CodeTwiceFiresTwice()
    ensures Run(0, Code + Code) == (0, 2)
  {
    CodeFiresOnce();
    RunAppend(0, Code, Code);
  }

  /** From position i, fewer keys than the sequence has left cannot fire. */
  lemma {:induction false} ShortRunNeverFires(i: nat, keys: seq<int>)
    requires i < |Code| && |keys| < |Code| - i
    ensures Run(i, keys).1 == 0
    decreases |keys|
  {
    if keys != [] {
      var next := Step(i, keys[0]).0;
      assert next == 0 || next == i + 1;
      ShortRunNeverFires(next, keys[1..]);
    }
  }

  /** The first k keys of the sequence advance the match to position k. */
  lemma {:induction false} PrefixAdvances(k: nat)
    requires k < |Code|
    ensures Run(0, Code[..k]) == (k, 0)
  {
    if k > 0 {
      PrefixAdvances(k - 1);
      RunAppend(0, Code[..k - 1], [Code[k - 1]]);
      assert Code[..k - 1] + [Code[k - 1]] == Code[..k];
    }
  }

  /** Any wrong key sends the detector back to the start, even a key that
      would match the first element of the sequence. */
  lemma MismatchResets(i: nat, key: int)
    requires i < |Code| && key != Code[i]
    ensures Run(i, [key]) == (0, 0)
  {
  }

  /** The sequence with one key substituted anywhere does not fire: the
      progress made before the wrong key is lost at that key. */
  lemma SubstitutedCodeNeverFires(k: nat, key: int)
    requires k < |Code| && key != Code[k]
    ensures Run(0, Code[..k] + [key]) == (0, 0)
    ensures Run(0, Code[..k] + [key] + Code[k + 1..]).1 == 0
  {
    PrefixAdvances(k);
    RunAppend(0, Code[..k], [key]);
    RunAppend(0, Code[..k] + [key], Code[k + 1..]);
    ShortRunNeverFires(0, Code[k + 1..]);
  }

  /** A stray extra 38 before the sequence: the third 38 resets the match
      and the remaining keys are too few, so the sequence typed right after
      it is not recognised. */
  lemma ExtraUpNeverFires()
    ensures Run(0, [38] + Code).1 == 0
  {
    var keys := [38] + Code;
    assert keys == [38, 38, 38] + Code[2..];
    RunAppend(0, [38, 38, 38], Code[2..]);
    assert Run(0, [38, 38, 38]) == (0, 0);
    ShortRunNeverFires(0, Code[2..]);
  }

  /** `_konamiIndex`, in a class of its own. */
  class Detector {
    var index: nat

    ghost predicate Valid()
      reads this
    {
      index < |Code|
    }

    constructor ()
      ensures Valid() && index == 0
    {
      index := 0;
    }

    /** The keydown handler; `fired` when the effect starts. */
    method KeyDown(key: int) returns (fired: bool)
      requires Valid()
      modifies this
      ensures Valid()
      ensures (index, fired) == Step(old(index), key)
    {
      if key == Code[index] {
        index := index + 1;
        fired := index == |Code|;
        if fired {
          index := 0;
        }
      } else {
        fired := false;
        index := 0;
      }
    }
  }
}
