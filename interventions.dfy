/** The intervention checkboxes (src/assets/components/UserInputs/Interventions.jsx):
    the option table, the `checked` test and `toggle`, which rebuilds the list
    through a JavaScript `Set`. A `Set` keeps its elements in insertion order
    and ignores an element it already holds, so a sequence without duplicates
    models it. */
module Interventions {

  datatype InterventionOption = InterventionOption(key: string, caption: string)

  /** The `options` table. */
  const Options: seq<InterventionOption> := [
    InterventionOption("breathing", "\U{1F32C}\U{FE0F} Breathing Visualizer"),
    InterventionOption("bubbles", "\U{1F388} Floating Bubbles Game"),
    InterventionOption("mindfulness", "\U{1F9D8} Mindfulness Prompts"),
    InterventionOption("chatbot", "\U{1F916} Chatbot (text/voice)")
  ]

  predicate NoDuplicates(xs: seq<string>) {
    forall i, j :: 0 <= i < j < |xs| ==> xs[i] != xs[j]
  }

  /** `interventions.includes(key)`: the box for `key` is ticked. */
  predicate Checked(interventions: seq<string>, key: string) {
    key in interventions
  }

  /** The position of the first occurrence of `x`. */
  function FirstIndex(xs: seq<string>, x: string): (k: nat)
    requires x in xs
    ensures k < |xs| && xs[k] == x
    ensures forall j :: 0 <= j < k ==> xs[j] != x
  {
    if xs[0] == x then 0 else 1 + FirstIndex(xs[1..], x)
  }

  /** `new Set(xs)` spread back into an array: the elements of `xs`, each once,
      in the order of their first occurrence. */
  function Dedup(xs: seq<string>): (r: seq<string>)
    ensures NoDuplicates(r)
    ensures forall x :: x in r <==> x in xs
    decreases |xs|
  {
    if xs == [] then []
    else
      var d := Dedup(xs[..|xs| - 1]);
      if xs[|xs| - 1] in d then d else d + [xs[|xs| - 1]]
  }

  /** The deduplicated keys keep the order in which they first appear. */
  lemma {:induction false} DedupKeepsFirstOccurrenceOrder(xs: seq<string>, i: int, j: int)
    requires 0 <= i < j < |Dedup(xs)|
    ensures FirstIndex(xs, Dedup(xs)[i]) < FirstIndex(xs, Dedup(xs)[j])
    decreases |xs|
  {
    var init, y := xs[..|xs| - 1], xs[|xs| - 1];
    assert xs == init + [y];
    var d := Dedup(init);
    var a, b := Dedup(xs)[i], Dedup(xs)[j];
    assert a == d[i];
    assert a in init;
    FirstIndexAppend(init, y, a);
    if j < |d| {
      DedupKeepsFirstOccurrenceOrder(init, i, j);
      assert b == d[j] && b in init;
      FirstIndexAppend(init, y, b);
    } else {
      assert b == y && y !in init;
      assert FirstIndex(xs, b) == |init| by {
        forall k | 0 <= k < |init| ensures xs[k] != y {
          assert xs[k] == init[k];
        }
      }
    }
  }

  lemma {:induction false} FirstIndexAppend(xs: seq<string>, y: string, x: string)
    requires x in xs
    ensures FirstIndex(xs + [y], x) == FirstIndex(xs, x)
  {
    var k := FirstIndex(xs, x);
    var ys := xs + [y];
    assert ys[k] == x;
    forall j | 0 <= j < k ensures ys[j] != x {
      assert ys[j] == xs[j];
    }
    var m := FirstIndex(ys, x);
    assert m <= k;
    assert ys[m] == xs[m];
  }

  /** A list that already has no duplicates survives the `Set` unchanged. */
  lemma {:induction false} DedupOfNoDuplicates(xs: seq<string>)
    requires NoDuplicates(xs)
    ensures Dedup(xs) == xs
    decreases |xs|
  {
    if xs != [] {
      var init := xs[..|xs| - 1];
      assert NoDuplicates(init);
      DedupOfNoDuplicates(init);
      assert xs[|xs| - 1] !in init;
      assert xs == init + [xs[|xs| - 1]];
    }
  }

  /** `selected.delete(key)`: the other elements, in their order. */
  function Delete(xs: seq<string>, key: string): (r: seq<string>)
    ensures forall x :: x in r <==> x in xs && x != key
    ensures NoDuplicates(xs) ==> NoDuplicates(r)
  {
    if xs == [] then []
    else
      assert NoDuplicates(xs) ==> xs[0] !in xs[1..];
      (if xs[0] == key then [] else [xs[0]]) + Delete(xs[1..], key)
  }

  lemma {:induction false} DeleteAppend(a: seq<string>, b: seq<string>, key: string)
    ensures Delete(a + b, key) == Delete(a, key) + Delete(b, key)
  {
    if a == [] {
      assert a + b == b;
    } else {
      assert (a + b)[0] == a[0] && (a + b)[1..] == a[1..] + b;
      DeleteAppend(a[1..], b, key);
    }
  }

  lemma {:induction false} DeleteAbsent(xs: seq<string>, key: string)
    requires key !in xs
    ensures Delete(xs, key) == xs
  {
    if xs != [] {
      DeleteAbsent(xs[1..], key);
    }
  }

  /** What `toggle(key)` publishes as the new `interventions`: no duplicates, the
      key's membership flipped and every other key's kept. In order, an added key
      comes after the deduplicated keys, and a removal leaves them in their
      first-occurrence order. */
  function Toggled(interventions: seq<string>, key: string): (next: seq<string>)
    ensures NoDuplicates(next)
    ensures key in next <==> key !in interventions
    ensures forall other :: other != key ==> (other in next <==> other in interventions)
    ensures key !in interventions ==> next == Dedup(interventions) + [key]
    ensures key in interventions ==> next == Delete(Dedup(interventions), key)
  {
    var selected := Dedup(interventions);
    if key in selected then Delete(selected, key) else selected + [key]
  }

  /** `toggle(key)`: build the `Set`, delete the key if it holds it and add it
      otherwise, then spread the `Set` into a fresh array. */
  method Toggle(interventions: seq<string>, key: string) returns (next: seq<string>)
    ensures next == Toggled(interventions, key)
  {
    var selected := Dedup(interventions);
    if key in selected {
      selected := Delete(selected, key);
    } else {
      selected := selected + [key];
    }
    next := selected;
  }

  /** A key added to a list with duplicates goes after the deduplicated keys. */
  lemma ToggleAddOrderExample()
    ensures Toggled(["a", "a"], "b") == ["a", "b"]
  {
    var a, twice := ["a"], ["a", "a"];
    assert Dedup(a) == ["a"] by { assert a[..0] == []; }
    assert Dedup(twice) == ["a"] by { assert twice[..1] == a; }
  }

  /** Toggling twice restores the set of keys; a key that was present ends up last. */
  lemma {:induction false} ToggleTwice(interventions: seq<string>, key: string)
    ensures forall x :: x in Toggled(Toggled(interventions, key), key) <==> x in interventions
    ensures key !in interventions ==> Toggled(Toggled(interventions, key), key) == Dedup(interventions)
    ensures key in interventions ==>
      Toggled(Toggled(interventions, key), key) == Delete(Dedup(interventions), key) + [key]
  {
    var d := Dedup(interventions);
    var once := Toggled(interventions, key);
    DedupOfNoDuplicates(once);
    if key !in interventions {
      assert once == d + [key];
      DeleteAppend(d, [key], key);
      DeleteAbsent(d, key);
      assert Delete([key], key) == [] + Delete([], key);
    } else {
      assert once == Delete(d, key);
    }
  }

  /** A box reads the same from the list as from the `Set` that `toggle` builds of it. */
  lemma CheckedInSet(interventions: seq<string>, key: string)
    ensures Checked(interventions, key) <==> key in Dedup(interventions)
  {
  }

  /** Each option's checkbox flips when toggled and the others stay as they were. */
  lemma ToggleFlipsOneCheckbox(interventions: seq<string>, i: int, j: int)
    requires 0 <= i < |Options| && 0 <= j < |Options|
    ensures Checked(Toggled(interventions, Options[i].key), Options[i].key) == !Checked(interventions, Options[i].key)
    ensures j != i ==>
      Checked(Toggled(interventions, Options[i].key), Options[j].key) == Checked(interventions, Options[j].key)
  {
  }
}
