/** Types and functions shared by the modules of this project. */
module Common {

  datatype Option<+T> = None | Some(value: T)

  /** A value, or the reason there is none. Usable with `:-`. */
  datatype Result<+T, +E> = Ok(value: T) | Err(error: E) {
    predicate IsFailure() {
      Err?
    }

    function PropagateFailure<U>(): Result<U, E>
      requires Err?
    {
      Err(error)
    }

    function Extract(): T
      requires Ok?
    {
      value
    }
  }

  lemma Associates<T>(a: seq<T>, b: seq<T>, c: seq<T>)
    ensures a + b + c == a + (b + c)
  {
  }

  /** Each element once, in the order they first occur. */
  function Distinct<T(==)>(elements: seq<T>): seq<T> {
    if elements == [] then []
    else
      var earlier := Distinct(elements[..|elements| - 1]);
      if elements[|elements| - 1] in earlier then earlier else earlier + [elements[|elements| - 1]]
  }

  lemma {:induction false} DistinctKeepsElements<T>(elements: seq<T>)
    ensures forall x :: x in Distinct(elements) <==> x in elements
    ensures forall i, j :: 0 <= i < j < |Distinct(elements)| ==> Distinct(elements)[i] != Distinct(elements)[j]
  {
    if elements != [] {
      DistinctKeepsElements(elements[..|elements| - 1]);
      assert elements == elements[..|elements| - 1] + [elements[|elements| - 1]];
    }
  }

  /** `picked` is the elements of `all` at the increasing positions `at`. */
  predicate Fits<T(==)>(all: seq<T>, picked: seq<T>, at: seq<nat>) {
    && |at| == |picked|
    && (forall i :: 0 <= i < |at| ==> at[i] < |all| && picked[i] == all[at[i]])
    && (forall i, j :: 0 <= i < j < |at| ==> at[i] < at[j])
  }

  /** These are the positions of the wanted elements. */
  ghost predicate Covers<T>(all: seq<T>, at: seq<nat>, wanted: T -> bool) {
    forall k: nat :: k < |all| ==> (k in at <==> wanted(all[k]))
  }

  /** `picked` is the wanted elements of `all` and no others, in their order. */
  ghost predicate Picks<T>(all: seq<T>, picked: seq<T>, wanted: T -> bool) {
    exists at :: Fits(all, picked, at) && Covers(all, at, wanted)
  }

  lemma PicksNothing<T>(wanted: T -> bool)
    ensures Picks<T>([], [], wanted)
  {
    assert Fits<T>([], [], []) && Covers<T>([], [], wanted);
  }

  function Shifted(at: seq<nat>): seq<nat> {
    seq(|at|, i requires 0 <= i < |at| => at[i] + 1)
  }

  lemma ShiftedIn(at: seq<nat>, k: nat)
    ensures k in Shifted(at) <==> k > 0 && k - 1 in at
  {
    if k > 0 && k - 1 in at {
      var i :| 0 <= i < |at| && at[i] == k - 1;
      assert Shifted(at)[i] == k;
    }
  }

  lemma ShiftedFits<T>(first: T, all: seq<T>, picked: seq<T>, at: seq<nat>)
    requires Fits(all, picked, at)
    ensures Fits([first] + all, picked, Shifted(at))
  {
    forall i | 0 <= i < |at|
      ensures Shifted(at)[i] < |all| + 1 && picked[i] == ([first] + all)[Shifted(at)[i]]
    {
      assert ([first] + all)[at[i] + 1] == all[at[i]];
    }
  }

  lemma FirstFits<T>(first: T, all: seq<T>, picked: seq<T>, at: seq<nat>)
    requires Fits(all, picked, at)
    ensures Fits([first] + all, [first] + picked, [0] + Shifted(at))
  {
    ShiftedFits(first, all, picked, at);
    var more, taken := [0] + Shifted(at), [first] + picked;
    forall i | 0 <= i < |more|
      ensures more[i] < |all| + 1 && taken[i] == ([first] + all)[more[i]]
    {
      if i > 0 {
        assert more[i] == Shifted(at)[i - 1] && taken[i] == picked[i - 1];
      }
    }
  }

  lemma ShiftedCovers<T>(first: T, all: seq<T>, at: seq<nat>, wanted: T -> bool)
    requires Covers(all, at, wanted)
    ensures Covers([first] + all, (if wanted(first) then [0] else []) + Shifted(at), wanted)
  {
    var more: seq<nat> := (if wanted(first) then [0] else []) + Shifted(at);
    forall k: nat | k < |all| + 1
      ensures k in more <==> wanted(([first] + all)[k])
    {
      ShiftedIn(at, k);
      if k > 0 {
        assert ([first] + all)[k] == all[k - 1];
      }
    }
  }

  /** One element in front, taken or left. */
  lemma PicksOneMore<T>(first: T, all: seq<T>, picked: seq<T>, wanted: T -> bool)
    requires Picks(all, picked, wanted)
    ensures Picks([first] + all, (if wanted(first) then [first] else []) + picked, wanted)
  {
    hide Fits, Covers, Shifted;
    var at :| Fits(all, picked, at) && Covers(all, at, wanted);
    ShiftedCovers(first, all, at, wanted);
    if wanted(first) {
      FirstFits(first, all, picked, at);
    } else {
      ShiftedFits(first, all, picked, at);
      assert [] + picked == picked && [] + Shifted(at) == Shifted(at);
    }
  }

  lemma LastFits<T>(all: seq<T>, picked: seq<T>, at: seq<nat>, last: T)
    requires Fits(all, picked, at)
    ensures Fits(all + [last], picked, at) && Fits(all + [last], picked + [last], at + [|all|])
  {
    var more, taken := at + [|all|], picked + [last];
    forall i | 0 <= i < |more|
      ensures more[i] < |all| + 1 && taken[i] == (all + [last])[more[i]]
    {
      if i < |at| {
        assert more[i] == at[i] && taken[i] == picked[i];
      }
    }
  }

  lemma LastCovers<T>(all: seq<T>, picked: seq<T>, at: seq<nat>, last: T, wanted: T -> bool)
    requires Fits(all, picked, at) && Covers(all, at, wanted)
    ensures Covers(all + [last], if wanted(last) then at + [|all|] else at, wanted)
  {
    var more: seq<nat> := if wanted(last) then at + [|all|] else at;
    forall k: nat | k < |all| + 1
      ensures k in more <==> wanted((all + [last])[k])
    {
      if k < |all| {
        assert (all + [last])[k] == all[k];
        assert k in more <==> k in at;
      } else {
        assert forall i :: 0 <= i < |at| ==> at[i] < k;
        assert wanted(last) ==> more[|at|] == k;
      }
    }
  }

  /** One element at the end, taken or left. */
  lemma PicksOneLast<T>(all: seq<T>, picked: seq<T>, last: T, wanted: T -> bool)
    requires Picks(all, picked, wanted)
    ensures Picks(all + [last], picked + (if wanted(last) then [last] else []), wanted)
  {
    hide Fits, Covers;
    var at: seq<nat> :| Fits(all, picked, at) && Covers(all, at, wanted);
    LastFits(all, picked, at, last);
    LastCovers(all, picked, at, last, wanted);
    assert picked + [] == picked;
  }
}
