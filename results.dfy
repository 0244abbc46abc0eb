/** Shared result and error shapes of the decoders.

    Every decoder of the reader either produces a value, returns an error
    (a `ParseError`, an `anyhow::Error` or a `String` in the Rust code), or
    panics because an `.expect` found `None`/`Err`.  The three become the
    three cases of `Outcome`.  Only the kind of an error and the fields a
    caller can inspect are kept; the wording of the messages is not. */
module Results {

  datatype Option<+T> = None | Some(value: T)

  /** The error kinds of src/parse/errors.rs and src/parts/errors.rs, plus
      the shapes of the string errors of the record decoders. */
  datatype Error =
    | InvalidToken(token: string, typeName: string)  // a token did not decode as `typeName`
    | InvalidLine(line: string, section: string)     // a line of `section` has the wrong shape
    | MissingField(field: string, collection: string)// a requested group lacks a required field
    | SplitError(input: string, delimiter: char)     // a `split_once` found no delimiter
    | WrongArity(input: string, count: nat)          // a record with an unsupported field count
    | Unknown(context: string, input: string)        // an `anyhow` error with its context
    | Joined(parts: seq<Error>)                      // several messages joined with ", "

  /** What a decoder hands back: a value, an error, or a panic. */
  datatype Outcome<+T> = Ok(value: T) | Err(error: Error) | Panic
  {
    /** The same failure, at another value type. */
    function Propagate<U>(): (r: Outcome<U>)
      requires !Ok?
      ensures r.Err? == Err? && (Err? ==> r.error == error)
    {
      if Err? then Err(error) else Panic
    }

    /** `.expect(..)` on a nested decode: any failure becomes a panic. */
    function Expect(): (r: Outcome<T>)
      ensures r.Ok? == Ok? && (Ok? ==> r.value == value) && (!Ok? ==> r.Panic?)
    {
      if Ok? then this else Panic
    }
  }

  /** Decoding a list of items one after the other and collecting them, as
      `collect::<Result<Vec<_>, _>>()` or a loop of `push`es does: the first
      item that fails decides the outcome. */
  function Sequence<T>(xs: seq<Outcome<T>>): (r: Outcome<seq<T>>)
  {
    if xs == [] then Ok([])
    else if !xs[0].Ok? then xs[0].Propagate()
    else
      var rest := Sequence(xs[1..]);
      if rest.Ok? then Ok([xs[0].value] + rest.value) else rest
  }

  /** The collection succeeds exactly when every item does, and then holds
      every item's value in order. */
  lemma {:induction false} SequenceOk<T>(xs: seq<Outcome<T>>)
    ensures Sequence(xs).Ok? <==> forall i :: 0 <= i < |xs| ==> xs[i].Ok?
    ensures Sequence(xs).Ok? ==>
      |Sequence(xs).value| == |xs| && forall i :: 0 <= i < |xs| ==> xs[i].value == Sequence(xs).value[i]
  {
    if xs != [] {
      SequenceOk(xs[1..]);
      if xs[0].Ok? && Sequence(xs[1..]).Ok? {
        assert forall i :: 1 <= i < |xs| ==> xs[i] == xs[1..][i - 1];
      }
      if !Sequence(xs[1..]).Ok? {
        var i :| 0 <= i < |xs[1..]| && !xs[1..][i].Ok?;
        assert !xs[i + 1].Ok?;
      }
    }
  }

  /** One more successful or failing item after a successful prefix. */
  lemma {:induction false} SequenceSnoc<T>(xs: seq<Outcome<T>>, x: Outcome<T>)
    requires Sequence(xs).Ok?
    ensures x.Ok? ==> Sequence(xs + [x]) == Ok(Sequence(xs).value + [x.value])
    ensures !x.Ok? ==> Sequence(xs + [x]) == x.Propagate()
  {
    if xs == [] {
      assert xs + [x] == [x];
      assert [x][1..] == [];
      if x.Ok? {
        assert [x.value] + [] == [] + [x.value];
      }
    } else {
      assert (xs + [x])[1..] == xs[1..] + [x];
      assert (xs + [x])[0] == xs[0];
      SequenceSnoc(xs[1..], x);
      if x.Ok? {
        var v := Sequence(xs[1..]).value;
        assert [xs[0].value] + (v + [x.value]) == ([xs[0].value] + v) + [x.value];
      }
    }
  }

  /** A failing item after a successful prefix decides the outcome, whatever
      follows it. */
  lemma {:induction false} SequenceFail<T>(xs: seq<Outcome<T>>, k: nat)
    requires k < |xs| && Sequence(xs[..k]).Ok? && !xs[k].Ok?
    ensures Sequence(xs) == xs[k].Propagate()
  {
    if k > 0 {
      assert xs[..k][1..] == xs[1..][..k - 1];
      assert xs[..k][0] == xs[0];
      SequenceFail(xs[1..], k - 1);
    }
  }

  /** One more item after a successful prefix: it extends the collection,
      or its failure decides the outcome of the whole list. */
  lemma SequenceStep<T>(xs: seq<Outcome<T>>, k: nat, done: seq<T>, x: Outcome<T>)
    requires k < |xs| && Sequence(xs[..k]) == Ok(done) && x == xs[k]
    ensures x.Ok? ==> Sequence(xs[..k + 1]) == Ok(done + [x.value])
    ensures !x.Ok? ==> Sequence(xs) == x.Propagate()
  {
    if x.Ok? {
      SequenceSnoc(xs[..k], x);
      assert xs[..k + 1] == xs[..k] + [x];
    } else {
      SequenceFail(xs, k);
    }
  }

  lemma TakeSnoc<T>(xs: seq<T>, k: nat)
    requires k < |xs|
    ensures xs[..k + 1] == xs[..k] + [xs[k]]
  {
  }

  /** Two successful items collect into the pair of their values. */
  lemma SequencePair<T>(a: Outcome<T>, b: Outcome<T>)
    requires a.Ok? && b.Ok?
    ensures Sequence([a, b]) == Ok([a.value, b.value])
  {
    assert [b][1..] == [];
    assert Sequence<T>([]) == Ok([]);
    assert [b.value] + [] == [b.value];
    assert Sequence([b]) == Ok([b.value]);
    assert [a, b][1..] == [b];
    assert [a.value] + [b.value] == [a.value, b.value];
  }

  /** The errors of the failed items, in order, as a `filter(is_err)` over a
      collected list does. */
  function Failures<T>(xs: seq<Outcome<T>>): seq<Error>
  {
    if xs == [] then []
    else (if xs[0].Err? then [xs[0].error] else []) + Failures(xs[1..])
  }

  /** Decoding every item of a list on its own, keeping their order, as a
      `map` over an iterator does. */
  function Map<A, T>(f: A -> Outcome<T>, xs: seq<A>): (r: seq<Outcome<T>>)
    ensures |r| == |xs| && forall i :: 0 <= i < |xs| ==> r[i] == f(xs[i])
  {
    seq(|xs|, i requires 0 <= i < |xs| => f(xs[i]))
  }

  /** Mapping a concatenation maps each part. */
  lemma MapAppend<A, T>(f: A -> Outcome<T>, a: seq<A>, b: seq<A>)
    ensures Map(f, a + b) == Map(f, a) + Map(f, b)
  {
    var both, left, right := Map(f, a + b), Map(f, a), Map(f, b);
    forall i | 0 <= i < |both|
      ensures both[i] == (left + right)[i]
    {
      if i < |a| {
        assert (a + b)[i] == a[i];
      } else {
        assert (a + b)[i] == b[i - |a|];
      }
    }
  }

  /** Mapping one item. */
  lemma MapSingle<A, T>(f: A -> Outcome<T>, x: A)
    ensures Map(f, [x]) == [f(x)]
  {
  }

  /** One item contributes its error, or nothing. */
  lemma FailuresSingle<T>(x: Outcome<T>)
    ensures Failures([x]) == if x.Err? then [x.error] else []
  {
    assert [x][1..] == [];
  }

  /** The values of a list of successful items, in order. */
  function Values<T>(xs: seq<Outcome<T>>): (r: seq<T>)
    requires forall i :: 0 <= i < |xs| ==> xs[i].Ok?
    ensures |r| == |xs| && forall i :: 0 <= i < |xs| ==> xs[i] == Ok(r[i])
  {
    if xs == [] then []
    else
      var rest := Values(xs[1..]);
      assert forall i :: 1 <= i < |xs| ==> xs[i] == xs[1..][i - 1];
      [xs[0].value] + rest
  }

  /** There are no failures exactly when no item is an error. */
  lemma {:induction false} FailuresNone<T>(xs: seq<Outcome<T>>)
    ensures Failures(xs) == [] <==> forall i :: 0 <= i < |xs| ==> !xs[i].Err?
  {
    if xs != [] {
      FailuresNone(xs[1..]);
      assert forall i :: 1 <= i < |xs| ==> xs[i] == xs[1..][i - 1];
    }
  }

  /** The failures of a list are those of its parts, in order. */
  lemma {:induction false} FailuresAppend<T>(a: seq<Outcome<T>>, b: seq<Outcome<T>>)
    ensures Failures(a + b) == Failures(a) + Failures(b)
  {
    if a != [] {
      assert (a + b)[1..] == a[1..] + b;
      assert (a + b)[0] == a[0];
      FailuresAppend(a[1..], b);
      var head := if a[0].Err? then [a[0].error] else [];
      assert head + (Failures(a[1..]) + Failures(b)) == head + Failures(a[1..]) + Failures(b);
    } else {
      assert a + b == b;
    }
  }
}
