/** Small wrapper types shared by every module of the model. */
module Common {

  /** Kotlin's nullable values. */
  datatype Option<+T> = None | Some(value: T) {
    function GetOr(default: T): T {
      match this
      case Some(v) => v
      case None => default
    }
  }

  /** A computation that can fail with an error value; usable with `:-`. */
  datatype Result<+T, +E> = Ok(value: T) | Err(error: E) {
    predicate IsFailure() {
      Err?
    }

    function PropagateFailure<U>(): Result<U, E>
      requires Err?
    {
      Err(error)
    }

    function Extract(): T
      requires Ok?
    {
      value
    }
  }

  /**
   * The result of a call that may throw a JVM exception. The exception is
   * only observed through its (nullable) localized message.
   */
  datatype Outcome<+T> = Done(value: T) | Threw(message: Option<string>)

  /** Maps `f` over `xs` in order, stopping at the first failure as a Kotlin `map` stops at the first exception. */
  function MapAll<A, B, E>(f: A -> Result<B, E>, xs: seq<A>): Result<seq<B>, E> {
    if |xs| == 0 then Ok([])
    else
      var init :- MapAll(f, xs[..|xs| - 1]);
      var y :- f(xs[|xs| - 1]);
      Ok(init + [y])
  }

  /** `MapAll` succeeds iff `f` succeeds on every element, and then gives one result per element, in order. */
  lemma {:induction false} MapAllOk<A, B, E>(f: A -> Result<B, E>, xs: seq<A>)
    ensures MapAll(f, xs).Ok? <==> forall i :: 0 <= i < |xs| ==> f(xs[i]).Ok?
    ensures MapAll(f, xs).Ok? ==>
      |MapAll(f, xs).value| == |xs| && forall i :: 0 <= i < |xs| ==> MapAll(f, xs).value[i] == f(xs[i]).value
  {
    if |xs| > 0 {
      var init := xs[..|xs| - 1];
      MapAllOk(f, init);
      if MapAll(f, init).Err? {
        var i :| 0 <= i < |init| && f(init[i]).Err?;
        assert xs[i] == init[i];
      } else if f(xs[|xs| - 1]).Ok? {
        forall i | 0 <= i < |init|
          ensures f(xs[i]) == f(init[i])
        {
          assert xs[i] == init[i];
        }
      }
    }
  }

  /** When `MapAll` fails, it fails with the error of the first element on which `f` fails. */
  lemma {:induction false} MapAllFirstError<A, B, E>(f: A -> Result<B, E>, xs: seq<A>)
    requires MapAll(f, xs).Err?
    ensures exists i ::
      && 0 <= i < |xs|
      && f(xs[i]).Err?
      && MapAll(f, xs).error == f(xs[i]).error
      && forall j :: 0 <= j < i ==> f(xs[j]).Ok?
  {
    var init := xs[..|xs| - 1];
    assert forall i :: 0 <= i < |init| ==> init[i] == xs[i];
    if MapAll(f, init).Err? {
      MapAllFirstError(f, init);
      var i :| 0 <= i < |init| && f(init[i]).Err?
        && MapAll(f, init).error == f(init[i]).error
        && forall j :: 0 <= j < i ==> f(init[j]).Ok?;
      assert f(xs[i]).Err?;
    } else {
      MapAllOk(f, init);
      var i := |xs| - 1;
      assert forall j :: 0 <= j < i ==> f(xs[j]).Ok?;
    }
  }
}
