/** Values shared by every module: optional pointers, errors and results. */
module Common {

  /** A Go pointer that may be nil. */
  datatype Option<+T> = None | Some(value: T) {
    function GetOr(default: T): T {
      match this
      case Some(v) => v
      case None => default
    }
  }

  /** A Go `error` value; only its message is observable. */
  datatype Error = Error(message: string)

  /** The `(value, error)` pair a Go function returns, with exactly one side set. */
  datatype Result<+T> = Ok(value: T) | Err(error: Error)

  /** Applies a failing step to each element in order and stops at the first failure:
      the shape of every "for each entry: look it up, or return the error" loop. */
  function MapAll<S, R>(f: S -> Result<R>, xs: seq<S>): Result<seq<R>>
    decreases |xs|
  {
    if xs == [] then Ok([])
    else match MapAll(f, xs[..|xs| - 1])
         case Err(e) => Err(e)
         case Ok(prefix) =>
           match f(xs[|xs| - 1])
           case Err(e) => Err(e)
           case Ok(y) => Ok(prefix + [y])
  }

  /** `MapAll` succeeds exactly when every step does, with one result per element, in order. */
  lemma {:induction false} MapAllOk<S, R>(f: S -> Result<R>, xs: seq<S>)
    ensures MapAll(f, xs).Ok? <==> forall i :: 0 <= i < |xs| ==> f(xs[i]).Ok?
    ensures MapAll(f, xs).Ok? ==>
              |MapAll(f, xs).value| == |xs|
              && forall i :: 0 <= i < |xs| ==> MapAll(f, xs).value[i] == f(xs[i]).value
    decreases |xs|
  {
    if xs != [] {
      var init := xs[..|xs| - 1];
      MapAllOk(f, init);
      assert forall i :: 0 <= i < |init| ==> init[i] == xs[i];
    }
  }

  /** A failing `MapAll` reports the error of its first failing step. */
  lemma {:induction false} MapAllFirstError<S, R>(f: S -> Result<R>, xs: seq<S>)
    requires MapAll(f, xs).Err?
    ensures exists i :: 0 <= i < |xs| && f(xs[i]) == Err(MapAll(f, xs).error)
                        && forall j :: 0 <= j < i ==> f(xs[j]).Ok?
    decreases |xs|
  {
    var init := xs[..|xs| - 1];
    assert forall i :: 0 <= i < |init| ==> init[i] == xs[i];
    if MapAll(f, init).Err? {
      MapAllFirstError(f, init);
      var i :| 0 <= i < |init| && f(init[i]) == Err(MapAll(f, init).error)
               && forall j :: 0 <= j < i ==> f(init[j]).Ok?;
      assert f(xs[i]) == Err(MapAll(f, xs).error);
    } else {
      MapAllOk(f, init);
      assert f(xs[|xs| - 1]) == Err(MapAll(f, xs).error);
    }
  }

  /** Once a step fails after a successful prefix, the whole `MapAll` fails with that error. */
  lemma {:induction false} MapAllStopsAt<S, R>(f: S -> Result<R>, xs: seq<S>, i: nat)
    requires i < |xs| && MapAll(f, xs[..i]).Ok? && f(xs[i]).Err?
    ensures MapAll(f, xs) == Err(f(xs[i]).error)
    decreases |xs|
  {
    var init := xs[..|xs| - 1];
    if i < |xs| - 1 {
      assert init[..i] == xs[..i];
      assert init[i] == xs[i];
      MapAllStopsAt(f, init, i);
    } else {
      assert init == xs[..i];
    }
  }

  /** How the tail of a sequence lines up with its prefixes and suffixes; the loops that
      walk a sequence from its front step through it with these. */
  lemma DropFirst<T>(s: seq<T>, i: nat)
    requires 0 < i <= |s|
    ensures s[..i][1..] == s[1..][..i - 1]
    ensures s[1..][i - 1..] == s[i..]
    ensures forall j :: 0 <= j < |s| - 1 ==> s[1..][j] == s[j + 1]
  {
  }

  /** How a prefix one element longer splits: the shorter prefix, then that element. */
  lemma TakeOneMore<T>(s: seq<T>, i: nat)
    requires i < |s|
    ensures s[..i + 1][..i] == s[..i]
    ensures s[..i + 1][i..] == [s[i]]
    ensures forall j :: 0 <= j <= i ==> s[..i + 1][j] == s[j]
  {
  }
}
