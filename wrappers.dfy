/** Failure-carrying values shared by every module of the model. */
module Wrappers {

  /** A value that may be absent: `undefined` (or `null`) in the source. */
  datatype Option<+T> = None | Some(value: T)

  /** The outcome of an operation that may throw. `Err(msg)` stands for a
      thrown `Error` whose `message` is `msg`; every exception raised by the
      modelled code is an `Error` instance. */
  datatype Result<+T> = Ok(value: T) | Err(msg: string)

  /** `items.map(f)` where `f` may throw: the first item whose `f` throws
      aborts the whole map with that error. */
  function MapResult<A, B>(f: A -> Result<B>, items: seq<A>): (r: Result<seq<B>>)
    ensures r.Ok? ==> |r.value| == |items|
    decreases |items|
  {
    if items == [] then Ok([])
    else
      match f(items[0])
      case Err(m) => Err(m)
      case Ok(b) =>
        match MapResult(f, items[1..])
        case Err(m) => Err(m)
        case Ok(bs) => Ok([b] + bs)
  }

  /** The map succeeds exactly when every item succeeds, and then holds each
      item's result in order; otherwise its error is that of the first item
      that fails. */
  lemma {:induction false} MapResultEach<A, B>(f: A -> Result<B>, items: seq<A>)
    ensures MapResult(f, items).Ok? <==> forall i :: 0 <= i < |items| ==> f(items[i]).Ok?
    ensures MapResult(f, items).Ok? ==>
      forall i :: 0 <= i < |items| ==> f(items[i]) == Ok(MapResult(f, items).value[i])
    ensures MapResult(f, items).Err? ==>
      exists k :: 0 <= k < |items| && f(items[k]) == Err(MapResult(f, items).msg)
                  && forall i :: 0 <= i < k ==> f(items[i]).Ok?
    decreases |items|
  {
    if items != [] {
      var rest := items[1..];
      MapResultEach(f, rest);
      assert forall i :: 1 <= i < |items| ==> items[i] == rest[i - 1];
      if f(items[0]).Ok? && MapResult(f, rest).Ok? {
        var r := MapResult(f, items).value;
        assert forall i :: 1 <= i < |items| ==> r[i] == MapResult(f, rest).value[i - 1];
      } else if f(items[0]).Ok? {
        var k :| 0 <= k < |rest| && f(rest[k]) == Err(MapResult(f, rest).msg)
                 && forall i :: 0 <= i < k ==> f(rest[i]).Ok?;
        assert f(items[k + 1]) == Err(MapResult(f, items).msg);
        assert forall i :: 0 <= i < k + 1 ==> f(items[i]).Ok? by {
          forall i | 0 <= i < k + 1 ensures f(items[i]).Ok? {
            if i > 0 {
              assert items[i] == rest[i - 1];
            }
          }
        }
      } else {
        assert f(items[0]) == Err(MapResult(f, items).msg);
      }
    }
  }
}
