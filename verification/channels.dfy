/** An Rx `Subject`, reduced to what the pipeline observes of it: the values
    published so far, in publish order, and whether it has been disposed. */
module Channels {
  import opened Wrappers

  datatype Channel<T> = Channel(log: seq<T>, disposed: bool)

  /** A subject as the constructors create it. */
  function Open<T>(): (c: Channel<T>)
    ensures c.log == [] && !c.disposed
  {
    Channel([], false)
  }

  /** `on_next(v)`: appends `v`, or raises `DisposedException` (None) once
      the subject is disposed. */
  function Publish<T>(c: Channel<T>, v: T): (r: Option<Channel<T>>)
    ensures r.Some? <==> !c.disposed
    ensures r.Some? ==> r.value.log == c.log + [v] && !r.value.disposed
  {
    if c.disposed then None else Some(Channel(c.log + [v], false))
  }

  /** `on_next(v)` on a worker thread whose exception nobody observes:
      the subject either records `v` or stays as it was. */
  function Offer<T>(c: Channel<T>, v: T): (r: Channel<T>)
    ensures r.disposed == c.disposed
    ensures r.log == if c.disposed then c.log else c.log + [v]
  {
    match Publish(c, v)
    case Some(c') => c'
    case None => c
  }

  /** `dispose()`: never raises, also on a subject already disposed. */
  function Dispose<T>(c: Channel<T>): (r: Channel<T>)
    ensures r.disposed && r.log == c.log
  {
    Channel(c.log, true)
  }

  /** Disposing twice is the same as disposing once. */
  lemma DisposeIdempotent<T>(c: Channel<T>)
    ensures Dispose(Dispose(c)) == Dispose(c)
  {
  }
}
