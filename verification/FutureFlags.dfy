/** FutureState: its two flags, and the steps by which the thread that brings the result and
    the thread that brings the callback meet. Every load, compare-and-exchange and store is
    its own step. */
module FutureFlags {
  import opened Wrappers

  const HAS_RESULT: nat := 1
  const HAS_CALLBACK: nat := 2
  const HAS_BOTH: nat := 3

  datatype FutureState<R> = FutureState(flags: nat, result: Option<R>, callback: bool)

  /** What a thread brings to future k. */
  datatype Job<R> = SetResult(k: nat, r: R) | SetCallback(k: nat)

  /** Where a thread is: storing the payload, and in setFlag before the load, before the
      compare-and-exchange that expects 0, before the store of both flags, and before
      futureReady. */
  datatype Pc<R> =
    | Idle
    | Store(job: Job<R>)
    | Load(job: Job<R>)
    | Cas(job: Job<R>)
    | Both(job: Job<R>)
    | Ready(job: Job<R>)

  function FlagOf<R>(job: Job<R>): nat { if job.SetResult? then HAS_RESULT else HAS_CALLBACK }

  predicate HasCallback<R>(f: FutureState<R>) { f.flags == HAS_CALLBACK || f.flags == HAS_BOTH }
  predicate HasResult<R>(f: FutureState<R>) { f.flags == HAS_RESULT || f.flags == HAS_BOTH }

  /** One atomic step of setValue, setException or setCallback: the future and the thread's
      next position. */
  function Bring<R>(f: FutureState<R>, pc: Pc<R>): (FutureState<R>, Pc<R>)
    requires !pc.Idle? && !pc.Ready?
  {
    match pc
    case Store(job) => (if job.SetResult? then f.(result := Some(job.r)) else f.(callback := true), Load(job))
    case Load(job) => (f, if f.flags == 0 then Cas(job) else Both(job))
    case Cas(job) => if f.flags == 0 then (f.(flags := FlagOf(job)), Idle) else (f, Both(job))
    case Both(job) => (f.(flags := HAS_BOTH), Ready(job))
  }
}
