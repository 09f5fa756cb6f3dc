/**
 * The two event kinds that the components broadcast on the window.
 * Both carry a byte count. Dispatching is modelled by appending to a
 * ghost log on the dispatching object.
 */
module Events {

  datatype Event =
    | SetMaxProgress(numBytes: nat)  // an image's file size became known
    | SetProgress(numBytes: nat)     // the global truncation offset changed

  /** The `SET_PROGRESS` events carrying `offsets`, in order. */
  function ProgressEvents(offsets: seq<nat>): (r: seq<Event>)
    ensures |r| == |offsets|
    ensures forall i :: 0 <= i < |r| ==> r[i] == SetProgress(offsets[i])
    decreases |offsets|
  {
    if offsets == [] then [] else [SetProgress(offsets[0])] + ProgressEvents(offsets[1..])
  }

  /** Prepending an offset prepends its event. */
  lemma ProgressEventsCons(offset: nat, rest: seq<nat>)
    ensures ProgressEvents([offset] + rest) == [SetProgress(offset)] + ProgressEvents(rest)
  {
    assert ([offset] + rest)[1..] == rest;
  }
}
