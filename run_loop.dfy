/** The specification of `run_workflow`: what the fetch–transform–write loop
    hands to the writer and to the log.

    The reader is a script: `polls[i]` is what `fetch_data` returns on the
    i-th poll, and `has_data` holds exactly while polls remain. An
    interrupt (`KeyboardInterrupt`) is scripted too, as the index of the poll
    during which it arrives. */
module RunLoop {
  import opened Wrappers
  import opened Connectors

  /** The log entries of a run, without their wording. */
  datatype LogEvent = Running(workflow: string) | Stopped(workflow: string)

  /** One `write_data` call: the writer it went to and the frame it got. */
  datatype Delivery<D> = Delivery(writer: Writer, frame: D)

  /** What one poll writes: nothing for an empty fetch, the transformed
      frame otherwise. */
  function Step<D>(transform: D -> D, w: Writer, poll: Option<D>): seq<Delivery<D>>
  {
    match poll
    case None => []
    case Some(frame) => [Delivery(w, transform(frame))]
  }

  /** The writes of the polls in `polls`, taken in order. */
  function Enrich<D>(transform: D -> D, w: Writer, polls: seq<Option<D>>): (r: seq<Delivery<D>>)
    ensures |r| <= |polls|
    ensures forall j :: 0 <= j < |r| ==> r[j].writer == w
  {
    if polls == [] then []
    else Enrich(transform, w, polls[..|polls| - 1]) + Step(transform, w, polls[|polls| - 1])
  }

  /** The non-empty fetches, in fetch order. */
  function Present<D>(polls: seq<Option<D>>): (r: seq<D>)
    ensures |r| <= |polls|
  {
    if polls == [] then []
    else if polls[0].Some? then [polls[0].value] + Present(polls[1..])
    else Present(polls[1..])
  }

  /** A run was cut short by an interrupt: it arrived during one of the
      polls the loop reaches, the final failing `has_data` included. */
  predicate Interrupted<D>(polls: seq<Option<D>>, interrupt: Option<nat>)
  {
    interrupt.Some? && interrupt.value <= |polls|
  }

  /** Whether poll `k` is one the run reaches before it stops. */
  predicate Reached<D>(polls: seq<Option<D>>, interrupt: Option<nat>, k: nat)
  {
    k < |polls| && (interrupt.Some? ==> k < interrupt.value)
  }

  /** The polls completed before the loop stops. */
  function Processed<D>(polls: seq<Option<D>>, interrupt: Option<nat>): (r: seq<Option<D>>)
    ensures |r| <= |polls| && r == polls[..|r|]
    ensures forall k: nat :: k < |r| <==> Reached(polls, interrupt, k)
  {
    if interrupt.Some? && interrupt.value <= |polls| then polls[..interrupt.value] else polls
  }

  /** Splitting the polls splits the writes. */
  lemma {:induction false} EnrichAppend<D>(transform: D -> D, w: Writer, a: seq<Option<D>>, b: seq<Option<D>>)
    ensures Enrich(transform, w, a + b) == Enrich(transform, w, a) + Enrich(transform, w, b)
    decreases |b|
  {
    if b == [] {
      assert a + b == a;
    } else {
      var b' := b[..|b| - 1];
      assert (a + b)[..|a + b| - 1] == a + b';
      assert (a + b)[|a + b| - 1] == b[|b| - 1];
      EnrichAppend(transform, w, a, b');
    }
  }

  /** The writes are the transform of the non-empty fetches, one each, in
      fetch order, all to writer `w`. */
  lemma {:induction false} EnrichIsTransformOfPresent<D>(transform: D -> D, w: Writer, polls: seq<Option<D>>)
    ensures |Enrich(transform, w, polls)| == |Present(polls)|
    ensures forall j :: 0 <= j < |Present(polls)| ==>
      Enrich(transform, w, polls)[j] == Delivery(w, transform(Present(polls)[j]))
    decreases |polls|
  {
    if polls != [] {
      var rest := polls[1..];
      EnrichIsTransformOfPresent(transform, w, rest);
      assert polls == [polls[0]] + rest;
      EnrichAppend(transform, w, [polls[0]], rest);
      assert [polls[0]][..0] == [];
      assert Enrich(transform, w, [polls[0]]) == Step(transform, w, polls[0]);
    }
  }

  /** There are no non-empty fetches exactly when every poll came back empty. */
  lemma {:induction false} PresentEmpty<D>(polls: seq<Option<D>>)
    ensures Present(polls) == [] <==> forall j :: 0 <= j < |polls| ==> polls[j].None?
    decreases |polls|
  {
    if polls != [] {
      PresentEmpty(polls[1..]);
      assert forall j :: 1 <= j < |polls| ==> polls[j] == polls[1..][j - 1];
    }
  }

  /** Empty fetches are never written: a run writes nothing exactly when
      every poll it completed came back empty. */
  lemma {:induction false} NoWritesIffAllEmpty<D>(transform: D -> D, w: Writer, polls: seq<Option<D>>)
    ensures Enrich(transform, w, polls) == [] <==> forall j :: 0 <= j < |polls| ==> polls[j].None?
  {
    EnrichIsTransformOfPresent(transform, w, polls);
    PresentEmpty(polls);
  }
}
