/** What leaves the process, in order: the requests sent to the platform and the batches
    pushed to the gateway. Both clients append to one shared journal, so the order
    between requests and pushes is observable. */
module Traffic {
  import opened GitLabApi
  import opened Metrics

  datatype Event = Sent(request: Request) | Pushed(batch: seq<Sample>)

  /** One event per request, in order. */
  function Sends(requests: seq<Request>): (events: seq<Event>)
    ensures |events| == |requests|
    ensures forall i :: 0 <= i < |requests| ==> events[i] == Sent(requests[i])
  {
    seq(|requests|, i requires 0 <= i < |requests| => Sent(requests[i]))
  }

  /** The events of a concatenation are the concatenated events. */
  lemma SendsAppend(a: seq<Request>, b: seq<Request>)
    ensures Sends(a + b) == Sends(a) + Sends(b)
  {
  }

  /** The ghost record of everything sent, shared by the GitLab client and the pusher. */
  class Journal {
    ghost var events: seq<Event>

    constructor ()
      ensures events == []
    {
      events := [];
    }
  }
}
