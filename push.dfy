/** The Prometheus push client: gauges are registered one at a time and pushed
    to the gateway together. The gateway's answer is an oracle. */
module Push {
  import opened Metrics
  import opened Traffic

  class Pusher {
    const url: string
    const job: string
    /** Whether a push of a batch for a job to the gateway at a URL succeeds. */
    const gateway: (string, string, seq<Sample>) -> bool
    /** The samples registered so far, in order. */
    var collectors: seq<Sample>
    /** Where every push is recorded, after the requests sent before it. */
    ghost const journal: Journal

    /** push.New */
    constructor (url: string, job: string, gateway: (string, string, seq<Sample>) -> bool, ghost journal: Journal)
      ensures this.url == url && this.job == job && this.gateway == gateway && this.journal == journal
      ensures collectors == []
    {
      this.url := url;
      this.job := job;
      this.gateway := gateway;
      this.journal := journal;
      collectors := [];
    }

    /** Pusher.Collector: registers one more sample; nothing is sent. */
    method Collector(s: Sample)
      modifies this
      ensures collectors == old(collectors) + [s]
    {
      collectors := collectors + [s];
    }

    /** Pusher.Push: sends every registered sample as one batch. */
    method Push() returns (ok: bool)
      modifies journal
      ensures journal.events == old(journal.events) + [Pushed(collectors)]
      ensures ok == gateway(url, job, collectors)
    {
      ok := gateway(url, job, collectors);
      journal.events := journal.events + [Pushed(collectors)];
    }
  }
}
