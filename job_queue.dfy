/** The BullMQ `invoice-pdf` queue as the core sees it: an append-only list of jobs. */
module JobQueue {
  import opened Common

  datatype Job = Job(name: string, invoiceId: Id)

  class Queue {
    var jobs: seq<Job>

    constructor ()
      ensures jobs == []
    {
      jobs := [];
    }

    /** `add(name, { invoiceId })`. */
    method Add(name: string, invoiceId: Id)
      modifies this
      ensures jobs == old(jobs) + [Job(name, invoiceId)]
    {
      jobs := jobs + [Job(name, invoiceId)];
    }
  }
}
