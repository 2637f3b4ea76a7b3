/** The bounded job channel. */
module JobChannel {
  import opened Pipeline

  class JobQueue {
    const size: nat
    var ch: seq<Job>
    var closed: bool

    constructor (size: nat)
      ensures this.size == size && ch == [] && !closed
    {
      this.size, ch, closed := size, [], false;
    }

    predicate Valid()
      reads this
    {
      |ch| <= size
    }

    /** Never blocks: a full channel refuses the job. Sending on a closed channel would panic. */
    method Enqueue(job: Job) returns (ok: bool)
      requires Valid() && !closed
      modifies this`ch
      ensures Valid()
      ensures ok <==> |old(ch)| < size
      ensures ok ==> ch == old(ch) + [job]
      ensures !ok ==> ch == old(ch)
    {
      ok := |ch| < size;
      if ok {
        ch := ch + [job];
      }
    }

    /** A receive that need not wait: the oldest job, or nothing once the channel is closed and empty. */
    method Receive() returns (job: Option<Job>)
      requires Valid() && (ch != [] || closed)
      modifies this`ch
      ensures Valid()
      ensures job.None? ==> closed && ch == old(ch) == []
      ensures job.Some? ==> old(ch) == [job.value] + ch
    {
      if ch == [] {
        return None;
      }
      job := Some(ch[0]);
      ch := ch[1..];
    }

    method Close()
      requires Valid() && !closed
      modifies this`closed
      ensures Valid() && closed
    {
      closed := true;
    }
  }
}
