/**
 * The outbound retry queue: failed channel deliveries wait in a FIFO queue and are retried by a
 * worker until a send succeeds or the job has used its attempts, when it moves to the dead
 * letters. One iteration of the worker loop is one `Step`; the thread, the lock and the sleeps
 * are not modelled.
 */
module OutboundRetryQueue {
  import opened Results
  import opened Text

  /**
   * `send_fn(channel, channel_id, text, thread_id)`: the status string the channel answers to a
   * send made at worker iteration `at`. The channel is outside the program, so the same message
   * may fail at one iteration and go through at a later one.
   */
  type SendFn = (string, string, string, Option<string>, nat) -> string

  /** A queued delivery. The worker updates `attempts` and `lastError` on the job itself. */
  class Job {
    const id: string
    const channel: string
    const channelId: string
    const text: string
    const threadId: Option<string>
    const maxAttempts: int
    var attempts: int
    var lastError: Option<string>

    constructor (id: string, channel: string, channelId: string, text: string, threadId: Option<string>,
                 maxAttempts: int)
      ensures this.id == id && this.channel == channel && this.channelId == channelId && this.text == text
      ensures this.threadId == threadId && this.maxAttempts == maxAttempts
      ensures attempts == 0 && lastError == None
    {
      this.id := id;
      this.channel := channel;
      this.channelId := channelId;
      this.text := text;
      this.threadId := threadId;
      this.maxAttempts := maxAttempts;
      attempts := 0;
      lastError := None;
    }
  }

  /** What `snapshot` reports. */
  datatype Snapshot = Snapshot(queued: nat, deadLettered: nat, deadLetters: seq<Job>)

  /** `max(n, 1)`. */
  function ClampAttempts(n: int): (m: int)
    ensures m >= 1 && m >= n && (n >= 1 ==> m == n)
  {
    if n < 1 then 1 else n
  }

  /** `max(seconds, 0.0)`. */
  function ClampBackoff(seconds: real): (b: real)
    ensures b >= 0.0 && b >= seconds && (seconds >= 0.0 ==> b == seconds)
  {
    if seconds < 0.0 then 0.0 else seconds
  }

  /** A send status that means the delivery went through. */
  predicate Delivered(status: string) {
    StartsWith(status, "sent:")
  }

  /** No job occurs twice. */
  ghost predicate AllDistinct(s: seq<Job>) {
    forall i, k :: 0 <= i < k < |s| ==> s[i] != s[k]
  }

  /** Taking the head off leaves a distinct tail without the head; appending a new job keeps it distinct. */
  lemma DistinctRotate(s: seq<Job>, j: Job)
    requires AllDistinct(s) && s != []
    ensures AllDistinct(s[1..]) && s[0] !in s[1..]
    ensures j !in s[1..] ==> AllDistinct(s[1..] + [j])
  {
  }

  lemma DistinctAppend(s: seq<Job>, j: Job)
    requires AllDistinct(s) && j !in s
    ensures AllDistinct(s + [j])
  {
  }

  class RetryQueue {
    const send: SendFn
    const maxAttempts: int
    const backoffSeconds: real
    /** The jobs waiting for a retry, head first. */
    var queue: seq<Job>
    /** The jobs that used all their attempts, oldest first. */
    var deadLetters: seq<Job>

    ghost function Jobs(): set<Job>
      reads this
    {
      (set j | j in queue) + (set j | j in deadLetters)
    }

    /**
     * Every job is held once; a waiting job has attempts left and a dead letter has none; every
     * job carries the service's attempt bound.
     */
    ghost predicate Valid()
      reads this, Jobs()
    {
      && maxAttempts >= 1
      && AllDistinct(queue) && AllDistinct(deadLetters)
      && (forall j :: j in queue ==> j !in deadLetters)
      && (forall j :: j in queue ==> 0 <= j.attempts < j.maxAttempts && j.maxAttempts == maxAttempts)
      && (forall j :: j in deadLetters ==> j.attempts >= j.maxAttempts && j.maxAttempts == maxAttempts)
    }

    /** A new service: attempts clamped to at least 1, backoff to at least 0, nothing queued. */
    constructor (send: SendFn, maxAttempts: int, backoffSeconds: real)
      ensures Valid() && this.send == send
      ensures this.maxAttempts == ClampAttempts(maxAttempts) && this.backoffSeconds == ClampBackoff(backoffSeconds)
      ensures queue == [] && deadLetters == []
    {
      this.send := send;
      this.maxAttempts := ClampAttempts(maxAttempts);
      this.backoffSeconds := ClampBackoff(backoffSeconds);
      queue := [];
      deadLetters := [];
    }

    /** `enqueue`: a new job with no attempts goes to the tail; the dead letters do not change. */
    method Enqueue(id: string, channel: string, channelId: string, text: string, threadId: Option<string>)
      returns (job: Job)
      requires Valid()
      modifies this
      ensures Valid() && fresh(job)
      ensures job.id == id && job.channel == channel && job.channelId == channelId && job.text == text
      ensures job.threadId == threadId && job.maxAttempts == maxAttempts && job.attempts == 0 && job.lastError == None
      ensures queue == old(queue) + [job] && deadLetters == old(deadLetters)
    {
      job := new Job(id, channel, channelId, text, threadId, maxAttempts);
      DistinctAppend(queue, job);
      queue := queue + [job];
    }

    /** `snapshot`: the queue length, the number of dead letters and a copy of the dead-letter list. */
    method TakeSnapshot() returns (s: Snapshot)
      ensures s.queued == |queue| && s.deadLettered == |deadLetters| && s.deadLetters == deadLetters
    {
      s := Snapshot(|queue|, |deadLetters|, deadLetters);
    }

    /**
     * One iteration of the worker loop, the `at`-th. With an empty queue nothing happens.
     * Otherwise the head job is sent: a `"sent:"` status drops it; any other status counts one
     * more attempt and records the status, then the job goes to the dead letters when it has used
     * its attempts and back to the tail of the queue otherwise.
     */
    method Step(at: nat) returns (status: Option<string>)
      requires Valid()
      modifies this, queue
      ensures Valid()
      ensures old(queue) == [] ==> status == None && queue == [] && deadLetters == old(deadLetters)
      ensures old(queue) != [] ==>
        var j := old(queue)[0];
        && status == Some(send(j.channel, j.channelId, j.text, j.threadId, at))
        && (Delivered(status.value) ==>
              queue == old(queue)[1..] && deadLetters == old(deadLetters) && unchanged(j))
        && (!Delivered(status.value) ==>
              && j.attempts == old(j.attempts) + 1 && j.lastError == Some(status.value)
              && (j.attempts >= j.maxAttempts ==> queue == old(queue)[1..] && deadLetters == old(deadLetters) + [j])
              && (j.attempts < j.maxAttempts ==> queue == old(queue)[1..] + [j] && deadLetters == old(deadLetters)))
      ensures forall i :: 1 <= i < |old(queue)| ==> unchanged(old(queue)[i])
    {
      if queue == [] {
        return None;
      }
      var job := queue[0];
      DistinctRotate(queue, job);
      queue := queue[1..];
      var s := send(job.channel, job.channelId, job.text, job.threadId, at);
      status := Some(s);
      if Delivered(s) {
        return;
      }
      job.attempts := job.attempts + 1;
      job.lastError := Some(s);
      if job.attempts >= job.maxAttempts {
        DistinctAppend(deadLetters, job);
        deadLetters := deadLetters + [job];
      } else {
        queue := queue + [job];
      }
    }
  }

  /**
   * With `max_attempts` 2 and a channel that always fails, a job is sent twice: it is requeued
   * after the first failure and dead-lettered after the second, with the last status recorded.
   * A channel that answers `"sent:…"` takes the job off the queue for good.
   */
  method RetryScenario() returns (failing: Snapshot, delivered: Snapshot)
    ensures failing.queued == 0 && failing.deadLettered == 1 && |failing.deadLetters| == 1
    ensures failing.deadLetters[0].attempts == 2 && failing.deadLetters[0].lastError == Some("failed: timeout")
    ensures delivered == Snapshot(0, 0, [])
  {
    var q := new RetryQueue((c: string, id: string, t: string, th: Option<string>, at: nat) => "failed: timeout", 2, 0.0);
    var job := q.Enqueue("out_1", "slack", "C1", "hello", None);
    assert !Delivered("failed: timeout") by {
      assert "failed: timeout"[..5][0] == 'f';
    }
    var st := q.Step(0);
    assert q.queue == [job] && job.attempts == 1;
    st := q.Step(1);
    failing := q.TakeSnapshot();
    var ok := new RetryQueue((c: string, id: string, t: string, th: Option<string>, at: nat) => "sent:slack", 0, -1.0);
    job := ok.Enqueue("out_2", "slack", "C1", "hello", None);
    assert Delivered("sent:slack") by {
      assert "sent:slack"[..5] == "sent:";
    }
    st := ok.Step(0);
    delivered := ok.TakeSnapshot();
  }

  /**
   * A transient failure: the channel fails the first send and accepts the retry. The job is
   * requeued once with the failure recorded, then leaves the queue without becoming a dead letter.
   */
  method TransientFailure() returns (job: Job, afterFailure: Snapshot, afterRetry: Snapshot)
    ensures afterFailure == Snapshot(1, 0, [])
    ensures afterRetry == Snapshot(0, 0, [])
    ensures job.attempts == 1 && job.lastError == Some("failed: timeout")
  {
    var q := new RetryQueue((c: string, id: string, t: string, th: Option<string>, at: nat) =>
      if at == 0 then "failed: timeout" else "sent:slack", 3, 0.0);
    job := q.Enqueue("out_1", "slack", "C1", "hello", None);
    assert !Delivered("failed: timeout") by {
      assert "failed: timeout"[..5][0] == 'f';
    }
    assert Delivered("sent:slack") by {
      assert "sent:slack"[..5] == "sent:";
    }
    var st := q.Step(0);
    afterFailure := q.TakeSnapshot();
    st := q.Step(1);
    afterRetry := q.TakeSnapshot();
  }
}
