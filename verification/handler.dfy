/** The client's serial `Handler`: one worker thread runs posted tasks one at
    a time, in the order they were posted.  A delayed post waits in a separate
    list until its delay elapses (no clock is modelled: "the delay elapsed" is
    an event), and `removeCallbacksAndMessages(null)` drops both lists. */
module Handler {

  datatype Queue<T> = Queue(ready: seq<T>, delayed: seq<T>)

  function Empty<T>(): Queue<T>
  {
    Queue([], [])
  }

  /** `post`. */
  function Post<T>(q: Queue<T>, t: T): (r: Queue<T>)
  {
    q.(ready := q.ready + [t])
  }

  /** `postDelayed`. */
  function PostDelayed<T>(q: Queue<T>, t: T): (r: Queue<T>)
  {
    q.(delayed := q.delayed + [t])
  }

  /** The delay of delayed task `i` elapsed: it joins the ready tasks. */
  function Elapse<T>(q: Queue<T>, i: nat): (r: Queue<T>)
    requires i < |q.delayed|
  {
    Queue(q.ready + [q.delayed[i]], q.delayed[..i] + q.delayed[i + 1..])
  }

  /** The queue once the worker has taken the oldest ready task. */
  function Rest<T>(q: Queue<T>): (r: Queue<T>)
    requires |q.ready| > 0
  {
    q.(ready := q.ready[1..])
  }

  /** `removeCallbacksAndMessages(null)`. */
  function Clear<T>(q: Queue<T>): (r: Queue<T>)
  {
    Empty()
  }

  /** First in, first out: a post does not change which task runs next, and
      the posted task waits behind the rest. */
  lemma PostKeepsOrder<T>(q: Queue<T>, t: T)
    requires |q.ready| > 0
    ensures Post(q, t).ready[0] == q.ready[0]
    ensures Rest(Post(q, t)) == Post(Rest(q), t)
  {
  }
}
