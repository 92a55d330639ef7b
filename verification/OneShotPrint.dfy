/**
 What a worker prints. Its buffer is cleared once, before the loop, so a read shorter than an
 earlier one leaves the tail of that one behind it.
 */
module OneShotPrint {
  import opened Prelude
  import opened OneShotModel

  /** The buffer of a worker after the reads in `history`. */
  function Layered(history: seq<Bytes>): (r: Bytes)
    requires forall c | c in history :: |c| < BUFFER_SIZE
    ensures |r| == BUFFER_SIZE
    ensures history != [] ==> history[|history| - 1] <= r
  {
    if history == [] then ZeroBuffer()
    else
      var last := history[|history| - 1];
      last + Layered(history[..|history| - 1])[|last|..]
  }

  function Longest(history: seq<Bytes>): (m: nat)
    ensures forall c | c in history :: |c| <= m
    ensures m > 0 ==> exists c :: c in history && |c| == m
  {
    if history == [] then 0
    else
      var last := history[|history| - 1];
      var rest := history[..|history| - 1];
      assert history == rest + [last];
      var m := Longest(rest);
      if m <= |last| then |last| else m
  }

  predicate NulFree(c: Bytes) { forall k | 0 <= k < |c| :: c[k] != 0 }

  lemma {:induction false} LayeredShape(history: seq<Bytes>, k: nat)
    requires forall c | c in history :: |c| < BUFFER_SIZE && NulFree(c)
    requires k < BUFFER_SIZE
    ensures Layered(history)[k] == 0 <==> k >= Longest(history)
    decreases |history|
  {
    if history == [] {
    } else {
      LayeredShape(history[..|history| - 1], k);
    }
  }

  ghost predicate Buffers(s: State) {
    forall w: nat | w < |s.workers| :: BufferOk(s.workers[w])
  }

  ghost predicate BufferOk(worker: Worker) {
    && (forall c | c in worker.history :: 0 < |c| < BUFFER_SIZE)
    && worker.buf == Layered(worker.history)
    && (worker.pc.Holding? ==>
          worker.history != [] && worker.history[|worker.history| - 1] == worker.pc.chunk)
  }

  lemma TakeBuffer(worker: Worker, chunk: Bytes)
    requires BufferOk(worker) && 0 < |chunk| < BUFFER_SIZE
    ensures |worker.buf| == BUFFER_SIZE
    ensures BufferOk(worker.(pc := Holding(chunk), buf := chunk + worker.buf[|chunk|..], history := worker.history + [chunk]))
  {
    assert (worker.history + [chunk])[..|worker.history|] == worker.history;
  }

  lemma PastTheBuffer(worker: Worker, worker': Worker)
    requires BufferOk(worker) && worker'.buf == worker.buf && worker'.history == worker.history && !worker'.pc.Holding?
    ensures BufferOk(worker')
  {
  }

  lemma NewBuffer()
    ensures BufferOk(Worker(Starting, -1, ZeroBuffer(), []))
  {
  }

  lemma MoveBuffer(s: State, w: nat, n: nat)
    requires Legal(s, Move(w, n)) && BufferOk(s.workers[w])
    ensures |MoveWorker(s, w, n).workers| == |s.workers| && BufferOk(MoveWorker(s, w, n).workers[w])
    ensures forall v: nat | v < |s.workers| && v != w :: MoveWorker(s, w, n).workers[v] == s.workers[v]
  {
    hide BufferOk;
    var me, s' := s.workers[w], MoveWorker(s, w, n);
    if s'.workers[w].pc.Holding? && s'.workers[w] != me {
      TakeBuffer(me, s.socks[me.fd].queue[..n]);
    } else if s'.workers[w] != me {
      PastTheBuffer(me, s'.workers[w]);
    }
  }

  lemma BuffersStep(s: State, a: Action)
    requires Buffers(s) && Legal(s, a)
    ensures Buffers(Step(s, a))
  {
    hide BufferOk, MoveWorker;
    NewBuffer();
    if a.Move? {
      MoveBuffer(s, a.w, a.n);
    }
  }

  lemma {:induction false} BuffersRun(s: State, actions: seq<Action>)
    requires Buffers(s) && LegalRun(s, actions)
    ensures Buffers(Exec(s, actions))
    decreases |actions|
  {
    hide Buffers, Step, Legal;
    if actions == [] {
    } else {
      BuffersStep(s, actions[0]);
      BuffersRun(Step(s, actions[0]), actions[1..]);
    }
  }

  /**
   In every run, of text without zero bytes: what a worker prints is the chunk it has just
   received if and only if none of its earlier reads was longer.
   */
  lemma PrintedIsTheChunk(actions: seq<Action>, w: nat)
    requires LegalRun(Init(), actions) && w < |Exec(Init(), actions).workers|
    requires Exec(Init(), actions).workers[w].pc.Holding?
    requires forall c | c in Exec(Init(), actions).workers[w].history :: NulFree(c)
    ensures
      var worker := Exec(Init(), actions).workers[w];
      CString(worker.buf) == worker.pc.chunk <==> forall c | c in worker.history :: |c| <= |worker.pc.chunk|
  {
    BuffersRun(Init(), actions);
    var worker := Exec(Init(), actions).workers[w];
    PrintedText(worker);
  }

  lemma PrintedText(worker: Worker)
    requires BufferOk(worker) && worker.pc.Holding?
    requires forall c | c in worker.history :: NulFree(c)
    ensures CString(worker.buf) == worker.pc.chunk <==> forall c | c in worker.history :: |c| <= |worker.pc.chunk|
  {
    var h := worker.history;
    var m := Longest(h);
    assert worker.pc.chunk in h;
    var c :| c in h && |c| == m;
    assert m < BUFFER_SIZE;
    forall k: nat | k < m ensures worker.buf[k] != 0 {
      LayeredShape(h, k);
    }
    LayeredShape(h, m);
    CStringUnique(worker.buf, worker.buf[..m]);
    assert worker.buf[..|worker.pc.chunk|] == worker.pc.chunk;
  }
}
