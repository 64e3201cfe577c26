/** The background job that waits for an uploaded document to be indexed by its
    vector store and then marks the file row ready. */
module FileJob {
  import opened Store

  /** What one `vectorStores.retrieve` call gives: the store's file counts, or an
      error thrown by the call. */
  datatype Observation = Counts(failed: int, completed: int) | RetrieveFailed

  datatype PollError = FileFailed | RetrieveError
  /** How the polling ends: the file is indexed after `polls` calls, the run throws,
      or it is still waiting after every observation given. */
  datatype PollOutcome = Activated(polls: nat) | Failed(error: PollError) | StillPolling

  /** An observation that ends the loop: a thrown retrieve, a failed file, or
      exactly one completed file. */
  predicate Terminal(o: Observation) {
    o.RetrieveFailed? || o.failed > 0 || o.completed == 1
  }

  /** How a terminal observation, as the `polls`-th call, ends the run. */
  function Verdict(o: Observation, polls: nat): PollOutcome
    requires Terminal(o)
  {
    if o.RetrieveFailed? then Failed(RetrieveError)
    else if o.failed > 0 then Failed(FileFailed)
    else Activated(polls)
  }

  /** The loop read as a function of the successive observations; `done` calls
      were made before these. */
  function Poll(obs: seq<Observation>, done: nat): PollOutcome
    decreases |obs|
  {
    if obs == [] then StillPolling
    else if Terminal(obs[0]) then Verdict(obs[0], done + 1)
    else Poll(obs[1..], done + 1)
  }

  /** The run's verdict is set by the first terminal observation, and nothing before
      it is terminal. */
  lemma {:induction false} PollFirstTerminal(obs: seq<Observation>, done: nat)
    ensures Poll(obs, done) != StillPolling <==> exists k :: 0 <= k < |obs| && Terminal(obs[k])
    ensures Poll(obs, done) != StillPolling ==>
      exists k :: 0 <= k < |obs| && Terminal(obs[k]) && (forall j :: 0 <= j < k ==> !Terminal(obs[j]))
                  && Poll(obs, done) == Verdict(obs[k], done + k + 1)
  {
    if obs != [] && !Terminal(obs[0]) {
      PollFirstTerminal(obs[1..], done + 1);
      if Poll(obs, done) != StillPolling {
        var k :| 0 <= k < |obs[1..]| && Terminal(obs[1..][k]) && (forall j :: 0 <= j < k ==> !Terminal(obs[1..][j]))
                 && Poll(obs[1..], done + 1) == Verdict(obs[1..][k], done + 1 + k + 1);
        assert obs[k + 1] == obs[1..][k];
        assert forall j :: 1 <= j < k + 1 ==> obs[j] == obs[1..][j - 1];
      }
      if exists k :: 0 <= k < |obs| && Terminal(obs[k]) {
        var k :| 0 <= k < |obs| && Terminal(obs[k]);
        assert obs[1..][k - 1] == obs[k];
      }
    }
  }

  /** Observations after the run has ended make no difference. */
  lemma {:induction false} PollIgnoresLater(obs: seq<Observation>, more: seq<Observation>, done: nat)
    requires Poll(obs, done) != StillPolling
    ensures Poll(obs + more, done) == Poll(obs, done)
  {
    assert (obs + more)[0] == obs[0];
    if !Terminal(obs[0]) {
      assert (obs + more)[1..] == obs[1..] + more;
      PollIgnoresLater(obs[1..], more, done + 1);
    }
  }

  /** `ActivateChatgptFileJob.handle`, polling over the observations `obs` (the
      three-second sleep between polls is not modelled): the file row is marked ready
      when the store reports exactly one completed file and none failed, and a
      missing row is silently skipped. */
  method Handle(db: Db, payload: FilePayload, obs: seq<Observation>) returns (outcome: PollOutcome)
    requires db.Valid()
    modifies db.files
    ensures db.Valid() && db.files.next == old(db.files.next)
    ensures outcome == Poll(obs, 0)
    ensures outcome.Activated? && payload.fileId in old(db.files.rows) ==>
      db.files.rows == old(db.files.rows)[payload.fileId := old(db.files.rows[payload.fileId]).(isReady := true)]
    ensures !(outcome.Activated? && payload.fileId in old(db.files.rows)) ==> db.files.rows == old(db.files.rows)
  {
    var i := 0;
    while i < |obs|
      invariant 0 <= i <= |obs|
      invariant forall j :: 0 <= j < i ==> !Terminal(obs[j])
      invariant Poll(obs, 0) == Poll(obs[i..], i)
    {
      var o := obs[i];
      if o.RetrieveFailed? {
        return Failed(RetrieveError);
      }
      if o.failed > 0 {
        return Failed(FileFailed);
      }
      if o.completed == 1 {
        if payload.fileId in db.files.rows {
          var file := db.files.rows[payload.fileId];
          db.files.Save(payload.fileId, file.(isReady := true));
        }
        return Activated(i + 1);
      }
      assert obs[i..][1..] == obs[i + 1..];
      i := i + 1;
    }
    outcome := StillPolling;
  }

  /** `ActivateChatgptFileJob.rescue` does nothing: a file whose indexing failed stays
      not ready. */
  method Rescue(db: Db, payload: FilePayload)
    ensures unchanged(db.files)
  {
  }
}
