/** Properties of the resolver watcher. */
module FtlWatcherFacts {
  import opened Wrappers
  import opened FtlWatcher

  /** The recorded status after one more poll. */
  lemma LastSeenSnoc(polls: seq<Poll>, i: int)
    requires 0 <= i < |polls|
    ensures LastSeen(polls[..i + 1]) == Next(LastSeen(polls[..i]), polls[i])
  {
    assert polls[..i + 1][..i] == polls[..i];
  }

  /** The first poll always publishes: nothing has been recorded yet. */
  lemma FirstPollPublishes(polls: seq<Poll>)
    requires |polls| > 0
    ensures Attempts(polls)[0]
  {
    assert polls[..0] == [];
  }

  /** A publish that raised is tried again on the next poll when the status is unchanged. */
  lemma FailedPublishRetried(polls: seq<Poll>, i: int)
    requires 0 <= i < |polls| - 1
    requires Attempts(polls)[i] && !polls[i].publishSucceeded
    requires polls[i + 1].status == polls[i].status
    ensures Attempts(polls)[i + 1]
  {
    LastSeenSnoc(polls, i);
  }

  /** After a publish that returned normally, an unchanged status does not publish again. */
  lemma UnchangedStatusQuiet(polls: seq<Poll>, i: int)
    requires 0 <= i < |polls| - 1
    requires Attempts(polls)[i] && polls[i].publishSucceeded
    requires polls[i + 1].status == polls[i].status
    ensures !Attempts(polls)[i + 1]
  {
    LastSeenSnoc(polls, i);
  }

  /** A changed status always publishes when the previous poll's publish returned normally. */
  lemma ChangedStatusPublishes(polls: seq<Poll>, i: int)
    requires 0 <= i < |polls| - 1
    requires polls[i].publishSucceeded
    requires polls[i + 1].status != polls[i].status
    ensures Attempts(polls)[i + 1]
  {
    LastSeenSnoc(polls, i);
  }

  /** The number of adjacent polls whose status differs. */
  function Changes(polls: seq<Poll>): nat {
    if |polls| <= 1 then 0
    else Changes(polls[..|polls| - 1]) + if polls[|polls| - 1].status != polls[|polls| - 2].status then 1 else 0
  }

  /**
   * When every publish returns normally, the watcher publishes once at the
   * start and once per change of the resolver status, and the recorded
   * status is the latest one.
   */
  lemma {:induction false} PublishesFollowChanges(polls: seq<Poll>)
    requires |polls| > 0
    requires forall i :: 0 <= i < |polls| ==> polls[i].publishSucceeded
    ensures LastSeen(polls) == Some(polls[|polls| - 1].status)
    ensures Published(polls) == 1 + Changes(polls)
  {
    var prefix := polls[..|polls| - 1];
    if |polls| > 1 {
      assert forall i :: 0 <= i < |prefix| ==> prefix[i].publishSucceeded;
      PublishesFollowChanges(prefix);
      assert prefix[|prefix| - 1] == polls[|polls| - 2];
      assert polls[..|polls| - 1][..|polls| - 2] == polls[..|polls| - 2];
    }
  }
}
