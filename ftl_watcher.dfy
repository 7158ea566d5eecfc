/**
 * The resolver watcher: every poll asks for the resolver's status and
 * publishes the full status when it differs from the last status it
 * recorded. The record is only updated after a publish that did not raise,
 * so a failed publish is tried again on the next poll. The endless loop and
 * its two-second sleep are modelled as a finite sequence of polls.
 */
module FtlWatcher {
  import opened Wrappers
  import opened SystemProbe
  import opened StatusApi
  import opened MqttBridge

  /** One poll: the resolver status it read, and whether the full-status publish would return normally. */
  datatype Poll = Poll(status: string, publishSucceeded: bool)

  /** The poll a system in the state `run` produces: the resolver status, and whether publishing the full status raises. */
  function PollOf(settings: Settings, run: Runner, durationMs: int): (p: Poll)
    ensures p.status == FtlStatus(run(FtlArgv))
    ensures p.publishSucceeded <==> ProbeKeepalived(settings, run).value.Ok?
  {
    Poll(FtlStatus(run(FtlArgv)), PublishFullStatus(settings, run, durationMs).value.Ok?)
  }

  /** Whether a poll publishes, given the recorded status: always while nothing is recorded. */
  predicate Fires(last: Option<string>, p: Poll)
    ensures last.None? ==> Fires(last, p)
  {
    Some(p.status) != last
  }

  /**
   * The recorded status after one poll: it moves only at a publish that
   * returned normally, and then to the polled status.
   */
  function Next(last: Option<string>, p: Poll): (r: Option<string>)
    ensures r != last ==> r == Some(p.status) && p.publishSucceeded
    ensures Fires(last, p) && p.publishSucceeded ==> r == Some(p.status)
    ensures !p.publishSucceeded ==> r == last
  {
    if Fires(last, p) && p.publishSucceeded then Some(p.status) else last
  }

  /** The recorded status after a sequence of polls, starting from none: none, or the status some poll read. */
  function LastSeen(polls: seq<Poll>): (r: Option<string>)
    ensures r.Some? ==> exists i :: 0 <= i < |polls| && r == Some(polls[i].status)
  {
    if polls == [] then None
    else
      var prefix := polls[..|polls| - 1];
      assert forall i :: 0 <= i < |prefix| ==> prefix[i] == polls[i];
      Next(LastSeen(prefix), polls[|polls| - 1])
  }

  /** Extending the per-poll flags of all but the last poll by the last poll's flag gives the per-poll flags of all of them. */
  lemma AttemptsExtend(polls: seq<Poll>, flags: seq<bool>)
    requires polls != [] && |flags| == |polls| - 1
    requires forall i :: 0 <= i < |flags| ==>
      flags[i] == Fires(LastSeen(polls[..|polls| - 1][..i]), polls[..|polls| - 1][i])
    ensures var r := flags + [Fires(LastSeen(polls[..|polls| - 1]), polls[|polls| - 1])];
      forall i :: 0 <= i < |polls| ==> r[i] == Fires(LastSeen(polls[..i]), polls[i])
  {
    var prefix := polls[..|polls| - 1];
    var r := flags + [Fires(LastSeen(prefix), polls[|polls| - 1])];
    forall i | 0 <= i < |polls|
      ensures r[i] == Fires(LastSeen(polls[..i]), polls[i])
    {
      if i < |prefix| {
        assert prefix[..i] == polls[..i];
      } else {
        assert prefix == polls[..i];
      }
    }
  }

  /** For each poll, whether it published: poll i fires exactly when its status differs from the one recorded before it. */
  function Attempts(polls: seq<Poll>): (r: seq<bool>)
    ensures |r| == |polls|
    ensures forall i :: 0 <= i < |polls| ==> r[i] == Fires(LastSeen(polls[..i]), polls[i])
  {
    if polls == [] then []
    else
      var prefix := polls[..|polls| - 1];
      var flags := Attempts(prefix);
      AttemptsExtend(polls, flags);
      flags + [Fires(LastSeen(prefix), polls[|polls| - 1])]
  }

  /** How many publishes returned normally: at most one per poll, and the first poll's counts when it returned normally. */
  function Published(polls: seq<Poll>): (r: nat)
    ensures r <= |polls|
    ensures polls != [] && polls[0].publishSucceeded ==> r >= 1
  {
    if polls == [] then 0
    else
      var prefix, p := polls[..|polls| - 1], polls[|polls| - 1];
      assert prefix != [] ==> prefix[0] == polls[0];
      Published(prefix) + if Fires(LastSeen(prefix), p) && p.publishSucceeded then 1 else 0
  }

  /**
   * `publish_ftl_status_changes` over a finite run of polls: which polls
   * published, how many publishes returned normally, and the status
   * recorded at the end.
   */
  method PublishFtlStatusChanges(polls: seq<Poll>) returns (fired: seq<bool>, published: nat, last: Option<string>)
    ensures fired == Attempts(polls)
    ensures published == Published(polls)
    ensures last == LastSeen(polls)
  {
    fired, published, last := [], 0, None;
    for i := 0 to |polls|
      invariant fired == Attempts(polls[..i])
      invariant published == Published(polls[..i])
      invariant last == LastSeen(polls[..i])
    {
      assert polls[..i + 1][..i] == polls[..i];
      var current := polls[i].status;
      if Some(current) != last {
        fired := fired + [true];
        if polls[i].publishSucceeded {
          published := published + 1;
          last := Some(current);
        }
      } else {
        fired := fired + [false];
      }
    }
    assert polls[..|polls|] == polls;
  }
}
