/** The watcher's captures as steps of the upload protocol. */
module WatchCapture {
  import opened Drain
  import opened Protocol
  import opened Rollout
  import opened Spool
  import opened Watcher
  import ProtocolSafety

  /** The protocol step of a file's turn. */
  function TurnStep(watch: WatchEnv, file: Bytes, cursor: nat): Step
  {
    EnqueueManyStep(ToSpool(watch, PassEvents(watch.source, file, cursor)))
  }

  /** What a file's turn does to the spool is that step, and it commits exactly the ids the pass enters. */
  lemma TurnIsStep(env: Env, watch: WatchEnv, w: World, file: Bytes, cursor: nat)
    requires cursor <= |file|
    ensures FileTurn(watch, FileState(w.table, cursor), file, w.now).table
         == Next(env, w, TurnStep(watch, file, cursor)).table
    ensures ProtocolSafety.Captured(TurnStep(watch, file, cursor)) == SpoolIds(watch, PassEvents(watch.source, file, cursor))
  {
    ToSpoolIds(watch, PassEvents(watch.source, file, cursor));
    if PassOffset(file, cursor) == cursor {
      NothingNew(watch.source, file, cursor);
      assert WithIds(watch, Unnamed([])) == [];
    }
  }

  /** Whatever ran before and runs afterwards, every id a file's turn enters is at the end in the spool or
      held by the gateway. */
  lemma WatchedIsNeverLost(env: Env, watch: WatchEnv, before: seq<Step>, file: Bytes, cursor: nat, later: seq<Step>)
    requires cursor <= |file|
    ensures var w := Run(env, Protocol.Start, before + [TurnStep(watch, file, cursor)] + later);
            SpoolIds(watch, PassEvents(watch.source, file, cursor)) <= Ids(w.table.rows) + w.gateway
  {
    TurnIsStep(env, watch, Protocol.Start, file, cursor);
    var steps := before + [TurnStep(watch, file, cursor)] + later;
    assert steps[|before|] == TurnStep(watch, file, cursor);
    ProtocolSafety.NoSilentLoss(env, steps, |before|);
  }
}
