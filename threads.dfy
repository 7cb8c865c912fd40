/**
 * The issue-to-thread mapping: for each issue created from chat, the channel
 * and the root post that later events about the issue are threaded under.
 * The enhanced and OAuth variants keep it in a database table keyed by issue
 * key with insert-or-replace; the bidirectional variant keeps it in a
 * process-wide dictionary. Both behave as the map below.
 */
module Threads {
  import opened Wrappers

  datatype ThreadInfo = ThreadInfo(
    channelId: string,
    username: string,
    channelName: string,
    teamDomain: string,
    createdAt: int,
    issueUrl: string,
    rootMessageId: Option<string>)

  class ThreadMap {
    var rows: map<string, ThreadInfo>

    constructor ()
      ensures rows == map[]
    {
      rows := map[];
    }

    /** `get_issue_thread_mapping`: the stored row, or None when the key is unknown. */
    function Get(issueKey: string): (r: Option<ThreadInfo>)
      reads this
      ensures r.Some? <==> issueKey in rows
      ensures r.Some? ==> r.value == rows[issueKey]
    {
      if issueKey in rows then Some(rows[issueKey]) else None
    }

    /**
     * `save_issue_thread_mapping` (insert or replace): afterwards the key reads
     * back as the new row and every other key reads back as before.
     */
    method Save(issueKey: string, info: ThreadInfo)
      modifies this
      ensures rows == old(rows)[issueKey := info]
      ensures Get(issueKey) == Some(info)
      ensures forall k :: k != issueKey ==> Get(k) == old(Get(k))
    {
      rows := rows[issueKey := info];
    }
  }
}
