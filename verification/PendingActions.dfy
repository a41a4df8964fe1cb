/**
 * The wire conversation and the store of suspended agent turns
 * (apps/server/src/assistant/llm-provider.ts and pending-action.store.ts).
 */
module PendingActions {
  import opened Wrappers
  import opened CallAssembly

  datatype Msg =
    | System(content: string)
    | User(content: string)
    | Assistant(text: Option<string>, calls: seq<CapturedCall>)
    | ToolResult(callId: string, name: string, content: string)

  /** A paused turn; `index` names the call that awaits confirmation. */
  datatype PendingRecord = PendingRecord(
    id: string, userId: string, agentId: string,
    messages: seq<Msg>, calls: seq<CapturedCall>, index: nat, createdAt: int)

  type PendingAction = p: PendingRecord | p.index < |p.calls|
    witness PendingRecord("", "", "", [], [CapturedCall("", "", "")], 0, 0)

  type Store = map<string, PendingAction>

  const TTL_MS: int := 10 * 60 * 1000

  function Swept(store: Store, now: int): Store {
    map id | id in store && !(now - store[id].createdAt > TTL_MS) :: store[id]
  }

  function Created(store: Store, p: PendingAction): Store {
    Swept(store, p.createdAt)[p.id := p]
  }

  /** Fetch and remove; nothing for another user or after the time to live. */
  function Taken(store: Store, id: string, userId: string, now: int): (Store, Option<PendingAction>) {
    if id !in store then (store, None)
    else
      var p := store[id];
      (store - {id}, if p.userId != userId || now - p.createdAt > TTL_MS then None else Some(p))
  }

  class PendingActionStore {
    var entries: Store

    constructor ()
      ensures entries == map[]
    {
      entries := map[];
    }

    /** `id` and `now` stand for the random id and the clock. */
    method Create(userId: string, agentId: string, messages: seq<Msg>, calls: seq<CapturedCall>, index: nat,
                  id: string, now: int)
      requires index < |calls|
      modifies this
      ensures entries == Created(old(entries), PendingRecord(id, userId, agentId, messages, calls, index, now))
    {
      Sweep(now);
      entries := entries[id := PendingRecord(id, userId, agentId, messages, calls, index, now)];
    }

    method Take(id: string, userId: string, now: int) returns (taken: Option<PendingAction>)
      modifies this
      ensures (entries, taken) == Taken(old(entries), id, userId, now)
    {
      if id !in entries {
        return None;
      }
      var p := entries[id];
      entries := entries - {id};
      if p.userId != userId {
        return None;
      }
      if now - p.createdAt > TTL_MS {
        return None;
      }
      return Some(p);
    }

    method Sweep(now: int)
      modifies this
      ensures entries == Swept(old(entries), now)
    {
      var todo := entries.Keys;
      while todo != {}
        invariant todo <= old(entries).Keys
        invariant entries == map id | id in old(entries)
                  && (id in todo || !(now - old(entries)[id].createdAt > TTL_MS)) :: old(entries)[id]
        decreases todo
      {
        var id :| id in todo;
        if now - entries[id].createdAt > TTL_MS {
          entries := entries - {id};
        }
        todo := todo - {id};
      }
    }
  }
}
