// The process-local session store as the object it is, and the save of the
// gateway that goes through its atomic update. Sessions are values, so what a
// method takes or returns is detached from what the store keeps.
module SessionStoreObject {
  import opened Wrappers
  import opened TaskMerge

  class InMemorySessionStore {
    var sessions: Sessions

    constructor ()
      ensures sessions == map[]
    {
      sessions := map[];
    }

    method Get(sessionId: string) returns (session: Option<Session>)
      ensures session == if sessionId in sessions then Some(sessions[sessionId]) else None
    {
      if sessionId !in sessions {
        return None;
      }
      session := Some(sessions[sessionId]);
    }

    method Set(sessionId: string, session: Session)
      modifies this
      ensures sessions == old(sessions)[sessionId := session]
    {
      sessions := sessions[sessionId := session];
    }

    /** Atomic: nothing runs between reading the session and replacing or deleting it. */
    method Update(sessionId: string, updater: Session -> Option<Session>) returns (updated: Option<Session>)
      modifies this
      ensures (sessions, updated) == UpdateSession(old(sessions), sessionId, updater)
    {
      if sessionId !in sessions {
        return None;
      }
      updated := updater(sessions[sessionId]);
      if updated.None? {
        sessions := sessions - {sessionId};
      } else {
        sessions := sessions[sessionId := updated.value];
      }
    }

    method Delete(sessionId: string) returns (deleted: bool)
      modifies this
      ensures sessions == old(sessions) - {sessionId}
      ensures deleted <==> sessionId in old(sessions)
    {
      deleted := sessionId in sessions;
      sessions := sessions - {sessionId};
    }
  }

  /** The part of the protocol object that owns task state. */
  class McpTasks {
    const sessionStore: InMemorySessionStore

    constructor (sessionStore: InMemorySessionStore)
      ensures this.sessionStore == sessionStore
    {
      this.sessionStore := sessionStore;
    }

    /** The source sets `changed` from inside the atomic update. Here it is read just before: nothing runs in
        between, so the flag is the same. */
    method SaveTask(sessionId: string, authBinding: string, task: Task) returns (r: Result<Saved, SaveError>)
      modifies sessionStore
      ensures (sessionStore.sessions, r) == TaskMerge.SaveTask(old(sessionStore.sessions), sessionId, authBinding, task)
      ensures r != Err(TaskDisappeared)
    {
      hide PrefersCandidate, TerminalTask;
      SaveEffect(sessionStore.sessions, sessionId, authBinding, task);
      var existing := sessionStore.Get(sessionId);
      var changed := existing.Some? && existing.value.authBinding == authBinding
                     && PrefersCandidate(Lookup(existing.value, task.taskId), task);
      var updated := sessionStore.Update(sessionId, s => Some(MergeInto(s, authBinding, task)));
      if updated.None? || updated.value.authBinding != authBinding {
        return Err(SessionEnded);
      }
      if task.taskId !in updated.value.tasks {
        return Err(TaskDisappeared);
      }
      r := Ok(Saved(updated.value.tasks[task.taskId], changed));
    }

    /** Removes an expired task, unless the session now belongs to somebody else. */
    method ExpireTask(sessionId: string, authBinding: string, taskId: string)
      modifies sessionStore
      ensures sessionStore.sessions
           == UpdateSession(old(sessionStore.sessions), sessionId, s => Some(DropFrom(s, authBinding, taskId))).0
      ensures var before, after := old(sessionStore.sessions), sessionStore.sessions;
              && after.Keys == before.Keys
              && (forall sid <- before :: after[sid].authBinding == before[sid].authBinding)
              && (forall sid <- before :: sid != sessionId || before[sid].authBinding != authBinding ==>
                    after[sid].tasks == before[sid].tasks)
              && (sessionId in before && before[sessionId].authBinding == authBinding ==>
                    after[sessionId].tasks == before[sessionId].tasks - {taskId})
    {
      var updated := sessionStore.Update(sessionId, s => Some(DropFrom(s, authBinding, taskId)));
    }
  }
}
