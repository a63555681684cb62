/** The sessions that all connections share, by global id. */
module SessionStores {
  import opened Options
  import opened Ids
  import opened Sessions

  class SessionStore {
    const serverID: string
    const ids: SequentialIDGenerator
    var sessions: map<string, Session>

    constructor (serverID: string)
      ensures this.serverID == serverID && sessions == map[] && Keyed() && Partitioned({})
      ensures fresh(ids)
    {
      this.serverID, sessions := serverID, map[];
      ids := new SequentialIDGenerator();
      new;
      assert LiveIDs() == {};
    }

    function GlobalID(session: Session): string {
      GlobalSessionID(serverID, session.id)
    }

    /** Sessions are stored under their global ids. */
    ghost predicate Keyed()
      reads this`sessions
    {
      forall key :: key in sessions ==> key == GlobalID(sessions[key])
    }

    ghost function LiveIDs(): set<nat>
      reads this`sessions
    {
      set key | key in sessions :: sessions[key].id
    }

    lemma KeyedAt(key: string)
      requires Keyed()
      ensures key in sessions ==> GlobalID(sessions[key]) == key
    {
    }

    lemma Live()
      ensures forall key :: key in sessions ==> sessions[key].id in LiveIDs()
    {
    }

    /** The ids of stored sessions, those just handed out, and the reusable ones partition 1..currentID. */
    ghost predicate Partitioned(pending: set<nat>)
      reads this`sessions, ids`currentID, ids`reusableIDs
    {
      pending !! LiveIDs() && ids.View().Partitions(LiveIDs() + pending)
    }

    /** An id that no stored session has. */
    method NewID() returns (id: nat)
      requires Keyed() && Partitioned({})
      modifies ids`currentID, ids`reusableIDs
      ensures old(ids.View()).CanPick(id) && ids.View() == old(ids.View()).Take(id)
      ensures id !in LiveIDs() && GlobalSessionID(serverID, id) !in sessions && Partitioned({id})
    {
      assert LiveIDs() + {} == LiveIDs();
      id := ids.New();
      TakeKeepsPartition(old(ids.View()), LiveIDs(), id);
      if GlobalSessionID(serverID, id) in sessions {
        GlobalIDInjective(serverID, id, sessions[GlobalSessionID(serverID, id)].id);
        assert false;
      }
    }

    method Add(session: Session)
      requires Keyed() && Partitioned({session.id})
      modifies this`sessions
      ensures Keyed() && Partitioned({}) && sessions == old(sessions)[GlobalID(session) := session]
    {
      sessions := sessions[GlobalID(session) := session];
      AddedLive(old(sessions), session);
      assert LiveIDs() + {} == old(LiveIDs()) + {session.id};
    }

    lemma AddedLive(before: map<string, Session>, session: Session)
      requires sessions == before[GlobalID(session) := session]
      requires forall key :: key in before ==> key == GlobalID(before[key])
      ensures LiveIDs() == (set key | key in before :: before[key].id) + {session.id}
    {
      var live := set key | key in before :: before[key].id;
      assert sessions[GlobalID(session)] == session;
      forall id ensures id in LiveIDs() <==> id in live || id == session.id {
        if id in live && id != session.id {
          var key :| key in before && before[key].id == id;
          if key == GlobalID(session) {
            GlobalIDInjective(serverID, id, session.id);
            assert false;
          }
          assert key in sessions && sessions[key].id == id;
        }
      }
    }

    method Remove(session: Session)
      requires Keyed() && Partitioned({}) && GlobalID(session) in sessions && sessions[GlobalID(session)] == session
      modifies this`sessions, ids`reusableIDs
      ensures Keyed() && Partitioned({}) && sessions == old(sessions) - {GlobalID(session)}
      ensures ids.View() == old(ids.View()).Return(session.id)
    {
      assert LiveIDs() + {} == LiveIDs();
      sessions := sessions - {GlobalID(session)};
      ids.Reuse(session.id);
      ReturnKeepsPartition(old(ids.View()), old(LiveIDs()), session.id);
      RemovedLive(old(sessions), session);
      assert LiveIDs() + {} == LiveIDs();
    }

    lemma RemovedLive(before: map<string, Session>, session: Session)
      requires GlobalID(session) in before && before[GlobalID(session)] == session && sessions == before - {GlobalID(session)}
      requires forall key :: key in before ==> key == GlobalID(before[key])
      ensures LiveIDs() == (set key | key in before :: before[key].id) - {session.id}
    {
      var live := set key | key in before :: before[key].id;
      forall id ensures id in LiveIDs() <==> id in live && id != session.id {
        if id in live && id != session.id {
          var key :| key in before && before[key].id == id;
          assert key in sessions;
        }
      }
    }

    function GetByGlobalID(globalID: string): (found: Option<Session>)
      reads this`sessions
      ensures found == None <==> globalID !in sessions
      ensures found.Some? ==> found.value == sessions[globalID]
    {
      if globalID in sessions then Some(sessions[globalID]) else None
    }
  }
}
