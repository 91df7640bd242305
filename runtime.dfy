/** The collaborators the controller changes besides the Torrent table:
    the queue publisher (an outbox), the webtorrent client's table of
    live sessions, and the users' lists of torrent ids. */
module Runtime {
  import opened Seqs
  import opened Types

  /** `publisherChannel`: every `sendToQueue` call, in order. */
  class Publisher {
    var sent: seq<Outgoing>

    constructor ()
      ensures sent == []
    {
      sent := [];
    }

    method SendToQueue(queue: QueueName, body: Message, options: PublishOptions)
      modifies this
      ensures sent == old(sent) + [Outgoing(queue, body, options)]
    {
      sent := sent + [Outgoing(queue, body, options)];
    }
  }

  /** The webtorrent client: at most one live session per info-hash. */
  class Client {
    var sessions: map<string, Session>

    constructor ()
      ensures sessions == map[]
    {
      sessions := map[];
    }

    /** `client.get(infoHash)`: null when the record has no info-hash yet
        or no session runs under it. */
    function Get(infoHash: Option<string>): (r: Option<Session>)
      reads this
    {
      LiveSession(sessions, infoHash)
    }

    /** `torrent.destroy()`: the session leaves the client. */
    method Destroy(infoHash: string)
      modifies this
      ensures sessions == old(sessions) - {infoHash}
    {
      sessions := sessions - {infoHash};
    }
  }

  /** The session running under an info-hash, if any. */
  function LiveSession(sessions: map<string, Session>, infoHash: Option<string>): (r: Option<Session>)
    ensures r.Some? <==> infoHash.Some? && infoHash.value in sessions
    ensures r.Some? ==> r.value == sessions[infoHash.value]
  {
    if infoHash.Some? && infoHash.value in sessions then Some(sessions[infoHash.value]) else None
  }

  /** `$push: { torrents: id }` on the user with the given id; nothing when
      there is no such user. */
  function PushTo(lists: map<Id, seq<Id>>, user: Id, id: Id): (r: map<Id, seq<Id>>)
    ensures r.Keys == lists.Keys
    ensures forall u :: u in lists && u != user ==> r[u] == lists[u]
    ensures user in lists ==>
      && |r[user]| == |lists[user]| + 1
      && r[user][..|lists[user]|] == lists[user]
      && r[user][|lists[user]|] == id
  {
    if user in lists then lists[user := lists[user] + [id]] else lists
  }

  /** An id different from `id`. */
  function OtherThan(id: Id): Id -> bool { (x: Id) => x != id }

  /** `$pull: { torrents: id }` on the user with the given id: every
      occurrence goes, the other ids stay in order. */
  function PullFrom(lists: map<Id, seq<Id>>, user: Id, id: Id): (r: map<Id, seq<Id>>)
    ensures r.Keys == lists.Keys
    ensures forall u :: u in lists && u != user ==> r[u] == lists[u]
    ensures user in lists ==> id !in r[user]
    ensures user in lists ==> forall k :: 0 <= k < |lists[user]| && lists[user][k] != id ==> lists[user][k] in r[user]
    ensures user in lists ==> forall x :: x in r[user] ==> x in lists[user] && x != id
    ensures user in lists ==> r[user] == Filter(lists[user], OtherThan(id))
  {
    if user in lists then lists[user := Filter(lists[user], OtherThan(id))] else lists
  }

  /** The users' `torrents` lists. */
  class UserTable {
    var torrents: map<Id, seq<Id>>

    constructor ()
      ensures torrents == map[]
    {
      torrents := map[];
    }

    method PushTorrent(user: Id, id: Id)
      modifies this
      ensures torrents == PushTo(old(torrents), user, id)
    {
      torrents := PushTo(torrents, user, id);
    }

    method PullTorrent(user: Id, id: Id)
      modifies this
      ensures torrents == PullFrom(old(torrents), user, id)
    {
      torrents := PullFrom(torrents, user, id);
    }
  }
}
