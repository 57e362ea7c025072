/**
 * Messages, sessions and the session table the front end keeps: the
 * history service's mapping from session id to transcript, in the order its
 * keys arrive.
 */
module Messages {
  import opened Wrappers

  datatype Role = User | Assistant

  /** `{ role, content }`: one line of a transcript. */
  datatype Message = Message(role: Role, content: string)

  /** One key of the history mapping with its transcript. */
  datatype Session = Session(id: string, messages: seq<Message>)

  /** No id occurs twice: the table comes from the keys of one object. */
  predicate DistinctIds(t: seq<Session>) {
    forall i, j :: 0 <= i < j < |t| ==> t[i].id != t[j].id
  }

  /** The history mapping, as an insertion-ordered list of its entries. */
  type SessionTable = t: seq<Session> | DistinctIds(t) witness []

  /** `sessions[id]`: the transcript stored under `id`, or `None` when the
      table has no such key. */
  function Lookup(t: seq<Session>, id: string): (r: Option<seq<Message>>)
    ensures r.Some? ==> exists k :: 0 <= k < |t| && t[k].id == id && t[k].messages == r.value
  {
    if t == [] then None
    else if t[0].id == id then Some(t[0].messages)
    else Lookup(t[1..], id)
  }

  /** `sessions[id] || []`: a stored transcript, empty for an unknown key. */
  function StoredOrEmpty(t: SessionTable, id: string): (ms: seq<Message>)
    ensures forall k :: 0 <= k < |t| && t[k].id == id ==> ms == t[k].messages
    ensures (forall k :: 0 <= k < |t| ==> t[k].id != id) ==> ms == []
  {
    LookupMisses(t, id);
    forall k | 0 <= k < |t| && t[k].id == id ensures Lookup(t, id) == Some(t[k].messages) {
      LookupFinds(t, k);
    }
    match Lookup(t, id)
    case Some(ms) => ms
    case None => []
  }

  /** Looking up the id of an entry finds that entry's transcript. */
  lemma {:induction false} LookupFinds(t: SessionTable, k: nat)
    requires k < |t|
    ensures Lookup(t, t[k].id) == Some(t[k].messages)
  {
    if k > 0 {
      assert t[0].id != t[k].id;
      var rest: SessionTable := t[1..];
      assert rest[k - 1] == t[k];
      LookupFinds(rest, k - 1);
    }
  }

  /** A lookup misses exactly when no entry carries the id. */
  lemma {:induction false} LookupMisses(t: seq<Session>, id: string)
    ensures Lookup(t, id).None? <==> forall k :: 0 <= k < |t| ==> t[k].id != id
  {
    if t != [] && t[0].id != id {
      LookupMisses(t[1..], id);
      assert forall k :: 1 <= k < |t| ==> t[k] == t[1..][k - 1];
    }
  }
}
