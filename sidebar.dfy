/**
 * The side panel: the session ids newest first, each with a short title
 * taken from its last message, and the current session highlighted.
 */
module Sidebar {
  import opened Messages

  /** `Object.keys(sessions).reverse()`: the ids, last inserted first. */
  function SessionIds(t: seq<Session>): (ids: seq<string>)
    ensures |ids| == |t|
    ensures forall i :: 0 <= i < |t| ==> ids[i] == t[|t| - 1 - i].id
  {
    if t == [] then [] else SessionIds(t[1..]) + [t[0].id]
  }

  /** The listing names every key of the table once and nothing else. */
  lemma SessionIdsListKeysOnce(t: SessionTable)
    ensures forall i, j :: 0 <= i < j < |t| ==> SessionIds(t)[i] != SessionIds(t)[j]
    ensures forall id :: id in SessionIds(t) <==> Lookup(t, id).Some?
  {
    var ids := SessionIds(t);
    forall id ensures id in ids <==> Lookup(t, id).Some? {
      LookupMisses(t, id);
      if id in ids {
        var i :| 0 <= i < |ids| && ids[i] == id;
        assert t[|t| - 1 - i].id == id;
      } else {
        forall k | 0 <= k < |t| ensures t[k].id != id {
          assert ids[|t| - 1 - k] == t[k].id;
        }
      }
    }
  }

  /** How many characters of the last message a title shows. */
  const TitleLength := 30

  /** The last message's content cut to its first 30 characters, with
      `...` appended when something was cut. */
  function Truncated(content: string): string {
    if |content| > TitleLength then content[..TitleLength] + "..." else content
  }

  /** The title the side panel shows for a transcript, exactly as the
      expression that builds it evaluates: with no last message the optional
      chain yields `undefined`, which concatenation turns into the string
      "undefined"; an empty result falls back to "Empty Chat". */
  function TitleAsWritten(msgs: seq<Message>): (title: string)
    ensures title != "" && |title| <= TitleLength + 3
    ensures msgs == [] ==> title == "undefined"
    ensures msgs != [] && msgs[|msgs| - 1].content == "" ==> title == "Empty Chat"
  {
    var shown := if msgs == [] then "undefined" else Truncated(msgs[|msgs| - 1].content);
    if shown == "" then "Empty Chat" else shown
  }

  /** A session with no messages is listed as "undefined". */
  lemma EmptySessionTitledUndefined()
    ensures TitleAsWritten([]) == "undefined"
  {
  }

  /** The title for a transcript, with the fallback "Empty Chat" also
      covering a transcript with no messages. A non-empty last message shows
      whole when it fits in 30 characters and otherwise as its first 30
      followed by `...`. */
  function Title(msgs: seq<Message>): (title: string)
    ensures title != "" && |title| <= TitleLength + 3
    ensures msgs == [] || msgs[|msgs| - 1].content == "" ==> title == "Empty Chat"
    ensures msgs != [] && 0 < |msgs[|msgs| - 1].content| <= TitleLength ==> title == msgs[|msgs| - 1].content
    ensures msgs != [] && |msgs[|msgs| - 1].content| > TitleLength ==>
              && |title| == TitleLength + 3
              && title[..TitleLength] == msgs[|msgs| - 1].content[..TitleLength]
              && title[TitleLength..] == "..."
    ensures msgs != [] ==> title == TitleAsWritten(msgs)
  {
    var shown := if msgs == [] then "" else Truncated(msgs[|msgs| - 1].content);
    if shown == "" then "Empty Chat" else shown
  }

  /** One row of the side panel. */
  datatype Entry = Entry(id: string, title: string, highlighted: bool)

  /** Looking up a listed id finds the transcript of the entry it was
      listed for. */
  lemma StoredAtListed(t: SessionTable)
    ensures forall i :: 0 <= i < |t| ==> StoredOrEmpty(t, SessionIds(t)[i]) == t[|t| - 1 - i].messages
  {
    forall i | 0 <= i < |t| ensures StoredOrEmpty(t, SessionIds(t)[i]) == t[|t| - 1 - i].messages {
      LookupFinds(t, |t| - 1 - i);
    }
  }

  /** The rows the side panel renders: ids newest first, each titled by the
      expression as written from the transcript stored under it, and
      highlighted when it is the current id. */
  function EntriesAsWritten(t: SessionTable, current: string): (es: seq<Entry>)
    ensures |es| == |t|
    ensures forall i :: 0 <= i < |es| ==>
              && es[i].id == t[|t| - 1 - i].id
              && es[i].title == TitleAsWritten(t[|t| - 1 - i].messages)
              && (es[i].highlighted <==> es[i].id == current)
  {
    var ids := SessionIds(t);
    StoredAtListed(t);
    seq(|t|, i requires 0 <= i < |t| => Entry(ids[i], TitleAsWritten(StoredOrEmpty(t, ids[i])), ids[i] == current))
  }

  /** The rows with the corrected title, so that a session with no messages
      is listed as "Empty Chat". */
  function Entries(t: SessionTable, current: string): (es: seq<Entry>)
    ensures |es| == |t|
    ensures forall i :: 0 <= i < |es| ==>
              && es[i].id == t[|t| - 1 - i].id
              && es[i].title == Title(t[|t| - 1 - i].messages)
              && (es[i].highlighted <==> es[i].id == current)
  {
    var ids := SessionIds(t);
    StoredAtListed(t);
    seq(|t|, i requires 0 <= i < |t| => Entry(ids[i], Title(StoredOrEmpty(t, ids[i])), ids[i] == current))
  }

  /** The corrected rows differ from the rendered ones only in the title of
      a session with no messages, which is "undefined" as rendered. */
  lemma EntriesCorrectOnlyEmptySessions(t: SessionTable, current: string, i: nat)
    requires i < |t|
    ensures var (shown, fixed) := (EntriesAsWritten(t, current)[i], Entries(t, current)[i]);
      && shown.id == fixed.id && shown.highlighted == fixed.highlighted
      && (shown.title == fixed.title <==> t[|t| - 1 - i].messages != [])
  {
  }

  /** At most one rendered row is highlighted, and it is the current session's. */
  lemma AtMostOneHighlighted(t: SessionTable, current: string, i: nat, j: nat)
    requires i < |t| && j < |t|
    requires EntriesAsWritten(t, current)[i].highlighted && EntriesAsWritten(t, current)[j].highlighted
    ensures i == j && EntriesAsWritten(t, current)[i].id == current
  {
  }
}
