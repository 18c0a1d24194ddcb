/** The message and source records the client receives from the server. */
module ChatTypes {
  import opened Base

  /** A cited news article attached to an assistant reply. */
  datatype Source = Source(title: string, url: string, publishedAt: Option<string>)

  /**
   * A chat message. `role` is the raw string the server sends ("user" or
   * "assistant"; the client compares it literally). `sources` is None when the
   * payload has no `sources` field.
   */
  datatype Message = Message(id: string, role: string, content: string, timestamp: string,
                             sources: Option<seq<Source>>)

  const UserRole: string := "user"
  const AssistantRole: string := "assistant"

  /** The ids occurring in a message list. */
  function Ids(ms: seq<Message>): set<string> {
    set m | m in ms :: m.id
  }

  /** No two entries share an id. */
  ghost predicate DistinctIds(ms: seq<Message>) {
    forall i, j :: 0 <= i < j < |ms| ==> ms[i].id != ms[j].id
  }

  lemma IdsAppend(a: seq<Message>, b: seq<Message>)
    ensures Ids(a + b) == Ids(a) + Ids(b)
  {
    forall x | x in Ids(a + b) ensures x in Ids(a) + Ids(b) {
      var m :| m in a + b && m.id == x;
    }
    forall x | x in Ids(a) + Ids(b) ensures x in Ids(a + b) {
      if x in Ids(a) { var m :| m in a && m.id == x; assert m in a + b; }
      else { var m :| m in b && m.id == x; assert m in a + b; }
    }
  }
}
