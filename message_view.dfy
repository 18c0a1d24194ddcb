/**
 * What the Message component derives from one message: the author label,
 * whether the body is rendered as markdown, and the sources block with at
 * most three listed sources and a "+N more sources" note.
 */
module MessageView {
  import opened Base
  import opened JsText
  import opened ChatTypes

  /** How many sources a message lists before summarising the rest. */
  const ListedSourcesLimit: nat := 3

  /** The author label: "You" for the user, "Assistant" for every other role. */
  function AuthorLabel(role: string): (r: string)
    ensures r == "You" <==> role == UserRole
    ensures r == "You" || r == "Assistant"
  {
    if role == UserRole then "You" else "Assistant"
  }

  /** The message body: markdown or plain text. */
  datatype Body = Markdown(text: string) | PlainText(text: string)

  /** Only assistant messages are rendered as markdown; the text is the content unchanged. */
  function BodyOf(m: Message): (b: Body)
    ensures b.Markdown? <==> m.role == AssistantRole
    ensures b.text == m.content
  {
    if m.role == AssistantRole then Markdown(m.content) else PlainText(m.content)
  }

  /** The "Sources:" block: the listed sources and the optional "+N more sources" note. */
  datatype SourcesBlock = SourcesBlock(listed: seq<Source>, moreNote: Option<string>)

  /** `sources.slice(0, 3)`. */
  function Listed(all: seq<Source>): (r: seq<Source>)
    ensures |r| <= ListedSourcesLimit
    ensures |r| == if |all| < ListedSourcesLimit then |all| else ListedSourcesLimit
    ensures r == all[..|r|]
  {
    if |all| <= ListedSourcesLimit then all else all[..ListedSourcesLimit]
  }

  /** The note shown when sources are cut off. */
  function MoreNote(hidden: nat): string {
    "+" + Decimal(hidden) + " more sources"
  }

  /** The sources block of a message, if it has one. */
  function SourcesBlockOf(m: Message): (r: Option<SourcesBlock>)
    ensures r.Some? <==> m.role == AssistantRole && m.sources.Some? && |m.sources.value| > 0
    ensures r.Some? ==> r.value.listed == Listed(m.sources.value)
    ensures r.Some? ==> (r.value.moreNote.Some? <==> |m.sources.value| > ListedSourcesLimit)
    ensures r.Some? && r.value.moreNote.Some? ==>
      r.value.moreNote.value == MoreNote(|m.sources.value| - |r.value.listed|)
  {
    if m.role == AssistantRole && m.sources.Some? && |m.sources.value| > 0 then
      var all := m.sources.value;
      Some(SourcesBlock(Listed(all),
                        if |all| > ListedSourcesLimit then Some(MoreNote(|all| - ListedSourcesLimit)) else None))
    else None
  }

  /**
   * Nothing is lost: the listed sources followed by the hidden ones are the
   * message's sources, and the number in the note is how many are hidden.
   */
  lemma SourcesAccountedFor(m: Message)
    requires SourcesBlockOf(m).Some?
    ensures var b := SourcesBlockOf(m).value; var all := m.sources.value;
      && b.listed + all[|b.listed|..] == all
      && (b.moreNote.Some? ==> DigitsValue(b.moreNote.value[1..|b.moreNote.value| - 13]) == |all| - |b.listed|)
  {
    var b := SourcesBlockOf(m).value;
    var all := m.sources.value;
    assert b.listed + all[|b.listed|..] == all;
    if b.moreNote.Some? {
      var n := |all| - |b.listed|;
      var d := Decimal(n);
      assert b.moreNote.value == "+" + d + " more sources";
      assert b.moreNote.value[1..|b.moreNote.value| - 13] == d;
      DecimalRoundTrip(n);
    }
  }

  /** A role other than "user" and "assistant" is labelled "Assistant" yet shown as plain text without sources. */
  lemma OtherRoleRendering(m: Message)
    requires m.role != UserRole && m.role != AssistantRole
    ensures AuthorLabel(m.role) == "Assistant" && BodyOf(m).PlainText? && SourcesBlockOf(m).None?
  {
  }
}
