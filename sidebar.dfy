/**
 * The Sidebar component: the session list it loads, and what it shows for
 * each session (title, active marker, relative date) and in its footer.
 */
module Sidebar {
  import opened Base
  import opened JsText

  /**
   * A session summary as the server lists it. `updatedAtMs` is the parsed
   * `updatedAt` in milliseconds since the epoch, None when it does not parse.
   */
  datatype SessionSummary = SessionSummary(id: string, title: Option<string>, messageCount: int,
                                           updatedAtMs: Option<int>)

  /** The body of the list-sessions response; `sessions` may be absent. */
  datatype SessionsResponse = SessionsResponse(sessions: Option<seq<SessionSummary>>)

  /** The body of the create-session response. */
  datatype NewSession = NewSession(sessionId: string)

  /** Milliseconds in an hour. */
  const HourMs: int := 3600000

  /** How many leading characters of the id stand in for a missing title. */
  const IdPrefixLength: nat := 8

  /** `session.title` is truthy. */
  predicate HasTitle(s: SessionSummary) {
    s.title.Some? && s.title.value != ""
  }

  /**
   * The title shown for a session: "New Chat" while it has no messages,
   * otherwise its own title, or "Chat " and the start of its id.
   */
  function SessionTitle(s: SessionSummary): (r: string)
    ensures s.messageCount <= 0 ==> r == "New Chat"
    ensures s.messageCount > 0 && HasTitle(s) ==> r == s.title.value
    ensures s.messageCount > 0 && !HasTitle(s) ==>
      && |r| - 5 == (if |s.id| < IdPrefixLength then |s.id| else IdPrefixLength)
      && r[..5] == "Chat "
      && r[5..] == s.id[..|r| - 5]
      && (|s.id| <= IdPrefixLength ==> r[5..] == s.id)
  {
    if s.messageCount > 0 then
      if HasTitle(s) then s.title.value
      else "Chat " + s.id[..if |s.id| < IdPrefixLength then |s.id| else IdPrefixLength]
    else "New Chat"
  }

  /** `currentSession === session.id`: a missing current session marks nothing. */
  predicate IsActive(current: Option<string>, s: SessionSummary) {
    current == Some(s.id)
  }

  /** The footer: the count followed by "session", plural unless the count is exactly one. */
  function FooterLabel(count: nat): (r: string)
    ensures |Decimal(count)| < |r| && r[..|Decimal(count)|] == Decimal(count)
    ensures r[|r| - 1] == 's' <==> count != 1
  {
    Decimal(count) + " session" + (if count != 1 then "s" else "")
  }

  /** The footer's count reads back as the number of sessions. */
  lemma FooterCount(count: nat)
    ensures var r := FooterLabel(count); var d := Decimal(count);
      DigitsValue(r[..|d|]) == count && r[|d|..] == (if count == 1 then " session" else " sessions")
  {
    DecimalRoundTrip(count);
  }

  /** A relative date label; `MonthDay` stands for date-fns' "MMM d" rendering. */
  datatype DateLabel = Text(text: string) | MonthDay

  /** The whole hours elapsed, for 1 to 23 hours. */
  function WholeHours(elapsedMs: int): (h: nat)
    requires HourMs <= elapsedMs < 24 * HourMs
    ensures 1 <= h <= 23
    ensures h * HourMs <= elapsedMs < (h + 1) * HourMs
  {
    elapsedMs / HourMs
  }

  /**
   * `formatSessionDate`, with the time since `updatedAt` in integer
   * milliseconds (None when the date does not parse, which makes date-fns
   * throw and the catch return "Unknown").
   */
  function FormatSessionDate(elapsedMs: Option<int>): (r: DateLabel)
    ensures elapsedMs.None? ==> r == Text("Unknown")
    ensures elapsedMs.Some? && elapsedMs.value < HourMs ==> r == Text("Just now")
    ensures elapsedMs.Some? && HourMs <= elapsedMs.value < 24 * HourMs ==>
      r == Text(Decimal(WholeHours(elapsedMs.value)) + "h ago")
    ensures elapsedMs.Some? && elapsedMs.value >= 24 * HourMs ==> r == MonthDay
  {
    match elapsedMs
    case None => Text("Unknown")
    case Some(e) =>
      if e < HourMs then Text("Just now")
      else if e < 24 * HourMs then Text(Decimal(e / HourMs) + "h ago")
      else MonthDay
  }

  /** One row of the list. */
  datatype SessionItem = SessionItem(id: string, title: string, active: bool, messageCount: int,
                                     date: DateLabel)

  /** What the list area shows. */
  datatype ListView = Spinner | NoSessions | Items(items: seq<SessionItem>)

  function ItemOf(s: SessionSummary, current: Option<string>, nowMs: int): SessionItem {
    var elapsed := if s.updatedAtMs.Some? then Some(nowMs - s.updatedAtMs.value) else None;
    SessionItem(s.id, SessionTitle(s), IsActive(current, s), s.messageCount, FormatSessionDate(elapsed))
  }

  /** The list area: a spinner while loading, a placeholder when empty, else one row per session in order. */
  function ListViewOf(sessions: seq<SessionSummary>, loading: bool, current: Option<string>,
                      nowMs: int): (v: ListView)
    ensures loading ==> v == Spinner
    ensures !loading && sessions == [] ==> v == NoSessions
    ensures !loading && sessions != [] ==> v.Items?
    ensures v.Items? ==> |v.items| == |sessions|
    ensures v.Items? ==> forall i :: 0 <= i < |sessions| ==>
      && v.items[i].id == sessions[i].id
      && v.items[i].title == SessionTitle(sessions[i])
      && (v.items[i].active <==> current == Some(sessions[i].id))
  {
    if loading then Spinner
    else if sessions == [] then NoSessions
    else Items(seq(|sessions|, i requires 0 <= i < |sessions| => ItemOf(sessions[i], current, nowMs)))
  }

  /** When session ids are distinct, at most one row is marked active. */
  lemma AtMostOneActive(sessions: seq<SessionSummary>, current: Option<string>, nowMs: int)
    requires forall i, j :: 0 <= i < j < |sessions| ==> sessions[i].id != sessions[j].id
    ensures var v := ListViewOf(sessions, false, current, nowMs);
      v.Items? ==> forall i, j :: 0 <= i < j < |v.items| ==> !(v.items[i].active && v.items[j].active)
  {
  }

  /** The component's `sessions` and `loading` state values. */
  class SessionList {
    var sessions: seq<SessionSummary>
    var loading: bool

    constructor ()
      ensures sessions == [] && !loading
    {
      sessions := [];
      loading := false;
    }

    /** `loadSessions` up to its await. */
    method BeginLoadSessions()
      modifies this
      ensures loading && sessions == old(sessions)
    {
      loading := true;
    }

    /** `loadSessions` after its await: replace the list on success, keep it on failure. */
    method CompleteLoadSessions(outcome: Outcome<SessionsResponse>)
      modifies this
      ensures !loading
      ensures sessions == match outcome
        case Ok(body) => body.sessions.GetOr([])
        case Failed => old(sessions)
    {
      if outcome.Ok? {
        sessions := outcome.body.sessions.GetOr([]);
      }
      loading := false;
    }

    /**
     * `handleNewSession` after its await: on success announce the new id to
     * `onNewSession` and start reloading the list; on failure do nothing.
     */
    method CompleteNewSession(outcome: Outcome<NewSession>) returns (announced: Option<string>)
      modifies this
      ensures announced == if outcome.Ok? then Some(outcome.body.sessionId) else None
      ensures loading == (outcome.Ok? || old(loading))
      ensures sessions == old(sessions)
    {
      if outcome.Ok? {
        announced := Some(outcome.body.sessionId);
        BeginLoadSessions();
      } else {
        announced := None;
      }
    }
  }
}
