/** components/enhanced-history-panel.tsx: the list of recent uploads. `fetchHistory` loads
    the list with the session token, the first session is pre-selected, a click selects
    another, and the report panel shows the selected session. */
module HistoryPanel {
  import opened Wrappers

  /** A session summary as the history endpoint returns it (the fields the panel reads). */
  datatype Summary = Summary(id: int, fileName: string, createdAt: string, totalCount: int)

  datatype PanelState = PanelState(sessions: seq<Summary>, loading: bool, selectedSessionId: Option<int>)

  /** `sessions.find((s) => s.id === selectedSessionId)`: the first session with that id. */
  function Find(sessions: seq<Summary>, id: Option<int>): (r: Option<Summary>)
    ensures r.Some? <==> id.Some? && exists i :: 0 <= i < |sessions| && sessions[i].id == id.value
    ensures r.Some? ==> exists i :: 0 <= i < |sessions| && sessions[i] == r.value
                                    && r.value.id == id.value
                                    && forall j :: 0 <= j < i ==> sessions[j].id != id.value
  {
    if id.None? || |sessions| == 0 then None
    else if sessions[0].id == id.value then Some(sessions[0])
    else
      var rest := Find(sessions[1..], id);
      assert forall i :: 1 <= i < |sessions| ==> sessions[i] == sessions[1..][i - 1];
      if rest.Some? then
        ghost var k :| 0 <= k < |sessions[1..]| && sessions[1..][k] == rest.value
                       && rest.value.id == id.value
                       && forall j :: 0 <= j < k ==> sessions[1..][j].id != id.value;
        assert sessions[k + 1] == rest.value;
        rest
      else rest
  }

  /** `fetchHistory` with the current token, answered by `reply` when a request is made.
      Returns the new state and whether a request was made. */
  function FetchStep(s: PanelState, token: Option<string>, reply: Reply<seq<Summary>>): (r: (PanelState, bool))
    ensures !Truthy(token) ==> r == (s, false)
    ensures Truthy(token) ==> r.1 && !r.0.loading
    ensures Truthy(token) && reply.Ok? ==>
              && r.0.sessions == reply.data
              && r.0.selectedSessionId == (if |reply.data| > 0 then Some(reply.data[0].id) else s.selectedSessionId)
    ensures Truthy(token) && !reply.Ok? ==>
              r.0.sessions == s.sessions && r.0.selectedSessionId == s.selectedSessionId
  {
    if !Truthy(token) then (s, false)
    else
      match reply
      case Ok(data) =>
        var selected := if |data| > 0 then Some(data[0].id) else s.selectedSessionId;
        (PanelState(data, false, selected), true)
      case _ => (s.(loading := false), true)
  }

  /** A click on a listed session selects it. */
  function ClickStep(s: PanelState, session: Summary): (r: PanelState)
    ensures r.selectedSessionId == Some(session.id)
    ensures r.sessions == s.sessions && r.loading == s.loading
  {
    s.(selectedSessionId := Some(session.id))
  }

  /** The effect re-runs on the first render and whenever the token differs from the one of
      the previous render. */
  predicate EffectRuns(previousToken: Option<Option<string>>, token: Option<string>) {
    previousToken.None? || previousToken.value != token
  }

  /** After a click on a listed session the report panel is shown, for a session with the
      clicked id, and with unique ids it is the clicked session. */
  lemma ClickShowsReport(s: PanelState, session: Summary)
    requires session in s.sessions
    ensures var r := ClickStep(s, session);
            && Find(r.sessions, r.selectedSessionId).Some?
            && Find(r.sessions, r.selectedSessionId).value.id == session.id
    ensures (forall i, j :: 0 <= i < j < |s.sessions| ==> s.sessions[i].id != s.sessions[j].id) ==>
              Find(ClickStep(s, session).sessions, Some(session.id)) == Some(session)
  {
  }

  /** A successful non-empty fetch pre-selects, and shows the report for, the newest session. */
  lemma FetchSelectsFirst(s: PanelState, token: string, data: seq<Summary>)
    requires token != "" && |data| > 0
    ensures var r := FetchStep(s, Some(token), Ok(data)).0;
            Find(r.sessions, r.selectedSessionId) == Some(data[0])
  {
  }

  /** The panel component. `token` is the auth session's token as this render sees it. */
  class Panel {
    var sessions: seq<Summary>
    var loading: bool
    var selectedSessionId: Option<int>
    var previousToken: Option<Option<string>>

    function View(): PanelState
      reads this
    {
      PanelState(sessions, loading, selectedSessionId)
    }

    constructor ()
      ensures View() == PanelState([], true, None) && previousToken == None
    {
      sessions, loading, selectedSessionId := [], true, None;
      previousToken := None;
    }

    method FetchHistory(token: Option<string>, reply: Reply<seq<Summary>>) returns (requested: bool)
      modifies this
      ensures (View(), requested) == FetchStep(old(View()), token, reply)
      ensures previousToken == old(previousToken)
    {
      if !Truthy(token) {
        return false;
      }
      requested := true;
      match reply {
        case Ok(data) =>
          sessions := data;
          if |data| > 0 {
            selectedSessionId := Some(data[0].id);
          }
        case _ =>
      }
      loading := false;
    }

    /** A render with the given token: the effect fetches on the first render and on a token
        change. */
    method Render(token: Option<string>, reply: Reply<seq<Summary>>) returns (requested: bool)
      modifies this
      ensures EffectRuns(old(previousToken), token) ==>
                (View(), requested) == FetchStep(old(View()), token, reply)
      ensures !EffectRuns(old(previousToken), token) ==> View() == old(View()) && !requested
      ensures previousToken == Some(token)
    {
      if previousToken.None? || previousToken.value != token {
        requested := FetchHistory(token, reply);
      } else {
        requested := false;
      }
      previousToken := Some(token);
    }

    /** The click handler; returns the session passed to `onSessionSelect`. */
    method Click(session: Summary) returns (selected: Summary)
      requires session in sessions
      modifies this
      ensures View() == ClickStep(old(View()), session)
      ensures selected == session
      ensures previousToken == old(previousToken)
    {
      selectedSessionId := Some(session.id);
      selected := session;
    }

    /** `selectedSession`; the report panel is rendered iff it is present. */
    function SelectedSession(): (r: Option<Summary>)
      reads this
      ensures r.Some? ==> r.value in sessions && Some(r.value.id) == selectedSessionId
      ensures r.None? ==> selectedSessionId.None? || forall i :: 0 <= i < |sessions| ==> sessions[i].id != selectedSessionId.value
    {
      Find(sessions, selectedSessionId)
    }
  }
}
