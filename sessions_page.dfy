/** The page listing every saved session: the aggregate statistics, one row per
    session, and the confirmation dialog that deletes a session. */
module SessionsPage {
  import opened Common
  import opened SessionStore
  import opened SessionDisplay
  import Text

  /** The statistics the page holds before its first load: every figure zero. */
  const InitialStats := Stats(0, Some(0), Some(0), Some(0.0), 0)

  // ---------------------------------------------------------------------------
  // The statistics cards

  /** The total-cost card as written, `stats.totalCost.toFixed(2)`: `None`
      stands for the `TypeError` thrown when the sum is SQL NULL. */
  function TotalCostTextAsWritten(s: Stats): (r: Option<string>)
    ensures r.None? <==> s.totalCostCents.None?
  {
    match s.totalCostCents
    case None => None
    case Some(c) => Some(CentsText(c))
  }

  /** On an empty store the aggregate query sums no rows, so the card as
      written throws instead of showing a total. */
  lemma EmptyStoreBreaksTotalCost()
    ensures TotalCostTextAsWritten(GetSessionStats(EmptyTables)).None?
    ensures TotalCostTextAsWritten(InitialStats) == Some("0.00")
  {
    assert Text.NatToString(0) == "0";
    assert Text.PadStart2("0") == "00";
    assert CentsText(0) == "0" + "." + "00" == "0.00";
    assert InitialStats.totalCostCents == Some(0);
  }

  /** The total-cost card with the same `|| 0` guard the duration card has. */
  function TotalCostText(s: Stats): (r: string)
    ensures s.totalCostCents.Some? ==> Some(r) == TotalCostTextAsWritten(s)
  {
    CentsText(if s.totalCostCents.Some? then s.totalCostCents.value else 0)
  }

  /** The corrected card shows the store's total whatever the store holds, and
      `0.00` for an empty one. */
  lemma TotalCostShown(t: Tables)
    ensures TotalCostText(GetSessionStats(t)) == CentsText(SumCosts(t.sessions))
  {
  }

  /** The total-duration card: `formatDuration(Math.round(totalDuration || 0))`;
      the sum of whole seconds needs no rounding. */
  function TotalDurationText(s: Stats): (r: string)
    ensures s.totalDuration.None? ==> r == "0s"
  {
    FormatDuration(if s.totalDuration.Some? then s.totalDuration.value else 0)
  }

  /** The four cards: sessions, duration, cost and messages. A `None` cost is
      the `TypeError` the cost card throws, which takes the page down. */
  datatype Cards = Cards(sessions: nat, duration: string, cost: Option<string>, messages: nat)

  /** The cards as the page writes them: the cost card fails exactly when the
      cost sum is NULL, and otherwise shows what the guarded card would. */
  function CardsOf(s: Stats): (c: Cards)
    ensures c.sessions == s.totalSessions && c.messages == s.totalMessages
    ensures c.duration == TotalDurationText(s)
    ensures c.cost.None? <==> s.totalCostCents.None?
    ensures c.cost.Some? ==> c.cost.value == TotalCostText(s)
  {
    Cards(s.totalSessions, TotalDurationText(s), TotalCostTextAsWritten(s), s.totalMessages)
  }

  // ---------------------------------------------------------------------------
  // The table

  /** One table row: date, duration, model, token totals, cost and the two devices. */
  datatype Row = Row(
    id: int, shownAt: int, duration: string, model: string, audioTokens: int, textTokens: int,
    cost: string, micDevice: Option<string>, speakerDevice: Option<string>)

  /** One row as the page writes it: the date is `(start_time || 0) * 1000`. */
  function RowOf(r: SessionRow): (row: Row)
    ensures row.id == r.id && row.shownAt == ShownStartAsWritten(r.data.startTime)
    ensures row.audioTokens == r.data.usage.inputAudio + r.data.usage.outputAudio
    ensures row.textTokens == r.data.usage.inputText + r.data.usage.outputText
    ensures row.duration == FormatDuration(r.data.durationSeconds)
    ensures row.cost == CentsText(r.data.totalCostCents)
  {
    var (audio, text) := Totals(r.data.usage);
    Row(r.id, ShownStartAsWritten(r.data.startTime), FormatDuration(r.data.durationSeconds), r.data.model,
        audio, text, CentsText(r.data.totalCostCents), r.data.micDevice, r.data.speakerDevice)
  }

  /** The table body: the placeholder row when there are no sessions, else one row per session in order. */
  function TableOf(sessions: seq<SessionRow>): (rows: Option<seq<Row>>)
    ensures rows.None? <==> sessions == []
    ensures rows.Some? ==> |rows.value| == |sessions|
    ensures rows.Some? ==> forall k :: 0 <= k < |sessions| ==> rows.value[k] == RowOf(sessions[k])
  {
    if sessions == [] then None else Some(seq(|sessions|, k requires 0 <= k < |sessions| => RowOf(sessions[k])))
  }

  // ---------------------------------------------------------------------------
  // The page state

  class Page {
    var sessions: seq<SessionRow>
    var stats: Stats
    var deleteDialogOpen: bool
    var sessionToDelete: Option<int>

    constructor ()
      ensures sessions == [] && stats == InitialStats && !deleteDialogOpen && sessionToDelete.None?
    {
      sessions, stats, deleteDialogOpen, sessionToDelete := [], InitialStats, false, None;
    }

    /** `loadSessions`: both queries run together; when either fails the error
        is logged and neither list nor statistics change. */
    method LoadSessions(db: SessionDb, fails: bool)
      modifies this`sessions, this`stats
      ensures fails ==> sessions == old(sessions) && stats == old(stats)
      ensures !fails ==> sessions == GetAllSessions(db.Snapshot()) && stats == GetSessionStats(db.Snapshot())
    {
      if fails {
        return;
      }
      sessions, stats := GetAllSessions(db.Snapshot()), GetSessionStats(db.Snapshot());
    }

    /** `handleDeleteClick`: remember the session and open the dialog. */
    method DeleteClick(id: int)
      modifies this`sessionToDelete, this`deleteDialogOpen
      ensures sessionToDelete == Some(id) && deleteDialogOpen
    {
      sessionToDelete, deleteDialogOpen := Some(id), true;
    }

    /** The dialog's Cancel button and backdrop: close it, keep the selection. */
    method CancelDelete()
      modifies this`deleteDialogOpen
      ensures !deleteDialogOpen
    {
      deleteDialogOpen := false;
    }

    /** `handleDeleteConfirm`: delete and reload only when a session is selected
        (a truthy id); a failed delete skips the reload; in every case the dialog
        closes and the selection is cleared. */
    method DeleteConfirm(db: SessionDb, deleteFails: bool, loadFails: bool)
      requires db.Valid()
      modifies this`sessions, this`stats, this`deleteDialogOpen, this`sessionToDelete, db
      ensures db.Valid()
      ensures !deleteDialogOpen && sessionToDelete.None?
      ensures var deletes := TruthyNumber(old(sessionToDelete)) && !deleteFails;
        && (deletes ==> db.Snapshot() == Deleted(old(db.Snapshot()), old(sessionToDelete).value))
        && (!deletes ==> db.Snapshot() == old(db.Snapshot()))
      ensures TruthyNumber(old(sessionToDelete)) && !deleteFails && !loadFails ==>
        sessions == GetAllSessions(db.Snapshot()) && stats == GetSessionStats(db.Snapshot())
      ensures !(TruthyNumber(old(sessionToDelete)) && !deleteFails && !loadFails) ==>
        sessions == old(sessions) && stats == old(stats)
    {
      if TruthyNumber(sessionToDelete) && !deleteFails {
        db.DeleteSession(sessionToDelete.value);
        LoadSessions(db, loadFails);
      }
      deleteDialogOpen, sessionToDelete := false, None;
    }
  }

  /** Deleting the selected session through the dialog leaves it out of the
      reloaded table and keeps every other session's row. */
  lemma DeletedRowGone(t: Tables, id: int)
    requires WellFormed(t)
    ensures forall r :: r in GetAllSessions(Deleted(t, id)) ==> r.id != id
    ensures forall r :: r in GetAllSessions(t) && r.id != id ==> r in GetAllSessions(Deleted(t, id))
  {
    var after := GetAllSessions(Deleted(t, id));
    var before := GetAllSessions(t);
    forall r | r in after
      ensures r.id != id
    {
      assert r in multiset(after);
    }
    forall r | r in before && r.id != id
      ensures r in after
    {
      assert r in multiset(before);
      assert r in Deleted(t, id).sessions;
      assert r in multiset(after);
    }
  }
}
