/**
 * The draft and autosave logic of `EntryEditor`
 * (src/components/diary/editor.tsx:17-85), as a state record and one function
 * per event.
 *
 * A user event is followed by a render and an effect flush. The stats effect
 * (lines 31-35) stores `wordCount`/`charCount`, which only the NEXT render
 * sees, so the autosave effect (lines 38-78) first runs with the previous
 * counts and runs once more when the counts change; `Settle` is those two
 * flushes. Each run of the autosave effect first clears the timer its
 * previous run set (line 77, a no-op once that timer has fired), then either
 * returns (the skip rule, line 39) or sets a timer whose callback has
 * captured the rendered values (lines 41-54). A fired callback runs
 * independently of later renders: it awaits the user, then awaits an insert
 * or an update chosen by the captured `entryId` (line 56), then sets
 * `lastSaved` and clears `isSaving` (lines 73-74). There is no version stamp
 * and no in-flight flag, so callbacks can overlap.
 *
 * The store, the auth client and the clock are abstract: their answers are
 * event parameters, and the requests the editor issues are recorded in order.
 */
module Autosave {
  import opened Common
  import opened WordStats

  /** The identifier the store gives an entry (a UUID, so never the falsy empty string). */
  type EntryId = s: string | |s| > 0 witness "e"

  /** Where the editor navigates after a delete (editor.tsx:84). */
  const DashboardRoute := "/dashboard"

  /** The component's props, with the defaults of line 17 applied by the caller. */
  datatype Props = Props(initialContent: string, initialId: Option<EntryId>, initialIsPrivate: bool)

  /**
   * The values in the autosave effect's dependency list (line 78), which the
   * timer callback also captures (lines 47-54, 56). The client in the list is
   * taken to be the same object on every render.
   */
  datatype Snapshot = Snapshot(content: string, isPrivate: bool, entryId: Option<EntryId>,
                               wordCount: nat, charCount: nat)

  /** The `entryData` record written to the `entries` table (lines 47-54). */
  datatype Row = Row(content: string, isPrivate: bool, wordCount: nat, charCount: nat,
                     userId: UserId, updatedAt: Time)

  /** A call into the store, in the order the editor issues them. */
  datatype Request = Insert(row: Row) | Update(id: EntryId, row: Row) | Delete(id: EntryId)

  /** Where a fired timer callback is suspended. */
  datatype Phase = AwaitingUser | AwaitingInsert | AwaitingUpdate

  /** A fired timer callback that has not finished. */
  datatype Save = Save(snap: Snapshot, phase: Phase)

  /** What an insert or an update returns: data with an id and no error, or anything else. */
  datatype Outcome = Returned(id: EntryId) | Failed

  /**
   * The component's state (lines 18-24), the bookkeeping React keeps for its
   * two effects (the values each last ran for), the pending timer (`timeout`,
   * line 41, while it has not fired), the callbacks in progress, the requests
   * issued so far, the deletes awaiting their answer, whether the component
   * is mounted, and the route it navigated to.
   */
  datatype State = State(
    props: Props,
    content: string,
    isPrivate: bool,
    isSaving: bool,
    lastSaved: Option<Time>,
    entryId: Option<EntryId>,
    wordCount: nat,
    charCount: nat,
    statsFor: Option<string>,
    autosaveFor: Option<Snapshot>,
    pending: Option<Snapshot>,
    saves: seq<Save>,
    requests: seq<Request>,
    deletesInFlight: nat,
    mounted: bool,
    route: Option<string>)

  /** The user's actions and the environment's answers. */
  datatype Event =
    | Edited(text: string)
    | PrivacyToggled
    | TimerFired
    | UserLoaded(save: nat, user: Option<UserId>, now: Time)
    | GatewayReturned(save: nat, outcome: Outcome, now: Time)
    | DeleteConfirmed
    | DeleteReturned
    | Unmounted

  // ---------------------------------------------------------------------------
  // Rendering and effects
  // ---------------------------------------------------------------------------

  /** The dependency values of the current render. */
  function Deps(s: State): Snapshot {
    Snapshot(s.content, s.isPrivate, s.entryId, s.wordCount, s.charCount)
  }

  /** The skip rule of line 39: the draft is untouched and not yet stored. */
  predicate Skips(p: Props, d: Snapshot) {
    d.content == p.initialContent && d.isPrivate == p.initialIsPrivate && d.entryId.None?
  }

  /** The stats effect: runs when `content` changed since its last run. */
  function StatsEffect(s: State): State {
    if s.statsFor == Some(s.content) then s
    else s.(wordCount := WordCount(s.content), charCount := CharCount(s.content),
            statsFor := Some(s.content))
  }

  /**
   * The autosave effect for rendered values `d`: when they differ from its
   * last run, clear the previous timer and schedule a new one unless skipped.
   */
  function AutosaveEffect(s: State, d: Snapshot): State {
    if s.autosaveFor == Some(d) then s
    else s.(autosaveFor := Some(d), pending := if Skips(s.props, d) then None else Some(d))
  }

  /** One commit: both effects, with the values the render saw. */
  function Flush(s: State): State {
    AutosaveEffect(StatsEffect(s), Deps(s))
  }

  /** The renders that follow a state update on a mounted component. */
  function Settle(s: State): State {
    if s.mounted then Flush(Flush(s)) else s
  }

  /** The first render (lines 17-24) and its effects. */
  function Mount(p: Props): State {
    Settle(State(p, p.initialContent, p.initialIsPrivate, false, None, p.initialId, 0, 0,
                 None, None, None, [], [], 0, true, None))
  }

  // ---------------------------------------------------------------------------
  // Events
  // ---------------------------------------------------------------------------

  /** The textarea's `onChange` (line 160). */
  function Edit(s: State, text: string): State {
    if s.mounted then Settle(s.(content := text)) else s
  }

  /** The privacy button (line 114). */
  function TogglePrivacy(s: State): State {
    if s.mounted then Settle(s.(isPrivate := !s.isPrivate)) else s
  }

  /** The pending timer fires: `setIsSaving(true)`, then await the user (lines 42-44). */
  function Fire(s: State): State {
    match s.pending
    case None => s
    case Some(snap) =>
      s.(pending := None, isSaving := s.isSaving || s.mounted,
         saves := s.saves + [Save(snap, AwaitingUser)])
  }

  /** The record a callback writes (lines 47-54). */
  function RowOf(snap: Snapshot, user: UserId, now: Time): Row {
    Row(snap.content, snap.isPrivate, snap.wordCount, snap.charCount, user, now)
  }

  /**
   * Callback `k` gets the user: without one it returns (line 45); otherwise it
   * updates the captured entry, or inserts when it captured none (lines 56-64).
   */
  function LoadUser(s: State, k: nat, user: Option<UserId>, now: Time): State {
    if k >= |s.saves| || s.saves[k].phase != AwaitingUser then s
    else
      var snap := s.saves[k].snap;
      match user
      case None => s.(saves := RemoveAt(s.saves, k))
      case Some(uid) =>
        match snap.entryId
        case Some(id) =>
          s.(saves := s.saves[k := Save(snap, AwaitingUpdate)],
             requests := s.requests + [Update(id, RowOf(snap, uid, now))])
        case None =>
          s.(saves := s.saves[k := Save(snap, AwaitingInsert)],
             requests := s.requests + [Insert(RowOf(snap, uid, now))])
  }

  /**
   * The insert or update of callback `k` returns. An insert that returned an
   * id binds it (lines 66-67); then, whatever the outcome, `lastSaved` and
   * `isSaving` are set (lines 73-74). Updates of an unmounted component are
   * dropped.
   */
  function Complete(s: State, k: nat, outcome: Outcome, now: Time): State {
    if k >= |s.saves| || s.saves[k].phase == AwaitingUser then s
    else
      var s1 := s.(saves := RemoveAt(s.saves, k));
      if !s.mounted then s1
      else
        var id := if s.saves[k].phase == AwaitingInsert && outcome.Returned?
                  then Some(outcome.id) else s.entryId;
        Settle(s1.(entryId := id, lastSaved := Some(now), isSaving := false))
  }

  /** `handleDelete` up to its await (lines 81-83). */
  function ConfirmDelete(s: State): State {
    match s.entryId
    case None => s
    case Some(id) =>
      if !s.mounted then s
      else s.(isSaving := true, requests := s.requests + [Delete(id)],
              deletesInFlight := s.deletesInFlight + 1)
  }

  /** The delete returns and the editor navigates, whatever the outcome (line 84). */
  function FinishDelete(s: State): State {
    if s.deletesInFlight == 0 then s
    else s.(deletesInFlight := s.deletesInFlight - 1, route := Some(DashboardRoute))
  }

  /** Unmounting runs the effect cleanup, which clears a timer not yet fired (line 77). */
  function Unmount(s: State): State {
    if s.mounted then s.(mounted := false, pending := None) else s
  }

  function Step(s: State, e: Event): State {
    match e
    case Edited(text) => Edit(s, text)
    case PrivacyToggled => TogglePrivacy(s)
    case TimerFired => Fire(s)
    case UserLoaded(k, user, now) => LoadUser(s, k, user, now)
    case GatewayReturned(k, outcome, now) => Complete(s, k, outcome, now)
    case DeleteConfirmed => ConfirmDelete(s)
    case DeleteReturned => FinishDelete(s)
    case Unmounted => Unmount(s)
  }

  function Run(s: State, es: seq<Event>): State
    decreases |es|
  {
    if es == [] then s else Run(Step(s, es[0]), es[1..])
  }

  // ---------------------------------------------------------------------------
  // The invariant
  // ---------------------------------------------------------------------------

  /** The counts a snapshot carries are those of its content. */
  predicate StatsMatch(d: Snapshot) {
    d.wordCount == WordCount(d.content) && d.charCount == CharCount(d.content)
  }

  predicate RowMatches(r: Request) {
    r.Delete? || (r.row.wordCount == WordCount(r.row.content) && r.row.charCount == CharCount(r.row.content))
  }

  /** Both effects have run for the current values. */
  predicate Settled(s: State) {
    && s.statsFor == Some(s.content)
    && StatsMatch(Deps(s))
    && s.autosaveFor == Some(Deps(s))
  }

  /** The pending timer is exactly the one the skip rule asks for at the current values. */
  predicate ScheduledForLatest(s: State) {
    s.pending == if Skips(s.props, Deps(s)) then None else Some(Deps(s))
  }

  /** What holds of every reachable state. */
  predicate Valid(s: State) {
    && (s.mounted ==> Settled(s))
    && (s.pending.Some? ==> s.mounted && s.pending == Some(Deps(s)) && !Skips(s.props, Deps(s)))
    && (forall i :: 0 <= i < |s.saves| ==> StatsMatch(s.saves[i].snap))
    && (forall i :: 0 <= i < |s.requests| ==> RowMatches(s.requests[i]))
  }

  /** The fields a render leaves alone. */
  predicate SameOutsideEffects(s: State, t: State) {
    && t.props == s.props && t.content == s.content && t.isPrivate == s.isPrivate
    && t.isSaving == s.isSaving && t.lastSaved == s.lastSaved && t.entryId == s.entryId
    && t.saves == s.saves && t.requests == s.requests && t.deletesInFlight == s.deletesInFlight
    && t.mounted == s.mounted && t.route == s.route
  }

  /** The stored counts are those of the content the stats effect last ran for. */
  predicate CountsFor(s: State) {
    s.statsFor.Some? ==> s.wordCount == WordCount(s.statsFor.value) && s.charCount == CharCount(s.statsFor.value)
  }

  /** The autosave effect will run again: it never ran, or a non-count dependency changed. */
  predicate KeyChanged(s: State) {
    match s.autosaveFor
    case None => true
    case Some(d) => d.content != s.content || d.isPrivate != s.isPrivate || d.entryId != s.entryId
  }

  /** What one commit does, field by field. */
  lemma FlushEffects(s: State)
    ensures SameOutsideEffects(s, Flush(s))
    ensures Flush(s).statsFor == Some(s.content)
    ensures s.statsFor != Some(s.content) ==> StatsMatch(Deps(Flush(s)))
    ensures s.statsFor == Some(s.content) ==> Deps(Flush(s)) == Deps(s)
    ensures Flush(s).autosaveFor == Some(Deps(s))
    ensures Flush(s).pending ==
      if s.autosaveFor == Some(Deps(s)) then s.pending
      else if Skips(s.props, Deps(s)) then None else Some(Deps(s))
  {
  }

  /** Flushing a settled state changes nothing. */
  lemma FlushSettled(s: State)
    requires Settled(s)
    ensures Flush(s) == s
  {
  }

  /**
   * Two flushes settle the component; when a dependency other than the counts
   * changed, the pending timer is the one for the fresh values.
   */
  lemma SettleEffects(s: State)
    requires s.mounted
    requires CountsFor(s)
    ensures Settled(Settle(s))
    ensures SameOutsideEffects(s, Settle(s))
    ensures KeyChanged(s) ==> ScheduledForLatest(Settle(s))
    ensures Settled(s) ==> Settle(s) == s
  {
    var s1 := Flush(s);
    FlushEffects(s);
    FlushEffects(s1);
    assert Settle(s) == Flush(s1);
    if Settled(s) {
      FlushSettled(s);
      FlushSettled(s1);
    } else {
      assert StatsMatch(Deps(s1)) by {
        if s.statsFor == Some(s.content) {
          assert Deps(s1) == Deps(s);
        }
      }
    }
  }

  lemma MountValid(p: Props)
    ensures Valid(Mount(p))
    ensures ScheduledForLatest(Mount(p))
  {
    SettleEffects(State(p, p.initialContent, p.initialIsPrivate, false, None, p.initialId, 0, 0,
                        None, None, None, [], [], 0, true, None));
  }

  lemma EditValid(s: State, text: string)
    requires Valid(s)
    ensures Valid(Edit(s, text))
  {
    if s.mounted { SettleEffects(s.(content := text)); }
  }

  lemma TogglePrivacyValid(s: State)
    requires Valid(s)
    ensures Valid(TogglePrivacy(s))
  {
    if s.mounted { SettleEffects(s.(isPrivate := !s.isPrivate)); }
  }

  lemma FireValid(s: State)
    requires Valid(s)
    ensures Valid(Fire(s))
  {
  }

  /** Progress of the callbacks, which touches only the callbacks and the requests, keeps the invariant. */
  lemma ProgressValid(s: State, saves: seq<Save>, requests: seq<Request>)
    requires Valid(s)
    requires forall i :: 0 <= i < |saves| ==> StatsMatch(saves[i].snap)
    requires forall i :: 0 <= i < |requests| ==> RowMatches(requests[i])
    ensures Valid(s.(saves := saves, requests := requests))
  {
    assert Deps(s.(saves := saves, requests := requests)) == Deps(s);
  }

  /** A callback getting the user, or finding none, keeps the invariant. */
  lemma LoadUserValid(s: State, k: nat, user: Option<UserId>, now: Time)
    requires Valid(s)
    ensures Valid(LoadUser(s, k, user, now))
  {
    if k < |s.saves| && s.saves[k].phase == AwaitingUser {
      var snap := s.saves[k].snap;
      assert StatsMatch(snap);
      match user
      case None =>
        ProgressValid(s, RemoveAt(s.saves, k), s.requests);
      case Some(uid) =>
        var phase := if snap.entryId.Some? then AwaitingUpdate else AwaitingInsert;
        var r := if snap.entryId.Some? then Update(snap.entryId.value, RowOf(snap, uid, now))
                 else Insert(RowOf(snap, uid, now));
        assert RowMatches(r);
        assert LoadUser(s, k, user, now) ==
          s.(saves := s.saves[k := Save(snap, phase)], requests := s.requests + [r]);
        ProgressValid(s, s.saves[k := Save(snap, phase)], s.requests + [r]);
    }
  }

  /**
   * The renders after a state update keep the invariant, when the state
   * already satisfied it or a dependency other than the counts changed.
   */
  lemma SettleValid(u: State)
    requires u.mounted && CountsFor(u)
    requires forall i :: 0 <= i < |u.saves| ==> StatsMatch(u.saves[i].snap)
    requires forall i :: 0 <= i < |u.requests| ==> RowMatches(u.requests[i])
    requires Valid(u) || KeyChanged(u)
    ensures Valid(Settle(u))
  {
    SettleEffects(u);
    if !KeyChanged(u) {
      assert Settle(u) == u;
    }
  }

  lemma CompleteValid(s: State, k: nat, outcome: Outcome, now: Time)
    requires Valid(s)
    ensures Valid(Complete(s, k, outcome, now))
  {
    if k < |s.saves| && s.saves[k].phase != AwaitingUser && s.mounted {
      var id := if s.saves[k].phase == AwaitingInsert && outcome.Returned?
                then Some(outcome.id) else s.entryId;
      var u := s.(saves := RemoveAt(s.saves, k), entryId := id, lastSaved := Some(now), isSaving := false);
      assert Complete(s, k, outcome, now) == Settle(u);
      assert forall i :: 0 <= i < |u.saves| ==> StatsMatch(u.saves[i].snap);
      assert CountsFor(u);
      assert Valid(u) || KeyChanged(u) by {
        if id == s.entryId {
          assert Deps(u) == Deps(s);
        }
      }
      SettleValid(u);
    }
  }

  /** Every event keeps the invariant. */
  lemma StepValid(s: State, e: Event)
    requires Valid(s)
    ensures Valid(Step(s, e))
  {
    match e
    case Edited(text) => EditValid(s, text);
    case PrivacyToggled => TogglePrivacyValid(s);
    case TimerFired => FireValid(s);
    case UserLoaded(k, user, now) => LoadUserValid(s, k, user, now);
    case GatewayReturned(k, outcome, now) => CompleteValid(s, k, outcome, now);
    case DeleteConfirmed =>
    case DeleteReturned =>
    case Unmounted =>
  }

  lemma {:induction false} RunValid(s: State, es: seq<Event>)
    requires Valid(s)
    ensures Valid(Run(s, es))
    decreases |es|
  {
    if es != [] {
      StepValid(s, es[0]);
      RunValid(Step(s, es[0]), es[1..]);
    }
  }

  /** Every state the editor reaches from its first render keeps the invariant. */
  lemma ReachableValid(p: Props, es: seq<Event>)
    ensures Valid(Run(Mount(p), es))
  {
    MountValid(p);
    RunValid(Mount(p), es);
  }
}
