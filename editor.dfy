/**
 * `EntryEditor` (src/components/diary/editor.tsx:17-85) as an object whose
 * fields are the component's state and whose methods are the setters its
 * effects, timer callback and delete handler call, in the order they call
 * them. Each method is proved to move the object exactly as the event
 * function of module Autosave moves the state record, and to keep its
 * invariant; the properties proved there then hold of the object.
 */
module Editor {
  import opened Common
  import opened WordStats
  import opened Autosave

  class EntryEditor {
    const props: Props
    var content: string
    var isPrivate: bool
    var isSaving: bool
    var lastSaved: Option<Time>
    var entryId: Option<EntryId>
    var wordCount: nat
    var charCount: nat
    /** The content the stats effect last ran for. */
    var statsFor: Option<string>
    /** The dependency values the autosave effect last ran for. */
    var autosaveFor: Option<Snapshot>
    /** The timer (`timeout`) while it has not fired, with the values its callback captured. */
    var timeout: Option<Snapshot>
    /** Fired callbacks that have not finished. */
    var saves: seq<Save>
    /** Calls sent to the store, in order. */
    var requests: seq<Request>
    var deletesInFlight: nat
    var mounted: bool
    var route: Option<string>

    /** The object's state as a record. */
    function Model(): State
      reads this
    {
      State(props, content, isPrivate, isSaving, lastSaved, entryId, wordCount, charCount,
            statsFor, autosaveFor, timeout, saves, requests, deletesInFlight, mounted, route)
    }

    /** The first render with props `p`, and its effects. */
    constructor (p: Props)
      ensures Model() == Mount(p)
      ensures Valid(Model()) && ScheduledForLatest(Model())
    {
      props := p;
      content := p.initialContent;
      isPrivate := p.initialIsPrivate;
      isSaving := false;
      lastSaved := None;
      entryId := p.initialId;
      wordCount := 0;
      charCount := 0;
      statsFor := None;
      autosaveFor := None;
      timeout := None;
      saves := [];
      requests := [];
      deletesInFlight := 0;
      mounted := true;
      route := None;
      new;
      Render();
      MountValid(p);
    }

    /**
     * One commit: the stats effect when `content` changed (lines 31-35), then
     * the autosave effect when a dependency changed, with the values this
     * render saw: clear the previous timer (line 77), then set a new one
     * unless the skip rule holds (lines 39-41).
     */
    method Commit()
      modifies this
      ensures Model() == Flush(old(Model()))
    {
      ghost var before := Model();
      var rendered := Snapshot(content, isPrivate, entryId, wordCount, charCount);
      assert rendered == Deps(before);
      if statsFor != Some(content) {
        wordCount := WordCount(content);
        charCount := CharCount(content);
        statsFor := Some(content);
      }
      assert Model() == StatsEffect(before);
      if autosaveFor != Some(rendered) {
        timeout := None;
        autosaveFor := Some(rendered);
        if !Skips(props, rendered) {
          timeout := Some(rendered);
        }
      }
    }

    /** The renders that follow a state update, while mounted. */
    method Render()
      modifies this
      ensures Model() == Settle(old(Model()))
    {
      if mounted {
        Commit();
        Commit();
      }
    }

    /** `setContent` from the textarea. */
    method Edit(text: string)
      requires Valid(Model())
      modifies this
      ensures Model() == Autosave.Edit(old(Model()), text)
      ensures Valid(Model())
    {
      EditValid(Model(), text);
      if mounted {
        content := text;
        Render();
      }
    }

    /** `setIsPrivate(!isPrivate)` from the privacy button. */
    method TogglePrivacy()
      requires Valid(Model())
      modifies this
      ensures Model() == Autosave.TogglePrivacy(old(Model()))
      ensures Valid(Model())
    {
      TogglePrivacyValid(Model());
      if mounted {
        isPrivate := !isPrivate;
        Render();
      }
    }

    /** The timer fires: its callback starts, sets `isSaving` and asks for the user (lines 42-44). */
    method TimerFired()
      requires Valid(Model())
      modifies this
      ensures Model() == Fire(old(Model()))
      ensures Valid(Model())
    {
      FireValid(Model());
      match timeout
      case None =>
      case Some(captured) =>
        timeout := None;
        if mounted {
          isSaving := true;
        }
        saves := saves + [Save(captured, AwaitingUser)];
    }

    /**
     * Callback `k` gets the user: it stops without one (line 45), otherwise
     * it sends an update for the captured id or an insert (lines 47-64).
     */
    method UserLoaded(k: nat, user: Option<UserId>, now: Time)
      requires Valid(Model())
      modifies this
      ensures Model() == LoadUser(old(Model()), k, user, now)
      ensures Valid(Model())
    {
      LoadUserValid(Model(), k, user, now);
      if k < |saves| && saves[k].phase == AwaitingUser {
        var captured := saves[k].snap;
        match user
        case None =>
          saves := RemoveAt(saves, k);
        case Some(uid) =>
          var entryData := RowOf(captured, uid, now);
          match captured.entryId
          case Some(id) =>
            saves := saves[k := Save(captured, AwaitingUpdate)];
            requests := requests + [Update(id, entryData)];
          case None =>
            saves := saves[k := Save(captured, AwaitingInsert)];
            requests := requests + [Insert(entryData)];
      }
    }

    /**
     * The insert or update of callback `k` returns: bind a returned id
     * (lines 66-67), then `setLastSaved` and `setIsSaving(false)`
     * (lines 73-74); the setters do nothing once unmounted.
     */
    method GatewayReturned(k: nat, outcome: Outcome, now: Time)
      requires Valid(Model())
      modifies this
      ensures Model() == Complete(old(Model()), k, outcome, now)
      ensures Valid(Model())
    {
      CompleteValid(Model(), k, outcome, now);
      ghost var before := Model();
      if k < |saves| && saves[k].phase != AwaitingUser {
        var wasInsert := saves[k].phase == AwaitingInsert;
        saves := RemoveAt(saves, k);
        if mounted {
          if wasInsert && outcome.Returned? {
            entryId := Some(outcome.id);
          }
          lastSaved := Some(now);
          isSaving := false;
          assert Model() == before.(saves := RemoveAt(before.saves, k), entryId := entryId,
                                    lastSaved := Some(now), isSaving := false);
          Render();
        }
      }
    }

    /** `handleDelete` up to its await (lines 81-83). */
    method DeleteConfirmed()
      requires Valid(Model())
      modifies this
      ensures Model() == ConfirmDelete(old(Model()))
      ensures Valid(Model())
    {
      if entryId.Some? && mounted {
        isSaving := true;
        requests := requests + [Delete(entryId.value)];
        deletesInFlight := deletesInFlight + 1;
      }
    }

    /** The delete returns; `router.push("/dashboard")` (line 84). */
    method DeleteReturned()
      requires Valid(Model())
      modifies this
      ensures Model() == FinishDelete(old(Model()))
      ensures Valid(Model())
    {
      if deletesInFlight > 0 {
        deletesInFlight := deletesInFlight - 1;
        route := Some(DashboardRoute);
      }
    }

    /** Unmounting runs the autosave effect's cleanup (line 77). */
    method Unmount()
      requires Valid(Model())
      modifies this
      ensures Model() == Autosave.Unmount(old(Model()))
      ensures Valid(Model())
    {
      if mounted {
        mounted := false;
        timeout := None;
      }
    }
  }
}
