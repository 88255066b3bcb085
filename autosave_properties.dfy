// The properties of the autosave logic, stated over the functions of module Autosave.
module AutosaveProperties {
  import opened Common
  import opened WordStats
  import opened Autosave

  /** Rendering changes only the effects' bookkeeping and the counts. */
  lemma SettleKeeps(s: State)
    ensures SameOutsideEffects(s, Settle(s))
  {
    if s.mounted {
      FlushEffects(s);
      FlushEffects(Flush(s));
    }
  }

  // ---------------------------------------------------------------------------
  // Skip rule and debounce
  // ---------------------------------------------------------------------------

  /**
   * The first render schedules a save exactly when the editor was opened on
   * a stored entry, and that save carries the initial content, privacy and
   * its counts (editor.tsx:39).
   */
  lemma MountSchedules(p: Props)
    ensures Mount(p).pending ==
      if p.initialId.None? then None
      else Some(Snapshot(p.initialContent, p.initialIsPrivate, p.initialId,
                         WordCount(p.initialContent), CharCount(p.initialContent)))
    ensures Mount(p).requests == [] && Mount(p).saves == []
  {
    MountValid(p);
  }

  /**
   * An edit that changes the text, or a privacy toggle, clears the timer that
   * was pending and schedules one for the new values, unless the draft is
   * back at its initial text and privacy with no entry stored; nothing is
   * sent to the store (editor.tsx:39, 41, 77-78).
   */
  lemma ChangeReschedules(s: State, e: Event)
    requires Valid(s) && s.mounted
    requires (e.Edited? && e.text != s.content) || e.PrivacyToggled?
    ensures var t := Step(s, e);
      && t.content == (if e.Edited? then e.text else s.content)
      && t.isPrivate == (if e.Edited? then s.isPrivate else !s.isPrivate)
      && t.entryId == s.entryId && t.mounted
      && t.pending ==
           (if t.content == s.props.initialContent && t.isPrivate == s.props.initialIsPrivate
               && s.entryId.None?
            then None
            else Some(Snapshot(t.content, t.isPrivate, s.entryId,
                               WordCount(t.content), CharCount(t.content))))
      && t.requests == s.requests && t.saves == s.saves
  {
    var u := if e.Edited? then s.(content := e.text) else s.(isPrivate := !s.isPrivate);
    assert Step(s, e) == Settle(u);
    assert KeyChanged(u);
    SettleEffects(u);
  }

  /** From a state whose pending timer is in step with its values, an edit keeps it so. */
  lemma EditKeepsLatest(s: State, text: string)
    requires Valid(s) && s.mounted && ScheduledForLatest(s)
    ensures var t := Edit(s, text);
      && Valid(t) && t.mounted && ScheduledForLatest(t) && t.content == text
      && t.props == s.props && t.isPrivate == s.isPrivate && t.entryId == s.entryId
      && t.requests == s.requests && t.saves == s.saves
  {
    EditValid(s, text);
    var u := s.(content := text);
    SettleEffects(u);
    if text == s.content {
      assert u == s;
    } else {
      assert KeyChanged(u);
    }
  }

  /** A burst of keystrokes: one `Edited` event per text, in order. */
  function Typing(texts: seq<string>): (es: seq<Event>)
    ensures |es| == |texts|
    ensures forall i :: 0 <= i < |texts| ==> es[i] == Edited(texts[i])
  {
    if texts == [] then [] else [Edited(texts[0])] + Typing(texts[1..])
  }

  lemma {:induction false} TypingKeepsLatest(s: State, texts: seq<string>)
    requires Valid(s) && s.mounted && ScheduledForLatest(s)
    ensures var t := Run(s, Typing(texts));
      && Valid(t) && t.mounted && ScheduledForLatest(t)
      && t.content == (if texts == [] then s.content else texts[|texts| - 1])
      && t.props == s.props && t.isPrivate == s.isPrivate && t.entryId == s.entryId
      && t.requests == s.requests && t.saves == s.saves
    decreases |texts|
  {
    if texts != [] {
      var es := Typing(texts);
      assert es[0] == Edited(texts[0]) && es[1..] == Typing(texts[1..]);
      EditKeepsLatest(s, texts[0]);
      TypingKeepsLatest(Edit(s, texts[0]), texts[1..]);
    }
  }

  /**
   * A burst of edits with no timer firing in between sends nothing and
   * leaves at most one pending save: the one for the last text, with the
   * current privacy and the counts of that text (editor.tsx:41, 47-54, 77-78).
   */
  lemma BurstCoalesces(s: State, texts: seq<string>)
    requires Valid(s) && s.mounted
    requires |texts| > 0 && texts[0] != s.content
    ensures var t := Run(s, Typing(texts)); var last := texts[|texts| - 1];
      && t.content == last
      && t.requests == s.requests && t.saves == s.saves
      && t.pending ==
           (if last == s.props.initialContent && s.isPrivate == s.props.initialIsPrivate
               && s.entryId.None?
            then None
            else Some(Snapshot(last, s.isPrivate, s.entryId, WordCount(last), CharCount(last))))
  {
    var last := texts[|texts| - 1];
    var s1 := Edit(s, texts[0]);
    assert Valid(s1) && s1.mounted && ScheduledForLatest(s1)
      && s1.props == s.props && s1.isPrivate == s.isPrivate && s1.entryId == s.entryId
      && s1.requests == s.requests && s1.saves == s.saves
    by {
      var u := s.(content := texts[0]);
      assert KeyChanged(u);
      SettleEffects(u);
      EditValid(s, texts[0]);
    }
    var t := Run(s1, Typing(texts[1..]));
    assert Run(s, Typing(texts)) == t by {
      var es := Typing(texts);
      assert es[0] == Edited(texts[0]) && es[1..] == Typing(texts[1..]);
    }
    assert Settled(t) && ScheduledForLatest(t) && t.content == last
      && t.props == s.props && t.isPrivate == s.isPrivate && t.entryId == s.entryId
      && t.requests == s.requests && t.saves == s.saves
    by {
      TypingKeepsLatest(s1, texts[1..]);
    }
  }

  /**
   * When the pending timer fires, its callback carries the latest content,
   * privacy, entry id and the counts of that content, and `isSaving` is set
   * (editor.tsx:42, 47-54).
   */
  lemma FireCarriesLatest(s: State)
    requires Valid(s) && s.pending.Some?
    ensures var t := Fire(s);
      && t.saves == s.saves + [Save(Snapshot(s.content, s.isPrivate, s.entryId,
                                              WordCount(s.content), CharCount(s.content)),
                                     AwaitingUser)]
      && t.isSaving && t.pending.None? && t.requests == s.requests
  {
  }

  // ---------------------------------------------------------------------------
  // Insert or update, and the entry id
  // ---------------------------------------------------------------------------

  /**
   * A callback that gets a user sends exactly one request: an update keyed by
   * the entry id it captured, or an insert when it captured none, with the
   * captured values (editor.tsx:47-64).
   */
  lemma SaveKind(s: State, k: nat, user: UserId, now: Time)
    requires k < |s.saves| && s.saves[k].phase == AwaitingUser
    ensures var snap := s.saves[k].snap; var t := LoadUser(s, k, Some(user), now);
      && |t.requests| == |s.requests| + 1 && t.requests[..|s.requests|] == s.requests
      && var r := t.requests[|s.requests|];
         && (r.Insert? <==> snap.entryId.None?)
         && (r.Update? <==> snap.entryId.Some?)
         && (r.Update? ==> snap.entryId == Some(r.id))
         && !r.Delete? && r.row == RowOf(snap, user, now)
  {
    var t := LoadUser(s, k, Some(user), now);
    assert t.requests[..|s.requests|] == s.requests;
  }

  /**
   * A save that fires once an entry id is bound updates that entry and never
   * inserts (editor.tsx:56-57).
   */
  lemma BoundDraftUpdates(s: State, user: UserId, now: Time)
    requires Valid(s) && s.entryId.Some? && s.pending.Some?
    ensures var t := LoadUser(Fire(s), |s.saves|, Some(user), now);
      t.requests == s.requests + [Update(s.entryId.value, Row(s.content, s.isPrivate,
        WordCount(s.content), CharCount(s.content), user, now))]
  {
    FireCarriesLatest(s);
  }

  /**
   * The entry id changes only when an insert returns an id, and then becomes
   * that id; no other event, an update's return included, writes it
   * (editor.tsx:22, 66-67).
   */
  lemma EntryIdWrittenByInsertOnly(s: State, e: Event)
    ensures var t := Step(s, e);
      t.entryId != s.entryId ==>
        && e.GatewayReturned? && e.save < |s.saves|
        && s.saves[e.save].phase == AwaitingInsert
        && e.outcome.Returned? && t.entryId == Some(e.outcome.id)
  {
    match e
    case Edited(text) => SettleKeeps(s.(content := text));
    case PrivacyToggled => SettleKeeps(s.(isPrivate := !s.isPrivate));
    case GatewayReturned(k, outcome, now) =>
      if k < |s.saves| && s.saves[k].phase != AwaitingUser && s.mounted {
        var id := if s.saves[k].phase == AwaitingInsert && outcome.Returned?
                  then Some(outcome.id) else s.entryId;
        SettleKeeps(s.(saves := RemoveAt(s.saves, k), entryId := id, lastSaved := Some(now),
                       isSaving := false));
      }
    case _ =>
  }

  /**
   * An insert that returns an id binds it, whether or not an id was already
   * bound: a late insert from an earlier callback replaces it (editor.tsx:66-67).
   */
  lemma InsertBindsId(s: State, k: nat, id: EntryId, now: Time)
    requires s.mounted && k < |s.saves| && s.saves[k].phase == AwaitingInsert
    ensures Complete(s, k, Returned(id), now).entryId == Some(id)
  {
    SettleKeeps(s.(saves := RemoveAt(s.saves, k), entryId := Some(id), lastSaved := Some(now),
                   isSaving := false));
  }

  /**
   * `entryId` is a dependency of the autosave effect, so an insert that binds
   * a new id schedules a save of the current values under that id: an update
   * follows the insert once the timer fires (editor.tsx:67, 78).
   */
  lemma InsertReschedules(s: State, k: nat, id: EntryId, now: Time)
    requires Valid(s) && s.mounted && k < |s.saves| && s.saves[k].phase == AwaitingInsert
    requires s.entryId != Some(id)
    ensures Complete(s, k, Returned(id), now).pending ==
      Some(Snapshot(s.content, s.isPrivate, Some(id), WordCount(s.content), CharCount(s.content)))
  {
    var u := s.(saves := RemoveAt(s.saves, k), entryId := Some(id), lastSaved := Some(now),
                isSaving := false);
    assert Complete(s, k, Returned(id), now) == Settle(u);
    assert CountsFor(u);
    assert KeyChanged(u);
    SettleEffects(u);
  }

  /**
   * An answer that binds no new id (an update's, or a failed insert's) leaves
   * the pending timer as it was: no dependency of the autosave effect
   * changed (editor.tsx:73-74, 78).
   */
  lemma UpdateKeepsPending(s: State, k: nat, outcome: Outcome, now: Time)
    requires Valid(s) && s.mounted && k < |s.saves|
    requires s.saves[k].phase == AwaitingUpdate || (s.saves[k].phase == AwaitingInsert && outcome.Failed?)
    ensures Complete(s, k, outcome, now).pending == s.pending
    ensures Complete(s, k, outcome, now).entryId == s.entryId
  {
    var u := s.(saves := RemoveAt(s.saves, k), lastSaved := Some(now), isSaving := false);
    assert Complete(s, k, outcome, now) == Settle(u);
    assert Settled(u);
    FlushSettled(u);
  }

  // ---------------------------------------------------------------------------
  // isSaving and lastSaved
  // ---------------------------------------------------------------------------

  /**
   * When an insert or update returns, `lastSaved` becomes the time read then
   * and `isSaving` is cleared, whether the call failed or not and whether
   * newer edits were made meanwhile (editor.tsx:73-74).
   */
  lemma CompletionSettlesFlags(s: State, k: nat, outcome: Outcome, now: Time)
    requires s.mounted && k < |s.saves| && s.saves[k].phase != AwaitingUser
    ensures var t := Complete(s, k, outcome, now);
      && !t.isSaving && t.lastSaved == Some(now)
      && t.saves == RemoveAt(s.saves, k) && t.requests == s.requests
      && t.content == s.content && t.isPrivate == s.isPrivate
  {
    var id := if s.saves[k].phase == AwaitingInsert && outcome.Returned?
              then Some(outcome.id) else s.entryId;
    SettleKeeps(s.(saves := RemoveAt(s.saves, k), entryId := id, lastSaved := Some(now),
                   isSaving := false));
  }

  /**
   * A save that finds no user is dropped after `isSaving` was set: nothing is
   * sent and `isSaving` stays set (editor.tsx:42-45).
   */
  lemma NoUserLeavesSaving(s: State, now: Time)
    requires Valid(s) && s.pending.Some?
    ensures var t := LoadUser(Fire(s), |s.saves|, None, now);
      && t.isSaving && t.requests == s.requests && t.saves == s.saves && t.pending.None?
  {
    var f := Fire(s);
    assert RemoveAt(f.saves, |s.saves|) == s.saves;
  }

  // ---------------------------------------------------------------------------
  // Delete
  // ---------------------------------------------------------------------------

  /** Delete does nothing while no entry id is bound (editor.tsx:81). */
  lemma DeleteNeedsId(s: State)
    requires s.entryId.None?
    ensures ConfirmDelete(s) == s
  {
  }

  /**
   * With an entry id bound, delete sends one delete request for it and sets
   * `isSaving`; it does not clear the pending timer (editor.tsx:82-83).
   */
  lemma DeleteSendsOne(s: State)
    requires s.mounted && s.entryId.Some?
    ensures var t := ConfirmDelete(s);
      && t.requests == s.requests + [Delete(s.entryId.value)]
      && t.isSaving && t.pending == s.pending && t.content == s.content
  {
  }

  /** The answer to a delete is not inspected: the editor navigates to the dashboard (editor.tsx:84). */
  lemma DeleteAlwaysNavigates(s: State)
    requires s.deletesInFlight > 0
    ensures FinishDelete(s).route == Some(DashboardRoute)
    ensures FinishDelete(s).requests == s.requests
  {
  }

  // ---------------------------------------------------------------------------
  // Runs the code allows
  // ---------------------------------------------------------------------------

  /**
   * While no entry id is bound, an edit to a new text that is not the
   * initial one, followed by the timer and a user, sends an insert of that
   * text, whatever callbacks are still in flight, earlier inserts included
   * (editor.tsx:41-64). Back at the initial text the skip rule sends nothing.
   */
  lemma UnboundEditInserts(s: State, text: string, user: UserId, now: Time)
    requires Valid(s) && s.mounted && s.entryId.None?
    requires text != s.content && text != s.props.initialContent
    ensures var t := LoadUser(Fire(Edit(s, text)), |s.saves|, Some(user), now);
      && Valid(t) && t.mounted && t.content == text && t.entryId.None? && t.props == s.props
      && t.requests == s.requests + [Insert(Row(text, s.isPrivate, WordCount(text), CharCount(text), user, now))]
      && t.saves == s.saves + [Save(Snapshot(text, s.isPrivate, None, WordCount(text), CharCount(text)), AwaitingInsert)]
  {
    var s2 := Fire(Edit(s, text));
    UnboundEditFires(s, text);
    LoadUserValid(s2, |s.saves|, Some(user), now);
  }

  /** On a new draft, the first edit, its timer and a user leave one insert in flight. */
  lemma FirstInsertInFlight(p: Props, first: string, user: UserId, t1: Time)
    requires p.initialId.None? && first != p.initialContent
    ensures var s1 := LoadUser(Fire(Edit(Mount(p), first)), 0, Some(user), t1);
      && Valid(s1) && s1.mounted && s1.entryId.None? && s1.props == p && s1.content == first
      && |s1.saves| == 1 && s1.saves[0].phase == AwaitingInsert
      && |s1.requests| == 1 && s1.requests[0].Insert? && s1.requests[0].row.content == first
  {
    MountValid(p);
    MountSchedules(p);
    UnboundEditInserts(Mount(p), first, user, t1);
  }

  /**
   * With one insert in flight and still no id bound, a further edit, its
   * timer and a user send a second insert (editor.tsx:41-64).
   */
  lemma SecondInsertFrom(s1: State, second: string, user: UserId, t2: Time)
    requires Valid(s1) && s1.mounted && s1.entryId.None?
    requires second != s1.content && second != s1.props.initialContent
    requires |s1.saves| == 1 && s1.saves[0].phase == AwaitingInsert
    requires |s1.requests| == 1 && s1.requests[0].Insert?
    ensures var s2 := LoadUser(Fire(Edit(s1, second)), 1, Some(user), t2);
      && |s2.saves| == 2 && s2.saves[0] == s1.saves[0] && s2.saves[1].phase == AwaitingInsert
      && |s2.requests| == 2 && s2.requests[0] == s1.requests[0]
      && s2.requests[1].Insert? && s2.requests[1].row.content == second
  {
    UnboundEditInserts(s1, second, user, t2);
  }

  /**
   * Two inserts for one draft: on an editor opened without an entry (as on
   * the new-entry page) the user types, the save fires and its insert is in flight,
   * the user types again and that save fires too; nothing stops the second
   * callback from inserting (editor.tsx:41-64).
   */
  lemma SecondInsertReachable(p: Props, first: string, second: string, user: UserId, t1: Time, t2: Time)
    requires p.initialId.None?
    requires first != p.initialContent && second != p.initialContent && second != first
    ensures var s1 := LoadUser(Fire(Edit(Mount(p), first)), 0, Some(user), t1);
            var s2 := LoadUser(Fire(Edit(s1, second)), 1, Some(user), t2);
      && |s2.saves| == 2 && s2.saves[0].phase == AwaitingInsert && s2.saves[1].phase == AwaitingInsert
      && |s2.requests| == 2 && s2.requests[0].Insert? && s2.requests[1].Insert?
      && s2.requests[0].row.content == first && s2.requests[1].row.content == second
  {
    var s1 := LoadUser(Fire(Edit(Mount(p), first)), 0, Some(user), t1);
    FirstInsertInFlight(p, first, user, t1);
    SecondInsertFrom(s1, second, user, t2);
  }

  /**
   * While no entry id is bound, an edit to a new text that is not the
   * initial one and the timer firing leave one more callback waiting for the
   * user, with the edited text and no captured id (editor.tsx:39-44).
   */
  lemma UnboundEditFires(s: State, text: string)
    requires Valid(s) && s.mounted && s.entryId.None?
    requires text != s.content && text != s.props.initialContent
    ensures var t := Fire(Edit(s, text));
      && Valid(t) && t.mounted && t.content == text && t.entryId.None? && t.props == s.props
      && t.requests == s.requests
      && t.saves == s.saves + [Save(Snapshot(text, s.isPrivate, None, WordCount(text), CharCount(text)), AwaitingUser)]
  {
    ChangeReschedules(s, Edited(text));
    EditValid(s, text);
    FireCarriesLatest(Edit(s, text));
    FireValid(Edit(s, text));
  }

  /**
   * With two callbacks waiting for the user and nothing sent yet, the older
   * one, having captured no id, gets a user and sends an insert (editor.tsx:56-64).
   */
  lemma OldestCallbackInserts(b: State, user: UserId, t1: Time)
    requires b.mounted && |b.saves| == 2 && b.requests == []
    requires b.saves[0].phase == AwaitingUser && b.saves[0].snap.entryId.None?
    ensures var c := LoadUser(b, 0, Some(user), t1);
      && c.mounted && |c.saves| == 2 && c.saves[0].phase == AwaitingInsert && c.saves[1] == b.saves[1]
      && c.requests == [Insert(RowOf(b.saves[0].snap, user, t1))]
  {
  }

  /**
   * An insert answer that binds `id` while a second callback, which captured
   * no id, waits for the user: that callback then sends an insert of its
   * captured values (editor.tsx:56-67).
   */
  lemma StaleCallbackInserts(c: State, id: EntryId, user: UserId, t2: Time, t3: Time)
    requires c.mounted && |c.saves| == 2 && c.saves[0].phase == AwaitingInsert
    requires c.saves[1].phase == AwaitingUser && c.saves[1].snap.entryId.None?
    ensures var d := Complete(c, 0, Returned(id), t2);
            var e := LoadUser(d, 0, Some(user), t3);
      && d.entryId == Some(id) && e.entryId == Some(id)
      && e.requests == c.requests + [Insert(RowOf(c.saves[1].snap, user, t3))]
  {
    var d := Complete(c, 0, Returned(id), t2);
    InsertBindsId(c, 0, id, t2);
    CompletionSettlesFlags(c, 0, Returned(id), t2);
    assert d.saves == [c.saves[1]];
  }

  /**
   * On an editor opened without an entry, two edits each followed by their
   * timer leave two callbacks waiting for the user, neither with an id and
   * nothing sent yet (editor.tsx:39-44).
   */
  lemma TwoCallbacksWaiting(p: Props, first: string, second: string)
    requires p.initialId.None?
    requires first != p.initialContent && second != p.initialContent && second != first
    ensures var b := Fire(Edit(Fire(Edit(Mount(p), first)), second));
      && b.mounted && b.requests == [] && |b.saves| == 2
      && b.saves[0].phase == AwaitingUser && b.saves[0].snap.entryId.None? && b.saves[0].snap.content == first
      && b.saves[1].phase == AwaitingUser && b.saves[1].snap.entryId.None? && b.saves[1].snap.content == second
  {
    var m := Mount(p);
    assert Valid(m) && m.mounted && m.entryId.None? && m.content == p.initialContent
        && m.props == p && m.saves == [] && m.requests == [] by {
      MountValid(p);
      MountSchedules(p);
    }
    var a := Fire(Edit(m, first));
    var sa := Save(Snapshot(first, m.isPrivate, None, WordCount(first), CharCount(first)), AwaitingUser);
    assert Valid(a) && a.mounted && a.entryId.None? && a.content == first && a.props == p
        && a.requests == [] && a.saves == [sa] by {
      UnboundEditFires(m, first);
    }
    var sb := Save(Snapshot(second, a.isPrivate, None, WordCount(second), CharCount(second)), AwaitingUser);
    assert Fire(Edit(a, second)).mounted && Fire(Edit(a, second)).requests == []
        && Fire(Edit(a, second)).saves == [sa, sb] by {
      UnboundEditFires(a, second);
    }
  }

  /**
   * From two callbacks waiting for the user, neither with an id and nothing
   * sent: the older one inserts, its answer binds `id`, and the younger one
   * then inserts as well.
   */
  lemma StaleInsertChain(b: State, user: UserId, id: EntryId, t1: Time, t2: Time, t3: Time)
    requires b.mounted && b.requests == [] && |b.saves| == 2
    requires b.saves[0].phase == AwaitingUser && b.saves[0].snap.entryId.None?
    requires b.saves[1].phase == AwaitingUser && b.saves[1].snap.entryId.None?
    ensures var c := LoadUser(b, 0, Some(user), t1);
            var d := Complete(c, 0, Returned(id), t2);
            var e := LoadUser(d, 0, Some(user), t3);
      && d.entryId == Some(id) && e.entryId == Some(id)
      && e.requests == [Insert(RowOf(b.saves[0].snap, user, t1)), Insert(RowOf(b.saves[1].snap, user, t3))]
  {
    var c := LoadUser(b, 0, Some(user), t1);
    OldestCallbackInserts(b, user, t1);
    StaleCallbackInserts(c, id, user, t2, t3);
  }

  /**
   * A save that fired before the first insert answered still inserts after
   * that answer binds an id: the callback decides by the id its timer
   * captured, not the one bound now (editor.tsx:41-67). On an editor opened
   * without an entry, two edits each fire their timer; the first callback
   * inserts and its answer binds `id`; the second callback then sends a
   * second insert although `id` is bound.
   */
  lemma InsertAfterBind(p: Props, first: string, second: string, user: UserId, id: EntryId,
                        t1: Time, t2: Time, t3: Time)
    requires p.initialId.None?
    requires first != p.initialContent && second != p.initialContent && second != first
    ensures var a := Fire(Edit(Mount(p), first));
            var b := Fire(Edit(a, second));
            var c := LoadUser(b, 0, Some(user), t1);
            var d := Complete(c, 0, Returned(id), t2);
            var e := LoadUser(d, 0, Some(user), t3);
      && d.entryId == Some(id) && e.entryId == Some(id)
      && |e.requests| == 2 && e.requests[0].Insert? && e.requests[1].Insert?
      && e.requests[0].row.content == first && e.requests[1].row.content == second
  {
    TwoCallbacksWaiting(p, first, second);
    StaleInsertChain(Fire(Edit(Fire(Edit(Mount(p), first)), second)), user, id, t1, t2, t3);
  }
}
