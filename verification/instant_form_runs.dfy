/** What the instant form editor reports, over all interleavings of requests, responses and edits. */
module InstantFormRuns {
  import opened Prelude
  import opened InstantForm

  // ----- stored drafts

  /** The revisions of every ad are numbered from one without gaps. */
  ghost predicate Numbered(store: Store) {
    forall k, n: nat {:trigger k in store, Key(k.adId, n)} :: k in store && 1 <= n <= k.revision ==> Key(k.adId, n) in store
  }

  ghost predicate FromOne(store: Store) {
    Numbered(store) && forall k :: k in store ==> k.revision >= 1
  }

  /** A revision that a save has read is in the store, or is zero. */
  ghost predicate ReadsHold(s: System) {
    forall i :: 0 <= i < |s.calls| && s.calls[i].phase.HasRead? ==>
      s.calls[i].phase.newest == 0 || Key(s.calls[i].adId, s.calls[i].phase.newest) in s.store
  }

  // ----- answers and the editor agree with the store

  /** A pin in a body is a stored row with the body's form. */
  ghost predicate BodyTrue(store: Store, adId: string, b: Body) {
    PinOf(b).Some? ==>
      && b.form.Some? && Key(adId, b.revision.value) in store
      && store[Key(adId, b.revision.value)] == b.form.value
  }

  ghost predicate CallTrue(store: Store, c: Call) {
    c.phase.Answered? && c.phase.reply.Fine? ==> BodyTrue(store, c.adId, c.phase.reply.body)
  }

  /** A pinned editor shows a stored row of the ad it last heard about. */
  ghost predicate EditorTrue(s: System) {
    s.editor.Pinned() ==>
      && s.editor.form.Some? && Key(s.shownFor, s.editor.pinnedRevision.value) in s.store
      && s.store[Key(s.shownFor, s.editor.pinnedRevision.value)] == s.editor.form.value
  }

  ghost predicate Inv(s: System) {
    && EditorTrue(s)
    && ReadsHold(s)
    && (forall i :: 0 <= i < |s.calls| ==> CallTrue(s.store, s.calls[i]))
    && FromOne(s.store)
  }

  /** Rows are only ever added. */
  ghost predicate Grows(before: Store, after: Store) {
    forall k :: k in before ==> k in after && after[k] == before[k]
  }

  /** A new row follows the last one, even when others were added since it was read. */
  lemma InsertStaysNumbered(store: Store, adId: string, newest: nat, form: Form)
    requires FromOne(store) && (newest == 0 || Key(adId, newest) in store)
    requires Key(adId, newest + 1) !in store
    ensures FromOne(store[Key(adId, newest + 1) := form])
  {
    var key := Key(adId, newest + 1);
    var after := store[key := form];
    forall k, n: nat {:trigger k in after, Key(k.adId, n)} | k in after && 1 <= n <= k.revision
      ensures Key(k.adId, n) in after
    {
      if k == key && n <= newest {
        assert Key(Key(adId, newest).adId, n) in store;
      } else if k != key {
        assert Key(k.adId, n) in store;
      }
    }
  }

  lemma MoveKeeps(s: System, store: Store, i: nat, phase: Phase)
    requires i < |s.calls| && Inv(s) && Grows(s.store, store) && FromOne(store)
    requires CallTrue(store, s.calls[i].(phase := phase))
    requires phase.HasRead? ==> phase.newest == 0 || Key(s.calls[i].adId, phase.newest) in store
    ensures Inv(Move(s.(store := store), i, phase))
  {
  }

  lemma AskKeeps(s: System, e: Editor, c: Call)
    requires Inv(s) && c.phase.Sent?
    requires e.Pinned() ==> s.editor.Pinned() && e.form == s.editor.form && e.pinnedRevision == s.editor.pinnedRevision
    ensures Inv(s.(editor := e, calls := s.calls + [c]))
  {
  }

  /** Taking over a true answer leaves a true editor. */
  lemma TakeIsTrue(s: System, i: nat)
    requires Inv(s) && i < |s.calls| && s.calls[i].phase.Answered?
    ensures Inv(DeliverCall(s, i))
  {
    MoveKeeps(s, s.store, i, Delivered);
    assert CallTrue(s.store, s.calls[i]);
  }

  lemma EventKeeps(rules: Rules, s: System, ev: Event)
    requires Inv(s) && Enabled(rules, s, ev)
    ensures Inv(Apply(rules, s, ev)) && Grows(s.store, Apply(rules, s, ev).store)
  {
    match ev
    case Edit(next) =>
    case ClickGenerate => AskKeeps(s, s.editor.(status := Generating), Call(Generate, s.editor.adId, true, Sent(0)));
    case ClickSave => AskKeeps(s, s.editor.(status := Saving), Call(Save(s.editor.form.value), s.editor.adId, true, Sent(0)));
    case ChangeAd(adId) => AskKeeps(s, s.editor.(adId := adId, status := Loading), Call(Load, adId, true, Sent(0)));
    case OtherSaves(adId, form) => AskKeeps(s, s.editor, Call(Save(form), adId, false, Sent(0)));
    case ServeLoad(i, newest) => MoveKeeps(s, s.store, i, Answered(Fine(LoadedBody(s.store, s.calls[i].adId, newest))));
    case ServeGenerate(i, form) => MoveKeeps(s, s.store, i, Answered(Fine(Body(Some(form), None, None))));
    case ReadNewest(i, newest) => MoveKeeps(s, s.store, i, HasRead(s.calls[i].phase.attempt, newest));
    case Insert(i) => InsertKeeps(s, i, rules.parse(s.calls[i].kind.sent).value);
    case Fail(i) => MoveKeeps(s, s.store, i, Answered(Failed));
    case Damage(i, readable) => MoveKeeps(s, s.store, i, Answered(if readable then Fine(NOTHING) else Failed));
    case Deliver(i) => TakeIsTrue(s, i);
  }

  lemma InsertKeeps(s: System, i: nat, parsed: Form)
    requires Inv(s) && i < |s.calls| && s.calls[i].phase.HasRead?
    ensures Inv(InsertRow(s, i, parsed)) && Grows(s.store, InsertRow(s, i, parsed).store)
  {
    var call := s.calls[i];
    var key := Key(call.adId, call.phase.newest + 1);
    if key !in s.store {
      InsertStaysNumbered(s.store, call.adId, call.phase.newest, parsed);
      MoveKeeps(s, s.store[key := parsed], i, Answered(Fine(Body(Some(parsed), Some(key.revision), Some(true)))));
    } else {
      MoveKeeps(s, s.store, i, if call.phase.attempt + 1 < PIN_ATTEMPTS then Sent(call.phase.attempt + 1) else Answered(Failed));
    }
  }

  lemma {:induction false} RunKeeps(rules: Rules, s: System, run: seq<Event>)
    requires Inv(s) && Runs(rules, s, run)
    ensures Inv(After(rules, s, run)) && Grows(s.store, After(rules, s, run).store)
    decreases |run|
  {
    if run != [] {
      EventKeeps(rules, s, run[0]);
      RunKeeps(rules, Apply(rules, s, run[0]), run[1..]);
    }
  }

  /**
    While a load is under way nothing can be typed or clicked, and neither button can be pressed twice
    before an answer, the other button or another ad ends the wait.
   */
  lemma BusyExactly(rules: Rules, s: System, ev: Event)
    requires Enabled(rules, s, ev)
    ensures s.editor.status == Loading ==> !ev.Edit? && !ev.ClickGenerate? && !ev.ClickSave?
    ensures s.editor.status == Generating ==> !ev.ClickGenerate?
    ensures s.editor.status == Saving ==> !ev.ClickSave?
    ensures ev.ClickGenerate? ==> Apply(rules, s, ev).editor.status == Generating
    ensures ev.ClickSave? ==> Apply(rules, s, ev).editor.status == Saving
    ensures ev.ChangeAd? ==> Apply(rules, s, ev).editor.status == Loading
    ensures Apply(rules, s, ev).editor.status != s.editor.status ==> ev.ClickGenerate? || ev.ClickSave? || ev.ChangeAd? || ev.Deliver?
    ensures ev.Deliver? ==> Apply(rules, s, ev).editor.status == Idle
  {
  }

  /**
    Outside a load the editor reports the form it shows, and a revision exactly when that form is pinned:
    then nothing was changed since, and there is nothing to save.
   */
  lemma ReportExactly(e: Editor, valid: Form -> bool)
    ensures Reported(e).None? <==> e.status == Loading
    ensures e.status != Loading ==>
      var report := Reported(e).value;
      && report.form == e.form
      && (report.pinned <==> report.revision.Some?)
      && (report.pinned <==> e.pinnedRevision.Some? && !e.dirty)
      && (report.pinned ==> report.revision == e.pinnedRevision && !CanSave(e, valid))
  {
  }

  /**
    Whatever the interleaving, a reported pin names a stored draft, and the reported form is that
    draft. Stored drafts never change, and stay numbered without gaps.
   */
  lemma PinnedIsStored(rules: Rules, adId: string, store: Store, run: seq<Event>)
    requires FromOne(store) && Runs(rules, Mounted(adId, store), run)
    ensures var s := After(rules, Mounted(adId, store), run);
      && Grows(store, s.store) && FromOne(s.store)
      && (Reported(s.editor).Some? && Reported(s.editor).value.pinned ==>
            var report := Reported(s.editor).value;
            && report.revision.Some? && report.form.Some?
            && Key(s.shownFor, report.revision.value) in s.store
            && s.store[Key(s.shownFor, report.revision.value)] == report.form.value)
  {
    RunKeeps(rules, Mounted(adId, store), run);
  }

  // ----- what the server does with a request

  /** A generated form is answered, and once taken over it is shown, unpinned and to be saved. */
  lemma GeneratedIsShown(rules: Rules, s: System, i: nat, form: Form)
    requires Enabled(rules, s, ServeGenerate(i, form)) && s.calls[i].mine
    ensures var answered := Apply(rules, s, ServeGenerate(i, form));
      && answered.store == s.store && answered.editor == s.editor && Enabled(rules, answered, Deliver(i))
      && var e := Apply(rules, answered, Deliver(i)).editor;
         e.form == Some(form) && e.dirty && e.pinnedRevision.None? && e.status == Idle && e.adId == s.editor.adId
  {
  }

  /**
    A save stores the form under the revision after the one it read, if that is still free, and is
    answered with just that; otherwise nothing is stored, and it starts again until the third time.
   */
  lemma InsertExactly(rules: Rules, s: System, i: nat)
    requires Enabled(rules, s, Insert(i))
    ensures var call, s' := s.calls[i], Apply(rules, s, Insert(i));
      var revision, made := call.phase.newest + 1, rules.parse(call.kind.sent);
      && s'.editor == s.editor && |s'.calls| == |s.calls|
      && (Key(call.adId, revision) !in s.store ==>
            && s'.store == s.store[Key(call.adId, revision) := made.value]
            && s'.calls[i].phase == Answered(Fine(Body(made, Some(revision), Some(true)))))
      && (Key(call.adId, revision) in s.store ==>
            && s'.store == s.store
            && s'.calls[i].phase == if call.phase.attempt < 2 then Sent(call.phase.attempt + 1) else Answered(Failed))
  {
  }

  /** A load is answered with the newest draft of its ad, or with nothing when there is none. */
  lemma LoadIsAnswered(rules: Rules, s: System, i: nat, newest: nat)
    requires Enabled(rules, s, ServeLoad(i, newest)) && FromOne(s.store)
    ensures var adId, s' := s.calls[i].adId, Apply(rules, s, ServeLoad(i, newest));
      && s'.store == s.store && s'.editor == s.editor
      && (newest == 0 ==> s'.calls[i].phase == Answered(Fine(NOTHING)))
      && (newest > 0 ==> s'.calls[i].phase == Answered(Fine(Body(Some(s.store[Key(adId, newest)]), Some(newest), None))))
      && forall k :: k in s.store && k.adId == adId ==> k.revision <= newest
  {
  }

  // ----- which ad the report is about

  /** The editor's own requests, and what it shows, are all for one ad. */
  ghost predicate OneAd(s: System) {
    s.shownFor == s.editor.adId && forall i :: 0 <= i < |s.calls| && s.calls[i].mine ==> s.calls[i].adId == s.editor.adId
  }

  lemma EventKeepsOneAd(rules: Rules, s: System, ev: Event)
    requires OneAd(s) && Enabled(rules, s, ev) && !ev.ChangeAd?
    ensures OneAd(Apply(rules, s, ev)) && Apply(rules, s, ev).editor.adId == s.editor.adId
  {
  }

  lemma {:induction false} RunKeepsOneAd(rules: Rules, s: System, run: seq<Event>)
    requires OneAd(s) && Runs(rules, s, run) && forall i :: 0 <= i < |run| ==> !run[i].ChangeAd?
    ensures OneAd(After(rules, s, run)) && After(rules, s, run).editor.adId == s.editor.adId
    decreases |run|
  {
    if run != [] {
      EventKeepsOneAd(rules, s, run[0]);
      RunKeepsOneAd(rules, Apply(rules, s, run[0]), run[1..]);
    }
  }

  /** An editor that keeps its ad reports pins of that ad. */
  lemma PinIsOfThisAd(rules: Rules, adId: string, store: Store, run: seq<Event>)
    requires FromOne(store) && Runs(rules, Mounted(adId, store), run)
    requires forall i :: 0 <= i < |run| ==> !run[i].ChangeAd?
    ensures var e := After(rules, Mounted(adId, store), run).editor;
      var now := After(rules, Mounted(adId, store), run).store;
      Reported(e).Some? && Reported(e).value.pinned ==>
        && Key(adId, e.pinnedRevision.value) in now
        && Some(now[Key(adId, e.pinnedRevision.value)]) == e.form
  {
    RunKeeps(rules, Mounted(adId, store), run);
    RunKeepsOneAd(rules, Mounted(adId, store), run);
  }

  // ----- what the editor shows comes from the mount, from the user, or from an answer

  datatype Origin = Mount | User | Answer(call: Call)

  /** Where the form, the pin and the dirty mark come from after a run. */
  ghost function Latest(rules: Rules, s: System, run: seq<Event>, origin: Origin): Origin
    requires Runs(rules, s, run)
    decreases |run|
  {
    if run == [] then origin
    else
      var next :=
        if run[0].Edit? then User
        else if run[0].Deliver? && s.calls[run[0].call].phase.reply.Fine? then Answer(s.calls[run[0].call])
        else origin;
      Latest(rules, Apply(rules, s, run[0]), run[1..], next)
  }

  /** What the server sends: a stored draft, a fresh one, nothing yet, or something unreadable. */
  predicate BodyShape(rules: Rules, kind: Kind, b: Body) {
    || b == NOTHING
    || (kind.Load? && b.form.Some? && b.revision.Some? && b.pinned.None?)
    || (kind.Generate? && b.form.Some? && b.revision.None? && b.pinned.None?)
    || (kind.Save? && b.form.Some? && b.form == rules.parse(kind.sent) && b.revision.Some? && b.pinned == Some(true))
  }

  predicate CallShape(rules: Rules, c: Call) {
    c.phase.Answered? && c.phase.reply.Fine? ==> BodyShape(rules, c.kind, c.phase.reply.body)
  }

  predicate Shaped(rules: Rules, s: System) {
    forall i :: 0 <= i < |s.calls| ==> CallShape(rules, s.calls[i])
  }

  lemma EventKeepsShape(rules: Rules, s: System, ev: Event)
    requires Shaped(rules, s) && Enabled(rules, s, ev)
    ensures Shaped(rules, Apply(rules, s, ev))
  {
  }

  /** The editor is as its origin left it. */
  predicate Explained(rules: Rules, s: System, origin: Origin) {
    match origin
    case Mount => s.editor.form.None? && s.editor.pinnedRevision.None? && !s.editor.dirty
    case User => s.editor.form.Some? && s.editor.dirty
    case Answer(c) =>
      && c.phase.Answered? && c.phase.reply.Fine? && CallShape(rules, c) && s.shownFor == c.adId
      && var t := Take(s.editor, c.kind, c.phase.reply);
         s.editor.form == t.form && s.editor.pinnedRevision == t.pinnedRevision && s.editor.dirty == t.dirty
  }

  lemma {:induction false} LatestExplains(rules: Rules, s: System, run: seq<Event>, origin: Origin)
    requires Runs(rules, s, run) && Shaped(rules, s) && Explained(rules, s, origin)
    ensures Shaped(rules, After(rules, s, run))
    ensures Explained(rules, After(rules, s, run), Latest(rules, s, run, origin))
    decreases |run|
  {
    if run != [] {
      var s' := Apply(rules, s, run[0]);
      var next :=
        if run[0].Edit? then User
        else if run[0].Deliver? && s.calls[run[0].call].phase.reply.Fine? then Answer(s.calls[run[0].call])
        else origin;
      EventKeepsShape(rules, s, run[0]);
      assert Explained(rules, s', next);
      LatestExplains(rules, s', run[1..], next);
    }
  }

  /**
    On every run: what set the form last, when a pin is reported, was an answer; and the pin is a
    stored draft of the ad the editor is on exactly when that answer was to a request for that ad,
    or that ad happens to have the same draft under the same revision.
   */
  lemma PinIsOfPresentAdExactly(rules: Rules, adId: string, store: Store, run: seq<Event>)
    requires FromOne(store) && Runs(rules, Mounted(adId, store), run)
    requires Reported(After(rules, Mounted(adId, store), run).editor).Some?
    requires Reported(After(rules, Mounted(adId, store), run).editor).value.pinned
    ensures Latest(rules, Mounted(adId, store), run, Mount).Answer?
    ensures var s := After(rules, Mounted(adId, store), run);
      var asked := Latest(rules, Mounted(adId, store), run, Mount).call.adId;
      var key, answered := Key(s.editor.adId, s.editor.pinnedRevision.value), Key(asked, s.editor.pinnedRevision.value);
      && answered in s.store
      && (key in s.store && Some(s.store[key]) == s.editor.form <==>
            asked == s.editor.adId || (key in s.store && s.store[key] == s.store[answered]))
  {
    RunKeeps(rules, Mounted(adId, store), run);
    LatestExplains(rules, Mounted(adId, store), run, Mount);
  }

  const PERMISSIVE := Rules((f: Form) => true, (f: Form) => Some(f))

  const ONE_DRAFT: Store := map[Key("a", 1) := "form"]

  /** The editor is on ad "b", which has no draft, and reports the draft of ad "a" as pinned. */
  ghost predicate Misled(s: System) {
    && s.editor.adId == "b" && Reported(s.editor) == Some(Report(true, Some(1), Some("form")))
    && forall n: nat :: Key("b", n) !in s.store
  }

  lemma OtherAd()
    ensures "a" != "b"
  {
    assert "a"[0] != "b"[0];
  }

  /** A run that starts with one event. */
  lemma Prepend(rules: Rules, s: System, ev: Event, next: System, rest: seq<Event>)
    requires Enabled(rules, s, ev) && Apply(rules, s, ev) == next && Runs(rules, next, rest)
    ensures Runs(rules, s, [ev] + rest) && After(rules, s, [ev] + rest) == After(rules, next, rest)
  {
    assert ([ev] + rest)[1..] == rest;
  }

  const FIRST_LOADED := Answered(Fine(Body(Some("form"), Some(1), None)))

  function LoadOf(adId: string, phase: Phase): Call {
    Call(Load, adId, true, phase)
  }

  lemma OneDraftServed()
    ensures FromOne(ONE_DRAFT) && IsNewest(ONE_DRAFT, "a", 1) && IsNewest(ONE_DRAFT, "b", 0)
    ensures LoadedBody(ONE_DRAFT, "a", 1) == Body(Some("form"), Some(1), None)
    ensures LoadedBody(ONE_DRAFT, "b", 0) == NOTHING
  {
    OtherAd();
  }

  /** The editor has moved on to ad "b" and waits, with the answer for ad "a" still to come. */
  function MovedOn(status: Status, heard: string, second: Phase): System {
    System(Editor("b", None, None, status, false), heard, [LoadOf("a", FIRST_LOADED), LoadOf("b", second)], ONE_DRAFT)
  }

  const MISLED_STATE := System(
    Editor("b", Some("form"), Some(1), Idle, false), "a", [LoadOf("a", Delivered), LoadOf("b", Delivered)], ONE_DRAFT)

  lemma LateAnswerArrives() returns (run: seq<Event>)
    ensures Runs(PERMISSIVE, MovedOn(Loading, "a", Sent(0)), run)
    ensures After(PERMISSIVE, MovedOn(Loading, "a", Sent(0)), run) == MISLED_STATE
  {
    OneDraftServed();
    run := [];
    Prepend(PERMISSIVE, MovedOn(Idle, "b", Delivered), Deliver(0), MISLED_STATE, run);
    run := [Deliver(0)] + run;
    Prepend(PERMISSIVE, MovedOn(Loading, "a", Answered(Fine(NOTHING))), Deliver(1), MovedOn(Idle, "b", Delivered), run);
    run := [Deliver(1)] + run;
    Prepend(PERMISSIVE, MovedOn(Loading, "a", Sent(0)), ServeLoad(1, 0), MovedOn(Loading, "a", Answered(Fine(NOTHING))), run);
    run := [ServeLoad(1, 0)] + run;
  }

  /** An answer for the previous ad that arrives late is reported as a pin of the present one. */
  lemma LateAnswerMisleads() returns (run: seq<Event>)
    ensures FromOne(ONE_DRAFT) && Runs(PERMISSIVE, Mounted("a", ONE_DRAFT), run)
    ensures Misled(After(PERMISSIVE, Mounted("a", ONE_DRAFT), run))
  {
    OtherAd();
    OneDraftServed();
    var s1 := System(Editor("a", None, None, Loading, false), "a", [LoadOf("a", FIRST_LOADED)], ONE_DRAFT);
    run := LateAnswerArrives();
    Prepend(PERMISSIVE, s1, ChangeAd("b"), MovedOn(Loading, "a", Sent(0)), run);
    run := [ChangeAd("b")] + run;
    Prepend(PERMISSIVE, Mounted("a", ONE_DRAFT), ServeLoad(0, 1), s1, run);
    run := [ServeLoad(0, 1)] + run;
  }

  /** So is the draft of the previous ad when the load for the present one fails. */
  lemma FailedLoadMisleads() returns (run: seq<Event>)
    ensures FromOne(ONE_DRAFT) && Runs(PERMISSIVE, Mounted("a", ONE_DRAFT), run)
    ensures Misled(After(PERMISSIVE, Mounted("a", ONE_DRAFT), run))
  {
    OtherAd();
    OneDraftServed();
    var on := (adId: string, status: Status) => Editor(adId, Some("form"), Some(1), status, false);
    var s0 := Mounted("a", ONE_DRAFT);
    var s1 := System(s0.editor, "a", [LoadOf("a", FIRST_LOADED)], ONE_DRAFT);
    var s2 := System(on("a", Idle), "a", [LoadOf("a", Delivered)], ONE_DRAFT);
    var s3 := System(on("b", Loading), "a", [LoadOf("a", Delivered), LoadOf("b", Sent(0))], ONE_DRAFT);
    var s4 := System(on("b", Loading), "a", [LoadOf("a", Delivered), LoadOf("b", Answered(Failed))], ONE_DRAFT);
    var s5 := System(on("b", Idle), "a", [LoadOf("a", Delivered), LoadOf("b", Delivered)], ONE_DRAFT);
    run := [];
    Prepend(PERMISSIVE, s4, Deliver(1), s5, run);
    run := [Deliver(1)] + run;
    Prepend(PERMISSIVE, s3, InstantForm.Fail(1), s4, run);
    run := [InstantForm.Fail(1)] + run;
    Prepend(PERMISSIVE, s2, ChangeAd("b"), s3, run);
    run := [ChangeAd("b")] + run;
    Prepend(PERMISSIVE, s1, Deliver(0), s2, run);
    run := [Deliver(0)] + run;
    Prepend(PERMISSIVE, s0, ServeLoad(0, 1), s1, run);
    run := [ServeLoad(0, 1)] + run;
  }

  // ----- edits and saves that cross

  /** Whatever came in between, a save answered with a pin shows and reports what the server made of the form sent, which it has stored. */
  lemma SaveTakesOver(rules: Rules, adId: string, store: Store, run: seq<Event>, i: nat)
    requires FromOne(store) && Runs(rules, Mounted(adId, store), run)
    requires var s := After(rules, Mounted(adId, store), run);
      && Enabled(rules, s, Deliver(i)) && s.calls[i].kind.Save?
      && s.calls[i].phase.reply.Fine? && PinOf(s.calls[i].phase.reply.body).Some?
    ensures var s := After(rules, Mounted(adId, store), run);
      var made, revision := rules.parse(s.calls[i].kind.sent), s.calls[i].phase.reply.body.revision;
      && Reported(Apply(rules, s, Deliver(i)).editor) == Some(Report(true, revision, made))
      && made.Some? && Key(s.calls[i].adId, revision.value) in s.store && s.store[Key(s.calls[i].adId, revision.value)] == made.value
  {
    var s := After(rules, Mounted(adId, store), run);
    RunKeeps(rules, Mounted(adId, store), run);
    LatestExplains(rules, Mounted(adId, store), run, Mount);
    assert CallTrue(s.store, s.calls[i]) && CallShape(rules, s.calls[i]);
  }

  /** What one event puts on the screen: what the user types, or what an answer brings. */
  ghost function Puts(rules: Rules, s: System, ev: Event, shown: Option<Form>): Option<Form>
    requires Enabled(rules, s, ev)
  {
    match ev
    case Edit(next) => Some(next)
    case Deliver(i) =>
      var call := s.calls[i];
      if call.phase.reply.Failed? then shown
      else if call.kind.Save? && call.phase.reply.body.form.None? then Some(call.kind.sent)
      else call.phase.reply.body.form
    case _ => shown
  }

  /** The form on the screen, going by what the events since the click on save have put there. */
  ghost function LastPut(rules: Rules, s: System, events: seq<Event>, shown: Option<Form>): Option<Form>
    requires Runs(rules, s, events)
    decreases |events|
  {
    if events == [] then shown
    else LastPut(rules, Apply(rules, s, events[0]), events[1..], Puts(rules, s, events[0], shown))
  }

  /** What the user typed last since the click on save, or else the form that was sent. */
  function LastTyped(sent: Form, events: seq<Event>): Form
    decreases |events|
  {
    if events == [] then sent else LastTyped(if events[0].Edit? then events[0].next else sent, events[1..])
  }

  predicate NothingTakenOver(events: seq<Event>) {
    forall i :: 0 <= i < |events| ==> !events[i].Deliver?
  }

  /** The editor shows what was put there last, and the call stays the same one. */
  lemma {:induction false} ShowsLastPut(rules: Rules, s: System, events: seq<Event>, i: nat)
    requires Runs(rules, s, events) && i < |s.calls|
    ensures var s' := After(rules, s, events);
      && s'.editor.form == LastPut(rules, s, events, s.editor.form)
      && i < |s'.calls| && s'.calls[i].kind == s.calls[i].kind
    decreases |events|
  {
    if events != [] {
      var s' := Apply(rules, s, events[0]);
      assert s'.editor.form == Puts(rules, s, events[0], s.editor.form);
      ShowsLastPut(rules, s', events[1..], i);
    }
  }

  /** As long as no answer is taken over, that is what the user typed. */
  lemma {:induction false} OnlyTheUserTypes(rules: Rules, s: System, events: seq<Event>, shown: Form)
    requires Runs(rules, s, events) && NothingTakenOver(events)
    ensures LastPut(rules, s, events, Some(shown)) == Some(LastTyped(shown, events))
    decreases |events|
  {
    if events != [] {
      OnlyTheUserTypes(rules, Apply(rules, s, events[0]), events[1..], if events[0].Edit? then events[0].next else shown);
    }
  }

  /**
    A save from the click to its answer, on any run, whatever else is typed, asked and answered in
    between: the editor then reports a pin of what the server made of the form sent at the click.
    What was on the screen stays there exactly when the last thing typed or brought by another
    answer since the click, or else the form sent, is what the server made; if no other answer
    came and the server stores what it is sent, exactly when nothing different was typed.
   */
  lemma SaveKeepsTypingExactly(rules: Rules, adId: string, store: Store, before: seq<Event>, between: seq<Event>)
    requires FromOne(store) && Runs(rules, Mounted(adId, store), before)
    requires var m := After(rules, Mounted(adId, store), before);
      && Enabled(rules, m, ClickSave)
      && Runs(rules, Apply(rules, m, ClickSave), between)
      && var s := After(rules, Apply(rules, m, ClickSave), between);
         && Enabled(rules, s, Deliver(|m.calls|))
         && s.calls[|m.calls|].phase.reply.Fine? && PinOf(s.calls[|m.calls|].phase.reply.body).Some?
    ensures var m := After(rules, Mounted(adId, store), before);
      var sent, clicked := m.editor.form.value, Apply(rules, m, ClickSave);
      var s, put := After(rules, clicked, between), LastPut(rules, clicked, between, Some(sent));
      var after := Apply(rules, s, Deliver(|m.calls|)).editor;
      && Reported(after) == Some(Report(true, after.pinnedRevision, rules.parse(sent)))
      && s.editor.form == put
      && (after.form == s.editor.form <==> rules.parse(sent) == put)
      && (NothingTakenOver(between) ==> put == Some(LastTyped(sent, between)))
      && (NothingTakenOver(between) && rules.parse(sent) == Some(sent) ==>
            (after.form == s.editor.form <==> LastTyped(sent, between) == sent))
  {
    var m := After(rules, Mounted(adId, store), before);
    var clicked := Apply(rules, m, ClickSave);
    LatestExplains(rules, Mounted(adId, store), before, Mount);
    EventKeepsShape(rules, m, ClickSave);
    ShowsLastPut(rules, clicked, between, |m.calls|);
    ShapeOverRun(rules, clicked, between);
    if NothingTakenOver(between) {
      OnlyTheUserTypes(rules, clicked, between, m.editor.form.value);
    }
    assert CallShape(rules, After(rules, clicked, between).calls[|m.calls|]);
  }

  lemma {:induction false} ShapeOverRun(rules: Rules, s: System, run: seq<Event>)
    requires Runs(rules, s, run) && Shaped(rules, s)
    ensures Shaped(rules, After(rules, s, run))
    decreases |run|
  {
    if run != [] {
      EventKeepsShape(rules, s, run[0]);
      ShapeOverRun(rules, Apply(rules, s, run[0]), run[1..]);
    }
  }

  function SaveOf(sent: Form, phase: Phase): Call {
    Call(Save(sent), "a", true, phase)
  }

  function TwoDrafts(): Store {
    map[Key("a", 1) := "form", Key("a", 2) := "first"]
  }

  const SECOND_SAVED := Fine(Body(Some("first"), Some(2), Some(true)))

  /** The editor as the user has it, the load behind it, and one save under way. */
  function SavingState(typed: Form, phase: Phase, store: Store): System {
    System(Editor("a", Some(typed), Some(1), Saving, true), "a", [LoadOf("a", Delivered), SaveOf("first", phase)], store)
  }

  lemma SecondDraftStored()
    ensures IsNewest(ONE_DRAFT, "a", 1) && Key("a", 2) !in ONE_DRAFT && ONE_DRAFT[Key("a", 2) := "first"] == TwoDrafts()
  {
  }

  /** From the mount to the click on save, and on while `rest` follows. */
  lemma UpToTheClick(rest: seq<Event>) returns (run: seq<Event>)
    requires Runs(PERMISSIVE, SavingState("first", Sent(0), ONE_DRAFT), rest)
    ensures Runs(PERMISSIVE, Mounted("a", ONE_DRAFT), run)
    ensures After(PERMISSIVE, Mounted("a", ONE_DRAFT), run) == After(PERMISSIVE, SavingState("first", Sent(0), ONE_DRAFT), rest)
    ensures forall ev :: ev in rest ==> ev in run
  {
    OneDraftServed();
    var s0 := Mounted("a", ONE_DRAFT);
    var s1 := System(s0.editor, "a", [LoadOf("a", FIRST_LOADED)], ONE_DRAFT);
    var s2 := System(Editor("a", Some("form"), Some(1), Idle, false), "a", [LoadOf("a", Delivered)], ONE_DRAFT);
    var s3 := System(Editor("a", Some("first"), Some(1), Idle, true), "a", [LoadOf("a", Delivered)], ONE_DRAFT);
    run := rest;
    Prepend(PERMISSIVE, s3, ClickSave, SavingState("first", Sent(0), ONE_DRAFT), run);
    run := [ClickSave] + run;
    Prepend(PERMISSIVE, s2, Edit("first"), s3, run);
    run := [Edit("first")] + run;
    Prepend(PERMISSIVE, s1, Deliver(0), s2, run);
    run := [Deliver(0)] + run;
    Prepend(PERMISSIVE, s0, ServeLoad(0, 1), s1, run);
    run := [ServeLoad(0, 1)] + run;
  }

  /** The server stores the second draft and answers. */
  lemma ServerSaves(typed: Form, rest: seq<Event>) returns (run: seq<Event>)
    requires Runs(PERMISSIVE, SavingState(typed, Answered(SECOND_SAVED), TwoDrafts()), rest)
    ensures Runs(PERMISSIVE, SavingState(typed, Sent(0), ONE_DRAFT), run)
    ensures After(PERMISSIVE, SavingState(typed, Sent(0), ONE_DRAFT), run)
      == After(PERMISSIVE, SavingState(typed, Answered(SECOND_SAVED), TwoDrafts()), rest)
  {
    SecondDraftStored();
    var read := SavingState(typed, HasRead(0, 1), ONE_DRAFT);
    Prepend(PERMISSIVE, read, Insert(1), SavingState(typed, Answered(SECOND_SAVED), TwoDrafts()), rest);
    run := [Insert(1)] + rest;
    Prepend(PERMISSIVE, SavingState(typed, Sent(0), ONE_DRAFT), ReadNewest(1, 1), read, run);
    run := [ReadNewest(1, 1)] + run;
  }

  /** What is left when the answer has been taken over. */
  function SavedState(pinned: Option<nat>): System {
    System(Editor("a", Some("first"), pinned, Idle, false), "a", [LoadOf("a", Delivered), SaveOf("first", Delivered)], TwoDrafts())
  }

  lemma NoSecondForm(s: System)
    requires s.store == TwoDrafts()
    ensures forall k :: k in s.store ==> s.store[k] != "second"
  {
    assert "second"[0] == 's' && "form"[0] == 'f' && "first"[0] == 'f';
  }

  /** A run in which the user types on while a save is under way, and the answer takes that away and reports a pin. */
  lemma TypingIsLost() returns (run: seq<Event>)
    ensures Runs(PERMISSIVE, Mounted("a", ONE_DRAFT), run) && Edit("second") in run
    ensures var s := After(PERMISSIVE, Mounted("a", ONE_DRAFT), run);
      && Reported(s.editor) == Some(Report(true, Some(2), Some("first")))
      && forall k :: k in s.store ==> s.store[k] != "second"
  {
    var rest: seq<Event> := [];
    Prepend(PERMISSIVE, SavingState("second", Answered(SECOND_SAVED), TwoDrafts()), Deliver(1), SavedState(Some(2)), rest);
    rest := [Deliver(1)] + rest;
    rest := ServerSaves("second", rest);
    Prepend(PERMISSIVE, SavingState("first", Sent(0), ONE_DRAFT), Edit("second"), SavingState("second", Sent(0), ONE_DRAFT), rest);
    rest := [Edit("second")] + rest;
    run := UpToTheClick(rest);
    NoSecondForm(SavedState(Some(2)));
  }

  // ----- saves whose answer cannot be read

  /** A form that counts as clean but is not pinned, so that the save button stays disabled. */
  predicate Stuck(e: Editor) {
    e.form.Some? && !e.dirty && e.pinnedRevision.None?
  }

  /** On every run the editor is stuck exactly when the last thing that set its form was an unreadable answer to a save. */
  lemma StuckExactly(rules: Rules, adId: string, store: Store, run: seq<Event>)
    requires Runs(rules, Mounted(adId, store), run)
    ensures var e := After(rules, Mounted(adId, store), run).editor;
      var origin := Latest(rules, Mounted(adId, store), run, Mount);
      && (Stuck(e) <==> origin.Answer? && origin.call.kind.Save? && origin.call.phase == Answered(Fine(NOTHING)))
      && (Stuck(e) ==> e.form == Some(origin.call.kind.sent) && !e.Pinned() && !CanSave(e, rules.valid))
  {
    LatestExplains(rules, Mounted(adId, store), run, Mount);
  }

  /** A run in which the draft is stored, and yet the editor neither reports a pin nor lets the user save. */
  lemma StoredButStuck() returns (run: seq<Event>)
    ensures Runs(PERMISSIVE, Mounted("a", ONE_DRAFT), run)
    ensures var s := After(PERMISSIVE, Mounted("a", ONE_DRAFT), run);
      && Key("a", 2) in s.store && Some(s.store[Key("a", 2)]) == s.editor.form
      && Reported(s.editor) == Some(Report(false, None, Some("first"))) && !CanSave(s.editor, PERMISSIVE.valid)
  {
    var damaged := SavingState("first", Answered(Fine(NOTHING)), TwoDrafts());
    var rest: seq<Event> := [];
    Prepend(PERMISSIVE, damaged, Deliver(1), SavedState(None), rest);
    rest := [Deliver(1)] + rest;
    Prepend(PERMISSIVE, SavingState("first", Answered(SECOND_SAVED), TwoDrafts()), Damage(1, true), damaged, rest);
    rest := [Damage(1, true)] + rest;
    rest := ServerSaves("first", rest);
    run := UpToTheClick(rest);
  }
}
