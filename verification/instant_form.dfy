/** The instant form editor: responses that overwrite its state as they arrive, and what it reports. */
module InstantForm {
  import opened Prelude

  /** The text of a form as the server stores it. */
  type Form = string

  datatype Status = Loading | Idle | Generating | Saving

  /** The fields of a response that the editor reads. */
  datatype Body = Body(form: Option<Form>, revision: Option<nat>, pinned: Option<bool>)

  /** What an unreadable body counts as. */
  const NOTHING := Body(None, None, None)

  datatype Reply = Fine(body: Body) | Failed

  datatype Editor = Editor(adId: string, form: Option<Form>, pinnedRevision: Option<nat>, status: Status, dirty: bool) {
    predicate Pinned() {
      pinnedRevision.Some? && !dirty
    }
  }

  datatype Report = Report(pinned: bool, revision: Option<nat>, form: Option<Form>)

  /** Nothing is reported while a load is in flight. */
  function Reported(e: Editor): Option<Report> {
    if e.status == Loading then None
    else Some(Report(e.Pinned(), if e.Pinned() then e.pinnedRevision else None, e.form))
  }

  function PinOf(b: Body): Option<nat> {
    if b.pinned == Some(false) then None else b.revision
  }

  function AfterLoad(e: Editor, reply: Reply): Editor {
    match reply
    case Failed => e.(status := Idle)
    case Fine(b) => e.(form := b.form, pinnedRevision := PinOf(b), dirty := false, status := Idle)
  }

  function AfterGenerate(e: Editor, reply: Reply): Editor {
    match reply
    case Failed => e.(status := Idle)
    case Fine(b) => e.(form := b.form, pinnedRevision := None, dirty := true, status := Idle)
  }

  /** `sent` is the form that the request captured. */
  function AfterSave(e: Editor, sent: Form, reply: Reply): Editor {
    match reply
    case Failed => e.(status := Idle)
    case Fine(b) =>
      e.(form := if b.form.Some? then b.form else Some(sent), pinnedRevision := PinOf(b), dirty := b.pinned == Some(false), status := Idle)
  }

  function AfterUpdate(e: Editor, next: Form): Editor {
    e.(form := Some(next), dirty := true)
  }

  /** Fields can be edited when they are shown. */
  predicate CanUpdate(e: Editor) {
    e.status != Loading && e.form.Some?
  }

  predicate CanGenerate(e: Editor) {
    e.status != Loading && e.status != Generating
  }

  /** The save button is shown and enabled; `valid` is the client's own check. */
  predicate CanSave(e: Editor, valid: Form -> bool) {
    e.status != Loading && e.status != Saving && e.dirty && e.form.Some? && valid(e.form.value)
  }

  class InstantFormEditor {
    var adId: string
    var form: Option<Form>
    var pinnedRevision: Option<nat>
    var status: Status
    var dirty: bool

    function State(): Editor
      reads this
    {
      Editor(adId, form, pinnedRevision, status, dirty)
    }

    /** Mounting starts the first load. */
    constructor (adId: string)
      ensures State() == Editor(adId, None, None, Loading, false)
    {
      this.adId := adId;
      form, pinnedRevision, status, dirty := None, None, Loading, false;
    }

    /** A new ad starts a load and leaves everything else as it is. */
    method SwitchAd(next: string)
      modifies this`adId, this`status
      ensures State() == old(State()).(adId := next, status := Loading)
    {
      adId := next;
      status := Loading;
    }

    method OnLoaded(reply: Reply)
      modifies this
      ensures State() == AfterLoad(old(State()), reply)
      ensures adId == old(adId) && status == Idle
      ensures reply.Failed? ==> form == old(form) && pinnedRevision == old(pinnedRevision) && dirty == old(dirty)
      ensures reply.Fine? ==> form == reply.body.form && !dirty
      ensures reply.Fine? ==> pinnedRevision == if reply.body.pinned == Some(false) then None else reply.body.revision
    {
      if reply.Fine? {
        form := reply.body.form;
        pinnedRevision := if reply.body.pinned == Some(false) then None else reply.body.revision;
        dirty := false;
      }
      status := Idle;
    }

    method OnGenerated(reply: Reply)
      modifies this
      ensures State() == AfterGenerate(old(State()), reply)
      ensures adId == old(adId) && status == Idle
      ensures reply.Failed? ==> form == old(form) && pinnedRevision == old(pinnedRevision) && dirty == old(dirty)
      ensures reply.Fine? ==> form == reply.body.form && pinnedRevision.None? && dirty
    {
      if reply.Fine? {
        form := reply.body.form;
        pinnedRevision := None;
        dirty := true;
      }
      status := Idle;
    }

    method OnSaved(sent: Form, reply: Reply)
      modifies this
      ensures State() == AfterSave(old(State()), sent, reply)
      ensures adId == old(adId) && status == Idle
      ensures reply.Failed? ==> form == old(form) && pinnedRevision == old(pinnedRevision) && dirty == old(dirty)
      ensures reply.Fine? ==> form == if reply.body.form.Some? then reply.body.form else Some(sent)
      ensures reply.Fine? ==> (dirty <==> reply.body.pinned == Some(false))
      ensures reply.Fine? ==> pinnedRevision == if dirty then None else reply.body.revision
    {
      if reply.Fine? {
        form := if reply.body.form.Some? then reply.body.form else Some(sent);
        pinnedRevision := if reply.body.pinned == Some(false) then None else reply.body.revision;
        dirty := reply.body.pinned == Some(false);
      }
      status := Idle;
    }

    method Update(next: Form)
      modifies this`form, this`dirty
      ensures State() == AfterUpdate(old(State()), next)
      ensures form == Some(next) && dirty && pinnedRevision == old(pinnedRevision) && status == old(status)
    {
      form := Some(next);
      dirty := true;
    }
  }

  // ----- the editor, the requests under way and the stored drafts

  datatype Key = Key(adId: string, revision: nat)

  type Store = map<Key, Form>

  datatype Kind = Load | Generate | Save(sent: Form)

  /** How far the server is with a request. A pin reads the newest revision and then inserts, three times at most. */
  datatype Phase =
    | Sent(attempt: nat)
    | HasRead(attempt: nat, newest: nat)
    | Answered(reply: Reply)
    | Delivered

  /** A request by this editor, or a save by another one. */
  datatype Call = Call(kind: Kind, adId: string, mine: bool, phase: Phase)

  const PIN_ATTEMPTS := 3

  /** `shownFor` is the ad whose response the editor last took over. */
  datatype System = System(editor: Editor, shownFor: string, calls: seq<Call>, store: Store)

  /** The client's check, and the server's: the form it would store, or nothing when it refuses. */
  datatype Rules = Rules(valid: Form -> bool, parse: Form -> Option<Form>)

  datatype Event =
    | Edit(next: Form)
    | ClickGenerate
    | ClickSave
    | ChangeAd(adId: string)
    | OtherSaves(adId: string, form: Form)
    | ServeLoad(call: nat, newest: nat)
    | ServeGenerate(call: nat, form: Form)
    | ReadNewest(call: nat, newest: nat)
    | Insert(call: nat)
    | Fail(call: nat)
    | Damage(call: nat, readable: bool)
    | Deliver(call: nat)

  /** The newest revision of an ad, or zero. */
  ghost predicate IsNewest(store: Store, adId: string, newest: nat) {
    && (newest == 0 || Key(adId, newest) in store)
    && forall k :: k in store && k.adId == adId ==> k.revision <= newest
  }

  ghost predicate Enabled(rules: Rules, s: System, ev: Event) {
    match ev
    case Edit(_) => CanUpdate(s.editor)
    case ClickGenerate => CanGenerate(s.editor)
    case ClickSave => CanSave(s.editor, rules.valid)
    case ChangeAd(adId) => adId != s.editor.adId
    case OtherSaves(_, _) => true
    case ServeLoad(i, newest) =>
      i < |s.calls| && s.calls[i].kind.Load? && s.calls[i].phase.Sent? && IsNewest(s.store, s.calls[i].adId, newest)
    case ServeGenerate(i, _) => i < |s.calls| && s.calls[i].kind.Generate? && s.calls[i].phase.Sent?
    case ReadNewest(i, newest) =>
      && i < |s.calls| && s.calls[i].kind.Save? && s.calls[i].phase.Sent?
      && rules.parse(s.calls[i].kind.sent).Some? && IsNewest(s.store, s.calls[i].adId, newest)
    case Insert(i) =>
      i < |s.calls| && s.calls[i].kind.Save? && s.calls[i].phase.HasRead? && rules.parse(s.calls[i].kind.sent).Some?
    case Fail(i) => i < |s.calls| && (s.calls[i].phase.Sent? || s.calls[i].phase.HasRead?)
    case Damage(i, _) => i < |s.calls| && s.calls[i].phase.Answered?
    case Deliver(i) => i < |s.calls| && s.calls[i].phase.Answered? && s.calls[i].mine
  }

  function Move(s: System, i: nat, phase: Phase): System
    requires i < |s.calls|
  {
    s.(calls := s.calls[i := s.calls[i].(phase := phase)])
  }

  function Ask(s: System, e: Editor, kind: Kind): System {
    s.(editor := e, calls := s.calls + [Call(kind, e.adId, true, Sent(0))])
  }

  /** The row that a GET answers with. */
  function LoadedBody(store: Store, adId: string, newest: nat): Body {
    if Key(adId, newest) in store then Body(Some(store[Key(adId, newest)]), Some(newest), None) else NOTHING
  }

  /** An insert succeeds only under a fresh key; otherwise the pin starts again, or gives up. */
  function InsertRow(s: System, i: nat, parsed: Form): System
    requires i < |s.calls| && s.calls[i].phase.HasRead?
  {
    var call := s.calls[i];
    var key := Key(call.adId, call.phase.newest + 1);
    if key !in s.store then
      Move(s.(store := s.store[key := parsed]), i, Answered(Fine(Body(Some(parsed), Some(key.revision), Some(true)))))
    else Move(s, i, if call.phase.attempt + 1 < PIN_ATTEMPTS then Sent(call.phase.attempt + 1) else Answered(Failed))
  }

  function Take(e: Editor, kind: Kind, reply: Reply): Editor {
    match kind
    case Load => AfterLoad(e, reply)
    case Generate => AfterGenerate(e, reply)
    case Save(sent) => AfterSave(e, sent, reply)
  }

  function DeliverCall(s: System, i: nat): System
    requires i < |s.calls| && s.calls[i].phase.Answered?
  {
    var call := s.calls[i];
    var reply := call.phase.reply;
    Move(s, i, Delivered).(editor := Take(s.editor, call.kind, reply), shownFor := if reply.Fine? then call.adId else s.shownFor)
  }

  ghost function Apply(rules: Rules, s: System, ev: Event): System
    requires Enabled(rules, s, ev)
  {
    match ev
    case Edit(next) => s.(editor := AfterUpdate(s.editor, next))
    case ClickGenerate => Ask(s, s.editor.(status := Generating), Generate)
    case ClickSave => Ask(s, s.editor.(status := Saving), Save(s.editor.form.value))
    case ChangeAd(adId) => Ask(s, s.editor.(adId := adId, status := Loading), Load)
    case OtherSaves(adId, form) => s.(calls := s.calls + [Call(Save(form), adId, false, Sent(0))])
    case ServeLoad(i, newest) => Move(s, i, Answered(Fine(LoadedBody(s.store, s.calls[i].adId, newest))))
    case ServeGenerate(i, form) => Move(s, i, Answered(Fine(Body(Some(form), None, None))))
    case ReadNewest(i, newest) => Move(s, i, HasRead(s.calls[i].phase.attempt, newest))
    case Insert(i) => InsertRow(s, i, rules.parse(s.calls[i].kind.sent).value)
    case Fail(i) => Move(s, i, Answered(Failed))
    case Damage(i, readable) => Move(s, i, Answered(if readable then Fine(NOTHING) else Failed))
    case Deliver(i) => DeliverCall(s, i)
  }

  /** The editor as it is mounted. */
  function Mounted(adId: string, store: Store): System {
    System(Editor(adId, None, None, Loading, false), adId, [Call(Load, adId, true, Sent(0))], store)
  }

  ghost predicate Runs(rules: Rules, s: System, run: seq<Event>)
    decreases |run|
  {
    run != [] ==> Enabled(rules, s, run[0]) && Runs(rules, Apply(rules, s, run[0]), run[1..])
  }

  ghost function After(rules: Rules, s: System, run: seq<Event>): System
    requires Runs(rules, s, run)
    decreases |run|
  {
    if run == [] then s else After(rules, Apply(rules, s, run[0]), run[1..])
  }
}
