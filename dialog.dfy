/** Dialog navigation (`Format3AHandler`): which answer of the menu
    interpreter's current step a reply from the client selects, and
    clearing a finished interpreter (`MenuInterpter_OnMovedToNextStep`).
    The interpreter's own `Move` and `Start` are not part of this model;
    a move is reported by the id of the answer it is given. */
module Dialog {
  import opened Common

  /** An answer of a menu step; `text` is `None` for an answer without text. */
  datatype Answer = Answer(id: int, text: Option<string>)

  datatype MenuStep = MenuStep(answers: seq<Answer>)

  /** The parts of the menu interpreter the handler reads. */
  datatype Interpreter = Interpreter(current: Option<MenuStep>, isFinished: bool)

  datatype DialogAction =
    | NoAction
    | CloseDialog
    | Move(answerId: int)
    | Fault          // the current step is missing where the handler does not check it

  /** The position of the first answer with `text` (`FirstOrDefault`). */
  function FirstAnswer(answers: seq<Answer>, text: Option<string>): (r: Option<nat>)
    ensures r.Some? ==> r.value < |answers| && answers[r.value].text == text
    ensures r.Some? ==> forall j :: 0 <= j < r.value ==> answers[j].text != text
    ensures r.None? ==> forall j :: 0 <= j < |answers| ==> answers[j].text != text
  {
    FirstIndex(answers, (a: Answer) => a.text == text)
  }

  predicate HasAnswer(step: MenuStep, text: Option<string>) {
    exists j :: 0 <= j < |step.answers| && step.answers[j].text == text
  }

  /** The move to the first answer with `text`, or nothing when there is none. */
  function MoveTo(step: MenuStep, text: Option<string>): DialogAction {
    match FirstAnswer(step.answers, text)
    case None => NoAction
    case Some(i) => Move(step.answers[i].id)
  }

  /** The reply to the dialog the client has open: `step` is the client's
      step code, `serial` the id of the object the dialog belongs to, and
      `target` whether that id names a merchant or a popup. */
  function Respond(step: nat, scriptId: nat, serial: int, target: bool, menu: Option<Interpreter>): (a: DialogAction)
    ensures a == CloseDialog ==> step == 0 || step == 2
    ensures a.Move? ==> Engaged(step, scriptId, serial, target, menu) && menu.value.current.Some? && (step == 1 || step > 2)
    ensures a.Fault? ==> Engaged(step, scriptId, serial, target, menu) && menu.value.current.None? && (step == 1 || step > 2)
  {
    if step == 0 && scriptId == 0xFFFF then CloseDialog
    else if !(0 < serial < 0x7FFF_FFFF) || !target || menu.None? then NoAction
    else
      var current := menu.value.current;
      if step > 2 then
        if current.None? then Fault else MoveTo(current.value, Some("back"))
      else if step == 1 then
        if current.None? then Fault
        else if HasAnswer(current.value, Some("next")) then MoveTo(current.value, Some("next"))
        else if HasAnswer(current.value, None) then MoveTo(current.value, None)
        else MoveTo(current.value, Some("complete"))
      else
        if current.Some? && HasAnswer(current.value, Some("close")) then CloseDialog else NoAction
  }

  /** The dialog is open on an existing merchant or popup with an interpreter. */
  predicate Engaged(step: nat, scriptId: nat, serial: int, target: bool, menu: Option<Interpreter>) {
    !(step == 0 && scriptId == 0xFFFF) && 0 < serial < 0x7FFF_FFFF && target && menu.Some?
  }

  /** Whether `a` moves to the first answer of `step` that has `text`. */
  predicate MovesToFirst(a: DialogAction, step: MenuStep, text: Option<string>) {
    exists i :: 0 <= i < |step.answers| && step.answers[i].text == text && a == Move(step.answers[i].id) &&
      forall j :: 0 <= j < i ==> step.answers[j].text != text
  }

  /** The step codes select disjoint rules:
      - step 0 with script id 0xFFFF closes the dialog;
      - without a target or an interpreter, nothing happens;
      - step above 2 moves to the first "back" answer;
      - step 1 moves to the first "next", else the first answer without
        text, else the first "complete";
      - step 0 or 2 closes exactly when a "close" answer exists;
      - with no matching answer nothing moves. */
  lemma RespondRules(step: nat, scriptId: nat, serial: int, target: bool, menu: Option<Interpreter>)
    ensures step == 0 && scriptId == 0xFFFF ==> Respond(step, scriptId, serial, target, menu) == CloseDialog
    ensures !(step == 0 && scriptId == 0xFFFF) && !Engaged(step, scriptId, serial, target, menu) ==>
              Respond(step, scriptId, serial, target, menu) == NoAction
    ensures Engaged(step, scriptId, serial, target, menu) && menu.value.current.Some? && step > 2 ==>
              var s := menu.value.current.value;
              (HasAnswer(s, Some("back")) ==> MovesToFirst(Respond(step, scriptId, serial, target, menu), s, Some("back"))) &&
              (!HasAnswer(s, Some("back")) ==> Respond(step, scriptId, serial, target, menu) == NoAction)
    ensures Engaged(step, scriptId, serial, target, menu) && menu.value.current.Some? && step == 1 ==>
              var s := menu.value.current.value;
              var a := Respond(step, scriptId, serial, target, menu);
              (HasAnswer(s, Some("next")) ==> MovesToFirst(a, s, Some("next"))) &&
              (!HasAnswer(s, Some("next")) && HasAnswer(s, None) ==> MovesToFirst(a, s, None)) &&
              (!HasAnswer(s, Some("next")) && !HasAnswer(s, None) && HasAnswer(s, Some("complete")) ==>
                 MovesToFirst(a, s, Some("complete"))) &&
              (!HasAnswer(s, Some("next")) && !HasAnswer(s, None) && !HasAnswer(s, Some("complete")) ==> a == NoAction)
    ensures Engaged(step, scriptId, serial, target, menu) && (step == 0 || step == 2) ==>
              var a := Respond(step, scriptId, serial, target, menu);
              (a == CloseDialog <==> menu.value.current.Some? && HasAnswer(menu.value.current.value, Some("close"))) &&
              (a != CloseDialog ==> a == NoAction)
    ensures Respond(step, scriptId, serial, target, menu).Fault? <==>
              Engaged(step, scriptId, serial, target, menu) && menu.value.current.None? && (step == 1 || step > 2)
  {
  }

  /** Every move names an answer of the current step that carries one of
      the reserved texts of its step code. */
  lemma MoveNamesAnswer(step: nat, scriptId: nat, serial: int, target: bool, menu: Option<Interpreter>)
    requires Respond(step, scriptId, serial, target, menu).Move?
    ensures menu.Some? && menu.value.current.Some?
    ensures var s := menu.value.current.value;
            exists i :: 0 <= i < |s.answers| && s.answers[i].id == Respond(step, scriptId, serial, target, menu).answerId &&
              (if step > 2 then s.answers[i].text == Some("back")
               else step == 1 && s.answers[i].text in {Some("next"), None, Some("complete")})
  {
  }

  /** The client's dialog state. */
  class MenuSession {
    var interpreter: Option<Interpreter>

    constructor (interpreter: Option<Interpreter>)
      ensures this.interpreter == interpreter
    {
      this.interpreter := interpreter;
    }

    /** `MenuInterpter_OnMovedToNextStep`: a finished interpreter is dropped. */
    method OnMovedToNextStep()
      modifies this
      ensures old(interpreter).Some? && old(interpreter).value.isFinished ==> interpreter.None?
      ensures !(old(interpreter).Some? && old(interpreter).value.isFinished) ==> interpreter == old(interpreter)
    {
      if interpreter.None? {
        return;
      }
      if interpreter.value.isFinished {
        interpreter := None;
      }
    }
  }
}
