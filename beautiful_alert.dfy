/**
 * The alert singleton of frontend/components/BeautifulAlert.tsx and the
 * button and backdrop handlers of its provider.  The manager keeps the
 * registered state setter, and the state it writes through that setter is
 * held here as the `state` field.  The callbacks that buttons carry are
 * foreign code: they appear as opaque handles, and running one appends it
 * to `ran`.
 */
module BeautifulAlert {
  import opened Wrappers
  import opened AlertFormat

  datatype ButtonStyle = Primary | Secondary | Danger | Success

  /** A caller-supplied callback, known only by identity. */
  type Callback = nat

  /** A button's `onPress`: the caller's callback as given, or a wrapper that runs an optional callback and then hides. */
  datatype Action = Run(callback: Callback) | RunThenHide(before: Option<Callback>)

  datatype AlertButton = AlertButton(text: string, onPress: Option<Action>, style: Option<ButtonStyle>)

  datatype AlertState = AlertState(
    visible: bool, title: string, message: string, buttons: seq<AlertButton>, showCloseButton: bool)

  /** The state `hide` writes, and the provider's initial state. */
  const Hidden := AlertState(false, "", "", [], true)

  /** The default button of an alert shown without any. */
  const OkButton := AlertButton("OK", None, Some(Primary))

  /** `buttons.length > 0 ? buttons : [OK]` */
  function FinalButtons(buttons: seq<AlertButton>): (r: seq<AlertButton>)
    ensures |r| >= 1
    ensures buttons != [] ==> r == buttons
    ensures buttons == [] ==> r == [OkButton]
  {
    if |buttons| > 0 then buttons else [OkButton]
  }

  /** The state `show` writes. */
  function Shown(title: string, message: string, buttons: seq<AlertButton>, showCloseButton: Option<bool>): (st: AlertState)
    ensures st.visible && |st.buttons| >= 1
    ensures st.title == FormatTitle(title) && st.message == FormatMessage(message)
    ensures st.showCloseButton <==> showCloseButton != Some(false)
  {
    AlertState(true, FormatTitle(title), FormatMessage(message), FinalButtons(buttons), showCloseButton != Some(false))
  }

  /** `success`: one button, which runs `onOk` if there is one and otherwise just closes. */
  function SuccessButtons(onOk: Option<Callback>): (bs: seq<AlertButton>)
    ensures |bs| == 1 && bs[0].style == Some(ButtonStyle.Success)
    ensures bs[0].onPress.Some? <==> onOk.Some?
  {
    [AlertButton("Tuyệt vời! 👍", if onOk.Some? then Some(Run(onOk.value)) else None, Some(ButtonStyle.Success))]
  }

  /** `error`: one button, like `success` but styled as danger. */
  function ErrorButtons(onOk: Option<Callback>): (bs: seq<AlertButton>)
    ensures |bs| == 1 && bs[0].style == Some(Danger)
    ensures bs[0].onPress.Some? <==> onOk.Some?
  {
    [AlertButton("Đã hiểu 😞", if onOk.Some? then Some(Run(onOk.value)) else None, Some(Danger))]
  }

  /** `confirm`: cancel first, then confirm; each runs its callback and then hides. */
  function ConfirmButtons(onConfirm: Callback, onCancel: Option<Callback>, confirmText: string, cancelText: string)
    : (bs: seq<AlertButton>)
    ensures |bs| == 2
    ensures bs[0].text == cancelText + " ❌" && bs[0].style == Some(Secondary)
    ensures bs[0].onPress == Some(RunThenHide(onCancel))
    ensures bs[1].text == confirmText + " ✅" && bs[1].style == Some(Primary)
    ensures bs[1].onPress == Some(RunThenHide(Some(onConfirm)))
  {
    [AlertButton(cancelText + " ❌", Some(RunThenHide(onCancel)), Some(Secondary)),
     AlertButton(confirmText + " ✅", Some(RunThenHide(Some(onConfirm))), Some(Primary))]
  }

  /** The confirm dialog's default labels. */
  const DefaultConfirmText := "Xác nhận"
  const DefaultCancelText := "Hủy"

  class AlertManager {
    /** Whether the provider has registered its state setter. */
    var hasSetter: bool
    /** The provider's alert state, written only through the setter. */
    var state: AlertState
    /** The caller callbacks run so far, oldest first. */
    var ran: seq<Callback>

    /** A visible alert always offers at least one button. */
    predicate Valid()
      reads this
    {
      state.visible ==> |state.buttons| >= 1
    }

    /** The manager before the provider mounts: no setter, the provider's initial state. */
    constructor ()
      ensures Valid() && !hasSetter && state == Hidden && ran == []
    {
      hasSetter := false;
      state := Hidden;
      ran := [];
    }

    /** `setStateManager`, called once the provider mounts. */
    method SetStateManager()
      modifies this`hasSetter
      ensures hasSetter
    {
      hasSetter := true;
    }

    /** `show`: nothing without a setter; otherwise a visible alert, with the default button when none is given. */
    method Show(title: string, message: string, buttons: seq<AlertButton>, showCloseButton: Option<bool>)
      requires Valid()
      modifies this`state
      ensures Valid()
      ensures !hasSetter ==> state == old(state)
      ensures hasSetter ==> state == Shown(title, message, buttons, showCloseButton)
    {
      if !hasSetter {
        return;
      }
      state := Shown(title, message, buttons, showCloseButton);
    }

    /** `hide`: nothing without a setter; otherwise back to the hidden, empty state. */
    method Hide()
      requires Valid()
      modifies this`state
      ensures Valid()
      ensures state == if hasSetter then Hidden else old(state)
    {
      if !hasSetter {
        return;
      }
      state := Hidden;
    }

    method ShowSuccess(title: string, message: string, onOk: Option<Callback>)
      requires Valid()
      modifies this`state
      ensures Valid()
      ensures state == if hasSetter then Shown(title, message, SuccessButtons(onOk), None) else old(state)
    {
      Show(title, message, SuccessButtons(onOk), None);
    }

    method ShowError(title: string, message: string, onOk: Option<Callback>)
      requires Valid()
      modifies this`state
      ensures Valid()
      ensures state == if hasSetter then Shown(title, message, ErrorButtons(onOk), None) else old(state)
    {
      Show(title, message, ErrorButtons(onOk), None);
    }

    method ShowConfirm(title: string, message: string, onConfirm: Callback, onCancel: Option<Callback>,
                       confirmText: string, cancelText: string)
      requires Valid()
      modifies this`state
      ensures Valid()
      ensures state == if hasSetter then Shown(title, message, ConfirmButtons(onConfirm, onCancel, confirmText, cancelText), None)
                       else old(state)
    {
      Show(title, message, ConfirmButtons(onConfirm, onCancel, confirmText, cancelText), None);
    }

    /**
     * The provider's `handleButtonPress`: a button without `onPress` hides the
     * alert; otherwise its action runs, which for the wrapped actions of
     * `confirm` means the callback (if any) and then `hide`.
     */
    method PressButton(button: AlertButton)
      requires Valid()
      modifies this`state, this`ran
      ensures Valid()
      ensures button.onPress.None? ==> ran == old(ran) && state == (if hasSetter then Hidden else old(state))
      ensures button.onPress.Some? && button.onPress.value.Run? ==>
        ran == old(ran) + [button.onPress.value.callback] && state == old(state)
      ensures button.onPress.Some? && button.onPress.value.RunThenHide? ==>
        && ran == old(ran) + (if button.onPress.value.before.Some? then [button.onPress.value.before.value] else [])
        && state == (if hasSetter then Hidden else old(state))
    {
      if button.onPress.None? {
        Hide();
        return;
      }
      match button.onPress.value
      case Run(callback) =>
        ran := ran + [callback];
      case RunThenHide(before) =>
        if before.Some? {
          ran := ran + [before.value];
        }
        Hide();
    }

    /** The provider's `handleBackdropPress`: hides only an alert that allows closing. */
    method BackdropPress()
      requires Valid()
      modifies this`state
      ensures Valid()
      ensures state == if old(state).showCloseButton && hasSetter then Hidden else old(state)
    {
      if state.showCloseButton {
        Hide();
      }
    }
  }

  /** Pressing the button of an alert shown by `success` without a callback closes it again. */
  method SuccessThenOk(m: AlertManager, title: string, message: string)
    requires m.Valid() && m.hasSetter
    modifies m
    ensures m.Valid() && m.state == Hidden && m.ran == old(m.ran)
  {
    m.ShowSuccess(title, message, None);
    assert m.state.buttons == SuccessButtons(None);
    m.PressButton(m.state.buttons[0]);
  }

  /** A `confirm` dialog answered with its confirm button runs exactly the confirm callback and closes. */
  method ConfirmThenAccept(m: AlertManager, title: string, message: string, onConfirm: Callback, onCancel: Option<Callback>)
    requires m.Valid() && m.hasSetter
    modifies m
    ensures m.Valid() && m.state == Hidden && m.ran == old(m.ran) + [onConfirm]
  {
    m.ShowConfirm(title, message, onConfirm, onCancel, DefaultConfirmText, DefaultCancelText);
    m.PressButton(m.state.buttons[1]);
  }

  /** Every shown alert can be closed from its backdrop unless `showCloseButton: false` was passed. */
  lemma ShownClosable(title: string, message: string, buttons: seq<AlertButton>, showCloseButton: Option<bool>)
    ensures Shown(title, message, buttons, showCloseButton).showCloseButton <==> showCloseButton != Some(false)
    ensures Hidden.showCloseButton
  {
  }
}
