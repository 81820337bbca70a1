/**
 * frontend/components/CustomAlert.tsx: static helpers that format a title
 * and a message and hand them, with the buttons converted to native alert
 * buttons, to the platform's `Alert.alert`.  That call is foreign; the
 * model stops at its arguments.
 */
module CustomAlert {
  import opened Wrappers
  import opened AlertFormat

  datatype ButtonStyle = Default | Cancel | Destructive

  /** A caller-supplied callback, known only by identity. */
  type Callback = nat

  datatype CustomButton = CustomButton(text: string, onPress: Option<Callback>, style: Option<ButtonStyle>, icon: Option<string>)

  datatype NativeButton = NativeButton(text: string, onPress: Option<Callback>, style: ButtonStyle)

  /** The arguments of `Alert.alert(title, message, buttons, options)`. */
  datatype NativeAlert = NativeAlert(title: string, message: string, buttons: seq<NativeButton>, cancelable: Option<bool>)

  /** A present, non-empty icon: JavaScript treats `''` as absent. */
  predicate HasIcon(b: CustomButton) {
    b.icon.Some? && b.icon.value != []
  }

  /** One element of the `buttons.map(...)`: the icon and a space before the text when there is an icon, style `default` when none is given. */
  function ToNative(b: CustomButton): (n: NativeButton)
    ensures |n.text| >= |b.text| && n.text[|n.text| - |b.text|..] == b.text
    ensures n.text == b.text <==> !HasIcon(b)
    ensures HasIcon(b) ==> |n.text| == |b.icon.value| + 1 + |b.text| && n.text[..|b.icon.value| + 1] == b.icon.value + " "
    ensures n.onPress == b.onPress
    ensures n.style == if b.style.Some? then b.style.value else Default
  {
    var text := if HasIcon(b) then b.icon.value + " " + b.text else b.text;
    assert HasIcon(b) ==> text[..|b.icon.value| + 1] == b.icon.value + " ";
    NativeButton(text, b.onPress, if b.style.Some? then b.style.value else Default)
  }

  /** The whole mapping: same length, same order. */
  function ToNativeButtons(bs: seq<CustomButton>): (ns: seq<NativeButton>)
    ensures |ns| == |bs|
    ensures forall i :: 0 <= i < |bs| ==> ns[i] == ToNative(bs[i])
  {
    if bs == [] then [] else [ToNative(bs[0])] + ToNativeButtons(bs[1..])
  }

  /** `show`: the formatted title and message and the converted buttons; `options` passes through. */
  function Show(title: string, message: string, buttons: seq<CustomButton>, cancelable: Option<bool>): (a: NativeAlert)
    ensures a.title == FormatTitle(title) && a.message == FormatMessage(message)
    ensures |a.buttons| == |buttons| && a.cancelable == cancelable
  {
    NativeAlert(FormatTitle(title), FormatMessage(message), ToNativeButtons(buttons), cancelable)
  }

  function SuccessButtons(onOk: Option<Callback>): seq<CustomButton> {
    [CustomButton("Tuyệt vời!", onOk, None, Some("👍"))]
  }

  function ErrorButtons(onOk: Option<Callback>): seq<CustomButton> {
    [CustomButton("Đã hiểu", onOk, None, Some("😞"))]
  }

  function ConfirmButtons(onConfirm: Callback, onCancel: Option<Callback>, confirmText: string, cancelText: string)
    : seq<CustomButton>
  {
    [CustomButton(cancelText, onCancel, Some(Cancel), Some("❌")),
     CustomButton(confirmText, Some(onConfirm), None, Some("✅"))]
  }

  /** `success` shows one default-styled `👍 Tuyệt vời!` button that runs `onOk`. */
  lemma SuccessAlert(title: string, message: string, onOk: Option<Callback>)
    ensures var a := Show(title, message, SuccessButtons(onOk), None);
      a.buttons == [NativeButton("👍 Tuyệt vời!", onOk, Default)]
  {
    var b := SuccessButtons(onOk)[0];
    assert HasIcon(b);
    assert "👍" + " " + "Tuyệt vời!" == "👍 Tuyệt vời!";
    assert ToNativeButtons(SuccessButtons(onOk)) == [ToNative(b)];
  }

  /** `error` shows one default-styled `😞 Đã hiểu` button that runs `onOk`. */
  lemma ErrorAlert(title: string, message: string, onOk: Option<Callback>)
    ensures var a := Show(title, message, ErrorButtons(onOk), None);
      a.buttons == [NativeButton("😞 Đã hiểu", onOk, Default)]
  {
    var b := ErrorButtons(onOk)[0];
    assert HasIcon(b);
    assert "😞" + " " + "Đã hiểu" == "😞 Đã hiểu";
    assert ToNativeButtons(ErrorButtons(onOk)) == [ToNative(b)];
  }

  /** `confirm` shows the cancel button, styled `cancel`, first and the confirm button second. */
  lemma ConfirmAlert(title: string, message: string, onConfirm: Callback, onCancel: Option<Callback>,
                     confirmText: string, cancelText: string)
    ensures var a := Show(title, message, ConfirmButtons(onConfirm, onCancel, confirmText, cancelText), None);
      a.buttons == [NativeButton("❌ " + cancelText, onCancel, Cancel),
                    NativeButton("✅ " + confirmText, Some(onConfirm), Default)]
  {
    var bs := ConfirmButtons(onConfirm, onCancel, confirmText, cancelText);
    assert HasIcon(bs[0]) && HasIcon(bs[1]);
    assert "❌" + " " + cancelText == "❌ " + cancelText;
    assert "✅" + " " + confirmText == "✅ " + confirmText;
    assert ToNativeButtons(bs) == [ToNative(bs[0]), ToNative(bs[1])];
  }
}
